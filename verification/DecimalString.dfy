/** Money amounts as decimal strings: exact, and one string per number. */
module DecimalString {
  import opened Types
  import opened Canonical
  import opened Reader

  /** A finite decimal: (-1)^negative * coefficient * 10^exponent. */
  datatype Decimal = Decimal(negative: bool, coefficient: nat, exponent: int)

  function Pow10(k: nat): nat {
    if k == 0 then 1 else 10 * Pow10(k - 1)
  }

  function Zeros(k: nat): string {
    seq(k, _ => '0')
  }

  // ----- The rendering -----

  /** `format(d, "f")` of the magnitude: plain notation, never rounded. */
  function Plain(d: Decimal): string {
    var digits := Digits(d.coefficient);
    var dot := |digits| + d.exponent;
    if dot < 0 then "0." + Zeros(-dot) + digits
    else if dot > |digits| then digits + Zeros(dot - |digits|)
    else
      var whole := if dot == 0 then "0" else digits[..dot];
      if dot == |digits| then whole else whole + "." + digits[dot..]
  }

  function StripRight(t: string, c: char): string {
    if t != "" && t[|t| - 1] == c then StripRight(t[..|t| - 1], c) else t
  }

  function Render(d: Decimal): string {
    if d.coefficient == 0 then "0"
    else
      var plain := Plain(d);
      (if d.negative then "-" else "") +
      (if '.' in plain then StripRight(StripRight(plain, '0'), '.') else plain)
  }

  /** The decimal a plain decimal string denotes. */
  function ReadDecimal(t: string): Option<Decimal> {
    if t != "" && t[0] == '-'
    then (match ReadMagnitude(t[1..]) case None => None case Some((n, f)) => Some(Decimal(true, n, 0 - f)))
    else (match ReadMagnitude(t) case None => None case Some((n, f)) => Some(Decimal(false, n, 0 - f)))
  }

  /** All digits read as one number, and how many of them follow the point. */
  function ReadMagnitude(t: string): Option<(nat, nat)> {
    var k := DigitCount(t);
    DigitCountAll(t);
    if k == 0 then None
    else if k == |t| then Some((NatOf(t), 0))
    else if t[k] != '.' then None
    else
      var frac := t[k + 1..];
      DigitCountAll(frac);
      if frac != "" && DigitCount(frac) == |frac| then Some((NatOf(t[..k] + frac), |frac|)) else None
  }

  /** Same number: the coefficients agree once brought to the smaller exponent. */
  predicate SameNumber(a: Decimal, b: Decimal) {
    && a.coefficient * Pow10(Lift(a.exponent, b.exponent)) == b.coefficient * Pow10(Lift(b.exponent, a.exponent))
    && (a.negative == b.negative || a.coefficient == 0 || b.coefficient == 0)
  }

  function Lift(e: int, f: int): nat {
    if e > f then e - f else 0
  }

  // ----- Fixed-point text of n / 10^f -----

  function Padded(n: nat, f: nat): string {
    var digits := Digits(n);
    if |digits| <= f then Zeros(f + 1 - |digits|) + digits else digits
  }

  function Fixed(n: nat, f: nat): string {
    var p := Padded(n, f);
    if f == 0 then p else p[..|p| - f] + "." + p[|p| - f..]
  }

  function Trimmed(n: nat, f: nat): (nat, nat) {
    if f > 0 && n % 10 == 0 then Trimmed(n / 10, f - 1) else (n, f)
  }

  lemma PowersAdd(a: nat, b: nat)
    ensures Pow10(a + b) == Pow10(a) * Pow10(b) && Pow10(a) > 0
  {
    if a > 0 {
      PowersAdd(a - 1, b);
      assert Pow10(a + b) == 10 * Pow10(a - 1 + b);
      assert 10 * (Pow10(a - 1) * Pow10(b)) == (10 * Pow10(a - 1)) * Pow10(b);
    }
  }

  lemma TimesTen(n: nat, k: nat)
    ensures n * Pow10(k + 1) == (n * Pow10(k)) * 10
  {
    assert n * (10 * Pow10(k)) == (n * Pow10(k)) * 10;
  }

  lemma {:induction false} DigitsOfTenfold(m: nat)
    requires m > 0
    ensures Digits(m * 10) == Digits(m) + "0"
  {
  }

  lemma {:induction false} ShiftedDigits(n: nat, k: nat)
    requires n > 0
    ensures n * Pow10(k) > 0 && Digits(n * Pow10(k)) == Digits(n) + Zeros(k)
  {
    if k == 0 {
      assert n * Pow10(0) == n;
    } else {
      ShiftedDigits(n, k - 1);
      TimesTen(n, k - 1);
      DigitsOfTenfold(n * Pow10(k - 1));
      assert Digits(n) + Zeros(k) == Digits(n) + Zeros(k - 1) + "0";
    }
  }

  /** The magnitude as a numerator over a power of ten. */
  function Scaled(d: Decimal): (nat, nat) {
    if d.exponent >= 0 then (d.coefficient * Pow10(d.exponent), 0) else (d.coefficient, -d.exponent)
  }

  lemma PlainIsFixed(d: Decimal)
    requires d.coefficient > 0
    ensures Plain(d) == Fixed(Scaled(d).0, Scaled(d).1)
  {
    var digits := Digits(d.coefficient);
    if d.exponent > 0 {
      ShiftedDigits(d.coefficient, d.exponent);
    } else if d.exponent == 0 {
      assert d.coefficient * Pow10(0) == d.coefficient;
    } else {
      FixedByDigits(d.coefficient, -d.exponent);
      PlainSmall(d);
    }
  }

  lemma PlainBelowOne(digits: string, k: nat)
    ensures "0." + Zeros(k) + digits == "0." + (Zeros(k) + digits)
    ensures "0" + "." + digits == "0." + digits
  {
  }

  lemma PlainSmall(d: Decimal)
    requires d.exponent < 0
    ensures var digits, f := Digits(d.coefficient), -d.exponent;
            Plain(d) == if |digits| <= f then "0." + (Zeros(f - |digits|) + digits)
                        else digits[..|digits| - f] + "." + digits[|digits| - f..]
  {
    var digits := Digits(d.coefficient);
    var dot := |digits| + d.exponent;
    if dot <= 0 {
      PlainBelowOne(digits, -dot);
      if dot == 0 { assert Zeros(0) + digits == digits && digits[0..] == digits; }
    }
  }

  lemma ZeroFirst(k: nat, digits: string)
    ensures Zeros(k + 1) + digits == "0" + (Zeros(k) + digits)
  {
  }

  lemma SplitAfterZero(tail: string)
    ensures ("0" + tail)[..1] == "0" && ("0" + tail)[1..] == tail
    ensures "0" + "." + tail == "0." + tail
  {
  }

  lemma {:induction false} FixedByDigits(n: nat, f: nat)
    requires f > 0
    ensures var digits := Digits(n);
            Fixed(n, f) == if |digits| <= f then "0." + (Zeros(f - |digits|) + digits)
                           else digits[..|digits| - f] + "." + digits[|digits| - f..]
  {
    var digits := Digits(n);
    if |digits| <= f {
      ZeroFirst(f - |digits|, digits);
      SplitAfterZero(Zeros(f - |digits|) + digits);
    }
  }

  // ----- Trimming -----

  lemma PaddedDigits(n: nat, f: nat)
    ensures var p := Padded(n, f); |p| > f && (forall i :: 0 <= i < |p| ==> IsDigit(p[i])) && NatOf(p) == n
    ensures Padded(n, f)[|Padded(n, f)| - 1] == Digit(n % 10)
  {
    DigitsAreDigits(n);
    var digits := Digits(n);
    if |digits| <= f { LeadingZeros(f + 1 - |digits|, digits); }
  }

  lemma {:induction false} LeadingZeros(k: nat, digits: string)
    requires forall i :: 0 <= i < |digits| ==> IsDigit(digits[i])
    ensures forall i :: 0 <= i < k + |digits| ==> IsDigit((Zeros(k) + digits)[i])
    ensures NatOf(Zeros(k) + digits) == NatOf(digits)
    decreases k + |digits|
  {
    var t := Zeros(k) + digits;
    if digits != "" {
      LeadingZeros(k, digits[..|digits| - 1]);
      assert t[..|t| - 1] == Zeros(k) + digits[..|digits| - 1];
    } else if k > 0 {
      LeadingZeros(k - 1, "");
      assert t[..|t| - 1] == Zeros(k - 1) + "";
    }
  }

  lemma PaddedDropsZero(n: nat, f: nat)
    requires n > 0 && n % 10 == 0 && f > 0
    ensures Padded(n, f) == Padded(n / 10, f - 1) + "0"
  {
    assert Digits(n) == Digits(n / 10) + "0";
    var k := f - |Digits(n / 10)|;
    if k >= 0 { assert Zeros(k) + Digits(n / 10) + "0" == Zeros(k) + (Digits(n / 10) + "0"); }
  }

  lemma SlicesOfDropped(p: string, q: string, f: nat)
    requires p == q + "0" && 1 < f < |p|
    ensures p[..|p| - f] + "." + p[|p| - f..] == q[..|q| - (f - 1)] + "." + q[|q| - (f - 1)..] + "0"
  {
    assert p[..|p| - f] == q[..|q| - (f - 1)];
    assert p[|p| - f..] == q[|q| - (f - 1)..] + "0";
  }

  lemma LastSlices(q: string)
    ensures (q + "0")[..|q|] == q && (q + "0")[|q|..] == "0"
    ensures q + "." + "0" == q + ".0"
  {
  }

  lemma DropOnlyPlace(n: nat)
    requires n > 0 && n % 10 == 0
    ensures Fixed(n, 1) == Fixed(n / 10, 0) + ".0"
  {
    PaddedDropsZero(n, 1);
    LastSlices(Padded(n / 10, 0));
  }

  lemma DropZero(n: nat, f: nat)
    requires n > 0 && n % 10 == 0 && f > 1
    ensures Fixed(n, f) == Fixed(n / 10, f - 1) + "0"
  {
    PaddedDropsZero(n, f);
    PaddedDigits(n, f);
    SlicesOfDropped(Padded(n, f), Padded(n / 10, f - 1), f);
  }

  lemma LastOfFixed(n: nat, f: nat)
    ensures Fixed(n, f) != "" && Fixed(n, f)[|Fixed(n, f)| - 1] == Digit(n % 10)
    ensures f > 0 ==> '.' in Fixed(n, f)
    ensures f == 0 ==> forall i :: 0 <= i < |Fixed(n, f)| ==> IsDigit(Fixed(n, f)[i])
  {
    PaddedDigits(n, f);
    var p := Padded(n, f);
    if f > 0 {
      assert Fixed(n, f)[|p| - f] == '.';
    }
  }

  lemma {:induction false} StripDotZero(whole: string)
    requires whole != "" && IsDigit(whole[|whole| - 1])
    ensures StripRight(StripRight(whole + ".0", '0'), '.') == whole
  {
    assert (whole + ".0")[..|whole| + 1] == whole + ".";
    assert (whole + ".")[..|whole|] == whole;
    assert StripRight(whole + ".", '0') == whole + ".";
    assert StripRight(whole, '.') == whole;
  }

  lemma {:induction false} StripZero(t: string)
    ensures StripRight(t + "0", '0') == StripRight(t, '0')
  {
    assert (t + "0")[..|t|] == t;
  }

  lemma StripDigits(n: nat, f: nat)
    requires n > 0 && f > 0 && n % 10 != 0
    ensures StripRight(StripRight(Fixed(n, f), '0'), '.') == Fixed(n, f)
  {
    LastOfFixed(n, f);
  }

  lemma {:induction false} StripTrims(n: nat, f: nat)
    requires n > 0 && f > 0
    ensures StripRight(StripRight(Fixed(n, f), '0'), '.') == Fixed(Trimmed(n, f).0, Trimmed(n, f).1)
  {
    if n % 10 != 0 {
      StripDigits(n, f);
    } else if f == 1 {
      DropOnlyPlace(n);
      LastOfFixed(n / 10, 0);
      StripDotZero(Fixed(n / 10, 0));
    } else {
      DropZero(n, f);
      StripZero(Fixed(n / 10, f - 1));
      StripTrims(n / 10, f - 1);
    }
  }

  /** Rendering is the fixed-point text of the trimmed fraction. */
  lemma RenderIsFixed(d: Decimal)
    requires d.coefficient > 0
    ensures var (n, f) := Trimmed(Scaled(d).0, Scaled(d).1);
            Render(d) == (if d.negative then "-" else "") + Fixed(n, f)
  {
    PlainIsFixed(d);
    var (n, f) := Scaled(d);
    if d.exponent >= 0 { PowersAdd(d.exponent, 0); assert d.coefficient * Pow10(d.exponent) > 0; }
    LastOfFixed(n, f);
    if f > 0 {
      StripTrims(n, f);
    }
  }

  lemma {:induction false} TrimmedIsSame(n: nat, f: nat)
    requires n > 0
    ensures var (m, g) := Trimmed(n, f);
            m > 0 && g <= f && n == m * Pow10(f - g) && (g == 0 || m % 10 != 0)
  {
    if f > 0 && n % 10 == 0 {
      TrimmedIsSame(n / 10, f - 1);
      var (m, g) := Trimmed(n / 10, f - 1);
      assert m * (10 * Pow10(f - 1 - g)) == 10 * (m * Pow10(f - 1 - g));
    }
  }

  // ----- Reading back -----

  lemma {:induction false} PointReadsBack(whole: string, frac: string)
    requires whole != "" && frac != "" && forall i :: 0 <= i < |whole + frac| ==> IsDigit((whole + frac)[i])
    ensures ReadMagnitude(whole + ("." + frac)) == Some((NatOf(whole + frac), |frac|))
  {
    var t := whole + ("." + frac);
    forall i | 0 <= i < |whole| ensures IsDigit(whole[i]) {
      assert (whole + frac)[i] == whole[i];
    }
    forall i | 0 <= i < |frac| ensures IsDigit(frac[i]) {
      assert (whole + frac)[|whole| + i] == frac[i];
    }
    DigitCountBack(whole, "." + frac);
    DigitCountBack(frac, "");
    assert frac + "" == frac && t[|whole| + 1..] == frac && t[..|whole|] == whole;
  }

  lemma {:induction false} WholeReadsBack(whole: string)
    requires whole != "" && forall i :: 0 <= i < |whole| ==> IsDigit(whole[i])
    ensures ReadMagnitude(whole) == Some((NatOf(whole), 0))
  {
    DigitCountBack(whole, "");
    assert whole + "" == whole;
  }

  lemma FixedParts(n: nat, f: nat)
    requires f > 0
    ensures var p := Padded(n, f);
            |p| > f && p[..|p| - f] + p[|p| - f..] == p && Fixed(n, f) == p[..|p| - f] + ("." + p[|p| - f..])
  {
    PaddedDigits(n, f);
  }

  lemma FixedReadsBack(n: nat, f: nat)
    ensures ReadMagnitude(Fixed(n, f)) == Some((n, f))
  {
    PaddedDigits(n, f);
    var p := Padded(n, f);
    if f == 0 {
      WholeReadsBack(p);
    } else {
      FixedParts(n, f);
      PointReadsBack(p[..|p| - f], p[|p| - f..]);
    }
  }

  lemma FixedIsUnsigned(n: nat, f: nat)
    ensures Fixed(n, f) != "" && Fixed(n, f)[0] != '-'
  {
    PaddedDigits(n, f);
    assert IsDigit(Padded(n, f)[0]);
  }

  lemma MinusReadsBack(t: string, n: nat, f: nat)
    requires ReadMagnitude(t) == Some((n, f))
    ensures ReadDecimal("-" + t) == Some(Decimal(true, n, 0 - f))
  {
    var signed := "-" + t;
    assert signed[0] == '-' && signed[1..] == t;
  }

  lemma UnsignedReadsBack(t: string, n: nat, f: nat)
    requires ReadMagnitude(t) == Some((n, f)) && t != "" && t[0] != '-'
    ensures ReadDecimal(t) == Some(Decimal(false, n, 0 - f))
  {
  }

  lemma RenderReads(d: Decimal)
    requires d.coefficient > 0
    ensures var (n, f) := Trimmed(Scaled(d).0, Scaled(d).1);
            ReadDecimal(Render(d)) == Some(Decimal(d.negative, n, 0 - f))
  {
    RenderIsFixed(d);
    var (n, f) := Trimmed(Scaled(d).0, Scaled(d).1);
    FixedReadsBack(n, f);
    FixedIsUnsigned(n, f);
    if d.negative {
      MinusReadsBack(Fixed(n, f), n, f);
    } else {
      assert "" + Fixed(n, f) == Fixed(n, f);
      UnsignedReadsBack(Fixed(n, f), n, f);
    }
  }

  // ----- Arithmetic of equal numbers -----

  lemma {:induction false} Cancel(a: nat, b: nat, k: nat)
    ensures a * Pow10(k) == b * Pow10(k) <==> a == b
  {
    PowersAdd(k, 0);
    if a < b { assert a * Pow10(k) < b * Pow10(k); }
    if b < a { assert b * Pow10(k) < a * Pow10(k); }
  }

  /** Multiplying both sides of n1 / 10^f1 == n2 / 10^f2 out. */
  predicate SameFraction(n1: nat, f1: nat, n2: nat, f2: nat) {
    n1 * Pow10(f2) == n2 * Pow10(f1)
  }

  lemma Regroup(n: nat, a: nat, b: nat)
    ensures n * Pow10(a + b) == (n * Pow10(a)) * Pow10(b)
  {
    PowersAdd(a, b);
    assert n * (Pow10(a) * Pow10(b)) == (n * Pow10(a)) * Pow10(b);
  }

  lemma SameNumberIsSameFraction(a: Decimal, b: Decimal)
    ensures a.coefficient * Pow10(Lift(a.exponent, b.exponent)) == b.coefficient * Pow10(Lift(b.exponent, a.exponent))
            <==> SameFraction(Scaled(a).0, Scaled(a).1, Scaled(b).0, Scaled(b).1)
  {
    var up, down := Lift(a.exponent, b.exponent), Lift(b.exponent, a.exponent);
    // both sides times 10^k, where k brings the smaller exponent up to its own scale
    var low := if a.exponent < b.exponent then a.exponent else b.exponent;
    var k: nat := Lift(0, a.exponent) + Lift(0, b.exponent) + Lift(low, 0)
                  - Lift(0, low);
    Cancel(a.coefficient * Pow10(up), b.coefficient * Pow10(down), k);
    Regroup(a.coefficient, up, k);
    Regroup(b.coefficient, down, k);
    Regroup(a.coefficient, Lift(a.exponent, 0), Scaled(b).1);
    Regroup(b.coefficient, Lift(b.exponent, 0), Scaled(a).1);
    assert up + k == Lift(a.exponent, 0) + Scaled(b).1;
    assert down + k == Lift(b.exponent, 0) + Scaled(a).1;
    assert Pow10(0) == 1;
  }

  lemma TrimmedIsUnique(n1: nat, f1: nat, n2: nat, f2: nat)
    requires f1 <= f2 && SameFraction(n1, f1, n2, f2)
    requires f2 == 0 || n2 % 10 != 0
    ensures n1 == n2 && f1 == f2
  {
    if f1 < f2 { TimesTen(n1, f2 - f1 - 1); }
    Regroup(n1, f2 - f1, f1);
    Cancel(n1 * Pow10(f2 - f1), n2, f1);
    assert n1 * Pow10(0) == n1;
  }

  lemma {:induction false} TrimKeepsFraction(n1: nat, f1: nat, n2: nat, f2: nat)
    requires n1 > 0 && n2 > 0
    ensures var (m1, g1) := Trimmed(n1, f1); var (m2, g2) := Trimmed(n2, f2);
            SameFraction(n1, f1, n2, f2) <==> SameFraction(m1, g1, m2, g2)
  {
    TrimmedIsSame(n1, f1);
    TrimmedIsSame(n2, f2);
    var (m1, g1) := Trimmed(n1, f1);
    var (m2, g2) := Trimmed(n2, f2);
    var k := (f1 - g1) + (f2 - g2);
    Cancel(m1 * Pow10(g2), m2 * Pow10(g1), k);
    Regroup(m1, g2, k);
    Regroup(m2, g1, k);
    Regroup(m1, f1 - g1, f2);
    Regroup(m2, f2 - g2, f1);
  }

  // ----- The two properties -----

  lemma TrimmedIsSameNumber(d: Decimal)
    requires d.coefficient > 0
    ensures var (n, f) := Trimmed(Scaled(d).0, Scaled(d).1); SameNumber(Decimal(d.negative, n, 0 - f), d)
  {
    var (n, f) := Trimmed(Scaled(d).0, Scaled(d).1);
    ScaledIsPositive(d);
    TrimmedIsSame(Scaled(d).0, Scaled(d).1);
    SameNumberIsSameFraction(Decimal(d.negative, n, 0 - f), d);
    Regroup(n, Scaled(d).1 - f, f);
    assert n * Pow10(0) == n;
  }

  /** Reading a rendering back gives the same number, whatever its size or exponent. */
  lemma RenderIsExact(d: Decimal)
    ensures ReadDecimal(Render(d)).Some? && SameNumber(ReadDecimal(Render(d)).value, d)
  {
    if d.coefficient == 0 {
      FixedReadsBack(0, 0);
      assert SameNumber(Decimal(false, 0, 0), d);
    } else {
      RenderReads(d);
      TrimmedIsSameNumber(d);
    }
  }

  lemma ScaledIsPositive(d: Decimal)
    requires d.coefficient > 0
    ensures Scaled(d).0 > 0
  {
    if d.exponent >= 0 { PowersAdd(d.exponent, 0); }
  }

  /** Two decimals render alike exactly when they are the same number. */
  lemma RenderIsCanonical(a: Decimal, b: Decimal)
    ensures Render(a) == Render(b) <==> SameNumber(a, b)
  {
    if a.coefficient == 0 || b.coefficient == 0 {
      ZeroRendersAlone(a, b);
    } else {
      RenderReads(a);
      RenderReads(b);
      RenderIsFixed(a);
      RenderIsFixed(b);
      ScaledIsPositive(a);
      ScaledIsPositive(b);
      SameNumberIsSameFraction(a, b);
      TrimKeepsFraction(Scaled(a).0, Scaled(a).1, Scaled(b).0, Scaled(b).1);
      TrimmedIsSame(Scaled(a).0, Scaled(a).1);
      TrimmedIsSame(Scaled(b).0, Scaled(b).1);
      var (n1, f1) := Trimmed(Scaled(a).0, Scaled(a).1);
      var (n2, f2) := Trimmed(Scaled(b).0, Scaled(b).1);
      if SameFraction(n1, f1, n2, f2) {
        if f1 <= f2 { TrimmedIsUnique(n1, f1, n2, f2); } else { TrimmedIsUnique(n2, f2, n1, f1); }
      }
    }
  }

  lemma {:induction false} PositiveTimesPower(n: nat, k: nat)
    requires n > 0
    ensures n * Pow10(k) > 0
  {
    PowersAdd(k, 0);
  }

  lemma NonzeroIsNotZero(d: Decimal)
    requires d.coefficient > 0
    ensures Render(d) != "0"
  {
    RenderReads(d);
    ScaledIsPositive(d);
    TrimmedIsSame(Scaled(d).0, Scaled(d).1);
    FixedReadsBack(0, 0);
  }

  lemma ZeroRendersAlone(a: Decimal, b: Decimal)
    requires a.coefficient == 0 || b.coefficient == 0
    ensures Render(a) == Render(b) <==> SameNumber(a, b)
  {
    if a.coefficient > 0 {
      NonzeroIsNotZero(a);
      PositiveTimesPower(a.coefficient, Lift(a.exponent, b.exponent));
    }
    if b.coefficient > 0 {
      NonzeroIsNotZero(b);
      PositiveTimesPower(b.coefficient, Lift(b.exponent, a.exponent));
    }
  }
}
