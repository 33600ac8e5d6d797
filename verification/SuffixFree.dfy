/** No canonical object ends with another one.

    A scanner tracks string quoting and brace depth. A whole canonical object takes it
    from `Start` to `Done`, and `Done` admits no further character. A proper suffix that
    was itself an object would have to close from inside the longer one: outside a
    string the depth never gets back to zero, and inside a string the two scans stay on
    opposite sides of every quote to the end. */
module SuffixFree {
  import opened Json
  import opened Canonical
  import opened Reader

  /** `depth` counts the enclosing brackets beyond the outermost. */
  datatype Scan = Start | Out(depth: nat) | In(depth: nat) | Escape(depth: nat) | Done | Stuck

  function Next(s: Scan, c: char): Scan {
    match s
    case Start => if c == '{' then Out(0) else Stuck
    case Out(d) =>
      if c == '{' || c == '[' then Out(d + 1)
      else if c == '}' || c == ']' then (if d == 0 then Done else Out(d - 1))
      else if c == '"' then In(d)
      else if c == '\\' then Stuck
      else Out(d)
    case In(d) => if c == '"' then Out(d) else if c == '\\' then Escape(d) else In(d)
    case Escape(d) => In(d)
    case Done => Stuck
    case Stuck => Stuck
  }

  function ScanAll(s: Scan, t: string): Scan
    decreases |t|
  {
    if t == "" then s else ScanAll(Next(s, t[0]), t[1..])
  }

  lemma {:induction false} ScanConcat(s: Scan, a: string, b: string)
    ensures ScanAll(s, a + b) == ScanAll(ScanAll(s, a), b)
    decreases |a|
  {
    if a == "" {
      assert a + b == b;
    } else {
      ScanConcat(Next(s, a[0]), a[1..], b);
      assert (a + b)[1..] == a[1..] + b;
    }
  }

  lemma {:induction false} StuckForGood(t: string)
    ensures ScanAll(Stuck, t) == Stuck
  {
    if t != "" { StuckForGood(t[1..]); }
  }

  // ----- The scan of a value's text -----

  predicate Plain(c: char) {
    c != '"' && c != '\\' && c != '{' && c != '}' && c != '[' && c != ']'
  }

  lemma {:induction false} ScanPlain(t: string, d: nat)
    requires forall i :: 0 <= i < |t| ==> Plain(t[i])
    ensures ScanAll(Out(d), t) == Out(d) && ScanAll(In(d), t) == In(d)
  {
    if t != "" { ScanPlain(t[1..], d); }
  }

  lemma ScanEscapeChar(c: char, d: nat)
    ensures ScanAll(In(d), EscapeChar(c)) == In(d)
  {
    var e := EscapeChar(c);
    if |e| == 1 {
      assert e[1..] == "";
    } else {
      assert Next(Next(In(d), e[0]), e[1]) == In(d);
      ScanPlain(e[2..], d);
      assert e[1..][1..] == e[2..];
    }
  }

  lemma {:induction false} ScanEscaped(s: string, d: nat)
    ensures ScanAll(In(d), Escaped(s)) == In(d)
  {
    if s != "" {
      ScanEscapeChar(s[0], d);
      ScanEscaped(s[1..], d);
      ScanConcat(In(d), EscapeChar(s[0]), Escaped(s[1..]));
    }
  }

  lemma ScanQuoted(s: string, d: nat)
    ensures ScanAll(Out(d), Quoted(s)) == Out(d)
  {
    ScanEscaped(s, d);
    ScanConcat(In(d), Escaped(s), "\"");
    assert Quoted(s)[1..] == Escaped(s) + "\"";
  }

  lemma ScanInt(n: int, d: nat)
    ensures ScanAll(Out(d), IntText(n)) == Out(d)
  {
    var digits := Digits(if n < 0 then -n else n);
    DigitsAreDigits(if n < 0 then -n else n);
    ScanPlain(digits, d);
    if n < 0 { assert IntText(n)[1..] == digits; }
  }

  lemma {:induction false} ScanText(v: Value, d: nat)
    ensures ScanAll(Out(d), Text(v)) == Out(d)
    decreases v, 0
  {
    match v
    case Int(n) => ScanInt(n, d);
    case Str(s) => ScanQuoted(s, d);
    case List(items) =>
      if items != [] { ScanItems(items, d + 1); }
      ScanEnclosed("[", if items == [] then "" else ItemsText(items), "]", d);
    case Obj(ms) =>
      if ms != [] { ScanMembers(ms, d + 1); }
      ScanEnclosed("{", if ms == [] then "" else MembersText(ms), "}", d);
    case _ => ScanPlain(Text(v), d);
  }

  lemma {:induction false} ScanEnclosed(left: string, inner: string, right: string, d: nat)
    requires (left == "[" && right == "]") || (left == "{" && right == "}")
    requires ScanAll(Out(d + 1), inner) == Out(d + 1)
    ensures ScanAll(Out(d), left + inner + right) == Out(d)
  {
    var t := left + inner + right;
    assert t[1..] == inner + right;
    ScanConcat(Out(d + 1), inner, right);
  }

  lemma {:induction false} ScanItems(items: seq<Value>, d: nat)
    requires items != []
    ensures ScanAll(Out(d), ItemsText(items)) == Out(d)
    decreases items, 1
  {
    ScanText(items[0], d);
    if |items| > 1 {
      ScanItems(items[1..], d);
      ScanJoined(Text(items[0]), ItemsText(items[1..]), d);
    }
  }

  lemma {:induction false} ScanJoined(a: string, b: string, d: nat)
    requires ScanAll(Out(d), a) == Out(d) && ScanAll(Out(d), b) == Out(d)
    ensures ScanAll(Out(d), a + "," + b) == Out(d)
  {
    ScanConcat(Out(d), a, ",");
    ScanConcat(Out(d), a + ",", b);
  }

  lemma {:induction false} ScanMember(m: Member, d: nat)
    ensures ScanAll(Out(d), MemberText(m)) == Out(d)
    decreases m, 1
  {
    ScanQuoted(m.name, d);
    ScanText(m.value, d);
    ScanConcat(Out(d), Quoted(m.name), ":");
    ScanConcat(Out(d), Quoted(m.name) + ":", Text(m.value));
  }

  lemma {:induction false} ScanMembers(ms: seq<Member>, d: nat)
    requires ms != []
    ensures ScanAll(Out(d), MembersText(ms)) == Out(d)
    decreases ms, 2
  {
    ScanMember(ms[0], d);
    if |ms| > 1 {
      ScanMembers(ms[1..], d);
      ScanJoined(MemberText(ms[0]), MembersText(ms[1..]), d);
    }
  }

  lemma ScanObject(ms: seq<Member>)
    ensures Text(Obj(ms)) != "" && Text(Obj(ms))[0] == '{'
    ensures ScanAll(Start, Text(Obj(ms))) == Done
  {
    var inner := if ms == [] then "" else MembersText(ms);
    assert Text(Obj(ms)) == "{" + inner + "}";
    assert ("{" + inner + "}")[1..] == inner + "}";
    if ms != [] { ScanMembers(ms, 0); }
    ScanConcat(Out(0), inner, "}");
  }

  // ----- Opposite sides of every quote -----

  predicate Opposite(a: Scan, b: Scan) {
    (a.In? && b.Out?) || (a.Out? && b.In?)
  }

  /** Two scans of one text that start on opposite sides of a quote cannot both close. */
  lemma {:induction false} NotBothDone(a: Scan, b: Scan, t: string)
    requires Opposite(a, b)
    ensures !(ScanAll(a, t).Done? && ScanAll(b, t).Done?)
    decreases |t|
  {
    if t != "" {
      var a', b' := Next(a, t[0]), Next(b, t[0]);
      if Opposite(a', b') {
        NotBothDone(a', b', t[1..]);
      } else {
        StuckForGood(t[1..]);
        if t[1..] != "" { StuckForGood(t[1..][1..]); }
      }
    }
  }

  lemma {:induction false} NeverStartAgain(s: Scan, t: string)
    requires !s.Start?
    ensures !ScanAll(s, t).Start?
    decreases |t|
  {
    if t != "" { NeverStartAgain(Next(s, t[0]), t[1..]); }
  }

  /** No proper suffix of an object's text is itself the text of an object. */
  lemma NoProperSuffix(ms: seq<Member>, ns: seq<Member>, i: nat)
    requires 0 < i < |Text(Obj(ms))|
    ensures Text(Obj(ms))[i..] != Text(Obj(ns))
  {
    var whole, suffix := Text(Obj(ms)), Text(Obj(ns));
    if whole[i..] == suffix {
      ScanObject(ms);
      ScanObject(ns);
      var at := ScanAll(Start, whole[..i]);
      ScanConcat(Start, whole[..i], suffix);
      assert whole == whole[..i] + suffix;
      NeverStartAgain(Next(Start, whole[0]), whole[..i][1..]);
      match at
      case Out(d) => ScanText(Obj(ns), d);
      case In(d) => NotBothDone(In(d), Out(0), suffix[1..]);
      case Escape(d) => NotBothDone(In(d), Out(0), suffix[1..]);
      case Done => StuckForGood(suffix[1..]);
      case Stuck => StuckForGood(suffix);
      case Start =>
    }
  }
}
