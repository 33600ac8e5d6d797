/** A JSON reader, and the proof that it reads back exactly what was printed. */
module Reader {
  import opened Json
  import opened Types
  import opened Canonical

  predicate IsDigit(c: char) {
    '0' <= c <= '9'
  }

  function FromHex(c: char): Option<nat> {
    if '0' <= c <= '9' then Some(c as int - '0' as int)
    else if 'a' <= c <= 'f' then Some(c as int - 'a' as int + 10)
    else if 'A' <= c <= 'F' then Some(c as int - 'A' as int + 10)
    else None
  }

  /** The character an escape stands for, and what follows it. */
  function ReadEscape(t: string): (r: Option<(char, string)>)
    ensures r.Some? ==> |r.value.1| < |t|
  {
    if t == "" then None
    else match t[0]
      case '"' => Some(('"', t[1..]))
      case '\\' => Some(('\\', t[1..]))
      case '/' => Some(('/', t[1..]))
      case 'b' => Some((8 as char, t[1..]))
      case 'f' => Some((12 as char, t[1..]))
      case 'n' => Some(('\n', t[1..]))
      case 'r' => Some(('\r', t[1..]))
      case 't' => Some(('\t', t[1..]))
      case 'u' =>
        if |t| < 5 then None
        else
          (match (FromHex(t[1]), FromHex(t[2]), FromHex(t[3]), FromHex(t[4]))
           case (Some(a), Some(b), Some(c), Some(d)) =>
             var code := ((a * 16 + b) * 16 + c) * 16 + d;
             if 0 <= code < 0xD800 || 0xE000 <= code < 0x10000 then Some((code as char, t[5..])) else None
           case _ => None)
      case _ => None
  }

  /** The rest of a string after its opening quote, and what follows the closing one. */
  function ReadString(t: string): (r: Option<(string, string)>)
    ensures r.Some? ==> |r.value.1| < |t|
    decreases |t|
  {
    if t == "" || (t[0] as int) < 32 then None
    else if t[0] == '"' then Some(("", t[1..]))
    else if t[0] == '\\' then
      match ReadEscape(t[1..])
      case None => None
      case Some((c, rest)) =>
        (match ReadString(rest) case None => None case Some((s, r)) => Some(([c] + s, r)))
    else
      match ReadString(t[1..]) case None => None case Some((s, r)) => Some(([t[0]] + s, r))
  }

  function DigitCount(t: string): (k: nat)
    ensures k <= |t|
  {
    if t == "" || !IsDigit(t[0]) then 0 else 1 + DigitCount(t[1..])
  }

  function DigitValue(c: char): nat
    requires IsDigit(c)
  {
    c as int - '0' as int
  }

  function NatOf(digits: string): nat
    requires forall i :: 0 <= i < |digits| ==> IsDigit(digits[i])
  {
    if digits == "" then 0
    else NatOf(digits[..|digits| - 1]) * 10 + DigitValue(digits[|digits| - 1])
  }

  lemma {:induction false} DigitCountAll(t: string)
    ensures forall i :: 0 <= i < DigitCount(t) ==> IsDigit(t[i])
  {
    if t != "" && IsDigit(t[0]) { DigitCountAll(t[1..]); }
  }

  function ReadNat(t: string): (r: Option<(nat, string)>)
    ensures r.Some? ==> |r.value.1| < |t|
  {
    var k := DigitCount(t);
    DigitCountAll(t);
    if k == 0 then None else Some((NatOf(t[..k]), t[k..]))
  }

  function Skip(word: string, t: string, v: Value): (r: Option<(Value, string)>)
    requires word != ""
    ensures r.Some? ==> |r.value.1| < |t|
  {
    if word <= t then Some((v, t[|word|..])) else None
  }

  function Read(t: string): (r: Option<(Value, string)>)
    ensures r.Some? ==> |r.value.1| < |t|
    decreases |t|, 0
  {
    if t == "" then None
    else if t[0] == '{' then
      if |t| > 1 && t[1] == '}' then Some((Obj([]), t[2..]))
      else (match ReadMembers(t[1..]) case None => None case Some((ms, r)) => Some((Obj(ms), r)))
    else if t[0] == '[' then
      if |t| > 1 && t[1] == ']' then Some((List([]), t[2..]))
      else (match ReadItems(t[1..]) case None => None case Some((vs, r)) => Some((List(vs), r)))
    else if t[0] == '"' then
      match ReadString(t[1..]) case None => None case Some((s, r)) => Some((Str(s), r))
    else if t[0] == '-' then
      match ReadNat(t[1..]) case None => None case Some((n, r)) => Some((Int(0 - n as int), r))
    else if IsDigit(t[0]) then
      match ReadNat(t) case None => None case Some((n, r)) => Some((Int(n), r))
    else if t[0] == 'n' then Skip("null", t, Null)
    else if t[0] == 't' then Skip("true", t, Bool(true))
    else Skip("false", t, Bool(false))
  }

  function ReadItems(t: string): (r: Option<(seq<Value>, string)>)
    ensures r.Some? ==> |r.value.1| < |t|
    decreases |t|, 1
  {
    match Read(t)
    case None => None
    case Some((v, r)) =>
      if r == "" then None
      else if r[0] == ']' then Some(([v], r[1..]))
      else if r[0] == ',' then
        match ReadItems(r[1..]) case None => None case Some((vs, r')) => Some(([v] + vs, r'))
      else None
  }

  function ReadMember(t: string): (r: Option<(Member, string)>)
    ensures r.Some? ==> |r.value.1| < |t|
    decreases |t|, 1
  {
    if t == "" || t[0] != '"' then None
    else match ReadString(t[1..])
      case None => None
      case Some((name, r)) =>
        if r == "" || r[0] != ':' then None
        else match Read(r[1..]) case None => None case Some((v, r')) => Some((Member(name, v), r'))
  }

  function ReadMembers(t: string): (r: Option<(seq<Member>, string)>)
    ensures r.Some? ==> |r.value.1| < |t|
    decreases |t|, 2
  {
    match ReadMember(t)
    case None => None
    case Some((m, r)) =>
      if r == "" then None
      else if r[0] == '}' then Some(([m], r[1..]))
      else if r[0] == ',' then
        match ReadMembers(r[1..]) case None => None case Some((ms, r')) => Some(([m] + ms, r'))
      else None
  }

  // ----- Reading back what was printed -----

  lemma ReadEscapeBack(c: char, rest: string)
    ensures EscapeChar(c) == [c] ==> c != '"' && c != '\\' && 32 <= c as int
    ensures EscapeChar(c) != [c] ==>
              && |EscapeChar(c)| >= 2 && EscapeChar(c)[0] == '\\'
              && ReadEscape(EscapeChar(c)[1..] + rest) == Some((c, rest))
  {
    var e := EscapeChar(c);
    if |e| == 2 {
      assert (e[1..] + rest)[1..] == rest;
    } else if |e| == 6 {
      assert (e[1..] + rest)[5..] == rest;
    }
  }

  /** One escaped character in front of a string that reads back. */
  lemma {:induction false} ReadCharBack(c: char, tail: string, s: string, rest: string)
    requires ReadString(tail) == Some((s, rest))
    ensures ReadString(EscapeChar(c) + tail) == Some(([c] + s, rest))
  {
    var e := EscapeChar(c);
    ReadEscapeBack(c, tail);
    if e == [c] {
      assert (e + tail)[1..] == tail;
    } else {
      assert (e + tail)[1..] == e[1..] + tail;
    }
  }

  lemma {:induction false} ReadStringBack(s: string, rest: string)
    ensures ReadString(Escaped(s) + "\"" + rest) == Some((s, rest))
  {
    if s == "" {
      assert Escaped(s) + "\"" + rest == "\"" + rest;
    } else {
      var tail := Escaped(s[1..]) + "\"" + rest;
      ReadStringBack(s[1..], rest);
      ReadCharBack(s[0], tail, s[1..], rest);
      assert Escaped(s) + "\"" + rest == EscapeChar(s[0]) + tail && [s[0]] + s[1..] == s;
    }
  }

  predicate StopsNumber(rest: string) {
    rest == "" || !IsDigit(rest[0])
  }

  lemma {:induction false} DigitCountBack(digits: string, rest: string)
    requires forall i :: 0 <= i < |digits| ==> IsDigit(digits[i])
    requires StopsNumber(rest)
    ensures DigitCount(digits + rest) == |digits|
  {
    if digits == "" {
      assert digits + rest == rest;
    } else {
      DigitCountBack(digits[1..], rest);
      assert (digits + rest)[1..] == digits[1..] + rest;
    }
  }

  lemma {:induction false} DigitsAreDigits(n: nat)
    ensures Digits(n) != "" && forall i :: 0 <= i < |Digits(n)| ==> IsDigit(Digits(n)[i])
    ensures NatOf(Digits(n)) == n
  {
    if n >= 10 {
      DigitsAreDigits(n / 10);
      assert Digits(n)[..|Digits(n)| - 1] == Digits(n / 10);
    } else {
      assert Digits(n)[..0] == "";
    }
  }

  lemma {:induction false} ReadNatBack(n: nat, rest: string)
    requires StopsNumber(rest)
    ensures ReadNat(Digits(n) + rest) == Some((n, rest))
  {
    DigitsAreDigits(n);
    DigitCountBack(Digits(n), rest);
    assert (Digits(n) + rest)[..|Digits(n)|] == Digits(n);
  }

  lemma {:induction false} ReadIntBack(n: int, rest: string)
    requires StopsNumber(rest)
    ensures Read(IntText(n) + rest) == Some((Int(n), rest))
  {
    var digits := Digits(if n < 0 then -n else n);
    ReadNatBack(if n < 0 then -n else n, rest);
    DigitsAreDigits(if n < 0 then -n else n);
    if n < 0 {
      assert "-" + digits + rest == "-" + (digits + rest);
      assert ("-" + (digits + rest))[1..] == digits + rest;
    } else {
      assert IsDigit((digits + rest)[0]);
    }
  }

  lemma {:induction false} ReadStrBack(s: string, rest: string)
    ensures Read(Quoted(s) + rest) == Some((Str(s), rest))
  {
    ReadStringBack(s, rest);
    var inner := Escaped(s) + "\"" + rest;
    assert Quoted(s) + rest == "\"" + inner;
    assert ("\"" + inner)[1..] == inner;
  }

  lemma {:induction false} ReadWordBack(v: Value, rest: string)
    requires v.Null? || v.Bool?
    ensures Read(Text(v) + rest) == Some((v, rest))
  {
    var word := Text(v);
    assert word <= word + rest && (word + rest)[|word|..] == rest;
    assert (word + rest)[0] == word[0];
  }

  lemma {:induction false} ReadListFrom(inner: string, items: seq<Value>, rest: string)
    requires ReadItems(inner) == Some((items, rest)) && inner != "" && inner[0] != ']'
    ensures Read("[" + inner) == Some((List(items), rest))
  {
    assert ("[" + inner)[1..] == inner;
  }

  lemma {:induction false} ReadObjFrom(inner: string, ms: seq<Member>, rest: string)
    requires ReadMembers(inner) == Some((ms, rest)) && inner != "" && inner[0] != '}'
    ensures Read("{" + inner) == Some((Obj(ms), rest))
  {
    assert ("{" + inner)[1..] == inner;
  }

  lemma {:induction false} ReadEmptyBack(v: Value, rest: string)
    requires v == List([]) || v == Obj([])
    ensures Read(Text(v) + rest) == Some((v, rest))
  {
    assert (Text(v) + rest)[2..] == rest;
  }

  /** Every value is read back from its own text, whatever follows it, as long as that
      does not prolong a number. */
  lemma {:induction false} ReadBack(v: Value, rest: string)
    requires StopsNumber(rest)
    ensures Read(Text(v) + rest) == Some((v, rest))
    decreases v, 0
  {
    match v
    case Int(n) => ReadIntBack(n, rest);
    case Str(s) => ReadStrBack(s, rest);
    case List(items) =>
      if items == [] { ReadEmptyBack(v, rest); } else { ReadListBack(items, rest); }
    case Obj(ms) =>
      if ms == [] { ReadEmptyBack(v, rest); } else { ReadObjBack(ms, rest); }
    case _ => ReadWordBack(v, rest);
  }

  lemma {:induction false} ReadListBack(items: seq<Value>, rest: string)
    requires items != []
    ensures Read(Text(List(items)) + rest) == Some((List(items), rest))
    decreases items, 2
  {
    var inner := ItemsText(items) + ("]" + rest);
    ReadItemsBack(items, rest);
    ItemsStart(items);
    ReadListFrom(inner, items, rest);
    assert Text(List(items)) + rest == "[" + inner;
  }

  lemma {:induction false} ReadObjBack(ms: seq<Member>, rest: string)
    requires ms != []
    ensures Read(Text(Obj(ms)) + rest) == Some((Obj(ms), rest))
    decreases ms, 3
  {
    var inner := MembersText(ms) + ("}" + rest);
    ReadMembersBack(ms, rest);
    MembersStart(ms);
    ReadObjFrom(inner, ms, rest);
    assert Text(Obj(ms)) + rest == "{" + inner;
  }

  lemma {:induction false} MembersStart(ms: seq<Member>)
    requires ms != []
    ensures MembersText(ms) != "" && MembersText(ms)[0] == '"'
  {
    assert MemberText(ms[0])[0] == '"';
  }

  lemma {:induction false} ItemsStart(items: seq<Value>)
    requires items != []
    ensures ItemsText(items) != "" && ItemsText(items)[0] != ']'
  {
    var v := items[0];
    if v.Int? { DigitsAreDigits(if v.n < 0 then -v.n else v.n); }
    assert Text(v) != "" && Text(v)[0] != ']';
  }

  lemma {:induction false} ReadItemsLast(t: string, v: Value, rest: string)
    requires Read(t) == Some((v, "]" + rest))
    ensures ReadItems(t) == Some(([v], rest))
  {
    assert ("]" + rest)[1..] == rest;
  }

  lemma {:induction false} ReadItemsMore(t: string, v: Value, tail: string, vs: seq<Value>, rest: string)
    requires Read(t) == Some((v, "," + tail)) && ReadItems(tail) == Some((vs, rest))
    ensures ReadItems(t) == Some(([v] + vs, rest))
  {
    assert ("," + tail)[1..] == tail;
  }

  lemma {:induction false} ReadItemsBack(items: seq<Value>, rest: string)
    requires items != []
    ensures ReadItems(ItemsText(items) + ("]" + rest)) == Some((items, rest))
    decreases items, 1
  {
    var t := ItemsText(items) + ("]" + rest);
    if |items| == 1 {
      ReadBack(items[0], "]" + rest);
      ReadItemsLast(t, items[0], rest);
      assert [items[0]] == items;
    } else {
      var tail := ItemsText(items[1..]) + ("]" + rest);
      ReadBack(items[0], "," + tail);
      ReadItemsBack(items[1..], rest);
      ItemsTextSplits(items, tail, rest);
      ReadItemsMore(t, items[0], tail, items[1..], rest);
      assert [items[0]] + items[1..] == items;
    }
  }

  lemma {:induction false} ItemsTextSplits(items: seq<Value>, tail: string, rest: string)
    requires |items| > 1 && tail == ItemsText(items[1..]) + ("]" + rest)
    ensures ItemsText(items) + ("]" + rest) == Text(items[0]) + ("," + tail)
  {
  }

  lemma {:induction false} MembersTextSplits(ms: seq<Member>, tail: string, rest: string)
    requires |ms| > 1 && tail == MembersText(ms[1..]) + ("}" + rest)
    ensures MembersText(ms) + ("}" + rest) == MemberText(ms[0]) + ("," + tail)
  {
  }

  lemma {:induction false} ReadMemberBack(m: Member, rest: string)
    requires StopsNumber(rest)
    ensures ReadMember(MemberText(m) + rest) == Some((m, rest))
    decreases m, 1
  {
    var value := Text(m.value) + rest;
    ReadStringBack(m.name, ":" + value);
    ReadBack(m.value, rest);
    MemberReadBack(m.name, m.value, value, MemberText(m) + rest, rest);
  }

  lemma {:induction false} MemberReadBack(name: string, v: Value, value: string, t: string, rest: string)
    requires t == Quoted(name) + ":" + value
    requires ReadString(Escaped(name) + "\"" + (":" + value)) == Some((name, ":" + value))
    requires Read(value) == Some((v, rest))
    ensures ReadMember(t) == Some((Member(name, v), rest))
  {
    assert t[0] == '"' && t[1..] == Escaped(name) + "\"" + (":" + value);
    assert (":" + value)[1..] == value;
  }

  lemma {:induction false} ReadMembersLast(t: string, m: Member, rest: string)
    requires ReadMember(t) == Some((m, "}" + rest))
    ensures ReadMembers(t) == Some(([m], rest))
  {
    assert ("}" + rest)[1..] == rest;
  }

  lemma {:induction false} ReadMembersMore(t: string, m: Member, tail: string, ms: seq<Member>, rest: string)
    requires ReadMember(t) == Some((m, "," + tail)) && ReadMembers(tail) == Some((ms, rest))
    ensures ReadMembers(t) == Some(([m] + ms, rest))
  {
    assert ("," + tail)[1..] == tail;
  }

  lemma {:induction false} ReadMembersBack(ms: seq<Member>, rest: string)
    requires ms != []
    ensures ReadMembers(MembersText(ms) + ("}" + rest)) == Some((ms, rest))
    decreases ms, 2
  {
    var t := MembersText(ms) + ("}" + rest);
    if |ms| == 1 {
      ReadMemberBack(ms[0], "}" + rest);
      ReadMembersLast(t, ms[0], rest);
      assert [ms[0]] == ms;
    } else {
      var tail := MembersText(ms[1..]) + ("}" + rest);
      ReadMemberBack(ms[0], "," + tail);
      ReadMembersBack(ms[1..], rest);
      MembersTextSplits(ms, tail, rest);
      ReadMembersMore(t, ms[0], tail, ms[1..], rest);
      assert [ms[0]] + ms[1..] == ms;
    }
  }

  /** Parsing undoes printing. */
  lemma {:induction false} CanonReadsBack(v: Value)
    ensures Read(Canon(v)) == Some((Ordered(v), ""))
  {
    ReadBack(Ordered(v), "");
    assert Canon(v) + "" == Canon(v);
  }
}
