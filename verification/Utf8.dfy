/** UTF-8, and that it loses nothing. */
module Utf8 {
  type Byte = b: int | 0 <= b < 256
  type Bytes = seq<Byte>

  function EncodeChar(c: char): Bytes {
    var n := c as int;
    if n < 0x80 then [n]
    else if n < 0x800 then [0xC0 + n / 64, 0x80 + n % 64]
    else if n < 0x10000 then [0xE0 + n / 64 / 64, 0x80 + n / 64 % 64, 0x80 + n % 64]
    else [0xF0 + n / 64 / 64 / 64, 0x80 + n / 64 / 64 % 64, 0x80 + n / 64 % 64, 0x80 + n % 64]
  }

  function Encode(s: string): Bytes {
    Spread(EncodeChar, s)
  }

  function Spread(f: char -> Bytes, s: string): Bytes {
    if s == "" then [] else f(s[0]) + Spread(f, s[1..])
  }

  lemma {:induction false} SpreadConcat(f: char -> Bytes, a: string, b: string)
    ensures Spread(f, a + b) == Spread(f, a) + Spread(f, b)
  {
    if a == "" {
      assert a + b == b;
    } else {
      var x, y, z := f(a[0]), Spread(f, a[1..]), Spread(f, b);
      SpreadConcat(f, a[1..], b);
      assert (a + b)[1..] == a[1..] + b && (a + b)[0] == a[0];
      assert x + (y + z) == (x + y) + z;
    }
  }

  lemma EncodeConcat(a: string, b: string)
    ensures Encode(a + b) == Encode(a) + Encode(b)
  {
    SpreadConcat(EncodeChar, a, b);
  }

  /** How many bytes the character starting with this byte takes. */
  function Width(first: Byte): nat {
    if first < 0x80 then 1 else if first < 0xE0 then 2 else if first < 0xF0 then 3 else 4
  }

  function CodePoint(t: Bytes): int
    requires t != [] && |t| >= Width(t[0])
  {
    match Width(t[0])
    case 1 => t[0]
    case 2 => (t[0] as int - 0xC0) * 64 + (t[1] as int - 0x80)
    case 3 => ((t[0] as int - 0xE0) * 64 + (t[1] as int - 0x80)) * 64 + (t[2] as int - 0x80)
    case _ =>
      (((t[0] as int - 0xF0) * 64 + (t[1] as int - 0x80)) * 64 + (t[2] as int - 0x80)) * 64 + (t[3] as int - 0x80)
  }

  lemma CharReadBack(c: char)
    ensures Width(EncodeChar(c)[0]) == |EncodeChar(c)| && CodePoint(EncodeChar(c)) == c as int
  {
    var n := c as int;
    assert n == n / 64 * 64 + n % 64;
    assert n / 64 == n / 64 / 64 * 64 + n / 64 % 64;
    assert n / 64 / 64 == n / 64 / 64 / 64 * 64 + n / 64 / 64 % 64;
  }

  lemma HeadReadBack(c: char, rest: Bytes)
    ensures var t := EncodeChar(c) + rest;
            Width(t[0]) == |EncodeChar(c)| && CodePoint(t) == c as int
  {
    CharReadBack(c);
    var e := EncodeChar(c);
    assert forall i :: 0 <= i < |e| ==> (e + rest)[i] == e[i];
  }

  lemma EncodeIsInjective(a: string, b: string)
    requires Encode(a) == Encode(b)
    ensures a == b
  {
    if a == "" || b == "" {
    } else {
      HeadReadBack(a[0], Encode(a[1..]));
      HeadReadBack(b[0], Encode(b[1..]));
      assert a[0] as int == b[0] as int;
      assert Encode(a)[|EncodeChar(a[0])|..] == Encode(a[1..]);
      assert Encode(b)[|EncodeChar(b[0])|..] == Encode(b[1..]);
      EncodeIsInjective(a[1..], b[1..]);
      assert a == [a[0]] + a[1..] && b == [b[0]] + b[1..];
    }
  }
}
