/** Idempotency keys: derived from the action and its argument map, or supplied and
    namespaced. */
module Idempotency {
  import opened Json
  import opened Types
  import opened Canonical
  import opened KeyOrder
  import opened SuffixFree
  import opened Utf8
  import opened Hashing

  const KEY_DOMAIN := "airlock/v1"

  datatype Derived = Derived(key: string) | Refused

  function HexPair(b: Byte): string {
    [Hex(b / 16), Hex(b % 16)]
  }

  function HexText(t: Bytes): string {
    if t == [] then "" else HexPair(t[0]) + HexText(t[1..])
  }

  /** What is hashed: domain, action and canonical map, with no separator. */
  function Preimage(action: string, members: seq<Member>): Bytes {
    Encode(KEY_DOMAIN) + Encode(action) + Encode(Canon(Obj(members)))
  }

  function KeyFor(hash: Hash, action: PyStr, argMap: PyObject): Derived {
    if !action.Clean? || action.text == "" then Refused
    else match Check(argMap)
      case Good(Obj(members)) => Derived(HexText(hash(Preimage(action.text, members))))
      case _ => Refused
  }

  /** The hasher is fed the three parts one after the other. */
  method DeriveKey(hash: Hash, action: PyStr, argMap: PyObject) returns (r: Derived)
    requires argMap.PyDict?
    ensures r == KeyFor(hash, action, argMap)
  {
    if action == Clean("") {
      return Refused;
    }
    var fed := Encode(KEY_DOMAIN);
    if action.WithSurrogate? {
      return Refused;
    }
    fed := fed + Encode(action.text);
    var canonical := CanonicalJson(argMap);
    if canonical.Bad? {
      return Refused;
    }
    fed := fed + Encode(canonical.value);
    r := Derived(HexText(hash(fed)));
  }

  lemma HexIsInjective(a: nat, b: nat)
    requires a < 16 && b < 16 && Hex(a) == Hex(b)
    ensures a == b
  {
  }

  lemma {:induction false} HexTextIsInjective(a: Bytes, b: Bytes)
    requires HexText(a) == HexText(b)
    ensures a == b
  {
    if a != [] && b != [] {
      assert HexText(a)[..2] == HexPair(a[0]) && HexText(a)[2..] == HexText(a[1..]);
      assert HexText(b)[..2] == HexPair(b[0]) && HexText(b)[2..] == HexText(b[1..]);
      assert HexText(a)[0] == HexText(b)[0] && HexText(a)[1] == HexText(b)[1];
      HexIsInjective(a[0] / 16, b[0] / 16);
      HexIsInjective(a[0] % 16, b[0] % 16);
      HexTextIsInjective(a[1..], b[1..]);
      assert a == [a[0]] + a[1..] && b == [b[0]] + b[1..];
    }
  }

  /** Without separators the text still splits in only one way, whatever braces or quotes
      the action type contains, because no canonical object ends with another. */
  lemma SplitsOneWay(action: string, ms: seq<Member>, action': string, ns: seq<Member>)
    requires action + Canon(Obj(ms)) == action' + Canon(Obj(ns))
    requires |action| <= |action'|
    ensures action == action' && Canon(Obj(ms)) == Canon(Obj(ns))
  {
    var whole := action + Canon(Obj(ms));
    var i := |action'| - |action|;
    var om, on := Sorted(OrderedMembers(ms)), Sorted(OrderedMembers(ns));
    ScanObject(on);
    assert whole[|action|..] == Canon(Obj(ms)) && whole[|action'|..] == Canon(Obj(ns));
    assert Canon(Obj(ms))[i..] == Canon(Obj(ns));
    if 0 < i {
      NoProperSuffix(om, on, i);
    }
    assert whole[..|action|] == action && whole[..|action'|] == action';
  }

  lemma SamePrefix(p: Bytes, a: Bytes, b: Bytes)
    requires p + a == p + b
    ensures a == b
  {
    assert (p + a)[|p|..] == a && (p + b)[|p|..] == b;
  }

  lemma PreimageIsOneText(action: string, ms: seq<Member>)
    ensures Preimage(action, ms) == Encode(KEY_DOMAIN) + Encode(action + Canon(Obj(ms)))
  {
    EncodeConcat(action, Canon(Obj(ms)));
  }

  lemma PreimageDetermines(action: string, ms: seq<Member>, action': string, ns: seq<Member>)
    requires Preimage(action, ms) == Preimage(action', ns)
    ensures action == action' && Canon(Obj(ms)) == Canon(Obj(ns))
  {
    var a, b := action + Canon(Obj(ms)), action' + Canon(Obj(ns));
    PreimageIsOneText(action, ms);
    PreimageIsOneText(action', ns);
    SamePrefix(Encode(KEY_DOMAIN), Encode(a), Encode(b));
    EncodeIsInjective(a, b);
    if |action| <= |action'| {
      SplitsOneWay(action, ms, action', ns);
    } else {
      SplitsOneWay(action', ns, action, ms);
    }
  }

  /** Two derived keys are equal exactly when the action types are equal and the argument
      maps are equal up to key order; or else their two preimages collide under the hash. */
  lemma KeysDetermineCalls(hash: Hash, action: string, ms: seq<Member>, action': string, ns: seq<Member>)
    requires DistinctKeys(Obj(ms)) && DistinctKeys(Obj(ns))
    ensures var p, q := Preimage(action, ms), Preimage(action', ns);
            HexText(hash(p)) == HexText(hash(q)) <==>
              || (action == action' && Same(Obj(ms), Obj(ns)))
              || (p != q && hash(p) == hash(q))
  {
    var p, q := Preimage(action, ms), Preimage(action', ns);
    CanonDecidesSame(Obj(ms), Obj(ns));
    if HexText(hash(p)) == HexText(hash(q)) {
      HexTextIsInjective(hash(p), hash(q));
    }
    if p == q {
      PreimageDetermines(action, ms, action', ns);
    }
  }

  // ----- Supplied keys -----

  /** The ledger key of an override: the first colon ends the action type. */
  function NamespaceUserKey(action: string, userKey: string): Derived {
    if action == "" || ':' in action || userKey == "" then Refused
    else Derived(action + ":" + userKey)
  }

  lemma NamespacedIsInjective(action: string, userKey: string, action': string, userKey': string)
    requires NamespaceUserKey(action, userKey).Derived?
    requires NamespaceUserKey(action, userKey) == NamespaceUserKey(action', userKey')
    ensures action == action' && userKey == userKey'
  {
    var k := action + ":" + userKey;
    assert k[|action|] == ':' && k[|action'|] == ':';
    assert forall i :: 0 <= i < |action| ==> k[i] == action[i] && k[i] != ':';
    assert forall i :: 0 <= i < |action'| ==> k[i] == action'[i] && k[i] != ':';
    assert k[..|action|] == action && k[..|action'|] == action';
    assert k[|action| + 1..] == userKey && k[|action'| + 1..] == userKey';
  }

  lemma {:induction false} HexTextHasNoColon(t: Bytes)
    ensures ':' !in HexText(t)
  {
    if t != [] { HexTextHasNoColon(t[1..]); }
  }

  /** A supplied key is never equal to a derived one. */
  lemma NamespacedIsNotDerived(hash: Hash, action: PyStr, argMap: PyObject, action': string, userKey: string)
    requires KeyFor(hash, action, argMap).Derived? && NamespaceUserKey(action', userKey).Derived?
    ensures KeyFor(hash, action, argMap).key != NamespaceUserKey(action', userKey).key
  {
    match Check(argMap)
    case Good(Obj(members)) =>
      HexTextHasNoColon(hash(Preimage(action.text, members)));
      assert (action' + ":" + userKey)[|action'|] == ':';
    case _ =>
  }
}
