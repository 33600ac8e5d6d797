/** Two values print alike exactly when they are equal with objects read as maps. */
module KeyOrder {
  import opened Json
  import opened Types
  import opened Canonical
  import opened Reader

  /** No object of the value repeats a key; a Python dict cannot. */
  ghost predicate DistinctKeys(v: Value) {
    match v
    case List(items) => forall i :: 0 <= i < |items| ==> DistinctKeys(items[i])
    case Obj(ms) => Distinct(ms) && forall i :: 0 <= i < |ms| ==> DistinctMember(ms[i])
    case _ => true
  }

  ghost predicate DistinctMember(m: Member) {
    DistinctKeys(m.value)
  }

  /** Equal with the members of each object read as a map. */
  ghost predicate Same(v: Value, w: Value)
    decreases v, 0
  {
    match (v, w)
    case (List(a), List(b)) => |a| == |b| && forall i :: 0 <= i < |a| ==> Same(a[i], b[i])
    case (Obj(a), Obj(b)) =>
      |a| == |b| && AllFoundIn(a, b) && AllFoundAmong(a, b)
    case _ => v == w
  }

  ghost predicate SameMember(m: Member, n: Member)
    decreases m, 0
  {
    m.name == n.name && Same(m.value, n.value)
  }

  ghost predicate AllFoundIn(a: seq<Member>, b: seq<Member>)
    decreases a, 2
  {
    forall i :: 0 <= i < |a| ==> FoundIn(a[i], b)
  }

  ghost predicate AllFoundAmong(a: seq<Member>, b: seq<Member>)
    decreases a, 2
  {
    forall j :: 0 <= j < |b| ==> FoundAmong(a, b[j])
  }

  ghost predicate FoundIn(m: Member, b: seq<Member>)
    decreases m, 1
  {
    exists j :: 0 <= j < |b| && SameMember(m, b[j])
  }

  ghost predicate FoundAmong(a: seq<Member>, n: Member)
    decreases a, 0
  {
    exists i :: 0 <= i < |a| && SameMember(a[i], n)
  }

  // ----- Key order is a strict total order -----

  lemma {:induction false} BeforeIsTotal(a: string, b: string)
    ensures a == b || Before(a, b) || Before(b, a)
    ensures !(Before(a, b) && (a == b || Before(b, a)))
    decreases |a|
  {
    if a != "" && b != "" {
      BeforeIsTotal(a[1..], b[1..]);
      if a[0] == b[0] && a[1..] == b[1..] {
        assert a == [a[0]] + a[1..] && b == [b[0]] + b[1..];
      }
    }
  }

  lemma {:induction false} BeforeIsTransitive(a: string, b: string, c: string)
    requires Before(a, b) && Before(b, c)
    ensures Before(a, c)
    decreases |a|
  {
    if a != "" && a[0] == b[0] == c[0] {
      BeforeIsTransitive(a[1..], b[1..], c[1..]);
    }
  }

  // ----- Sorting -----

  ghost predicate SameElements(a: seq<Member>, b: seq<Member>) {
    forall x :: x in a <==> x in b
  }

  ghost predicate Ascending(ms: seq<Member>) {
    forall i, j :: 0 <= i < j < |ms| ==> Before(ms[i].name, ms[j].name)
  }

  lemma {:induction false} InsertAscends(m: Member, ms: seq<Member>)
    requires Ascending(ms) && forall i :: 0 <= i < |ms| ==> ms[i].name != m.name
    ensures Ascending(Insert(m, ms))
    ensures |Insert(m, ms)| == |ms| + 1
    ensures forall x :: x in Insert(m, ms) <==> x == m || x in ms
  {
    if ms == [] {
    } else if Before(ms[0].name, m.name) {
      InsertAscends(m, ms[1..]);
      var r := Insert(m, ms[1..]);
      forall j | 0 <= j < |r| ensures Before(ms[0].name, r[j].name) {
        assert r[j] in r;
      }
    } else {
      BeforeIsTotal(ms[0].name, m.name);
      forall j | 0 <= j < |ms| ensures Before(m.name, ms[j].name) {
        if j > 0 { BeforeIsTransitive(m.name, ms[0].name, ms[j].name); }
      }
    }
  }

  lemma {:induction false} SortedAscends(ms: seq<Member>)
    requires Distinct(ms)
    ensures Ascending(Sorted(ms)) && |Sorted(ms)| == |ms|
    ensures forall x :: x in Sorted(ms) <==> x in ms
  {
    if ms != [] {
      SortedAscends(ms[1..]);
      var rest := Sorted(ms[1..]);
      forall i | 0 <= i < |rest| ensures rest[i].name != ms[0].name {
        assert rest[i] in rest;
      }
      InsertAscends(ms[0], rest);
    }
  }

  lemma AscendingIsUnique(a: seq<Member>, b: seq<Member>)
    requires Ascending(a) && Ascending(b) && SameElements(a, b)
    ensures a == b
  {
    assert b != [] ==> b[0] in a;
    if a != [] {
      assert a[0] in b;
      var j :| 0 <= j < |b| && b[j] == a[0];
      assert b[0] in a;
      var i :| 0 <= i < |a| && a[i] == b[0];
      BeforeIsTotal(a[0].name, b[0].name);
      assert i == 0;
      forall x ensures x in a[1..] <==> x in b[1..] {
        TailMembers(a, x);
        TailMembers(b, x);
      }
      AscendingIsUnique(a[1..], b[1..]);
      assert a == [a[0]] + a[1..] && b == [b[0]] + b[1..];
    }
  }

  lemma TailMembers(a: seq<Member>, x: Member)
    requires Ascending(a) && a != []
    ensures x in a[1..] <==> x in a && x != a[0]
  {
    BeforeIsTotal(a[0].name, a[0].name);
  }

  // ----- Same text, same value -----

  /** The members of two ordered objects agree as sets exactly when the objects agree as
      maps. */
  lemma {:induction false} MembersAgree(a: seq<Member>, b: seq<Member>)
    requires Distinct(a) && Distinct(b)
    ensures Sorted(a) == Sorted(b) <==> |a| == |b| && SameElements(a, b)
  {
    SortedAscends(a);
    SortedAscends(b);
    if SameElements(a, b) {
      AscendingIsUnique(Sorted(a), Sorted(b));
    }
    if Sorted(a) == Sorted(b) {
      forall x ensures x in a <==> x in b {
        assert x in Sorted(a) <==> x in Sorted(b);
      }
    }
  }

  lemma {:induction false} OrderedAgree(v: Value, w: Value)
    requires DistinctKeys(v) && DistinctKeys(w)
    ensures Ordered(v) == Ordered(w) <==> Same(v, w)
    decreases v, 0
  {
    match (v, w)
    case (List(a), List(b)) =>
      if |a| == |b| {
        forall i | 0 <= i < |a| ensures Ordered(a[i]) == Ordered(b[i]) <==> Same(a[i], b[i]) {
          OrderedAgree(a[i], b[i]);
        }
        if Ordered(v) == Ordered(w) {
          forall i | 0 <= i < |a| ensures Same(a[i], b[i]) {
            assert OrderedItems(a)[i] == OrderedItems(b)[i];
          }
        }
      }
    case (Obj(a), Obj(b)) => ObjectsAgree(a, b);
    case _ =>
  }

  lemma {:induction false} MemberAgrees(m: Member, n: Member)
    requires DistinctMember(m) && DistinctMember(n)
    ensures Member(m.name, Ordered(m.value)) == Member(n.name, Ordered(n.value)) <==> SameMember(m, n)
    decreases m, 1
  {
    OrderedAgree(m.value, n.value);
  }

  lemma ObjectsAgree(a: seq<Member>, b: seq<Member>)
    requires DistinctKeys(Obj(a)) && DistinctKeys(Obj(b))
    ensures Ordered(Obj(a)) == Ordered(Obj(b)) <==> Same(Obj(a), Obj(b))
    decreases a, 3
  {
    var oa, ob := OrderedMembers(a), OrderedMembers(b);
    MembersAgree(oa, ob);
    PairsAgree(a, b);
    MatchedAsSets(a, b, oa, ob);
  }

  lemma {:induction false} PairsAgree(a: seq<Member>, b: seq<Member>)
    requires DistinctKeys(Obj(a)) && DistinctKeys(Obj(b))
    ensures PairsMatch(a, b, OrderedMembers(a), OrderedMembers(b))
    decreases a, 1
  {
    forall i, j | 0 <= i < |a| && 0 <= j < |b|
      ensures OrderedMembers(a)[i] == OrderedMembers(b)[j] <==> SameMember(a[i], b[j])
    {
      MemberAgrees(a[i], b[j]);
    }
  }

  /** Two lists hold the same ordered members when each member of one has a match in the
      other. */
  lemma {:induction false} MatchedAsSets(a: seq<Member>, b: seq<Member>, oa: seq<Member>, ob: seq<Member>)
    requires |oa| == |a| && |ob| == |b| && PairsMatch(a, b, oa, ob)
    ensures SameElements(oa, ob) <==> AllFoundIn(a, b) && AllFoundAmong(a, b)
  {
    if SameElements(oa, ob) {
      forall i | 0 <= i < |a| ensures FoundIn(a[i], b) {
        assert oa[i] in ob;
        var j :| 0 <= j < |ob| && ob[j] == oa[i];
        assert SameMember(a[i], b[j]);
      }
      forall j | 0 <= j < |b| ensures FoundAmong(a, b[j]) {
        assert ob[j] in oa;
        var i :| 0 <= i < |oa| && oa[i] == ob[j];
        assert SameMember(a[i], b[j]);
      }
    }
    if AllFoundIn(a, b) && AllFoundAmong(a, b) {
      MatchesAreElements(a, b, oa, ob);
    }
  }

  ghost predicate PairsMatch(a: seq<Member>, b: seq<Member>, oa: seq<Member>, ob: seq<Member>)
    requires |oa| == |a| && |ob| == |b|
  {
    forall i, j :: 0 <= i < |a| && 0 <= j < |b| ==> (oa[i] == ob[j] <==> SameMember(a[i], b[j]))
  }

  lemma {:induction false} MatchesAreElements(a: seq<Member>, b: seq<Member>, oa: seq<Member>, ob: seq<Member>)
    requires |oa| == |a| && |ob| == |b| && PairsMatch(a, b, oa, ob)
    requires AllFoundIn(a, b) && AllFoundAmong(a, b)
    ensures SameElements(oa, ob)
  {
    forall i | 0 <= i < |a| ensures oa[i] in ob {
      MatchIsElement(a, b, oa, ob, i);
    }
    forall j | 0 <= j < |b| ensures ob[j] in oa {
      ElementIsMatch(a, b, oa, ob, j);
    }
  }

  lemma {:induction false} MatchIsElement(a: seq<Member>, b: seq<Member>, oa: seq<Member>, ob: seq<Member>, i: nat)
    requires |oa| == |a| && |ob| == |b| && PairsMatch(a, b, oa, ob)
    requires i < |a| && FoundIn(a[i], b)
    ensures oa[i] in ob
  {
    var j :| 0 <= j < |b| && SameMember(a[i], b[j]);
    assert oa[i] == ob[j];
  }

  lemma {:induction false} ElementIsMatch(a: seq<Member>, b: seq<Member>, oa: seq<Member>, ob: seq<Member>, j: nat)
    requires |oa| == |a| && |ob| == |b| && PairsMatch(a, b, oa, ob)
    requires j < |b| && FoundAmong(a, b[j])
    ensures ob[j] in oa
  {
    var i :| 0 <= i < |a| && SameMember(a[i], b[j]);
    assert oa[i] == ob[j];
  }

  /** Canonical text decides equality up to key order. */
  lemma {:induction false} CanonDecidesSame(v: Value, w: Value)
    requires DistinctKeys(v) && DistinctKeys(w)
    ensures Canon(v) == Canon(w) <==> Same(v, w)
  {
    CanonReadsBack(v);
    CanonReadsBack(w);
    OrderedAgree(v, w);
  }
}
