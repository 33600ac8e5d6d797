/** Recovery makes the call the owner made: binding the argument map again gives every
    parameter what it was bound to. */
module Rebinding {
  import opened Types
  import opened Canonical
  import opened Arguments

  type Args = map<string, PyObject>

  predicate TakesPlaces(kind: Kind) {
    kind.Positional() || kind.VarPos?
  }

  predicate IgnoredPlace(sig: seq<Param>, ignored: set<string>, i: nat)
    requires i < |sig|
  {
    sig[i].kind.Positional() && sig[i].name in ignored
  }

  /** No ignored positional parameter stands before a kept one, or before a kept *args. */
  ghost predicate KeepsPlaces(sig: seq<Param>, ignored: set<string>) {
    forall i, j :: 0 <= i < j < |sig| && IgnoredPlace(sig, ignored, i) && TakesPlaces(sig[j].kind) ==>
      sig[j].name in ignored
  }

  /** Entries of **kwargs never carry the name of a parameter a keyword can reach. */
  ghost predicate ExtrasApart(sig: seq<Param>, b: seq<Slot>)
    requires Shaped(sig, b)
  {
    forall i :: 0 <= i < |sig| && b[i].Extras? ==> b[i].entries.Keys !! KeywordNames(sig)
  }

  /** What recovery should bind: the kept values, and the ignored ones at their defaults. */
  function Expected(sig: seq<Param>, b: seq<Slot>, ignored: set<string>, i: nat): Option<Slot>
    requires Shaped(sig, b) && i < |sig|
  {
    if sig[i].name !in ignored
    then Some(match b[i] case Extras(entries) => Extras(entries - ignored) case slot => slot)
    else
      match sig[i].kind
      case VarPos => Some(Many([]))
      case VarKey => Some(Extras(map[]))
      case _ => DefaultOf(sig[i])
  }

  // ----- What the map holds -----

  predicate Kept(sig: seq<Param>, ignored: set<string>, j: nat)
    requires j < |sig|
  {
    sig[j].name !in ignored
  }

  /** The entries of **kwargs that reach the map from the first `i` parameters. */
  function KeptExtras(sig: seq<Param>, b: seq<Slot>, ignored: set<string>, i: nat): Args
    requires Shaped(sig, b) && i <= |sig|
  {
    if i == 0 then map[]
    else if Kept(sig, ignored, i - 1) && b[i - 1].Extras? then b[i - 1].entries - ignored
    else KeptExtras(sig, b, ignored, i - 1)
  }

  function NamesUpTo(sig: seq<Param>, ignored: set<string>, i: nat): set<string>
    requires i <= |sig|
  {
    set j | 0 <= j < i && Kept(sig, ignored, j) && !sig[j].kind.VarKey? :: sig[j].name
  }

  function Stored(s: Slot): PyObject
    requires !s.Extras?
  {
    match s case One(v) => v case Many(items) => PyList(items)
  }

  ghost predicate MapFacts(sig: seq<Param>, b: seq<Slot>, ignored: set<string>, i: nat, m: Args)
    requires Shaped(sig, b) && i <= |sig|
  {
    var extras := KeptExtras(sig, b, ignored, i);
    && m.Keys == NamesUpTo(sig, ignored, i) + extras.Keys
    && NamesUpTo(sig, ignored, i) !! extras.Keys
    && (forall j :: 0 <= j < i && Kept(sig, ignored, j) && !sig[j].kind.VarKey? ==> m[sig[j].name] == Stored(b[j]))
    && (forall k :: k in extras ==> m[k] == extras[k] && k !in ignored)
  }

  lemma {:induction false} NoExtrasYet(sig: seq<Param>, b: seq<Slot>, ignored: set<string>, i: nat)
    requires WellFormed(sig) && Shaped(sig, b) && i < |sig|
    ensures KeptExtras(sig, b, ignored, i) == map[]
  {
    if i > 0 {
      assert sig[i - 1].kind.Rank() <= sig[i].kind.Rank();
      assert !sig[i - 1].kind.VarKey?;
      NoExtrasYet(sig, b, ignored, i - 1);
    }
  }

  lemma NamesGrow(sig: seq<Param>, ignored: set<string>, i: nat)
    requires 0 < i <= |sig|
    ensures NamesUpTo(sig, ignored, i) == NamesUpTo(sig, ignored, i - 1)
              + (if Kept(sig, ignored, i - 1) && !sig[i - 1].kind.VarKey? then {sig[i - 1].name} else {})
  {
  }

  lemma MapHoldsStep(sig: seq<Param>, b: seq<Slot>, ignored: set<string>, i: nat, m: Args)
    requires WellFormed(sig) && Shaped(sig, b) && 0 < i <= |sig| && Kept(sig, ignored, i - 1)
    requires !sig[i - 1].kind.VarKey?
    requires MapUpTo(sig, b, ignored, i - 1) == Some(m) && MapFacts(sig, b, ignored, i - 1, m)
    requires KeptExtras(sig, b, ignored, i - 1) == map[]
    requires NamesUpTo(sig, ignored, i) == NamesUpTo(sig, ignored, i - 1) + {sig[i - 1].name}
    ensures MapUpTo(sig, b, ignored, i) == Some(m[sig[i - 1].name := Stored(b[i - 1])])
    ensures MapFacts(sig, b, ignored, i, m[sig[i - 1].name := Stored(b[i - 1])])
  {
  }

  lemma MapHoldsSkip(sig: seq<Param>, b: seq<Slot>, ignored: set<string>, i: nat, m: Args)
    requires WellFormed(sig) && Shaped(sig, b) && 0 < i <= |sig| && !Kept(sig, ignored, i - 1)
    requires MapUpTo(sig, b, ignored, i - 1) == Some(m) && MapFacts(sig, b, ignored, i - 1, m)
    requires NamesUpTo(sig, ignored, i) == NamesUpTo(sig, ignored, i - 1)
    ensures MapUpTo(sig, b, ignored, i) == Some(m) && MapFacts(sig, b, ignored, i, m)
  {
  }

  lemma MapHoldsExtras(sig: seq<Param>, b: seq<Slot>, ignored: set<string>, i: nat, m: Args)
    requires WellFormed(sig) && Shaped(sig, b) && 0 < i <= |sig| && Kept(sig, ignored, i - 1) && sig[i - 1].kind.VarKey?
    requires MapUpTo(sig, b, ignored, i - 1) == Some(m) && MapFacts(sig, b, ignored, i - 1, m)
    requires KeptExtras(sig, b, ignored, i - 1) == map[]
    requires NamesUpTo(sig, ignored, i) == NamesUpTo(sig, ignored, i - 1) && MapUpTo(sig, b, ignored, i).Some?
    ensures MapFacts(sig, b, ignored, i, MapUpTo(sig, b, ignored, i).value)
  {
  }

  lemma {:induction false} MapHolds(sig: seq<Param>, b: seq<Slot>, ignored: set<string>, i: nat)
    requires WellFormed(sig) && Shaped(sig, b) && i <= |sig|
    requires MapUpTo(sig, b, ignored, i).Some?
    ensures MapFacts(sig, b, ignored, i, MapUpTo(sig, b, ignored, i).value)
  {
    if i > 0 {
      var m := MapUpTo(sig, b, ignored, i - 1).value;
      MapHolds(sig, b, ignored, i - 1);
      NoExtrasYet(sig, b, ignored, i - 1);
      NamesGrow(sig, ignored, i);
      if !Kept(sig, ignored, i - 1) {
        MapHoldsSkip(sig, b, ignored, i, m);
      } else if !sig[i - 1].kind.VarKey? {
        MapHoldsStep(sig, b, ignored, i, m);
      } else {
        MapHoldsExtras(sig, b, ignored, i, m);
      }
    }
  }

  // ----- What is gathered from it -----

  function PosVals(sig: seq<Param>, b: seq<Slot>, ignored: set<string>, i: nat): seq<PyObject>
    requires Shaped(sig, b) && i <= |sig|
  {
    if i == 0 then []
    else
      PosVals(sig, b, ignored, i - 1) +
      if !Kept(sig, ignored, i - 1) then []
      else
        match sig[i - 1].kind
        case VarPos => b[i - 1].items
        case KeyOnly => []
        case VarKey => []
        case _ => [b[i - 1].value]
  }

  function KeywordsUpTo(sig: seq<Param>, ignored: set<string>, i: nat): set<string>
    requires i <= |sig|
  {
    set j | 0 <= j < i && Kept(sig, ignored, j) && sig[j].kind.KeyOnly? :: sig[j].name
  }

  lemma KeywordsGrow(sig: seq<Param>, ignored: set<string>, i: nat)
    requires 0 < i <= |sig|
    ensures KeywordsUpTo(sig, ignored, i) == KeywordsUpTo(sig, ignored, i - 1)
              + (if Kept(sig, ignored, i - 1) && sig[i - 1].kind.KeyOnly? then {sig[i - 1].name} else {})
  {
  }

  ghost predicate GatherFacts(sig: seq<Param>, b: seq<Slot>, ignored: set<string>, i: nat, m: Args, g: Gathered)
    requires Shaped(sig, b) && i <= |sig|
  {
    && g.positional == PosVals(sig, b, ignored, i)
    && (forall k :: k in g.remaining <==> k in m && k !in NamesUpTo(sig, ignored, i))
    && (forall k :: k in g.remaining ==> g.remaining[k] == m[k])
    && g.keyword.Keys == KeywordsUpTo(sig, ignored, i)
    && (forall j :: 0 <= j < i && Kept(sig, ignored, j) && sig[j].kind.KeyOnly? ==>
          sig[j].name in g.keyword && g.keyword[sig[j].name] == Stored(b[j]))
  }

  lemma {:induction false} GatherHolds(sig: seq<Param>, b: seq<Slot>, ignored: set<string>, i: nat, m: Args)
    requires WellFormed(sig) && Shaped(sig, b) && i <= |sig|
    requires MapFacts(sig, b, ignored, |sig|, m)
    ensures GatherUpTo(sig, m, i).Some? && GatherFacts(sig, b, ignored, i, m, GatherUpTo(sig, m, i).value)
  {
    if i > 0 {
      GatherHolds(sig, b, ignored, i - 1, m);
      NamesGrow(sig, ignored, i);
      GatherStep(sig, b, ignored, i, m, GatherUpTo(sig, m, i - 1).value);
    }
  }

  lemma TakenWhenKept(sig: seq<Param>, b: seq<Slot>, ignored: set<string>, i: nat, m: Args)
    requires WellFormed(sig) && Shaped(sig, b) && 0 < i <= |sig|
    requires MapFacts(sig, b, ignored, |sig|, m) && !sig[i - 1].kind.VarKey?
    ensures sig[i - 1].name !in NamesUpTo(sig, ignored, i - 1)
    ensures Kept(sig, ignored, i - 1) ==> sig[i - 1].name in m && m[sig[i - 1].name] == Stored(b[i - 1])
  {
    if Kept(sig, ignored, i - 1) { assert sig[i - 1].name in NamesUpTo(sig, ignored, |sig|); }
  }

  lemma NotTakenWhenIgnored(sig: seq<Param>, b: seq<Slot>, ignored: set<string>, i: nat, m: Args)
    requires Shaped(sig, b) && 0 < i <= |sig|
    requires MapFacts(sig, b, ignored, |sig|, m) && !Kept(sig, ignored, i - 1)
    ensures sig[i - 1].name !in m
  {
  }

  lemma GatherStep(sig: seq<Param>, b: seq<Slot>, ignored: set<string>, i: nat, m: Args, g: Gathered)
    requires WellFormed(sig) && Shaped(sig, b) && 0 < i <= |sig|
    requires MapFacts(sig, b, ignored, |sig|, m)
    requires GatherUpTo(sig, m, i - 1) == Some(g) && GatherFacts(sig, b, ignored, i - 1, m, g)
    ensures GatherUpTo(sig, m, i).Some? && GatherFacts(sig, b, ignored, i, m, GatherUpTo(sig, m, i).value)
  {
    NamesGrow(sig, ignored, i);
    KeywordsGrow(sig, ignored, i);
    if !Kept(sig, ignored, i - 1) {
      NotTakenWhenIgnored(sig, b, ignored, i, m);
      GatherNone(sig, b, ignored, i, m, g);
    } else if sig[i - 1].kind.VarKey? {
      GatherNone(sig, b, ignored, i, m, g);
    } else {
      TakenWhenKept(sig, b, ignored, i, m);
      if sig[i - 1].kind.KeyOnly? {
        GatherKeyword(sig, b, ignored, i, m, g);
      } else {
        GatherPlace(sig, b, ignored, i, m, g);
      }
    }
  }

  /** A parameter whose name the map does not hold, or **kwargs, takes nothing. */
  lemma GatherNone(sig: seq<Param>, b: seq<Slot>, ignored: set<string>, i: nat, m: Args, g: Gathered)
    requires WellFormed(sig) && Shaped(sig, b) && 0 < i <= |sig|
    requires GatherUpTo(sig, m, i - 1) == Some(g) && GatherFacts(sig, b, ignored, i - 1, m, g)
    requires if Kept(sig, ignored, i - 1) then sig[i - 1].kind.VarKey? else sig[i - 1].name !in m
    requires NamesUpTo(sig, ignored, i) == NamesUpTo(sig, ignored, i - 1)
    requires KeywordsUpTo(sig, ignored, i) == KeywordsUpTo(sig, ignored, i - 1)
    ensures GatherUpTo(sig, m, i) == Some(g) && GatherFacts(sig, b, ignored, i, m, g)
  {
  }

  lemma GatherPlace(sig: seq<Param>, b: seq<Slot>, ignored: set<string>, i: nat, m: Args, g: Gathered)
    requires WellFormed(sig) && Shaped(sig, b) && 0 < i <= |sig| && Kept(sig, ignored, i - 1)
    requires TakesPlaces(sig[i - 1].kind)
    requires GatherUpTo(sig, m, i - 1) == Some(g) && GatherFacts(sig, b, ignored, i - 1, m, g)
    requires sig[i - 1].name !in NamesUpTo(sig, ignored, i - 1)
    requires NamesUpTo(sig, ignored, i) == NamesUpTo(sig, ignored, i - 1) + {sig[i - 1].name}
    requires sig[i - 1].name in m && m[sig[i - 1].name] == Stored(b[i - 1])
    requires KeywordsUpTo(sig, ignored, i) == KeywordsUpTo(sig, ignored, i - 1)
    ensures GatherUpTo(sig, m, i).Some? && GatherFacts(sig, b, ignored, i, m, GatherUpTo(sig, m, i).value)
  {
  }

  lemma GatherKeyword(sig: seq<Param>, b: seq<Slot>, ignored: set<string>, i: nat, m: Args, g: Gathered)
    requires WellFormed(sig) && Shaped(sig, b) && 0 < i <= |sig| && Kept(sig, ignored, i - 1)
    requires sig[i - 1].kind.KeyOnly?
    requires GatherUpTo(sig, m, i - 1) == Some(g) && GatherFacts(sig, b, ignored, i - 1, m, g)
    requires sig[i - 1].name !in NamesUpTo(sig, ignored, i - 1)
    requires NamesUpTo(sig, ignored, i) == NamesUpTo(sig, ignored, i - 1) + {sig[i - 1].name}
    requires sig[i - 1].name in m && m[sig[i - 1].name] == Stored(b[i - 1])
    requires KeywordsUpTo(sig, ignored, i) == KeywordsUpTo(sig, ignored, i - 1) + {sig[i - 1].name}
    ensures GatherUpTo(sig, m, i).Some? && GatherFacts(sig, b, ignored, i, m, GatherUpTo(sig, m, i).value)
  {
    KeywordTaken(sig, m, i, g);
    KeywordFacts(sig, b, ignored, i, m, g);
  }

  lemma KeywordFacts(sig: seq<Param>, b: seq<Slot>, ignored: set<string>, i: nat, m: Args, g: Gathered)
    requires WellFormed(sig) && Shaped(sig, b) && 0 < i <= |sig| && Kept(sig, ignored, i - 1)
    requires sig[i - 1].kind.KeyOnly? && GatherFacts(sig, b, ignored, i - 1, m, g)
    requires NamesUpTo(sig, ignored, i) == NamesUpTo(sig, ignored, i - 1) + {sig[i - 1].name}
    requires sig[i - 1].name in m && m[sig[i - 1].name] == Stored(b[i - 1])
    requires KeywordsUpTo(sig, ignored, i) == KeywordsUpTo(sig, ignored, i - 1) + {sig[i - 1].name}
    ensures var name := sig[i - 1].name;
            GatherFacts(sig, b, ignored, i, m, Gathered(g.positional, g.keyword[name := m[name]], g.remaining - {name}))
  {
    var name := sig[i - 1].name;
    var keyword := g.keyword[name := m[name]];
    assert PosVals(sig, b, ignored, i) == PosVals(sig, b, ignored, i - 1);
    assert keyword.Keys == g.keyword.Keys + {name};
    forall j | 0 <= j < i && Kept(sig, ignored, j) && sig[j].kind.KeyOnly?
      ensures sig[j].name in keyword && keyword[sig[j].name] == Stored(b[j])
    {
      if j < i - 1 { assert sig[j].name != name; }
    }
  }

  lemma KeywordTaken(sig: seq<Param>, m: Args, i: nat, g: Gathered)
    requires 0 < i <= |sig| && sig[i - 1].kind.KeyOnly? && GatherUpTo(sig, m, i - 1) == Some(g)
    requires sig[i - 1].name in g.remaining && sig[i - 1].name in m && g.remaining[sig[i - 1].name] == m[sig[i - 1].name]
    ensures var name := sig[i - 1].name;
            GatherUpTo(sig, m, i) == Some(Gathered(g.positional, g.keyword[name := m[name]], g.remaining - {name}))
  {
  }

  // ----- Positions -----

  /** What comes later only adds to the end. */
  lemma {:induction false} PosValsGrow(sig: seq<Param>, b: seq<Slot>, ignored: set<string>, i: nat, n: nat)
    requires Shaped(sig, b) && i <= n <= |sig|
    ensures PosVals(sig, b, ignored, i) <= PosVals(sig, b, ignored, n)
    ensures (forall j :: i <= j < n && TakesPlaces(sig[j].kind) ==> !Kept(sig, ignored, j)) ==>
              PosVals(sig, b, ignored, i) == PosVals(sig, b, ignored, n)
    decreases n
  {
    if i < n { PosValsGrow(sig, b, ignored, i, n - 1); }
  }

  /** Up to a kept positional parameter everything is kept, one value each. */
  lemma {:induction false} AllInPlace(sig: seq<Param>, b: seq<Slot>, ignored: set<string>, i: nat)
    requires Shaped(sig, b) && i <= |sig|
    requires forall j :: 0 <= j < i ==> sig[j].kind.Positional() && Kept(sig, ignored, j)
    ensures |PosVals(sig, b, ignored, i)| == i
  {
    if i > 0 { AllInPlace(sig, b, ignored, i - 1); }
  }

  lemma {:induction false} NoMoreThanPlaces(sig: seq<Param>, b: seq<Slot>, ignored: set<string>, i: nat)
    requires WellFormed(sig) && Shaped(sig, b) && i <= |sig|
    requires forall j :: 0 <= j < i && sig[j].kind.VarPos? ==> !Kept(sig, ignored, j)
    ensures |PosVals(sig, b, ignored, i)| <= i
    ensures forall j :: 0 <= j < |PosVals(sig, b, ignored, i)| ==> sig[j].kind.Positional()
  {
    if i > 0 {
      NoMoreThanPlaces(sig, b, ignored, i - 1);
      if sig[i - 1].kind.Positional() {
        forall j | 0 <= j < i ensures sig[j].kind.Positional() {
          assert sig[j].kind.Rank() <= sig[i - 1].kind.Rank();
        }
      }
    }
  }

  lemma KeptPlace(sig: seq<Param>, b: seq<Slot>, ignored: set<string>, i: nat)
    requires WellFormed(sig) && Shaped(sig, b) && KeepsPlaces(sig, ignored) && i < |sig|
    requires TakesPlaces(sig[i].kind) && Kept(sig, ignored, i)
    ensures |PosVals(sig, b, ignored, i)| == i
    ensures PosVals(sig, b, ignored, i + 1) <= PosVals(sig, b, ignored, |sig|)
  {
    forall j | 0 <= j < i ensures sig[j].kind.Positional() && Kept(sig, ignored, j) {
      assert sig[j].kind.Rank() <= sig[i].kind.Rank();
      if sig[j].kind == sig[i].kind && sig[i].kind.VarPos? { assert false; }
      if !Kept(sig, ignored, j) { assert IgnoredPlace(sig, ignored, j); }
    }
    AllInPlace(sig, b, ignored, i);
    PosValsGrow(sig, b, ignored, i + 1, |sig|);
  }

  lemma {:induction false} KeptPositional(sig: seq<Param>, b: seq<Slot>, ignored: set<string>, i: nat)
    requires WellFormed(sig) && Shaped(sig, b) && KeepsPlaces(sig, ignored) && i < |sig|
    requires sig[i].kind.Positional() && Kept(sig, ignored, i)
    ensures i < |PosVals(sig, b, ignored, |sig|)| && One(PosVals(sig, b, ignored, |sig|)[i]) == b[i]
  {
    KeptPlace(sig, b, ignored, i);
    assert PosVals(sig, b, ignored, i + 1)[i] == b[i].value;
  }

  lemma {:induction false} IgnoredPositional(sig: seq<Param>, b: seq<Slot>, ignored: set<string>, i: nat)
    requires WellFormed(sig) && Shaped(sig, b) && KeepsPlaces(sig, ignored) && i < |sig|
    requires sig[i].kind.Positional() && !Kept(sig, ignored, i)
    ensures |PosVals(sig, b, ignored, |sig|)| <= i
  {
    assert IgnoredPlace(sig, ignored, i);
    PosValsGrow(sig, b, ignored, i, |sig|);
    forall j | 0 <= j < i ensures !sig[j].kind.VarPos? {
      assert sig[j].kind.Rank() <= sig[i].kind.Rank();
    }
    NoMoreThanPlaces(sig, b, ignored, i);
  }

  lemma {:induction false} StarPlace(sig: seq<Param>, b: seq<Slot>, ignored: set<string>, i: nat)
    requires WellFormed(sig) && Shaped(sig, b) && KeepsPlaces(sig, ignored) && i < |sig| && sig[i].kind.VarPos?
    ensures var p := PosVals(sig, b, ignored, |sig|);
            (if i < |p| then p[i..] else []) == if Kept(sig, ignored, i) then b[i].items else []
  {
    StarEndsPlaces(sig, b, ignored, i);
    if Kept(sig, ignored, i) {
      KeptPlace(sig, b, ignored, i);
    } else {
      NoMoreThanPlaces(sig, b, ignored, |sig|);
    }
  }

  // ----- Binding again -----

  /** What the call built from the map passes. */
  ghost predicate Passed(sig: seq<Param>, b: seq<Slot>, ignored: set<string>, kw: Args)
    requires Shaped(sig, b)
  {
    var extras := KeptExtras(sig, b, ignored, |sig|);
    && (forall k :: k in kw <==> k in extras || exists j :: KeptKeyword(sig, ignored, j, k))
    && (forall k :: k in extras ==> kw[k] == extras[k] && k !in NamesUpTo(sig, ignored, |sig|) && k !in ignored)
    && (forall j :: 0 <= j < |sig| && Kept(sig, ignored, j) && sig[j].kind.KeyOnly? ==>
          sig[j].name in kw && kw[sig[j].name] == Stored(b[j]))
  }

  predicate KeptKeyword(sig: seq<Param>, ignored: set<string>, j: int, k: string) {
    0 <= j < |sig| && Kept(sig, ignored, j) && sig[j].kind.KeyOnly? && sig[j].name == k
  }

  lemma KeywordIsKept(sig: seq<Param>, ignored: set<string>, k: string)
    ensures k in KeywordsUpTo(sig, ignored, |sig|) <==> exists j :: KeptKeyword(sig, ignored, j, k)
  {
    if k in KeywordsUpTo(sig, ignored, |sig|) {
      var j :| 0 <= j < |sig| && Kept(sig, ignored, j) && sig[j].kind.KeyOnly? && sig[j].name == k;
      assert KeptKeyword(sig, ignored, j, k);
    }
  }

  lemma {:induction false} KeywordsApart(sig: seq<Param>, b: seq<Slot>, ignored: set<string>, m: Args)
    requires Shaped(sig, b) && MapFacts(sig, b, ignored, |sig|, m)
    ensures forall j :: 0 <= j < |sig| && Kept(sig, ignored, j) && sig[j].kind.KeyOnly? ==>
              sig[j].name !in KeptExtras(sig, b, ignored, |sig|)
  {
    forall j | 0 <= j < |sig| && Kept(sig, ignored, j) && sig[j].kind.KeyOnly?
      ensures sig[j].name !in KeptExtras(sig, b, ignored, |sig|)
    {
      assert sig[j].name in NamesUpTo(sig, ignored, |sig|);
    }
  }

  lemma GatheredCall(sig: seq<Param>, b: seq<Slot>, ignored: set<string>, m: Args, g: Gathered)
    requires WellFormed(sig) && Shaped(sig, b)
    requires MapFacts(sig, b, ignored, |sig|, m) && GatherFacts(sig, b, ignored, |sig|, m, g)
    ensures Passed(sig, b, ignored, g.keyword + g.remaining)
  {
    var extras := KeptExtras(sig, b, ignored, |sig|);
    assert g.remaining == extras;
    forall k ensures k in g.keyword <==> exists j :: KeptKeyword(sig, ignored, j, k) {
      KeywordIsKept(sig, ignored, k);
    }
    KeywordsApart(sig, b, ignored, m);
  }

  lemma NotPassedAgain(sig: seq<Param>, b: seq<Slot>, ignored: set<string>, kw: Args, i: nat)
    requires WellFormed(sig) && Shaped(sig, b) && Passed(sig, b, ignored, kw) && i < |sig|
    requires !sig[i].kind.VarKey? && (sig[i].kind.KeyOnly? ==> !Kept(sig, ignored, i))
    ensures sig[i].name !in kw
  {
    if Kept(sig, ignored, i) { assert sig[i].name in NamesUpTo(sig, ignored, |sig|); }
    forall j ensures !KeptKeyword(sig, ignored, j, sig[i].name) {
    }
  }

  lemma VarKeyIsLast(sig: seq<Param>, i: nat)
    requires WellFormed(sig) && i < |sig| && sig[i].kind.VarKey?
    ensures i == |sig| - 1
  {
    var j := i + 1;
    if j < |sig| && sig[i].kind.Rank() <= sig[j].kind.Rank() {
      assert false;
    }
  }

  lemma {:induction false} LastExtras(sig: seq<Param>, b: seq<Slot>, ignored: set<string>, i: nat, n: nat)
    requires WellFormed(sig) && Shaped(sig, b) && i < n <= |sig| && sig[i].kind.VarKey?
    ensures KeptExtras(sig, b, ignored, n) == if Kept(sig, ignored, i) then b[i].entries - ignored else map[]
  {
    VarKeyIsLast(sig, i);
    NoExtrasYet(sig, b, ignored, i);
  }

  lemma {:induction false} ExtrasNeedTaker(sig: seq<Param>, b: seq<Slot>, ignored: set<string>, i: nat)
    requires Shaped(sig, b) && ExtrasApart(sig, b) && i <= |sig|
    ensures KeptExtras(sig, b, ignored, i) == map[] || HasKind(sig, VarKey)
    ensures KeptExtras(sig, b, ignored, i).Keys !! KeywordNames(sig)
  {
    if i > 0 { ExtrasNeedTaker(sig, b, ignored, i - 1); }
  }

  lemma {:induction false} SlotAgain(sig: seq<Param>, b: seq<Slot>, ignored: set<string>, kw: Args, i: nat)
    requires WellFormed(sig) && Shaped(sig, b) && ExtrasApart(sig, b) && KeepsPlaces(sig, ignored)
    requires Passed(sig, b, ignored, kw) && i < |sig|
    ensures SlotOf(sig, i, PosVals(sig, b, ignored, |sig|), kw) == Expected(sig, b, ignored, i)
  {
    match sig[i].kind
    case VarPos => StarPlace(sig, b, ignored, i);
    case VarKey => ExtrasAgain(sig, b, ignored, kw, i);
    case KeyOnly => if !Kept(sig, ignored, i) { NotPassedAgain(sig, b, ignored, kw, i); }
    case _ =>
      NotPassedAgain(sig, b, ignored, kw, i);
      if Kept(sig, ignored, i) { KeptPositional(sig, b, ignored, i); } else { IgnoredPositional(sig, b, ignored, i); }
  }

  lemma ExtrasAgain(sig: seq<Param>, b: seq<Slot>, ignored: set<string>, kw: Args, i: nat)
    requires WellFormed(sig) && Shaped(sig, b) && ExtrasApart(sig, b) && Passed(sig, b, ignored, kw)
    requires i < |sig| && sig[i].kind.VarKey?
    ensures kw - KeywordNames(sig) == if Kept(sig, ignored, i) then b[i].entries - ignored else map[]
  {
    LastExtras(sig, b, ignored, i, |sig|);
    ExtrasNeedTaker(sig, b, ignored, |sig|);
    var extras := KeptExtras(sig, b, ignored, |sig|);
    forall k | k in kw && k !in extras ensures k in KeywordNames(sig) {
      var j :| KeptKeyword(sig, ignored, j, k);
      assert sig[j] in sig;
    }
  }

  lemma {:induction false} FitsAgain(sig: seq<Param>, b: seq<Slot>, ignored: set<string>, kw: Args)
    requires WellFormed(sig) && Shaped(sig, b) && ExtrasApart(sig, b) && Passed(sig, b, ignored, kw)
    ensures Fits(sig, |PosVals(sig, b, ignored, |sig|)|)
    ensures HasKind(sig, VarKey) || kw.Keys <= KeywordNames(sig)
  {
    if !HasKind(sig, VarPos) {
      forall j | 0 <= j < |sig| ensures !sig[j].kind.VarPos? {
        assert sig[j] in sig;
      }
      NoMoreThanPlaces(sig, b, ignored, |sig|);
    }
    ExtrasNeedTaker(sig, b, ignored, |sig|);
    forall k | k in kw && k !in KeptExtras(sig, b, ignored, |sig|) ensures k in KeywordNames(sig) {
      var j :| KeptKeyword(sig, ignored, j, k);
      assert sig[j] in sig;
    }
  }

  /** Binding the map again gives every kept parameter its value and every ignored one its
      default; it fails exactly when an ignored parameter has no default. */
  lemma {:induction false} RebindsSlots(sig: seq<Param>, b: seq<Slot>, ignored: set<string>, m: Args)
    requires WellFormed(sig) && Shaped(sig, b) && ExtrasApart(sig, b) && KeepsPlaces(sig, ignored)
    requires MapUpTo(sig, b, ignored, |sig|) == Some(m)
    ensures Rebind(sig, m).Some? <==> forall i :: 0 <= i < |sig| ==> Expected(sig, b, ignored, i).Some?
    ensures Rebind(sig, m).Some? ==>
              forall i :: 0 <= i < |sig| ==> Some(Rebind(sig, m).value[i]) == Expected(sig, b, ignored, i)
  {
    MapHolds(sig, b, ignored, |sig|);
    GatherHolds(sig, b, ignored, |sig|, m);
    var g := GatherUpTo(sig, m, |sig|).value;
    GatheredCall(sig, b, ignored, m, g);
    var kw := g.keyword + g.remaining;
    FitsAgain(sig, b, ignored, kw);
    forall i | 0 <= i < |sig| ensures SlotOf(sig, i, g.positional, kw) == Expected(sig, b, ignored, i) {
      SlotAgain(sig, b, ignored, kw, i);
    }
  }

  lemma BoundExtrasApart(sig: seq<Param>, args: seq<PyObject>, kwargs: Args)
    requires Bind(sig, args, kwargs).Some?
    ensures ExtrasApart(sig, Bind(sig, args, kwargs).value)
  {
  }

  // ----- The live call and the recovered one -----

  /** The downstream key goes to a parameter a keyword can reach, or into **kwargs. */
  predicate Passable(sig: seq<Param>, ignored: set<string>, keyParam: string) {
    || keyParam in KeywordNames(sig)
    || (forall p :: p in sig ==> p.name != keyParam && !(p.kind.VarKey? && p.name in ignored))
  }

  lemma LiveSlot(sig: seq<Param>, args: seq<PyObject>, kwargs: Args, keyParam: string, dk: PyObject, i: nat)
    requires WellFormed(sig) && i < |sig|
    requires Bind(sig, args, kwargs).Some? && Bind(sig, args, kwargs[keyParam := dk]).Some?
    requires keyParam in KeywordNames(sig) || forall p :: p in sig ==> p.name != keyParam
    ensures GivenKey(sig, Bind(sig, args, kwargs).value, Bind(sig, args, kwargs[keyParam := dk]).value, keyParam, dk, i)
  {
    if sig[i].name == keyParam {
      assert sig[i] in sig;
      var p :| p in sig && (p.kind.PosOrKey? || p.kind.KeyOnly?) && p.name == keyParam;
      assert p == sig[i];
    } else if sig[i].kind.VarKey? {
      if keyParam in KeywordNames(sig) {
        assert kwargs[keyParam := dk] - KeywordNames(sig) == kwargs - KeywordNames(sig);
      } else {
        assert kwargs[keyParam := dk] - KeywordNames(sig) == (kwargs - KeywordNames(sig))[keyParam := dk];
      }
    }
  }

  /** The live call binds the downstream key at parameter `i`. */
  predicate Takes(sig: seq<Param>, keyParam: string, i: nat)
    requires i < |sig|
  {
    sig[i].name == keyParam || (sig[i].kind.VarKey? && keyParam !in KeywordNames(sig))
  }

  predicate TakenBy(sig: seq<Param>, keyParam: string, i: nat)
    requires i <= |sig|
  {
    i > 0 && (Takes(sig, keyParam, i - 1) || TakenBy(sig, keyParam, i - 1))
  }

  function Restored(m: Args, sig: seq<Param>, keyParam: string, dk: PyObject, i: nat): Args
    requires i <= |sig|
  {
    if TakenBy(sig, keyParam, i) then m[keyParam := dk] else m
  }

  lemma {:induction false} NotTakenBefore(sig: seq<Param>, keyParam: string, v: nat, i: nat)
    requires WellFormed(sig) && i <= v < |sig| && sig[v].kind.VarKey?
    requires forall p :: p in sig ==> p.name != keyParam
    ensures !TakenBy(sig, keyParam, i)
  {
    if i > 0 {
      NotTakenBefore(sig, keyParam, v, i - 1);
      if sig[i - 1].kind.VarKey? { VarKeyIsLast(sig, i - 1); }
      assert sig[i - 1] in sig;
    }
  }

  lemma {:induction false} TakenSomewhere(sig: seq<Param>, keyParam: string, j: nat, i: nat)
    requires j < i <= |sig| && Takes(sig, keyParam, j)
    ensures TakenBy(sig, keyParam, i)
  {
    if j < i - 1 { TakenSomewhere(sig, keyParam, j, i - 1); }
  }

  /** One more parameter, when the key goes to **kwargs and this is it. */
  lemma LiveExtras(entries: Args, m: Args, ignored: set<string>, keyParam: string, dk: PyObject)
    requires keyParam !in m && keyParam !in ignored && (entries - (ignored + {keyParam})).Keys !! m.Keys
    ensures (entries[keyParam := dk] - ignored).Keys !! m.Keys
    ensures m + (entries[keyParam := dk] - ignored) == (m + (entries - (ignored + {keyParam})))[keyParam := dk]
  {
    assert entries[keyParam := dk] - ignored == (entries - (ignored + {keyParam}))[keyParam := dk];
  }

  lemma SameExtras(entries: Args, ignored: set<string>, keyParam: string)
    requires keyParam !in entries
    ensures entries - (ignored + {keyParam}) == entries - ignored
  {
  }

  lemma Commute(m: Args, keyParam: string, dk: PyObject, name: string, v: PyObject, more: Args)
    ensures name != keyParam ==> m[keyParam := dk][name := v] == m[name := v][keyParam := dk]
    ensures keyParam !in more ==> m[keyParam := dk] + more == (m + more)[keyParam := dk]
  {
  }

  /** One more parameter of the two maps. */
  lemma LiveMapStep(sig: seq<Param>, b: seq<Slot>, live: seq<Slot>, ignored: set<string>, keyParam: string,
                    dk: PyObject, i: nat, m: Args)
    requires WellFormed(sig) && Shaped(sig, b) && Shaped(sig, live) && 0 < i <= |sig|
    requires keyParam !in ignored && Passable(sig, ignored, keyParam) && ExtrasApart(sig, b)
    requires keyParam !in m && MapUpTo(sig, b, ignored + {keyParam}, i - 1) == Some(m)
    requires MapUpTo(sig, live, ignored, i - 1) == Some(Restored(m, sig, keyParam, dk, i - 1))
    requires MapUpTo(sig, b, ignored + {keyParam}, i).Some?
    requires GivenKey(sig, b, live, keyParam, dk, i - 1)
    ensures keyParam !in MapUpTo(sig, b, ignored + {keyParam}, i).value
    ensures MapUpTo(sig, live, ignored, i) ==
            Some(Restored(MapUpTo(sig, b, ignored + {keyParam}, i).value, sig, keyParam, dk, i))
  {
    assert sig[i - 1] in sig;
    if sig[i - 1].name == keyParam {
      assert m[keyParam := dk][keyParam := dk] == m[keyParam := dk];
    } else if !sig[i - 1].kind.VarKey? {
      Commute(m, keyParam, dk, sig[i - 1].name, Stored(b[i - 1]), map[]);
    } else {
      if keyParam in KeywordNames(sig) {
        SameExtras(b[i - 1].entries, ignored, keyParam);
        Commute(m, keyParam, dk, "", dk, b[i - 1].entries - ignored);
      } else {
        NotTakenBefore(sig, keyParam, i - 1, i - 1);
        LiveExtras(b[i - 1].entries, m, ignored, keyParam, dk);
      }
    }
  }

  predicate GivenKey(sig: seq<Param>, b: seq<Slot>, live: seq<Slot>, keyParam: string, dk: PyObject, i: nat)
    requires Shaped(sig, b) && Shaped(sig, live) && i < |sig|
  {
    live[i] ==
      if sig[i].name == keyParam then One(dk)
      else if sig[i].kind.VarKey? && keyParam !in KeywordNames(sig) then Extras(b[i].entries[keyParam := dk])
      else b[i]
  }

  lemma {:induction false} LiveMap(sig: seq<Param>, b: seq<Slot>, live: seq<Slot>, ignored: set<string>,
                                   keyParam: string, dk: PyObject, i: nat)
    requires WellFormed(sig) && Shaped(sig, b) && Shaped(sig, live) && i <= |sig|
    requires keyParam !in ignored && Passable(sig, ignored, keyParam) && ExtrasApart(sig, b)
    requires forall j :: 0 <= j < |sig| ==> GivenKey(sig, b, live, keyParam, dk, j)
    requires MapUpTo(sig, b, ignored + {keyParam}, i).Some?
    ensures IsLiveMap(sig, b, live, ignored, keyParam, dk, i)
  {
    if i > 0 {
      LiveMap(sig, b, live, ignored, keyParam, dk, i - 1);
      assert GivenKey(sig, b, live, keyParam, dk, i - 1);
      LiveMapStep(sig, b, live, ignored, keyParam, dk, i, MapUpTo(sig, b, ignored + {keyParam}, i - 1).value);
    }
  }

  /** Putting the downstream key back gives the map of the live call. */
  lemma {:induction false} MapOfLiveCall(sig: seq<Param>, args: seq<PyObject>, kwargs: Args,
                                         ignored: set<string>, keyParam: string, dk: PyObject, i: nat)
    requires WellFormed(sig) && i <= |sig| && keyParam !in ignored && Passable(sig, ignored, keyParam)
    requires Bind(sig, args, kwargs).Some? && Bind(sig, args, kwargs[keyParam := dk]).Some?
    requires MapUpTo(sig, Bind(sig, args, kwargs).value, ignored + {keyParam}, i).Some?
    ensures IsLiveMap(sig, Bind(sig, args, kwargs).value, Bind(sig, args, kwargs[keyParam := dk]).value, ignored,
                      keyParam, dk, i)
  {
    var b, live := Bind(sig, args, kwargs).value, Bind(sig, args, kwargs[keyParam := dk]).value;
    forall j | 0 <= j < |sig| ensures GivenKey(sig, b, live, keyParam, dk, j) {
      LiveSlot(sig, args, kwargs, keyParam, dk, j);
    }
    BoundExtrasApart(sig, args, kwargs);
    LiveMap(sig, b, live, ignored, keyParam, dk, i);
  }

  ghost predicate IsLiveMap(sig: seq<Param>, b: seq<Slot>, live: seq<Slot>, ignored: set<string>,
                            keyParam: string, dk: PyObject, i: nat)
    requires Shaped(sig, b) && Shaped(sig, live) && i <= |sig|
  {
    && MapUpTo(sig, b, ignored + {keyParam}, i).Some?
    && var m := MapUpTo(sig, b, ignored + {keyParam}, i).value;
       keyParam !in m && MapUpTo(sig, live, ignored, i) == Some(Restored(m, sig, keyParam, dk, i))
  }

  /** What recovery puts together: the stored map, and the downstream key under its name. */
  function WithKey(m: Args, keyParam: Option<string>, dk: PyObject): Args {
    match keyParam case None => m case Some(name) => m[name := dk]
  }

  function IgnoredBy(keyIgnore: seq<string>, keyParam: Option<string>): set<string> {
    (set x | x in keyIgnore) - (if keyParam.Some? then {keyParam.value} else {})
  }

  /** Recovery binds the map of an owner's call: every parameter that was not ignored gets
      what the owner's live call bound to it, the key parameter its downstream key, and an
      ignored one its default; recovery fails exactly when an ignored one has no default. */
  lemma {:induction false} RecoveryBindsTheLiveCall(sig: seq<Param>, args: seq<PyObject>, kwargs: Args,
                                                    keyIgnore: seq<string>, keyParam: Option<string>,
                                                    dk: PyObject)
    requires WellFormed(sig) && Bind(sig, args, kwargs).Some? && Bind(sig, args, WithKey(kwargs, keyParam, dk)).Some?
    requires MapUpTo(sig, Bind(sig, args, kwargs).value, Excluded(keyIgnore, keyParam), |sig|).Some?
    requires keyParam.Some? ==> Passable(sig, IgnoredBy(keyIgnore, keyParam), keyParam.value)
    requires KeepsPlaces(sig, IgnoredBy(keyIgnore, keyParam))
    ensures var m := MapUpTo(sig, Bind(sig, args, kwargs).value, Excluded(keyIgnore, keyParam), |sig|).value;
            var live, ignored := Bind(sig, args, WithKey(kwargs, keyParam, dk)).value, IgnoredBy(keyIgnore, keyParam);
            var again := Rebind(sig, WithKey(m, keyParam, dk));
            && (again.Some? <==> forall i :: 0 <= i < |sig| ==> Expected(sig, live, ignored, i).Some?)
            && (again.Some? ==> forall i :: 0 <= i < |sig| ==> Some(again.value[i]) == Expected(sig, live, ignored, i))
  {
    var ignored := IgnoredBy(keyIgnore, keyParam);
    var live := Bind(sig, args, WithKey(kwargs, keyParam, dk)).value;
    var m := MapUpTo(sig, Bind(sig, args, kwargs).value, Excluded(keyIgnore, keyParam), |sig|).value;
    if keyParam.Some? {
      assert Excluded(keyIgnore, keyParam) == ignored + {keyParam.value};
      MapOfLiveCall(sig, args, kwargs, ignored, keyParam.value, dk, |sig|);
      KeyIsTaken(sig, args, kwargs, keyParam.value, dk);
    } else {
      assert Excluded(keyIgnore, keyParam) == ignored;
    }
    BoundExtrasApart(sig, args, WithKey(kwargs, keyParam, dk));
    RebindsSlots(sig, live, ignored, WithKey(m, keyParam, dk));
  }

  lemma {:induction false} KeyIsTaken(sig: seq<Param>, args: seq<PyObject>, kwargs: Args, keyParam: string,
                                      dk: PyObject)
    requires Bind(sig, args, kwargs[keyParam := dk]).Some?
    ensures TakenBy(sig, keyParam, |sig|)
  {
    assert keyParam in kwargs[keyParam := dk];
    if keyParam in KeywordNames(sig) {
      var p :| p in sig && p.name == keyParam;
      var j :| 0 <= j < |sig| && sig[j] == p;
      TakenSomewhere(sig, keyParam, j, |sig|);
    } else {
      var p :| p in sig && p.kind.VarKey?;
      var j :| 0 <= j < |sig| && sig[j] == p;
      TakenSomewhere(sig, keyParam, j, |sig|);
    }
  }

  /** With nothing ignored, recovery makes exactly the call the owner made. */
  lemma {:induction false} RecoveryMakesTheSameCall(sig: seq<Param>, args: seq<PyObject>, kwargs: Args,
                                                    keyParam: Option<string>, dk: PyObject)
    requires WellFormed(sig) && Bind(sig, args, kwargs).Some? && Bind(sig, args, WithKey(kwargs, keyParam, dk)).Some?
    requires MapUpTo(sig, Bind(sig, args, kwargs).value, Excluded([], keyParam), |sig|).Some?
    requires keyParam.Some? ==> Passable(sig, {}, keyParam.value)
    ensures var m := MapUpTo(sig, Bind(sig, args, kwargs).value, Excluded([], keyParam), |sig|).value;
            Rebind(sig, WithKey(m, keyParam, dk)) == Bind(sig, args, WithKey(kwargs, keyParam, dk))
  {
    assert IgnoredBy([], keyParam) == {};
    RecoveryBindsTheLiveCall(sig, args, kwargs, [], keyParam, dk);
    var m := MapUpTo(sig, Bind(sig, args, kwargs).value, Excluded([], keyParam), |sig|).value;
    NothingIgnored(sig, Bind(sig, args, WithKey(kwargs, keyParam, dk)).value, Rebind(sig, WithKey(m, keyParam, dk)));
  }

  lemma NothingIgnored(sig: seq<Param>, live: seq<Slot>, again: Option<seq<Slot>>)
    requires Shaped(sig, live)
    requires again.Some? <==> forall i :: 0 <= i < |sig| ==> Expected(sig, live, {}, i).Some?
    requires again.Some? ==> |again.value| == |sig|
    requires again.Some? ==> forall i :: 0 <= i < |sig| ==> Some(again.value[i]) == Expected(sig, live, {}, i)
    ensures again == Some(live)
  {
    forall i | 0 <= i < |sig| ensures Expected(sig, live, {}, i) == Some(live[i]) {
      if live[i].Extras? { assert live[i].entries - {} == live[i].entries; }
    }
    assert again.value == live;
  }

  // ----- Equivalent ways of passing -----

  lemma SameSlotsSameCall(sig: seq<Param>, args: seq<PyObject>, kwargs: Args, args': seq<PyObject>, kwargs': Args)
    requires Fits(sig, |args|) <==> Fits(sig, |args'|)
    requires kwargs.Keys <= KeywordNames(sig) <==> kwargs'.Keys <= KeywordNames(sig)
    requires forall i :: 0 <= i < |sig| ==> SlotOf(sig, i, args, kwargs) == SlotOf(sig, i, args', kwargs')
    ensures Bind(sig, args, kwargs) == Bind(sig, args', kwargs')
  {
    if Binds(sig, args, kwargs) {
      assert Binds(sig, args', kwargs');
      assert Bind(sig, args, kwargs).value == Bind(sig, args', kwargs').value;
    }
  }

  /** The last positional argument may as well be passed by name. */
  lemma PassedByName(sig: seq<Param>, args: seq<PyObject>, v: PyObject, kwargs: Args)
    requires WellFormed(sig) && |args| < |sig| && sig[|args|].kind.PosOrKey? && sig[|args|].name !in kwargs
    ensures Bind(sig, args + [v], kwargs) == Bind(sig, args, kwargs[sig[|args|].name := v])
  {
    var k, name := |args|, sig[|args|].name;
    assert sig[k] in sig && name in KeywordNames(sig);
    assert kwargs[name := v] - KeywordNames(sig) == kwargs - KeywordNames(sig);
    forall i | 0 <= i < |sig|
      ensures SlotOf(sig, i, args + [v], kwargs) == SlotOf(sig, i, args, kwargs[name := v])
    {
      SlotByName(sig, args, v, kwargs, i);
    }
    if k > 0 { assert sig[k - 1].kind.Rank() <= sig[k].kind.Rank(); }
    assert kwargs[name := v].Keys == kwargs.Keys + {name};
    SameSlotsSameCall(sig, args + [v], kwargs, args, kwargs[name := v]);
  }

  lemma SlotByName(sig: seq<Param>, args: seq<PyObject>, v: PyObject, kwargs: Args, i: nat)
    requires WellFormed(sig) && |args| < |sig| && sig[|args|].kind.PosOrKey? && sig[|args|].name !in kwargs
    requires i < |sig|
    requires kwargs[sig[|args|].name := v] - KeywordNames(sig) == kwargs - KeywordNames(sig)
    ensures SlotOf(sig, i, args + [v], kwargs) == SlotOf(sig, i, args, kwargs[sig[|args|].name := v])
  {
    if i < |args| {
      assert sig[i].kind.Rank() <= sig[|args|].kind.Rank();
    } else if i > |args| {
      assert sig[|args|].kind.Rank() <= sig[i].kind.Rank() && sig[|args|].name != sig[i].name;
    }
  }

  /** A keyword argument equal to the default may as well be left out. */
  lemma DefaultLeftOut(sig: seq<Param>, args: seq<PyObject>, kwargs: Args, i: nat)
    requires WellFormed(sig) && |args| <= i < |sig| && (sig[i].kind.PosOrKey? || sig[i].kind.KeyOnly?)
    requires sig[i].default.Some? && sig[i].name !in kwargs
    ensures Bind(sig, args, kwargs[sig[i].name := sig[i].default.value]) == Bind(sig, args, kwargs)
  {
    var name, full := sig[i].name, kwargs[sig[i].name := sig[i].default.value];
    assert sig[i] in sig && name in KeywordNames(sig);
    assert full - KeywordNames(sig) == kwargs - KeywordNames(sig);
    forall j | 0 <= j < |sig| ensures SlotOf(sig, j, args, full) == SlotOf(sig, j, args, kwargs) {
      if j < i { assert sig[j].name != sig[i].name; } else if i < j { assert sig[i].name != sig[j].name; }
    }
    assert full.Keys == kwargs.Keys + {name};
    SameSlotsSameCall(sig, args, full, args, kwargs);
  }

  /** So may a last positional argument, positional-only or not. */
  lemma LastDefaultLeftOut(sig: seq<Param>, args: seq<PyObject>, kwargs: Args)
    requires WellFormed(sig) && |args| < |sig| && sig[|args|].kind.Positional() && sig[|args|].default.Some?
    requires sig[|args|].kind.PosOrKey? ==> sig[|args|].name !in kwargs
    ensures Bind(sig, args + [sig[|args|].default.value], kwargs) == Bind(sig, args, kwargs)
  {
    var k, full := |args|, args + [sig[|args|].default.value];
    forall i | 0 <= i < |sig| ensures SlotOf(sig, i, full, kwargs) == SlotOf(sig, i, args, kwargs) {
      if i < k {
        assert sig[i].kind.Rank() <= sig[k].kind.Rank();
      } else if k < i {
        assert sig[k].kind.Rank() <= sig[i].kind.Rank();
      }
    }
    if k > 0 { assert sig[k - 1].kind.Rank() <= sig[k].kind.Rank(); }
    SameSlotsSameCall(sig, full, kwargs, args, kwargs);
  }

  // ----- Which calls share a map -----

  /** What of a slot reaches the map. */
  function Reaches(s: Slot, ignored: set<string>): Slot {
    match s case Extras(entries) => Extras(entries - ignored) case slot => slot
  }

  /** Two bound calls agree on everything that was not ignored. */
  ghost predicate SameKept(sig: seq<Param>, b: seq<Slot>, b': seq<Slot>, ignored: set<string>)
    requires |b| == |sig| == |b'|
  {
    forall i :: 0 <= i < |sig| && Kept(sig, ignored, i) ==> Reaches(b[i], ignored) == Reaches(b'[i], ignored)
  }

  /** The entries of **kwargs are what the parameters' names leave of the map. */
  lemma {:induction false} ExtrasAreTheRest(sig: seq<Param>, b: seq<Slot>, ignored: set<string>, i: nat, m: Args)
    requires Shaped(sig, b) && i <= |sig| && MapFacts(sig, b, ignored, i, m)
    ensures KeptExtras(sig, b, ignored, i) == m - NamesUpTo(sig, ignored, i)
  {
  }

  lemma {:induction false} SameExtrasKept(sig: seq<Param>, b: seq<Slot>, b': seq<Slot>, ignored: set<string>, i: nat)
    requires Shaped(sig, b) && Shaped(sig, b') && i <= |sig| && SameKept(sig, b, b', ignored)
    ensures KeptExtras(sig, b, ignored, i) == KeptExtras(sig, b', ignored, i)
  {
    if i > 0 {
      SameExtrasKept(sig, b, b', ignored, i - 1);
      if Kept(sig, ignored, i - 1) { assert Reaches(b[i - 1], ignored) == Reaches(b'[i - 1], ignored); }
    }
  }

  lemma SameSlotsSameMap(sig: seq<Param>, b: seq<Slot>, b': seq<Slot>, ignored: set<string>, m: Args, m': Args)
    requires Shaped(sig, b) && Shaped(sig, b') && SameKept(sig, b, b', ignored)
    requires MapFacts(sig, b, ignored, |sig|, m) && MapFacts(sig, b', ignored, |sig|, m')
    ensures m == m'
  {
    SameExtrasKept(sig, b, b', ignored, |sig|);
    forall k | k in m ensures m[k] == m'[k] {
      if k in NamesUpTo(sig, ignored, |sig|) {
        var j :| 0 <= j < |sig| && Kept(sig, ignored, j) && !sig[j].kind.VarKey? && sig[j].name == k;
        assert Reaches(b[j], ignored) == Reaches(b'[j], ignored);
      }
    }
  }

  lemma SameMapSameSlots(sig: seq<Param>, b: seq<Slot>, b': seq<Slot>, ignored: set<string>, m: Args)
    requires WellFormed(sig) && Shaped(sig, b) && Shaped(sig, b')
    requires MapFacts(sig, b, ignored, |sig|, m) && MapFacts(sig, b', ignored, |sig|, m)
    ensures SameKept(sig, b, b', ignored)
  {
    ExtrasAreTheRest(sig, b, ignored, |sig|, m);
    ExtrasAreTheRest(sig, b', ignored, |sig|, m);
    forall i | 0 <= i < |sig| && Kept(sig, ignored, i) ensures Reaches(b[i], ignored) == Reaches(b'[i], ignored) {
      if sig[i].kind.VarKey? { VarKeyIsLast(sig, i); } else { assert Stored(b[i]) == Stored(b'[i]); }
    }
  }

  /** Two calls of a signature get the same map, and so the same key, exactly when they pass
      the same values for everything that is not ignored: by place or by name, spelled out or
      left to a default makes no difference, and nothing else is lost. */
  lemma {:induction false} SameMapExactly(sig: seq<Param>, args: seq<PyObject>, kwargs: Args,
                                          args': seq<PyObject>, kwargs': Args, ignored: set<string>)
    requires WellFormed(sig) && Bind(sig, args, kwargs).Some? && Bind(sig, args', kwargs').Some?
    requires MapUpTo(sig, Bind(sig, args, kwargs).value, ignored, |sig|).Some?
    requires MapUpTo(sig, Bind(sig, args', kwargs').value, ignored, |sig|).Some?
    ensures var b, b' := Bind(sig, args, kwargs).value, Bind(sig, args', kwargs').value;
            MapUpTo(sig, b, ignored, |sig|) == MapUpTo(sig, b', ignored, |sig|) <==> SameKept(sig, b, b', ignored)
  {
    var b, b' := Bind(sig, args, kwargs).value, Bind(sig, args', kwargs').value;
    var m, m' := MapUpTo(sig, b, ignored, |sig|).value, MapUpTo(sig, b', ignored, |sig|).value;
    MapHolds(sig, b, ignored, |sig|);
    MapHolds(sig, b', ignored, |sig|);
    if m == m' { SameMapSameSlots(sig, b, b', ignored, m); }
    if SameKept(sig, b, b', ignored) { SameSlotsSameMap(sig, b, b', ignored, m, m'); }
  }

  // ----- Exactly when ignoring arguments is harmless to recovery -----

  ghost predicate IgnoredHaveDefaults(sig: seq<Param>, ignored: set<string>) {
    forall i :: 0 <= i < |sig| && sig[i].name in ignored ==>
      sig[i].default.Some? || sig[i].kind.VarPos? || sig[i].kind.VarKey?
  }

  /** Recovering this call, if it binds and has a map, binds every kept parameter as before. */
  ghost predicate RecoversKept(sig: seq<Param>, ignored: set<string>, args: seq<PyObject>, kwargs: Args) {
    var b := Bind(sig, args, kwargs);
    b.Some? && MapUpTo(sig, b.value, ignored, |sig|).Some? ==>
      var again := Rebind(sig, MapUpTo(sig, b.value, ignored, |sig|).value);
      && again.Some?
      && forall i :: 0 <= i < |sig| && Kept(sig, ignored, i) ==>
            Some(again.value[i]) == Expected(sig, b.value, ignored, i)
  }

  /** A value that names its place and is no parameter's default. */
  function Tag(default: Option<PyObject>, k: nat): PyObject {
    PyList([PyInt(k), if default.Some? then default.value else PyNone])
  }

  function TagNo(v: PyObject): int {
    if v.PyList? && |v.items| == 2 && v.items[0].PyInt? then v.items[0].n else -1
  }

  function Arity(sig: seq<Param>): nat {
    if sig == [] || !sig[0].kind.Positional() then 0 else 1 + Arity(sig[1..])
  }

  lemma {:induction false} ArityCounts(sig: seq<Param>)
    requires WellFormed(sig)
    ensures Arity(sig) <= |sig|
    ensures forall i :: 0 <= i < |sig| ==> (sig[i].kind.Positional() <==> i < Arity(sig))
  {
    if sig != [] && sig[0].kind.Positional() {
      ArityCounts(sig[1..]);
      forall i | 0 <= i < |sig| ensures sig[i].kind.Positional() <==> i < Arity(sig) {
        if i > 0 { assert sig[1..][i - 1] == sig[i]; }
      }
    } else {
      forall i | 0 <= i < |sig| ensures !sig[i].kind.Positional() {
        if i > 0 { assert sig[0].kind.Rank() <= sig[i].kind.Rank(); }
      }
    }
  }

  function TaggedArgs(sig: seq<Param>, n: nat): seq<PyObject>
    requires n <= |sig|
  {
    if n == 0 then [] else TaggedArgs(sig, n - 1) + [Tag(sig[n - 1].default, n - 1)]
  }

  lemma {:induction false} TaggedArgsAt(sig: seq<Param>, n: nat)
    requires n <= |sig|
    ensures |TaggedArgs(sig, n)| == n
    ensures forall i :: 0 <= i < n ==> TaggedArgs(sig, n)[i] == Tag(sig[i].default, i)
  {
    if n > 0 { TaggedArgsAt(sig, n - 1); }
  }

  /** Every parameter is passed, each positional one its tag, and *args one value. */
  function EveryArg(sig: seq<Param>): seq<PyObject>
    requires Arity(sig) <= |sig|
  {
    TaggedArgs(sig, Arity(sig)) + if HasKind(sig, VarPos) then [Tag(None, |sig|)] else []
  }

  function KeyOnlyNames(sig: seq<Param>): set<string> {
    set p | p in sig && p.kind.KeyOnly? :: p.name
  }

  function EveryKwarg(sig: seq<Param>): Args {
    map k | k in KeyOnlyNames(sig) :: PyNone
  }

  ghost predicate Tagged(sig: seq<Param>, b: seq<Slot>)
    requires Shaped(sig, b)
  {
    && (forall i :: 0 <= i < |sig| && sig[i].kind.Positional() ==> b[i] == One(Tag(sig[i].default, i)))
    && (forall i :: 0 <= i < |sig| && sig[i].kind.VarPos? ==> b[i] == Many([Tag(None, |sig|)]))
    && (forall i :: 0 <= i < |sig| && sig[i].kind.VarKey? ==> b[i] == Extras(map[]))
  }

  lemma {:induction false} EverySlot(sig: seq<Param>, i: nat)
    requires WellFormed(sig) && i < |sig| && Arity(sig) <= |sig|
    requires sig[i].kind.Positional() <==> i < Arity(sig)
    requires sig[i].kind.VarPos? ==> i == Arity(sig)
    ensures match sig[i].kind
            case VarPos => SlotOf(sig, i, EveryArg(sig), EveryKwarg(sig)) == Some(Many([Tag(None, |sig|)]))
            case VarKey => SlotOf(sig, i, EveryArg(sig), EveryKwarg(sig)) == Some(Extras(map[]))
            case KeyOnly => SlotOf(sig, i, EveryArg(sig), EveryKwarg(sig)).Some?
            case _ => SlotOf(sig, i, EveryArg(sig), EveryKwarg(sig)) == Some(One(Tag(sig[i].default, i)))
  {
    TaggedArgsAt(sig, Arity(sig));
    assert sig[i] in sig;
    if sig[i].kind.PosOrKey? {
      forall p | p in sig && p.kind.KeyOnly? ensures p.name != sig[i].name {
        var j :| 0 <= j < |sig| && sig[j] == p;
      }
    }
  }

  lemma {:induction false} StarFollowsArity(sig: seq<Param>, i: nat)
    requires WellFormed(sig) && i < |sig| && sig[i].kind.VarPos?
    ensures i == Arity(sig)
  {
    ArityCounts(sig);
    var k := Arity(sig);
    if k < i && sig[k].kind.Rank() <= sig[i].kind.Rank() {
      if sig[k].kind == sig[i].kind { assert false; }
    }
  }

  lemma {:induction false} EveryCallBinds(sig: seq<Param>)
    requires WellFormed(sig)
    ensures Arity(sig) <= |sig|
    ensures Bind(sig, EveryArg(sig), EveryKwarg(sig)).Some?
    ensures Tagged(sig, Bind(sig, EveryArg(sig), EveryKwarg(sig)).value)
  {
    ArityCounts(sig);
    TaggedArgsAt(sig, Arity(sig));
    forall i | 0 <= i < |sig| ensures SlotOf(sig, i, EveryArg(sig), EveryKwarg(sig)).Some? {
      if sig[i].kind.VarPos? { StarFollowsArity(sig, i); }
      EverySlot(sig, i);
    }
    assert Binds(sig, EveryArg(sig), EveryKwarg(sig));
    var b := Bind(sig, EveryArg(sig), EveryKwarg(sig)).value;
    forall i | 0 <= i < |sig| ensures SlotOf(sig, i, EveryArg(sig), EveryKwarg(sig)) == Some(b[i]) {
    }
    forall i | 0 <= i < |sig|
      ensures sig[i].kind.Positional() ==> b[i] == One(Tag(sig[i].default, i))
      ensures sig[i].kind.VarPos? ==> b[i] == Many([Tag(None, |sig|)])
      ensures sig[i].kind.VarKey? ==> b[i] == Extras(map[])
    {
      if sig[i].kind.VarPos? { StarFollowsArity(sig, i); }
      EverySlot(sig, i);
    }
  }

  lemma {:induction false} TaggedHasMap(sig: seq<Param>, b: seq<Slot>, ignored: set<string>, i: nat)
    requires Shaped(sig, b) && Tagged(sig, b) && i <= |sig|
    ensures MapUpTo(sig, b, ignored, i).Some?
  {
    if i > 0 {
      TaggedHasMap(sig, b, ignored, i - 1);
      if b[i - 1].Extras? { assert b[i - 1].entries - ignored == map[]; }
    }
  }

  /** Values past the first `i` parameters' carry later tags. */
  lemma {:induction false} LaterTags(sig: seq<Param>, b: seq<Slot>, ignored: set<string>, i: nat, n: nat)
    requires Shaped(sig, b) && Tagged(sig, b) && i <= n <= |sig|
    ensures |PosVals(sig, b, ignored, i)| <= |PosVals(sig, b, ignored, n)|
    ensures forall t :: |PosVals(sig, b, ignored, i)| <= t < |PosVals(sig, b, ignored, n)| ==>
              TagNo(PosVals(sig, b, ignored, n)[t]) >= i
    decreases n
  {
    if i < n { LaterTags(sig, b, ignored, i, n - 1); }
  }

  lemma {:induction false} OneEach(sig: seq<Param>, b: seq<Slot>, ignored: set<string>, i: nat, j: nat)
    requires Shaped(sig, b) && i <= j <= |sig|
    requires forall k :: i <= k < j ==> !sig[k].kind.VarPos?
    ensures |PosVals(sig, b, ignored, j)| <= |PosVals(sig, b, ignored, i)| + (j - i)
    decreases j
  {
    if i < j { OneEach(sig, b, ignored, i, j - 1); }
  }

  lemma {:induction false} ShortBefore(sig: seq<Param>, b: seq<Slot>, ignored: set<string>, i: nat, j: nat)
    requires WellFormed(sig) && Shaped(sig, b) && i < j < |sig|
    requires IgnoredPlace(sig, ignored, i) && TakesPlaces(sig[j].kind)
    ensures |PosVals(sig, b, ignored, j)| < j
  {
    forall k | 0 <= k < j ensures !sig[k].kind.VarPos? {
      assert sig[k].kind.Rank() <= sig[j].kind.Rank();
    }
    NoMoreThanPlaces(sig, b, ignored, i);
    OneEach(sig, b, ignored, i + 1, j);
  }

  lemma TagIsNotDefault(default: Option<PyObject>, k: nat)
    ensures default != Some(Tag(default, k))
  {
    if default.Some? {
      var v := Tag(default, k);
      assert v.items[1] == default.value;
    }
  }

  lemma {:induction false} StarMisplaced(sig: seq<Param>, b: seq<Slot>, ignored: set<string>, i: nat, j: nat)
    requires WellFormed(sig) && Shaped(sig, b) && i < j < |sig|
    requires IgnoredPlace(sig, ignored, i) && sig[j].kind.VarPos? && Kept(sig, ignored, j)
    requires b[j] == Many([Tag(None, |sig|)])
    ensures |PosVals(sig, b, ignored, |sig|)| <= j
  {
    ShortBefore(sig, b, ignored, i, j);
    StarEndsPlaces(sig, b, ignored, j);
    assert PosVals(sig, b, ignored, j + 1) == PosVals(sig, b, ignored, j) + b[j].items;
  }

  /** Nothing takes a place after *args. */
  lemma StarEndsPlaces(sig: seq<Param>, b: seq<Slot>, ignored: set<string>, j: nat)
    requires WellFormed(sig) && Shaped(sig, b) && j < |sig| && sig[j].kind.VarPos?
    ensures PosVals(sig, b, ignored, |sig|) == PosVals(sig, b, ignored, j + 1)
  {
    forall k | j < k < |sig| ensures !TakesPlaces(sig[k].kind) {
      assert sig[j].kind.Rank() <= sig[k].kind.Rank();
    }
    PosValsGrow(sig, b, ignored, j + 1, |sig|);
  }

  lemma {:induction false} PlaceMisplaced(sig: seq<Param>, b: seq<Slot>, ignored: set<string>, i: nat, j: nat)
    requires WellFormed(sig) && Shaped(sig, b) && Tagged(sig, b) && i < j < |sig|
    requires IgnoredPlace(sig, ignored, i) && sig[j].kind.Positional() && Kept(sig, ignored, j)
    ensures var q := PosVals(sig, b, ignored, |sig|); j < |q| ==> q[j] != Tag(sig[j].default, j)
  {
    ShortBefore(sig, b, ignored, i, j);
    LaterTags(sig, b, ignored, j + 1, |sig|);
    assert TagNo(Tag(sig[j].default, j)) == j;
  }

  lemma {:induction false} SlotMisplaced(sig: seq<Param>, b: seq<Slot>, ignored: set<string>, kw: Args, i: nat,
                                         j: nat)
    requires WellFormed(sig) && Shaped(sig, b) && Tagged(sig, b) && i < j < |sig| && Passed(sig, b, ignored, kw)
    requires IgnoredPlace(sig, ignored, i) && TakesPlaces(sig[j].kind) && Kept(sig, ignored, j)
    ensures SlotOf(sig, j, PosVals(sig, b, ignored, |sig|), kw) != Some(b[j])
  {
    NotPassedAgain(sig, b, ignored, kw, j);
    if sig[j].kind.VarPos? {
      StarMisplaced(sig, b, ignored, i, j);
    } else {
      PlaceMisplaced(sig, b, ignored, i, j);
      TagIsNotDefault(sig[j].default, j);
    }
  }

  lemma {:induction false} MapMisplaces(sig: seq<Param>, b: seq<Slot>, ignored: set<string>, m: Args, i: nat, j: nat)
    requires WellFormed(sig) && Shaped(sig, b) && Tagged(sig, b) && i < j < |sig|
    requires MapUpTo(sig, b, ignored, |sig|) == Some(m)
    requires IgnoredPlace(sig, ignored, i) && TakesPlaces(sig[j].kind) && Kept(sig, ignored, j)
    ensures Rebind(sig, m).None? || Rebind(sig, m).value[j] != b[j]
  {
    MapHolds(sig, b, ignored, |sig|);
    GatherHolds(sig, b, ignored, |sig|, m);
    var g := GatherUpTo(sig, m, |sig|).value;
    GatheredCall(sig, b, ignored, m, g);
    SlotMisplaced(sig, b, ignored, g.keyword + g.remaining, i, j);
  }

  /** The call that passes everything is recovered wrongly when a place is ignored. */
  lemma {:induction false} ShiftMisplaces(sig: seq<Param>, ignored: set<string>, i: nat, j: nat)
    requires WellFormed(sig) && i < j < |sig| && Arity(sig) <= |sig|
    requires IgnoredPlace(sig, ignored, i) && TakesPlaces(sig[j].kind) && Kept(sig, ignored, j)
    ensures !RecoversKept(sig, ignored, EveryArg(sig), EveryKwarg(sig))
  {
    EveryCallBinds(sig);
    var b := Bind(sig, EveryArg(sig), EveryKwarg(sig)).value;
    TaggedHasMap(sig, b, ignored, |sig|);
    MapMisplaces(sig, b, ignored, MapUpTo(sig, b, ignored, |sig|).value, i, j);
    assert Expected(sig, b, ignored, j) == Some(b[j]);
  }

  lemma {:induction false} NotEveryDefault(sig: seq<Param>, ignored: set<string>)
    requires WellFormed(sig) && KeepsPlaces(sig, ignored) && !IgnoredHaveDefaults(sig, ignored) && Arity(sig) <= |sig|
    ensures !RecoversKept(sig, ignored, EveryArg(sig), EveryKwarg(sig))
  {
    EveryCallBinds(sig);
    TaggedHasMap(sig, Bind(sig, EveryArg(sig), EveryKwarg(sig)).value, ignored, |sig|);
    RecoversIfDefaults(sig, ignored, EveryArg(sig), EveryKwarg(sig));
  }

  lemma {:induction false} RecoversIfDefaults(sig: seq<Param>, ignored: set<string>, args: seq<PyObject>,
                                              kwargs: Args)
    requires WellFormed(sig) && KeepsPlaces(sig, ignored)
    requires Bind(sig, args, kwargs).Some? && MapUpTo(sig, Bind(sig, args, kwargs).value, ignored, |sig|).Some?
    ensures RecoversKept(sig, ignored, args, kwargs) <==> IgnoredHaveDefaults(sig, ignored)
  {
    var b := Bind(sig, args, kwargs).value;
    BoundExtrasApart(sig, args, kwargs);
    RebindsSlots(sig, b, ignored, MapUpTo(sig, b, ignored, |sig|).value);
    DefaultsExpected(sig, b, ignored);
  }

  /** No call on this signature is recovered with a kept parameter changed. */
  ghost predicate AlwaysRecovers(sig: seq<Param>, ignored: set<string>) {
    forall args, kwargs :: RecoversKept(sig, ignored, args, kwargs)
  }

  lemma {:induction false} NotAlways(sig: seq<Param>, ignored: set<string>)
    requires WellFormed(sig) && !(KeepsPlaces(sig, ignored) && IgnoredHaveDefaults(sig, ignored))
    ensures Arity(sig) <= |sig| && !RecoversKept(sig, ignored, EveryArg(sig), EveryKwarg(sig))
  {
    ArityCounts(sig);
    if !KeepsPlaces(sig, ignored) {
      var i, j :| && 0 <= i < j < |sig| && IgnoredPlace(sig, ignored, i)
                  && TakesPlaces(sig[j].kind) && Kept(sig, ignored, j);
      ShiftMisplaces(sig, ignored, i, j);
    } else {
      NotEveryDefault(sig, ignored);
    }
  }

  lemma Always(sig: seq<Param>, ignored: set<string>)
    requires WellFormed(sig) && KeepsPlaces(sig, ignored) && IgnoredHaveDefaults(sig, ignored)
    ensures AlwaysRecovers(sig, ignored)
  {
    forall args, kwargs ensures RecoversKept(sig, ignored, args, kwargs) {
      var b := Bind(sig, args, kwargs);
      if b.Some? && MapUpTo(sig, b.value, ignored, |sig|).Some? { RecoversIfDefaults(sig, ignored, args, kwargs); }
    }
  }

  /** Whatever call was made, recovery binds every kept parameter as the owner did, exactly
      when no ignored parameter stands before a kept place and each has a default. */
  lemma RecoveryKeepsExactly(sig: seq<Param>, ignored: set<string>)
    requires WellFormed(sig)
    ensures AlwaysRecovers(sig, ignored) <==> KeepsPlaces(sig, ignored) && IgnoredHaveDefaults(sig, ignored)
  {
    if KeepsPlaces(sig, ignored) && IgnoredHaveDefaults(sig, ignored) {
      Always(sig, ignored);
    } else {
      NotAlways(sig, ignored);
    }
  }

  lemma DefaultsExpected(sig: seq<Param>, b: seq<Slot>, ignored: set<string>)
    requires Shaped(sig, b)
    ensures IgnoredHaveDefaults(sig, ignored) <==> forall i :: 0 <= i < |sig| ==> Expected(sig, b, ignored, i).Some?
  {
    if !IgnoredHaveDefaults(sig, ignored) {
      var i :| && 0 <= i < |sig| && sig[i].name in ignored && sig[i].default.None?
               && !sig[i].kind.VarPos? && !sig[i].kind.VarKey?;
      assert Expected(sig, b, ignored, i).None?;
    }
  }
}
