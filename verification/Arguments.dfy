/** How a call's arguments become the canonical argument map, and how recovery turns the
    map back into a call. */
module Arguments {
  import opened Types
  import opened Canonical

  // ----- Signatures and binding -----

  datatype Kind = PosOnly | PosOrKey | VarPos | KeyOnly | VarKey {
    predicate Positional() {
      PosOnly? || PosOrKey?
    }

    function Rank(): nat {
      match this case PosOnly => 0 case PosOrKey => 1 case VarPos => 2 case KeyOnly => 3 case VarKey => 4
    }
  }

  datatype Param = Param(name: string, kind: Kind, default: Option<PyObject>)

  /** What Python accepts as a parameter list. */
  ghost predicate WellFormed(sig: seq<Param>) {
    && (forall i, j :: 0 <= i < j < |sig| ==> sig[i].name != sig[j].name && sig[i].kind.Rank() <= sig[j].kind.Rank())
    && (forall i, j :: 0 <= i < j < |sig| && sig[i].kind == sig[j].kind ==>
          !sig[i].kind.VarPos? && !sig[i].kind.VarKey?)
  }

  /** What one parameter is bound to, defaults applied. */
  datatype Slot =
    | One(value: PyObject)
    | Many(items: seq<PyObject>)                // *args
    | Extras(entries: map<string, PyObject>)    // **kwargs

  function KeywordNames(sig: seq<Param>): set<string> {
    set p | p in sig && (p.kind.PosOrKey? || p.kind.KeyOnly?) :: p.name
  }

  function DefaultOf(p: Param): Option<Slot> {
    match p.default case None => None case Some(v) => Some(One(v))
  }

  /** The value parameter `i` receives; nothing if it is missing or given twice. */
  function SlotOf(sig: seq<Param>, i: nat, args: seq<PyObject>, kwargs: map<string, PyObject>): Option<Slot>
    requires i < |sig|
  {
    var p := sig[i];
    match p.kind
    case PosOnly => if i < |args| then Some(One(args[i])) else DefaultOf(p)
    case PosOrKey =>
      if i < |args| then (if p.name in kwargs then None else Some(One(args[i])))
      else if p.name in kwargs then Some(One(kwargs[p.name]))
      else DefaultOf(p)
    case VarPos => Some(Many(if i < |args| then args[i..] else []))
    case KeyOnly => if p.name in kwargs then Some(One(kwargs[p.name])) else DefaultOf(p)
    case VarKey => Some(Extras(kwargs - KeywordNames(sig)))
  }

  predicate HasKind(sig: seq<Param>, kind: Kind) {
    exists p :: p in sig && p.kind == kind
  }

  /** Every positional argument has a parameter, or goes to *args. */
  predicate Fits(sig: seq<Param>, n: nat) {
    n == 0 || HasKind(sig, VarPos) || (n <= |sig| && sig[n - 1].kind.Positional())
  }

  predicate Binds(sig: seq<Param>, args: seq<PyObject>, kwargs: map<string, PyObject>) {
    && Fits(sig, |args|)
    && (HasKind(sig, VarKey) || kwargs.Keys <= KeywordNames(sig))
    && (forall i :: 0 <= i < |sig| ==> SlotOf(sig, i, args, kwargs).Some?)
  }

  /** `Signature.bind` and `apply_defaults`: one slot for each parameter. */
  function Bind(sig: seq<Param>, args: seq<PyObject>, kwargs: map<string, PyObject>): (b: Option<seq<Slot>>)
    ensures b.Some? ==> Shaped(sig, b.value)
  {
    if Binds(sig, args, kwargs)
    then Some(seq(|sig|, i requires 0 <= i < |sig| => SlotOf(sig, i, args, kwargs).value))
    else None
  }

  predicate Shaped(sig: seq<Param>, b: seq<Slot>) {
    |b| == |sig| && forall i :: 0 <= i < |sig| ==> Fitting(sig[i].kind, b[i])
  }

  predicate Fitting(kind: Kind, s: Slot) {
    match kind case VarPos => s.Many? case VarKey => s.Extras? case _ => s.One?
  }

  // ----- The argument map -----

  /** The map over the first `i` parameters; nothing when a **kwargs entry collides. */
  function MapUpTo(sig: seq<Param>, b: seq<Slot>, excluded: set<string>, i: nat): Option<map<string, PyObject>>
    requires Shaped(sig, b) && i <= |sig|
  {
    if i == 0 then Some(map[])
    else
      match MapUpTo(sig, b, excluded, i - 1)
      case None => None
      case Some(m) =>
        if sig[i - 1].name in excluded then Some(m)
        else
          match b[i - 1]
          case One(v) => Some(m[sig[i - 1].name := v])
          case Many(items) => Some(m[sig[i - 1].name := PyList(items)])
          case Extras(entries) =>
            if (entries - excluded).Keys !! m.Keys then Some(m + (entries - excluded)) else None
  }

  datatype ArgMap = ArgMap(entries: map<string, PyObject>) | UnknownName | DoesNotBind | Collides(name: string)

  /** Names the exclusions refer to must be parameters, unless **kwargs may hold them. */
  predicate NamesKnown(sig: seq<Param>, excluded: set<string>) {
    HasKind(sig, VarKey) || excluded <= (set p | p in sig :: p.name)
  }

  function Excluded(keyIgnore: seq<string>, keyParam: Option<string>): set<string> {
    (set x | x in keyIgnore) + (if keyParam.Some? then {keyParam.value} else {})
  }

  /** Walks the bound parameters in order, filling the map. */
  method BuildArgMap(sig: seq<Param>, args: seq<PyObject>, kwargs: map<string, PyObject>,
                     keyIgnore: seq<string>, keyParam: Option<string>)
    returns (r: ArgMap)
    ensures r.UnknownName? <==> !NamesKnown(sig, Excluded(keyIgnore, keyParam))
    ensures r.DoesNotBind? <==> NamesKnown(sig, Excluded(keyIgnore, keyParam)) && Bind(sig, args, kwargs).None?
    ensures NamesKnown(sig, Excluded(keyIgnore, keyParam)) && Bind(sig, args, kwargs).Some? ==>
              var built := MapUpTo(sig, Bind(sig, args, kwargs).value, Excluded(keyIgnore, keyParam), |sig|);
              (r.ArgMap? <==> built.Some?) && (r.ArgMap? ==> Some(r.entries) == built)
  {
    var excluded := Excluded(keyIgnore, keyParam);
    if !NamesKnown(sig, excluded) {
      return UnknownName;
    }
    var bound := Bind(sig, args, kwargs);
    if bound.None? {
      return DoesNotBind;
    }
    var m: map<string, PyObject> := map[];
    for i := 0 to |sig|
      invariant MapUpTo(sig, bound.value, excluded, i) == Some(m)
    {
      if sig[i].name !in excluded {
        match bound.value[i] {
          case One(v) => m := m[sig[i].name := v];
          case Many(items) => m := m[sig[i].name := PyList(items)];
          case Extras(entries) =>
            var clash;
            m, clash := AddExtras(m, entries, excluded);
            if clash.Some? {
              NoMapAfterClash(sig, bound.value, excluded, i + 1, |sig|);
              return Collides(clash.value);
            }
        }
      }
    }
    r := ArgMap(m);
  }

  /** Merges the entries of **kwargs into the top level of the map. */
  method AddExtras(m0: map<string, PyObject>, entries: map<string, PyObject>, excluded: set<string>)
    returns (m: map<string, PyObject>, clash: Option<string>)
    ensures clash.None? <==> (entries - excluded).Keys !! m0.Keys
    ensures clash.None? ==> m == m0 + (entries - excluded)
    ensures clash.Some? ==> clash.value in entries && clash.value in m0 && clash.value !in excluded
  {
    m := m0;
    var left, done := entries.Keys, map[];
    while left != {}
      invariant left <= entries.Keys
      invariant done == map k | k in entries && k !in left && k !in excluded :: entries[k]
      invariant done.Keys !! m0.Keys && m == m0 + done
    {
      var name :| name in left;
      left := left - {name};
      if name !in excluded {
        if name in m {
          assert name in (entries - excluded).Keys && name in m0.Keys;
          return m, Some(name);
        }
        m, done := m[name := entries[name]], done[name := entries[name]];
      }
    }
    assert done == entries - excluded;
    clash := None;
  }

  lemma {:induction false} NoMapAfterClash(sig: seq<Param>, b: seq<Slot>, excluded: set<string>, i: nat, n: nat)
    requires Shaped(sig, b) && i <= n <= |sig| && MapUpTo(sig, b, excluded, i).None?
    ensures MapUpTo(sig, b, excluded, n).None?
    decreases n
  {
    if i < n { NoMapAfterClash(sig, b, excluded, i, n - 1); }
  }

  // ----- Back to a call -----

  datatype Gathered = Gathered(
    positional: seq<PyObject>, keyword: map<string, PyObject>, remaining: map<string, PyObject>)

  /** The first `i` parameters taken out of the map; nothing when *args is not a list. */
  function GatherUpTo(sig: seq<Param>, m: map<string, PyObject>, i: nat): Option<Gathered>
    requires i <= |sig|
  {
    if i == 0 then Some(Gathered([], map[], m))
    else
      match GatherUpTo(sig, m, i - 1)
      case None => None
      case Some(g) =>
        var name := sig[i - 1].name;
        if name !in g.remaining then Some(g)
        else
          match sig[i - 1].kind
          case VarPos =>
            if g.remaining[name].PyList?
            then Some(Gathered(g.positional + g.remaining[name].items, g.keyword, g.remaining - {name}))
            else None
          case KeyOnly => Some(Gathered(g.positional, g.keyword[name := g.remaining[name]], g.remaining - {name}))
          case VarKey => Some(g)
          case _ => Some(Gathered(g.positional + [g.remaining[name]], g.keyword, g.remaining - {name}))
  }

  function Rebind(sig: seq<Param>, m: map<string, PyObject>): Option<seq<Slot>> {
    match GatherUpTo(sig, m, |sig|)
    case None => None
    case Some(g) => Bind(sig, g.positional, g.keyword + g.remaining)
  }

  /** Takes the parameters out of the map in declaration order and binds them again. */
  method BindFromMap(sig: seq<Param>, m: map<string, PyObject>) returns (b: Option<seq<Slot>>)
    ensures b == Rebind(sig, m)
  {
    var positional: seq<PyObject>, keyword: map<string, PyObject>, remaining := [], map[], m;
    for i := 0 to |sig|
      invariant GatherUpTo(sig, m, i) == Some(Gathered(positional, keyword, remaining))
    {
      var name := sig[i].name;
      if name in remaining {
        var value := remaining[name];
        if sig[i].kind.VarPos? {
          if !value.PyList? {
            NoGatherAfter(sig, m, i + 1, |sig|);
            return None;
          }
          positional, remaining := positional + value.items, remaining - {name};
        } else if sig[i].kind.Positional() {
          positional, remaining := positional + [value], remaining - {name};
        } else if sig[i].kind.KeyOnly? {
          keyword, remaining := keyword[name := value], remaining - {name};
        }
      }
    }
    b := Bind(sig, positional, keyword + remaining);
  }

  lemma {:induction false} NoGatherAfter(sig: seq<Param>, m: map<string, PyObject>, i: nat, n: nat)
    requires i <= n <= |sig| && GatherUpTo(sig, m, i).None?
    ensures GatherUpTo(sig, m, n).None?
    decreases n
  {
    if i < n { NoGatherAfter(sig, m, i, n - 1); }
  }
}
