/** One process among many: the store, shared with every other actor. Before each
    operation of this process the others may have performed any number of theirs. */
module World {
  import opened Json
  import opened Types
  import opened Canonical
  import opened Audit
  import opened Effects
  import opened Hashing
  import opened Evidence
  import P = Protocol
  import G = Gate
  import L = Ledger
  import S = Store
  import opened History
  import opened Moves
  import Runs
  import Fencing

  function Lookup<V>(m: map<Key, V>, k: Key): Option<V> {
    if k in m then Some(m[k]) else None
  }

  /** The tables hold, of every key, what its history left. */
  ghost predicate Mirrors(gp: Rules, h: Log, ledger: map<Key, CommitRecord>, paused: map<Key, PausedRun>, now: Time) {
    && now == Clock(h)
    && forall k :: MirrorsKey(At(gp, h, k), Lookup(ledger, k), Lookup(paused, k))
  }

  ghost predicate MirrorsKey(g: G.Gate, row: Option<CommitRecord>, run: Option<PausedRun>) {
    Row(g) == row && g.run == run
  }

  /** The tables of every other key are as they were. */
  ghost predicate Elsewhere(key: Key, ledger: map<Key, CommitRecord>, paused: map<Key, PausedRun>,
                            ledger': map<Key, CommitRecord>, paused': map<Key, PausedRun>) {
    forall k :: k != key ==> Lookup(ledger', k) == Lookup(ledger, k) && Lookup(paused', k) == Lookup(paused, k)
  }

  /** The audit chain says, of every key, what its history recorded. */
  ghost predicate ChainMirrors(gp: Rules, h: Log, rows: seq<AuditRow>) {
    forall k {:trigger Pick(RowNotes(rows), k)} :: Pick(RowNotes(rows), k) == At(gp, h, k).trail
  }

  /** The chain now says this much more, about one key. */
  ghost predicate Adds(before: seq<AuditRow>, after: seq<AuditRow>, key: Key, news: seq<G.Notice>) {
    if news == [] then after == before else RowNotes(after) == RowNotes(before) + About(key, news)
  }

  lemma {:induction false} ChainNext(gp: Rules, h: Log, ev: G.Event, rows: seq<AuditRow>, rows': seq<AuditRow>,
                                     news: seq<G.Notice>)
    requires ChainMirrors(gp, h, rows) && Adds(rows, rows', ev.key, news)
    requires G.Apply(Of(gp, ev.key), At(gp, h, ev.key), ev).trail == At(gp, h, ev.key).trail + news
    ensures ChainMirrors(gp, h + [ev], rows')
  {
    forall k ensures Pick(RowNotes(rows'), k) == At(gp, h + [ev], k).trail {
      AtNext(gp, h, ev, k);
      assert Pick(RowNotes(rows), k) == At(gp, h, k).trail;
      if news != [] {
        PickConcat(RowNotes(rows), About(ev.key, news), k);
        PickAbout(ev.key, news, k);
      }
      if k != ev.key && Concerns(ev, k) { TickIsStill(Of(gp, k), At(gp, h, k), ev); }
    }
  }

  /** In a steady world rows are claimed under the guarantee their action declares. */
  predicate DeclaredAs(gp: Rules, declared: map<string, Guarantee>, action: string, g: Guarantee) {
    gp.commit.steady && action in declared ==> g == declared[action]
  }

  predicate Steady(gp: Rules, declared: map<string, Guarantee>, g: G.Gate) {
    Row(g).Some? ==> DeclaredAs(gp, declared, Row(g).value.actionType, Guar(g))
  }

  predicate ClaimsSteadily(gp: Rules, declared: map<string, Guarantee>, op: G.Op) {
    op.Commit? && op.op.Claim? ==> DeclaredAs(gp, declared, op.op.action, op.op.guarantee)
  }

  ghost predicate AllSteady(gp: Rules, declared: map<string, Guarantee>, h: Log) {
    forall k :: Steady(gp, declared, At(gp, h, k))
  }

  lemma SteadyStep(gp: Rules, declared: map<string, Guarantee>, g: G.Gate, ev: G.Event, k: Key)
    requires Steady(gp, declared, g) && ClaimsSteadily(gp, declared, ev.op)
    requires Fencing.Epochs(g.led) && G.Coupled(Of(gp, k), g)
    ensures Steady(gp, declared, G.Apply(Of(gp, k), g, ev))
  {
    LaterStep(Of(gp, k), g, ev);
  }

  lemma SteadyNext(gp: Rules, declared: map<string, Guarantee>, h: Log, ev: G.Event)
    requires AllSteady(gp, declared, h) && ClaimsSteadily(gp, declared, ev.op)
    ensures AllSteady(gp, declared, h + [ev])
  {
    forall k ensures Steady(gp, declared, At(gp, h + [ev], k)) {
      AtNext(gp, h, ev, k);
      Reachable(gp, h, k);
      if Concerns(ev, k) { SteadyStep(gp, declared, At(gp, h, k), ev, k); }
    }
  }

  /** An operation on one key leaves the tables of the others as they were. */
  lemma {:induction false} MirrorNext(gp: Rules, h: Log, ev: G.Event, ledger: map<Key, CommitRecord>,
                                      paused: map<Key, PausedRun>, now: Time, ledger': map<Key, CommitRecord>,
                                      paused': map<Key, PausedRun>)
    requires Mirrors(gp, h, ledger, paused, now)
    requires MirrorsKey(G.Apply(Of(gp, ev.key), At(gp, h, ev.key), ev), Lookup(ledger', ev.key),
                        Lookup(paused', ev.key))
    requires Elsewhere(ev.key, ledger, paused, ledger', paused')
    ensures Mirrors(gp, h + [ev], ledger', paused', now + SpanOf(ev.op))
  {
    assert (h + [ev])[..|h|] == h;
    forall k ensures MirrorsKey(At(gp, h + [ev], k), Lookup(ledger', k), Lookup(paused', k)) {
      AtNext(gp, h, ev, k);
      assert MirrorsKey(At(gp, h, k), Lookup(ledger, k), Lookup(paused, k));
      if k != ev.key && Concerns(ev, k) { TickIsStill(Of(gp, k), At(gp, h, k), ev); }
    }
  }

  /** After an operation that is not a tick, everything mirrors the longer history. */
  lemma {:induction false} NextMirrored(gp: Rules, declared: map<string, Guarantee>, h: Log, ev: G.Event,
                                        ledger: map<Key, CommitRecord>, paused: map<Key, PausedRun>, now: Time,
                                        rows: seq<AuditRow>, ledger': map<Key, CommitRecord>,
                                        paused': map<Key, PausedRun>, rows': seq<AuditRow>, news: seq<G.Notice>)
    requires Mirrors(gp, h, ledger, paused, now) && ChainMirrors(gp, h, rows) && AllSteady(gp, declared, h)
    requires !IsTick(ev.op) && ClaimsSteadily(gp, declared, ev.op)
    requires MirrorsKey(G.Apply(Of(gp, ev.key), At(gp, h, ev.key), ev), Lookup(ledger', ev.key),
                        Lookup(paused', ev.key))
    requires Elsewhere(ev.key, ledger, paused, ledger', paused')
    requires Adds(rows, rows', ev.key, news)
    requires G.Apply(Of(gp, ev.key), At(gp, h, ev.key), ev).trail == At(gp, h, ev.key).trail + news
    ensures Mirrors(gp, h + [ev], ledger', paused', now) && ChainMirrors(gp, h + [ev], rows')
    ensures AllSteady(gp, declared, h + [ev])
    ensures At(gp, h + [ev], ev.key) == G.Apply(Of(gp, ev.key), At(gp, h, ev.key), ev)
  {
    MirrorNext(gp, h, ev, ledger, paused, now, ledger', paused');
    ChainNext(gp, h, ev, rows, rows', news);
    SteadyNext(gp, declared, h, ev);
    AtNext(gp, h, ev, ev.key);
  }

  function Noted(r: CommitRecord, e: nat, error: Value): Option<CommitRecord> {
    if L.WithError(r, e, error).Some? then L.WithError(r, e, error) else Some(r)
  }

  /** In calm the row stays where this actor's last operation left it. */
  predicate Sits(g: G.Gate, e: nat, state: LedgerState) {
    Row(g).Some? && Row(g).value.attempts == e && Row(g).value.state == state
  }

  /** The epoch is current and the target may be reached from where the row is. */
  predicate CanEnd(g: G.Gate, e: nat, target: LedgerState) {
    Row(g).Some? && Row(g).value.attempts == e && L.FinalizableFrom(target, Row(g).value.state)
  }

  /** A later epoch owns the row, or it is terminal. */
  predicate Gone(g: G.Gate, e: nat) {
    Row(g).Some? && (Row(g).value.attempts > e || Row(g).value.state.Terminal())
  }

  /** A later epoch owns the row, or it is no longer pending. */
  predicate Overtaken(g: G.Gate, e: nat) {
    Row(g).Some? && (Row(g).value.attempts > e || !Row(g).value.state.Pending?)
  }

  function ErrorOf(g: G.Gate): Value {
    if Row(g).Some? then Row(g).value.error else Null
  }

  /** The row ended in this state with this result. */
  predicate EndedIn(g: G.Gate, target: LedgerState, result: Value) {
    Row(g).Some? && Row(g).value.state == target && Row(g).value.result == result
  }

  lemma NotedRow(r: CommitRecord, e: nat, error: Value)
    ensures var n := Noted(r, e, error);
            n.Some? && n.value.state == r.state && n.value.attempts == r.attempts && SameAction(r, n.value)
  {
  }

  lemma FinalizedRow(r: CommitRecord, e: nat, target: LedgerState, result: Value, now: Time)
    ensures var f := L.Finalized(r, e, target, result, now);
            && (f.Some? <==> r.attempts == e && L.FinalizableFrom(target, r.state))
            && (f.Some? ==>
                  && f.value.state == target && f.value.result == result && f.value.error == r.error
                  && SameAction(r, f.value))
  {
  }

  /** What a probe that always knows answers. */
  function Actual(g: G.Gate): Verification {
    if g.led.cell.effects != [] then Present else Absent
  }

  /** Nothing moved but the error column. */
  predicate InStep(g: G.Gate, g': G.Gate) {
    && Row(g).Some? && Row(g').Some? && Row(g').value.state == Row(g).value.state
    && Row(g').value.attempts == Row(g).value.attempts && g'.run == g.run
  }

  /** The swap can be asked of this key, now and later. */
  predicate Swappable(g: G.Gate, op: G.Op) {
    && g.run.Some?
    && (op.Decide? ==> op.decision.decidedAt.Some? && op.decision.latencyMs.Some?)
    && (op.ResolveApproved? ==> ResolvesTo(g, op.to))
  }

  lemma StillSwappable(gp: G.Params, g: G.Gate, g': G.Gate, me: P.Actor, op: G.Op)
    requires IsSwap(op) && Swappable(g, op) && Later(g, g')
    ensures Swappable(g', op) && G.Legal(gp, g', me, op)
  {
  }

  /** The row decides how an approved run resolves. */
  predicate ResolvesTo(g: G.Gate, to: PauseStatus) {
    G.Settled(g) && to == if Row(g).value.state.Committed? then RunCommitted else RunAborted
  }

  /** The run took the edge, and nothing else of it changed but what the swap records. */
  predicate Swapped(g: G.Gate, g': G.Gate, op: G.Op, now: Time)
    requires IsSwap(op)
  {
    && g.run.Some? && g'.run.Some?
    && g'.run == L.Transitioned(g.run.value, FromOf(op), ToOf(op), DecisionOf(op), now)
    && g'.verdict == if op.Decide? then Some(op.decision.decision) else g.verdict
  }

  /** This decision is the one on record. */
  predicate OnRecord(g: G.Gate, d: ApprovalDecision) {
    && g.verdict == Some(d.decision)
    && g.run.Some?
    && var r := g.run.value;
       && r.decidedBy == d.decidedBy && r.decidedAt == d.decidedAt && r.latencyMs == d.latencyMs
       && r.reason == d.reason && r.reasonCode == d.reasonCode
  }

  function Listed(record: Option<G.Notice>): seq<G.Notice> {
    if record.Some? then [record.value] else []
  }

  /** How a call of the effect ended for its caller. */
  datatype Executed = Gave(value: Value) | Broke(error: Value) | Overran

  /** A moment of the database, and what its tables held then. */
  datatype Snapshot = Snapshot(history: Log, ledger: map<Key, CommitRecord>, paused: map<Key, PausedRun>)

  /** The snapshot was taken between two moments. */
  ghost predicate TakenBetween(gp: Rules, from: Log, scan: Snapshot, to: Log) {
    && from <= scan.history && scan.history <= to
    && Mirrors(gp, scan.history, scan.ledger, scan.paused, Clock(scan.history))
  }

  type Faithful = (Log, map<Key, CommitRecord>, map<Key, PausedRun>, Time, AuditTable) -> bool

  /** Everything the tables of one database keep of its history. */
  ghost predicate Mirrored(gp: Rules, declared: map<string, Guarantee>, append: S.Appender,
                           chainOk: AuditTable -> bool, h: Log, ledger: map<Key, CommitRecord>,
                           paused: map<Key, PausedRun>, now: Time, chain: AuditTable)
  {
    && S.Kept(append, chainOk, ledger, paused, chain)
    && Mirrors(gp, h, ledger, paused, now)
    && ChainMirrors(gp, h, chain.rows)
    && AllSteady(gp, declared, h)
  }

  /** Mentioned where the meaning of `faithful` is needed, and nowhere else. */
  ghost predicate Shown(h: Log, ledger: map<Key, CommitRecord>, paused: map<Key, PausedRun>, now: Time,
                        chain: AuditTable) {
    true
  }

  /** Time passes: everything mirrors the longer history as it is. */
  lemma TickMirrored(gp: Rules, declared: map<string, Guarantee>, append: S.Appender,
                     chainOk: AuditTable -> bool, h: Log, tick: G.Event, ledger: map<Key, CommitRecord>,
                     paused: map<Key, PausedRun>, now: Time, chain: AuditTable)
    requires Mirrored(gp, declared, append, chainOk, h, ledger, paused, now, chain) && IsTick(tick.op)
    ensures Mirrored(gp, declared, append, chainOk, h + [tick], ledger, paused, now + SpanOf(tick.op), chain)
  {
    TickIsStill(Of(gp, tick.key), At(gp, h, tick.key), tick);
    assert MirrorsKey(At(gp, h, tick.key), Lookup(ledger, tick.key), Lookup(paused, tick.key));
    MirrorNext(gp, h, tick, ledger, paused, now, ledger, paused);
    ChainNext(gp, h, tick, chain.rows, chain.rows, []);
    SteadyNext(gp, declared, h, tick);
  }

  class World {
    const store: S.Store
    ghost const faithful: Faithful
    const gp: Rules
    const declared: map<string, Guarantee>  // the guarantee of each registered action
    const calm: bool                        // of the others nothing is running
    var history: Log

    ghost function At(k: Key): G.Gate
      reads this
    {
      History.At(gp, history, k)
    }

    /** The tables hold what the history left. This is `Sound()` behind a name: callers carry
        it from step to step as one fact about five values and have no use for what it says,
        and a verifier that can see what it says pays for that at every step. `Open()` and
        `Close()` go from one to the other. */
    ghost predicate Valid()
      reads this, store
    {
      faithful(history, store.ledger, store.paused, store.now, store.chain) && Meant()
    }

    ghost predicate Meant() {
      forall h, l, p, now, c {:trigger Shown(h, l, p, now, c)} ::
        faithful(h, l, p, now, c) <==> Mirrored(gp, declared, store.append, store.chainOk, h, l, p, now, c)
    }

    ghost predicate Sound()
      reads this, store
    {
      Mirrored(gp, declared, store.append, store.chainOk, history, store.ledger, store.paused, store.now, store.chain)
    }

    lemma Open()
      requires Valid()
      ensures Sound()
    {
      assert Shown(history, store.ledger, store.paused, store.now, store.chain);
    }

    lemma Close()
      requires Sound() && Meant()
      ensures Valid()
    {
      assert Shown(history, store.ledger, store.paused, store.now, store.chain);
    }

    lemma TellsTime()
      requires Valid()
      ensures store.now == Clock(history)
    {
      Open();
    }

    /** Since `start` this actor worked on one key alone. */
    ghost predicate Worked(me: P.Actor, key: Key, start: Log)
      reads this
    {
      Works(me, key, calm, start, history)
    }

    /** The tables as they are. */
    ghost function Now(): Snapshot
      reads this, store
    {
      Snapshot(history, store.ledger, store.paused)
    }

    // ----- Room on the audit chain -----

    function Rows(): nat
      reads store
    {
      |store.chain.rows|
    }

    /** The chain has no room for the two records a transaction may carry. */
    predicate Full()
      reads store
    {
      !S.HasRoom(Rows(), 2)
    }

    /** A recovery of this key cannot be recorded: there is no room, or its epoch is beyond
        the largest canonical number. */
    ghost predicate Jammed(key: Key)
      reads this, store
    {
      Full() || (Row(At(key)).Some? && Row(At(key)).value.attempts > MAX_CANONICAL_INT)
    }

    /** The chain only grows, and in calm by no more than `n` rows. */
    predicate Grew(before: nat, n: nat)
      reads store
    {
      before <= Rows() && (calm ==> Rows() <= before + n)
    }

    // ----- Starting -----

    constructor (store: S.Store, gp: Rules, declared: map<string, Guarantee>, calm: bool)
      requires store.Valid() && store.ledger == map[] && store.paused == map[] && store.now == 0
      requires forall k :: Pick(RowNotes(store.chain.rows), k) == []
      ensures Valid() && this.store == store && this.gp == gp && this.declared == declared && this.calm == calm
      ensures history == []
    {
      this.store, this.gp, this.declared, this.calm := store, gp, declared, calm;
      faithful := (h, l, p, now, c) => Mirrored(gp, declared, store.append, store.chainOk, h, l, p, now, c);
      history := [];
    }

    /** A process that starts on the tables an earlier one left. */
    constructor Reopened(store: S.Store, gp: Rules, declared: map<string, Guarantee>, calm: bool, history: Log)
      requires store.Valid() && Mirrors(gp, history, store.ledger, store.paused, store.now)
      requires AllSteady(gp, declared, history) && ChainMirrors(gp, history, store.chain.rows)
      ensures Valid() && this.store == store && this.gp == gp && this.declared == declared && this.calm == calm
      ensures this.history == history
    {
      this.store, this.gp, this.declared, this.calm := store, gp, declared, calm;
      faithful := (h, l, p, now, c) => Mirrored(gp, declared, store.append, store.chainOk, h, l, p, now, c);
      this.history := history;
    }

    // ----- The others -----

    /** Some operations of other actors, none of which the database would refuse; in calm,
        time passes. */
    method Others(me: P.Actor)
      requires Sound()
      modifies this, store
      ensures Sound() && Undisturbed(me, old(history), history)
      ensures old(store.now) <= store.now && Grew(old(Rows()), 0)
      ensures calm ==>
                Quiet(old(history), history) && store.ledger == old(store.ledger) && store.paused == old(store.paused)
    {
      if calm {
        TimePasses(me);
        return;
      }
      var more: Log := *;
      for i := 0 to |more|
        invariant Sound() && Undisturbed(me, old(history), history)
        invariant old(store.now) <= store.now && old(Rows()) <= Rows()
      {
        var ev := more[i];
        if ev.actor != me && ClaimsSteadily(gp, declared, ev.op)
           && !(ev.op.Propose? && S.RefTaken(store.paused, ev.op.approvalRef)) {
          Absorb(ev);
        }
      }
    }

    method TimePasses(me: P.Actor)
      requires Sound()
      modifies this, store
      ensures Sound() && Undisturbed(me, old(history), history) && Quiet(old(history), history)
      ensures old(store.now) <= store.now && store.chain == old(store.chain)
      ensures store.ledger == old(store.ledger) && store.paused == old(store.paused)
    {
      var span: nat := *;
      Tick(G.Event(me + 1, "", G.Commit(P.Tick(span), None)));
    }

    method Tick(tick: G.Event)
      requires Sound() && IsTick(tick.op)
      modifies this`history, store`now
      ensures Sound() && history == old(history) + [tick] && store.now == old(store.now) + SpanOf(tick.op)
    {
      TickMirrored(gp, declared, store.append, store.chainOk, history, tick, store.ledger, store.paused, store.now,
                   store.chain);
      store.Advance(SpanOf(tick.op));
      history := history + [tick];
    }

    /** Another actor's operation with the records it writes, or nothing if an append of
        its transaction is refused. */
    method Absorb(ev: G.Event)
      requires Sound() && ClaimsSteadily(gp, declared, ev.op)
      requires ev.op.Propose? ==> !S.RefTaken(store.paused, ev.op.approvalRef)
      modifies this, store
      ensures Sound() && old(store.now) <= store.now && old(Rows()) <= Rows()
      ensures history == old(history) || history == old(history) + [ev]
    {
      var g := History.At(gp, history, ev.key);
      TrailGrows(gp, history, ev);
      var news := G.Apply(Of(gp, ev.key), g, ev).trail[|g.trail|..];
      var ok := AppendFor(ev.key, news);
      if ok {
        AbsorbTables(ev, old(store.chain.rows), news);
      }
    }

    /** The records of another actor's operation; refused only when there is no room. */
    method AppendFor(key: Key, news: seq<G.Notice>) returns (ok: bool)
      requires store.Valid()
      modifies store`chain
      ensures store.Valid() && old(Rows()) <= Rows()
      ensures ok <==> news == [] || S.HasRoom(old(Rows()), |news|)
      ensures if ok then Adds(old(store.chain.rows), store.chain.rows, key, news) else store.chain == old(store.chain)
    {
      var events := EventsFor(key, news);
      EventsAreWritable(key, news);
      S.AppendAllRaises(store.chainOk, store.append, store.chain, events, store.wall);
      ok := store.AppendAllOn(events);
      if ok {
        EventsReadBack(key, news);
        ChainAdds(store.chainOk, store.append, old(store.chain), events, store.wall, key, news);
        S.AppendAllKeeps(store.chainOk, store.append, old(store.chain), events, store.wall);
      }
    }

    method AbsorbTables(ev: G.Event, ghost rows: seq<AuditRow>, ghost news: seq<G.Notice>)
      requires store.Valid() && Mirrors(gp, history, store.ledger, store.paused, store.now)
      requires AllSteady(gp, declared, history) && ClaimsSteadily(gp, declared, ev.op)
      requires ChainMirrors(gp, history, rows) && Adds(rows, store.chain.rows, ev.key, news)
      requires G.Apply(Of(gp, ev.key), At(ev.key), ev).trail == At(ev.key).trail + news
      requires ev.op.Propose? ==> !S.RefTaken(store.paused, ev.op.approvalRef)
      modifies this, store
      ensures Sound() && history == old(history) + [ev]
      ensures old(store.now) <= store.now && store.chain == old(store.chain)
    {
      ghost var ledger, paused, now := store.ledger, store.paused, store.now;
      ImposeKey(ev);
      MirrorNext(gp, history, ev, ledger, paused, now, store.ledger, store.paused);
      ChainNext(gp, history, ev, rows, store.chain.rows, news);
      SteadyNext(gp, declared, history, ev);
      history := history + [ev];
    }

    /** The tables after another actor's operation on a key. */
    method ImposeKey(ev: G.Event)
      requires store.Valid() && Mirrors(gp, history, store.ledger, store.paused, store.now)
      requires ev.op.Propose? ==> !S.RefTaken(store.paused, ev.op.approvalRef)
      modifies store
      ensures store.Valid() && store.chain == old(store.chain) && store.now == old(store.now) + SpanOf(ev.op)
      ensures MirrorsKey(G.Apply(Of(gp, ev.key), At(ev.key), ev),
                         Lookup(store.ledger, ev.key), Lookup(store.paused, ev.key))
      ensures Elsewhere(ev.key, old(store.ledger), old(store.paused), store.ledger, store.paused)
    {
      var g := History.At(gp, history, ev.key);
      assert MirrorsKey(g, Lookup(store.ledger, ev.key), Lookup(store.paused, ev.key));
      OneClock(gp, history, ev.key);
      TimeStep(Of(gp, ev.key), g, ev);
      AbsorbedKey(gp, history, ev, store.paused);
      ImposeGate(ev.key, g, G.Apply(Of(gp, ev.key), g, ev));
    }

    method ImposeGate(key: Key, g: G.Gate, g': G.Gate)
      requires store.Valid() && MirrorsKey(g, Lookup(store.ledger, key), Lookup(store.paused, key))
      requires Imposable(key, g, g', store.paused)
      modifies store
      ensures store.Valid() && store.chain == old(store.chain) && store.now == g'.led.now
      ensures MirrorsKey(g', Lookup(store.ledger, key), Lookup(store.paused, key))
      ensures Elsewhere(key, old(store.ledger), old(store.paused), store.ledger, store.paused)
    {
      store.Impose(key, Row(g'), g'.run, g'.led.now);
    }

    /** The others act; then this is what the key looks like to the operation that follows. */
    method Meanwhile(me: P.Actor, key: Key, ghost start: Log) returns (ghost before: G.Gate)
      requires Sound() && Worked(me, key, start)
      modifies this, store
      ensures Sound() && Worked(me, key, start) && before == At(key)
      ensures MirrorsKey(before, Lookup(store.ledger, key), Lookup(store.paused, key)) && before.led.now == store.now
      ensures Later(old(At(key)), before) && Undisturbed(me, old(history), history)
      ensures old(store.now) <= store.now && Grew(old(Rows()), 0)
      ensures calm ==> Still(old(At(key)), before)
    {
      Others(me);
      OneClock(gp, history, key);
      GoesOn(gp, old(history), history, key);
      WorksOn(me, key, calm, start, old(history), history);
      before := At(key);
      if calm { QuietIsStill(gp, old(history), history, key); }
    }

    /** An epoch held before the others act is held after. */
    method MeanwhileOwning(me: P.Actor, key: Key, ghost start: Log, e: nat, ghost phase: P.Phase,
                           ghost dk: Option<string>)
      returns (ghost before: G.Gate)
      requires Sound() && Worked(me, key, start) && Owns(me, At(key), e, phase, dk)
      modifies this, store
      ensures Sound() && Worked(me, key, start) && before == At(key)
      ensures MirrorsKey(before, Lookup(store.ledger, key), Lookup(store.paused, key)) && before.led.now == store.now
      ensures Owns(me, before, e, phase, dk) && SameAction(Row(old(At(key))).value, Row(before).value)
      ensures old(store.now) <= store.now && Grew(old(Rows()), 0)
      ensures calm ==> Still(old(At(key)), before)
    {
      Others(me);
      OneClock(gp, history, key);
      WorksOn(me, key, calm, start, old(history), history);
      before := At(key);
      StillOwns(gp, old(history), history, key, me, e, phase, dk);
      if calm { QuietIsStill(gp, old(history), history, key); }
    }

    /** A reading taken before the others act is still the actor's after. */
    method MeanwhileReading(me: P.Actor, key: Key, ghost start: Log, ghost record: CommitRecord)
      returns (ghost before: G.Gate)
      requires Sound() && Worked(me, key, start) && HasRead(me, At(key), record)
      modifies this, store
      ensures Sound() && Worked(me, key, start) && before == At(key)
      ensures MirrorsKey(before, Lookup(store.ledger, key), Lookup(store.paused, key)) && before.led.now == store.now
      ensures HasRead(me, before, record)
      ensures old(store.now) <= store.now && Grew(old(Rows()), 0)
      ensures calm ==> Still(old(At(key)), before)
    {
      Others(me);
      OneClock(gp, history, key);
      WorksOn(me, key, calm, start, old(history), history);
      before := At(key);
      StillRead(gp, old(history), history, key, me, record);
      if calm { QuietIsStill(gp, old(history), history, key); }
    }

    /** The operation went through: the tables already show what it did to its key. */
    method Record(ev: G.Event, ghost start: Log, ghost ledger: map<Key, CommitRecord>,
                  ghost paused: map<Key, PausedRun>, ghost rows: seq<AuditRow>, ghost news: seq<G.Notice>)
      requires store.Valid() && Mirrors(gp, history, ledger, paused, store.now)
      requires Worked(ev.actor, ev.key, start)
      requires AllSteady(gp, declared, history) && ClaimsSteadily(gp, declared, ev.op) && !IsTick(ev.op)
      requires MirrorsKey(G.Apply(Of(gp, ev.key), At(ev.key), ev),
                          Lookup(store.ledger, ev.key), Lookup(store.paused, ev.key))
      requires Elsewhere(ev.key, ledger, paused, store.ledger, store.paused)
      requires ChainMirrors(gp, history, rows) && Adds(rows, store.chain.rows, ev.key, news)
      requires G.Apply(Of(gp, ev.key), At(ev.key), ev).trail == At(ev.key).trail + news
      modifies this
      ensures Sound() && Worked(ev.actor, ev.key, start)
      ensures At(ev.key) == G.Apply(Of(gp, ev.key), old(At(ev.key)), ev) && history == old(history) + [ev]
    {
      NextMirrored(gp, declared, history, ev, ledger, paused, store.now, rows,
                   store.ledger, store.paused, store.chain.rows, news);
      WorksNext(calm, start, history, ev);
      history := history + [ev];
    }

    /** An operation that writes no audit record. */
    method RecordQuietly(ev: G.Event, ghost start: Log, ghost ledger: map<Key, CommitRecord>,
                         ghost paused: map<Key, PausedRun>)
      requires store.Valid() && Mirrors(gp, history, ledger, paused, store.now)
      requires Worked(ev.actor, ev.key, start)
      requires AllSteady(gp, declared, history) && ClaimsSteadily(gp, declared, ev.op) && !IsTick(ev.op)
      requires MirrorsKey(G.Apply(Of(gp, ev.key), At(ev.key), ev),
                          Lookup(store.ledger, ev.key), Lookup(store.paused, ev.key))
      requires Elsewhere(ev.key, ledger, paused, store.ledger, store.paused)
      requires ChainMirrors(gp, history, store.chain.rows)
      requires G.Apply(Of(gp, ev.key), At(ev.key), ev).trail == At(ev.key).trail
      modifies this
      ensures Sound() && Worked(ev.actor, ev.key, start)
      ensures At(ev.key) == G.Apply(Of(gp, ev.key), old(At(ev.key)), ev)
    {
      Record(ev, start, ledger, paused, store.chain.rows, []);
    }

    // ----- The commit protocol -----

    method Claim(me: P.Actor, key: Key, ghost start: Log, action: string, g: Guarantee, args: Value,
                 dk: Option<string>)
      returns (won: bool, record: CommitRecord)
      requires Valid() && Worked(me, key, start)
      requires DeclaredAs(gp, declared, action, g) && P.KeyFits(g, dk)
      requires gp.gated(key) ==> MayClaim(At(key), action)
      modifies this, store
      ensures Valid() && Worked(me, key, start) && Grew(old(Rows()), 0)
      ensures Row(At(key)) == Some(record) && Later(old(At(key)), At(key)) && old(store.now) <= store.now
      ensures won ==> Owns(me, At(key), 1, P.Won, dk) && record.attempts == 1 && record.state.Pending?
                      && record.actionType == action && record.guarantee == g
      ensures calm ==> (won <==> Row(old(At(key))).None?) && At(key).run == old(At(key)).run
                       && (!won ==> Still(old(At(key)), At(key)))
    {
      Open();
      var stamp := store.now;
      ghost var before := Meanwhile(me, key, start);
      won, record := ClaimNow(me, key, start, P.Claim(action, g, args, dk, stamp));
      LaterTwice(old(At(key)), before, At(key));
      Close();
    }

    method ClaimNow(me: P.Actor, key: Key, ghost start: Log, op: P.Op) returns (won: bool, record: CommitRecord)
      requires Sound() && Worked(me, key, start) && At(key).led.now == store.now && op.Claim?
      requires DeclaredAs(gp, declared, op.action, op.guarantee) && P.KeyFits(op.guarantee, op.downstreamKey)
      requires op.stamp <= store.now && (gp.gated(key) ==> MayClaim(At(key), op.action))
      modifies this, store
      ensures Sound() && Worked(me, key, start) && store.chain == old(store.chain) && store.now == old(store.now)
      ensures Row(At(key)) == Some(record) && At(key).run == old(At(key)).run && Later(old(At(key)), At(key))
      ensures won <==> Row(old(At(key))).None?
      ensures if won then Owns(me, At(key), 1, P.Won, op.downstreamKey)
                          && record == L.Inserted(key, op.action, op.guarantee, op.args, op.downstreamKey, op.stamp)
              else At(key) == old(At(key))
    {
      ghost var g, ledger, paused := At(key), store.ledger, store.paused;
      assert MirrorsKey(g, Lookup(ledger, key), Lookup(paused, key));
      EpochsAt(gp, history, key);
      LaterSelf(g);
      ThenLater(gp, history, key, Ev(me, key, op), g);
      won, record := store.Claim(key, op.action, op.guarantee, op.args, op.downstreamKey, op.stamp);
      ClaimMove(Of(gp, key), g, me, key, op);
      RecordQuietly(Ev(me, key, op), start, ledger, paused);
    }

    /** A plain read, by an actor that waits for another. */
    method Peek(me: P.Actor, key: Key, ghost start: Log) returns (record: Option<CommitRecord>)
      requires Valid() && Worked(me, key, start)
      modifies this, store
      ensures Valid() && Worked(me, key, start) && Grew(old(Rows()), 0) && old(store.now) <= store.now
      ensures record == Row(At(key)) && Later(old(At(key)), At(key))
      ensures Undisturbed(me, old(history), history)
      ensures calm ==> Still(old(At(key)), At(key))
    {
      Open();
      ghost var before := Meanwhile(me, key, start);
      record := store.Load(key);
      Close();
    }

    /** The read of a reconciler ahead of its takeover of this key. */
    method LoadForRecovery(me: P.Actor, key: Key, ghost start: Log) returns (record: Option<CommitRecord>)
      requires Valid() && Worked(me, key, start)
      modifies this, store
      ensures Valid() && Worked(me, key, start) && Grew(old(Rows()), 0) && old(store.now) <= store.now
      ensures record == Row(At(key)) && Later(old(At(key)), At(key))
      ensures record.Some? && record.value.state.InFlight() ==> HasRead(me, At(key), record.value)
      ensures calm ==> Row(At(key)) == Row(old(At(key))) && At(key).run == old(At(key)).run
    {
      Open();
      ghost var before := Meanwhile(me, key, start);
      record := store.Load(key);
      if record.Some? && record.value.state.InFlight() {
        LoadMove(Of(gp, key), before, me, key);
        ThenLater(gp, history, key, Ev(me, key, P.Load), old(At(key)));
        RecordQuietly(Ev(me, key, P.Load), start, store.ledger, store.paused);
      }
      Close();
    }

    method Bump(me: P.Actor, key: Key, ghost start: Log, olderThan: int, ghost record: CommitRecord)
      returns (epoch: Option<nat>, ghost before: G.Gate)
      requires Valid() && Worked(me, key, start)
      requires HasRead(me, At(key), record) && gp.commit.window <= olderThan
      modifies this, store
      ensures Valid() && Worked(me, key, start) && Grew(old(Rows()), 0)
      ensures HasRead(me, before, record) && At(key).run == before.run
      ensures At(key).led.cell.effects == before.led.cell.effects
      ensures calm ==> Still(old(At(key)), before)
      ensures epoch.Some? ==> Owns(me, At(key), epoch.value, P.Took(record.state), record.downstreamKey)
      ensures var bumped := L.Bumped(Row(before).value, olderThan, old(store.now));
              && (epoch.Some? <==> bumped.Some?)
              && Row(At(key)) == (if bumped.Some? then bumped else Row(before))
              && (epoch.Some? ==> epoch.value == Row(before).value.attempts + 1)
    {
      Open();
      var stamp := store.now;
      before := MeanwhileReading(me, key, start, record);
      epoch := BumpNow(me, key, start, olderThan, stamp, record);
      Close();
    }

    method BumpNow(me: P.Actor, key: Key, ghost start: Log, olderThan: int, stamp: Time, ghost record: CommitRecord)
      returns (epoch: Option<nat>)
      requires Sound() && Worked(me, key, start) && At(key).led.now == store.now && stamp <= store.now
      requires HasRead(me, At(key), record) && gp.commit.window <= olderThan
      modifies this, store
      ensures Sound() && Worked(me, key, start) && store.chain == old(store.chain)
      ensures At(key).run == old(At(key)).run && At(key).led.cell.effects == old(At(key)).led.cell.effects
      ensures epoch.Some? ==> Owns(me, At(key), epoch.value, P.Took(record.state), record.downstreamKey)
                              && epoch.value == Row(old(At(key))).value.attempts + 1
      ensures var bumped := L.Bumped(Row(old(At(key))).value, olderThan, stamp);
              (epoch.Some? <==> bumped.Some?) && Row(At(key)) == if bumped.Some? then bumped else Row(old(At(key)))
    {
      ghost var g, ledger, paused := At(key), store.ledger, store.paused;
      assert MirrorsKey(g, Lookup(ledger, key), Lookup(paused, key));
      epoch := store.BumpEpoch(key, olderThan, stamp);
      BumpMove(Of(gp, key), g, me, key, olderThan, stamp, record);
      RecordQuietly(Ev(me, key, P.Bump(olderThan, stamp)), start, ledger, paused);
    }

    method Mark(me: P.Actor, key: Key, ghost start: Log, e: nat, ghost dk: Option<string>)
      returns (won: bool)
      requires Valid() && Worked(me, key, start)
      requires Owns(me, At(key), e, P.Vetted, dk)
      modifies this, store
      ensures Valid() && Worked(me, key, start) && Grew(old(Rows()), 0)
      ensures Owns(me, At(key), e, if won then P.Marked else P.Over, dk)
      ensures SameAction(Row(old(At(key))).value, Row(At(key)).value)
      ensures if won then Sits(At(key), e, Executing) else Overtaken(At(key), e)
      ensures calm ==> At(key).run == old(At(key)).run
      ensures calm && Sits(old(At(key)), e, Pending) ==> won
    {
      Open();
      var stamp := store.now;
      ghost var before := MeanwhileOwning(me, key, start, e, P.Vetted, dk);
      EpochsAt(gp, history, key);
      won := MarkNow(me, key, start, e, stamp, dk);
      Close();
    }

    method MarkNow(me: P.Actor, key: Key, ghost start: Log, e: nat, stamp: Time, ghost dk: Option<string>)
      returns (won: bool)
      requires Sound() && Worked(me, key, start) && At(key).led.now == store.now && stamp <= store.now
      requires Owns(me, At(key), e, P.Vetted, dk)
      modifies this, store
      ensures Sound() && Worked(me, key, start) && At(key).run == old(At(key)).run && store.chain == old(store.chain)
      ensures Owns(me, At(key), e, if won then P.Marked else P.Over, dk)
      ensures var marked := L.Marked(Row(old(At(key))).value, e, stamp);
              (won <==> marked.Some?) && Row(At(key)) == if won then marked else Row(old(At(key)))
    {
      ghost var g, ledger, paused := At(key), store.ledger, store.paused;
      assert MirrorsKey(g, Lookup(ledger, key), Lookup(paused, key));
      won := store.MarkExecuting(key, e, stamp);
      MarkMove(Of(gp, key), g, me, key, e, stamp, dk);
      RecordQuietly(Ev(me, key, P.Mark(e, stamp)), start, ledger, paused);
    }

    /** Asks the preconditions, if there are any, after the claim or the takeover. Whoever
        coerces an answer takes one that raises for a no. */
    method Vet(me: P.Actor, key: Key, ghost start: Log, e: nat, ghost phase: P.Phase, ghost dk: Option<string>,
               ask: Preconditions)
      returns (said: Precheck)
      requires Valid() && Worked(me, key, start)
      requires Owns(me, At(key), e, phase, dk) && P.MayVet(Guar(At(key)), phase)
      modifies this, store
      ensures Valid() && Worked(me, key, start) && Grew(old(Rows()), 0)
      ensures Owns(me, At(key), e, if said.Held? then P.NextPhase(phase, P.PreconditionsHeld) else phase, dk)
      ensures SameAction(Row(old(At(key))).value, Row(At(key)).value)
      ensures (ask.Unconditional? ==> said.Held?) && (said.Threw? ==> ask.Raw?)
      ensures calm ==> InStep(old(At(key)), At(key))
    {
      Open();
      ghost var before := MeanwhileOwning(me, key, start, e, phase, dk);
      said := *;
      if ask.Unconditional? {
        said := Held;
      } else if ask.Coerced? && said.Threw? {
        said := NotHeld;
      }
      if said.Held? {
        LearnNow(me, key, start, e, phase, dk, P.PreconditionsHeld);
      }
      Close();
    }

    /** What the holder of an epoch learned goes on record. */
    method LearnNow(me: P.Actor, key: Key, ghost start: Log, e: nat, ghost phase: P.Phase,
                    ghost dk: Option<string>, news: P.News)
      requires Sound() && Worked(me, key, start)
      requires Owns(me, At(key), e, phase, dk) && P.MayLearn(gp.commit, At(key).led.cell, phase, news)
      modifies this
      ensures Sound() && Worked(me, key, start)
      ensures Owns(me, At(key), e, P.NextPhase(phase, news), dk)
      ensures Row(At(key)) == Row(old(At(key))) && At(key).run == old(At(key)).run
    {
      assert MirrorsKey(At(key), Lookup(store.ledger, key), Lookup(store.paused, key));
      LearnMove(Of(gp, key), At(key), me, key, e, phase, dk, news);
      RecordQuietly(Ev(me, key, P.Learn(e, news)), start, store.ledger, store.paused);
    }

    method NoteError(me: P.Actor, key: Key, ghost start: Log, e: nat, ghost phase: P.Phase,
                     ghost dk: Option<string>, error: Value)
      requires Valid() && Worked(me, key, start)
      requires Owns(me, At(key), e, phase, dk)
      modifies this, store
      ensures Valid() && Worked(me, key, start) && Grew(old(Rows()), 0)
      ensures Owns(me, At(key), e, phase, dk) && SameAction(Row(old(At(key))).value, Row(At(key)).value)
      ensures calm ==> InStep(old(At(key)), At(key)) && Row(At(key)) == Noted(Row(old(At(key))).value, e, error)
    {
      Open();
      ghost var before := MeanwhileOwning(me, key, start, e, phase, dk);
      NotedRow(Row(before).value, e, error);
      NoteNow(me, key, start, e, phase, dk, error);
      Close();
    }

    method NoteNow(me: P.Actor, key: Key, ghost start: Log, e: nat, ghost phase: P.Phase,
                   ghost dk: Option<string>, error: Value)
      requires Sound() && Worked(me, key, start) && At(key).led.now == store.now
      requires Owns(me, At(key), e, phase, dk)
      modifies this, store
      ensures Sound() && Worked(me, key, start) && At(key).run == old(At(key)).run && store.chain == old(store.chain)
      ensures Owns(me, At(key), e, phase, dk) && Row(At(key)) == Noted(Row(old(At(key))).value, e, error)
    {
      ghost var g, ledger, paused := At(key), store.ledger, store.paused;
      assert MirrorsKey(g, Lookup(ledger, key), Lookup(paused, key));
      var noted := store.RecordError(key, e, error);
      NoteMove(Of(gp, key), g, me, key, e, phase, dk, error);
      RecordQuietly(Ev(me, key, P.NoteError(e, error)), start, ledger, paused);
    }

    /** The terminal write, with its record: it raises only when the chain has no room. */
    method Finalize(me: P.Actor, key: Key, ghost start: Log, e: nat, ghost phase: P.Phase,
                    ghost dk: Option<string>, target: LedgerState, result: Value, record: Option<G.Notice>,
                    audit: seq<AuditEvent>)
      returns (w: S.Written)
      requires Valid() && Worked(me, key, start)
      requires Owns(me, At(key), e, phase, dk) && target.Terminal()
      requires P.MayFinalize(gp.commit, Guar(At(key)), phase, target, result)
      requires G.Recordable(gp.recorded(key), target, record)
      requires EventNotes(audit) == About(key, Listed(record))
      modifies this, store
      ensures Valid() && Worked(me, key, start) && Grew(old(Rows()), |audit|)
      ensures Row(At(key)).Some? && SameAction(Row(old(At(key))).value, Row(At(key)).value)
      ensures w.Matched? ==> EndedIn(At(key), target, result)
      ensures w.Fenced? ==> Gone(At(key), e)
      ensures w.Raised? && S.Writable(audit) ==> audit != [] && !S.HasRoom(Rows(), |audit|)
      ensures calm ==> At(key).run == old(At(key)).run && ErrorOf(At(key)) == ErrorOf(old(At(key)))
      ensures calm && CanEnd(old(At(key)), e, target) ==> !w.Fenced?
    {
      Open();
      ghost var before := MeanwhileOwning(me, key, start, e, phase, dk);
      FinalizedRow(Row(before).value, e, target, result, store.now);
      EndsUnlessGone(gp, history, key, me, e, phase, dk, target, result);
      w := FinalizeNow(me, key, start, e, phase, dk, target, result, record, audit);
      Close();
    }

    method FinalizeNow(me: P.Actor, key: Key, ghost start: Log, e: nat, ghost phase: P.Phase,
                       ghost dk: Option<string>, target: LedgerState, result: Value, record: Option<G.Notice>,
                       audit: seq<AuditEvent>)
      returns (w: S.Written)
      requires Sound() && Worked(me, key, start) && At(key).led.now == store.now
      requires Owns(me, At(key), e, phase, dk) && target.Terminal()
      requires P.MayFinalize(gp.commit, Guar(At(key)), phase, target, result)
      requires G.Recordable(gp.recorded(key), target, record)
      requires EventNotes(audit) == About(key, Listed(record))
      modifies this, store
      ensures Sound() && Worked(me, key, start) && At(key).run == old(At(key)).run
      ensures Rows() == old(Rows()) + (if w.Matched? then |audit| else 0)
      ensures w.Fenced? <==> L.Finalized(Row(old(At(key))).value, e, target, result, store.now).None?
      ensures w.Raised? && S.Writable(audit) ==> audit != [] && !S.HasRoom(Rows(), |audit|)
      ensures Row(At(key)) ==
              if !w.Matched? then Row(old(At(key)))
              else L.Finalized(Row(old(At(key))).value, e, target, result, store.now)
    {
      ghost var g, ledger, paused, rows := At(key), store.ledger, store.paused, store.chain.rows;
      assert MirrorsKey(g, Lookup(ledger, key), Lookup(paused, key));
      FinalizeMove(Of(gp, key), g, me, key, e, phase, dk, target, result, record);
      w := FinalizeTables(key, e, target, result, record, audit);
      if !w.Raised? {
        Record(G.Event(me, key, G.Commit(P.Finalize(e, target, result), record)), start, ledger, paused, rows,
               if w.Matched? then Listed(record) else []);
      }
    }

    /** The transaction of a terminal write. */
    method FinalizeTables(key: Key, e: nat, target: LedgerState, result: Value, ghost record: Option<G.Notice>,
                          audit: seq<AuditEvent>)
      returns (w: S.Written)
      requires store.Valid() && target.Terminal() && key in store.ledger
      requires EventNotes(audit) == About(key, Listed(record))
      modifies store`ledger, store`chain
      ensures store.Valid()
      ensures var final := L.Finalized(old(store.ledger)[key], e, target, result, store.now);
              && (w.Fenced? <==> final.None?)
              && store.ledger == (if w.Matched? then old(store.ledger)[key := final.value] else old(store.ledger))
      ensures Adds(old(store.chain.rows), store.chain.rows, key, if w.Matched? then Listed(record) else [])
      ensures Rows() == old(Rows()) + (if w.Matched? then |audit| else 0)
      ensures w.Raised? && S.Writable(audit) ==> audit != [] && !S.HasRoom(Rows(), |audit|)
    {
      AppendsOrNot(store.chainOk, store.append, store.chain, audit, store.wall, key, Listed(record));
      w := store.Finalize(key, e, target, result, audit);
    }

    /** One call of the effect under an epoch. It may land while it runs; with a deadline the
        caller may give up on it, and then it runs on. */
    method Execute(me: P.Actor, key: Key, ghost start: Log, e: nat, ghost phase: P.Phase, dk: Option<string>,
                   deadline: bool)
      returns (r: Executed)
      requires Valid() && Worked(me, key, start)
      requires Owns(me, At(key), e, phase, dk) && P.MayExecute(phase)
      modifies this, store
      ensures Valid() && Worked(me, key, start) && Grew(old(Rows()), 0)
      ensures Owns(me, At(key), e, if r.Gave? then P.Returned(r.value) else P.Adrift, dk)
      ensures SameAction(Row(old(At(key))).value, Row(At(key)).value)
      ensures r.Overran? ==> deadline
      ensures calm ==> r.Gave? && InStep(old(At(key)), At(key))
    {
      Open();
      BeginCall(me, key, start, e, phase, dk);
      r := EndCall(me, key, start, e, dk, deadline);
      Close();
    }

    method EndCall(me: P.Actor, key: Key, ghost start: Log, e: nat, ghost dk: Option<string>, deadline: bool)
      returns (r: Executed)
      requires Sound() && Worked(me, key, start) && Owns(me, At(key), e, P.Calling, dk)
      modifies this, store
      ensures Sound() && Worked(me, key, start) && Grew(old(Rows()), 0)
      ensures Owns(me, At(key), e, if r.Gave? then P.Returned(r.value) else P.Adrift, dk)
      ensures SameAction(Row(old(At(key))).value, Row(At(key)).value)
      ensures r.Overran? ==> deadline
      ensures calm ==> r.Gave? && InStep(old(At(key)), At(key))
    {
      ghost var before := MeanwhileOwning(me, key, start, e, P.Calling, dk);
      r := *;
      if (calm && !r.Gave?) || (r.Overran? && !deadline) {
        r := Gave(Null);
      }
      LearnNow(me, key, start, e, P.Calling, dk, if r.Gave? then P.ExecuteReturned(r.value) else P.ExecuteRaised);
    }

    /** The call goes out, and its effect may land at once. */
    method BeginCall(me: P.Actor, key: Key, ghost start: Log, e: nat, ghost phase: P.Phase, ghost dk: Option<string>)
      requires Sound() && Worked(me, key, start)
      requires Owns(me, At(key), e, phase, dk) && P.MayExecute(phase)
      modifies this, store
      ensures Sound() && Worked(me, key, start) && Grew(old(Rows()), 0)
      ensures Owns(me, At(key), e, P.Calling, dk) && SameAction(Row(old(At(key))).value, Row(At(key)).value)
      ensures calm ==> InStep(old(At(key)), At(key))
    {
      ghost var before := MeanwhileOwning(me, key, start, e, phase, dk);
      BeginMove(Of(gp, key), before, me, key, e, phase, dk);
      RecordQuietly(Ev(me, key, P.Begin(e)), start, store.ledger, store.paused);
      MaybeLand(me, key, start, e, dk);
    }

    method MaybeLand(me: P.Actor, key: Key, ghost start: Log, e: nat, ghost dk: Option<string>)
      requires Sound() && Worked(me, key, start) && Owns(me, At(key), e, P.Calling, dk)
      modifies this
      ensures Sound() && Worked(me, key, start) && Owns(me, At(key), e, P.Calling, dk)
      ensures Row(At(key)) == Row(old(At(key))) && At(key).run == old(At(key)).run
    {
      var lands: bool := *;
      if lands && G.Legal(Of(gp, key), History.At(gp, history, key), me, G.Commit(P.Land(e), None)) {
        LandMove(Of(gp, key), At(key), me, key, e, dk);
        assert MirrorsKey(At(key), Lookup(store.ledger, key), Lookup(store.paused, key));
        RecordQuietly(Ev(me, key, P.Land(e)), start, store.ledger, store.paused);
      }
    }

    /** The probe a recovery asks after taking over an executing row; without a probe the
        answer is `unknown`. */
    method Probe(me: P.Actor, key: Key, ghost start: Log, e: nat, ghost dk: Option<string>, hasProbe: bool)
      returns (answer: Verification, evidence: Value)
      requires Valid() && Worked(me, key, start)
      requires Owns(me, At(key), e, P.Took(Executing), dk) && Guar(At(key)).Verifiable?
      modifies this, store
      ensures Valid() && Worked(me, key, start) && Grew(old(Rows()), 0)
      ensures Owns(me, At(key), e, P.NextPhase(P.Took(Executing), P.ProbeSaid(answer, evidence)), dk)
      ensures SameAction(Row(old(At(key))).value, Row(At(key)).value)
      ensures calm ==> InStep(old(At(key)), At(key))
      ensures calm && hasProbe ==> answer == Actual(old(At(key)))
      ensures !hasProbe ==> answer.Unproven?
    {
      Open();
      ghost var before := MeanwhileOwning(me, key, start, e, P.Took(Executing), dk);
      answer, evidence := Ask(key);
      if !hasProbe {
        answer, evidence := Unproven, Null;
      }
      LearnNow(me, key, start, e, P.Took(Executing), dk, P.ProbeSaid(answer, evidence));
      Close();
    }

    /** The probe that follows an execute that returned. */
    method PostVerify(me: P.Actor, key: Key, ghost start: Log, e: nat, ghost dk: Option<string>, ghost value: Value)
      returns (answer: Verification, evidence: Value)
      requires Valid() && Worked(me, key, start)
      requires Owns(me, At(key), e, P.Returned(value), dk)
      modifies this, store
      ensures Valid() && Worked(me, key, start) && Grew(old(Rows()), 0)
      ensures Owns(me, At(key), e, P.NextPhase(P.Returned(value), P.PostVerifySaid(answer)), dk)
      ensures SameAction(Row(old(At(key))).value, Row(At(key)).value)
      ensures calm ==> answer == Actual(old(At(key))) && InStep(old(At(key)), At(key))
    {
      Open();
      ghost var before := MeanwhileOwning(me, key, start, e, P.Returned(value), dk);
      answer, evidence := Ask(key);
      LearnNow(me, key, start, e, P.Returned(value), dk, P.PostVerifySaid(answer));
      Close();
    }

    /** Any answer, but no lie where probes are truthful, and never `unknown` in calm. */
    method Ask(key: Key) returns (answer: Verification, evidence: Value)
      ensures P.Truthful(gp.commit, At(key).led.cell, answer)
      ensures calm ==> answer == Actual(At(key))
    {
      answer, evidence := *, *;
      var actual := Actual(History.At(gp, history, key));
      if calm {
        answer := actual;
      } else if gp.commit.truthful && !answer.Unproven? && answer != actual {
        answer := Unproven;
      }
    }

    /** The escalation record; losing it changes nothing else. */
    method Escalate(me: P.Actor, key: Key, ghost start: Log, audit: seq<AuditEvent>) returns (recorded: bool)
      requires Valid() && Worked(me, key, start) && Row(At(key)).Some?
      requires EventNotes(audit) == About(key, [G.Escalated])
      modifies this, store
      ensures Valid() && Worked(me, key, start) && Grew(old(Rows()), |audit|)
      ensures recorded ==> history != [] && history[|history| - 1] == G.Event(me, key, G.Escalate)
      ensures !recorded ==> Undisturbed(me, old(history), history)
      ensures !recorded && S.Writable(audit) ==> !S.HasRoom(Rows(), |audit|)
      ensures calm ==> Row(At(key)) == Row(old(At(key))) && At(key).run == old(At(key)).run
    {
      Open();
      ghost var before := Meanwhile(me, key, start);
      recorded := EscalateNow(me, key, start, audit);
      Close();
    }

    method EscalateNow(me: P.Actor, key: Key, ghost start: Log, audit: seq<AuditEvent>) returns (recorded: bool)
      requires Sound() && Worked(me, key, start) && Row(At(key)).Some?
      requires EventNotes(audit) == About(key, [G.Escalated])
      modifies this, store
      ensures Sound() && Worked(me, key, start)
      ensures Rows() == old(Rows()) + (if recorded then |audit| else 0)
      ensures history == if recorded then old(history) + [G.Event(me, key, G.Escalate)] else old(history)
      ensures !recorded && S.Writable(audit) ==> !S.HasRoom(Rows(), |audit|)
      ensures Row(At(key)) == Row(old(At(key))) && At(key).run == old(At(key)).run
    {
      ghost var g, chain := At(key), store.chain;
      assert MirrorsKey(g, Lookup(store.ledger, key), Lookup(store.paused, key));
      AppendsOrNot(store.chainOk, store.append, chain, audit, store.wall, key, [G.Escalated]);
      recorded := store.AppendAllOn(audit);
      if recorded {
        EscalateMove(Of(gp, key), g, me, key);
        Record(G.Event(me, key, G.Escalate), start, store.ledger, store.paused, chain.rows, [G.Escalated]);
      }
    }

    /** The scan of a sweep, which is also its read ahead of every takeover. */
    method StaleInflight(me: P.Actor, olderThan: int) returns (records: seq<CommitRecord>)
      requires Valid()
      modifies this, store
      ensures Valid() && old(history) <= history && Grew(old(Rows()), 0) && old(store.now) <= store.now
      ensures S.Selects(store.ledger, S.WantStale(old(store.now) - olderThan), S.StampOf, S.KeyOfRow, records)
      ensures forall r :: r in records ==> HasRead(me, At(r.key), r)
      ensures calm ==> store.ledger == old(store.ledger) && store.paused == old(store.paused)
    {
      Open();
      var cutoff := store.now - olderThan;
      Others(me);
      records := store.StaleInflight(cutoff);
      RecordLoads(me, records);
      Close();
    }

    method RecordLoads(me: P.Actor, records: seq<CommitRecord>)
      requires Sound()
      requires forall r :: r in records ==> r.key in store.ledger && store.ledger[r.key] == r && r.state.InFlight()
      requires S.EachOnce(S.KeyOfRow, records)
      modifies this
      ensures Sound() && old(history) <= history
      ensures forall r :: r in records ==> HasRead(me, At(r.key), r)
    {
      for i := 0 to |records|
        invariant Sound() && old(history) <= history
        invariant forall j :: 0 <= j < i ==> HasRead(me, At(records[j].key), records[j])
      {
        assert records[i] in records;
        ghost var h := history;
        RecordLoad(me, records[i]);
        forall j | 0 <= j < i ensures HasRead(me, At(records[j].key), records[j]) {
          assert S.KeyOfRow(records[j]) != S.KeyOfRow(records[i]);
          AtNext(gp, h, Ev(me, records[i].key, P.Load), records[j].key);
        }
      }
    }

    method RecordLoad(me: P.Actor, record: CommitRecord)
      requires Sound() && record.key in store.ledger && store.ledger[record.key] == record && record.state.InFlight()
      modifies this
      ensures Sound() && history == old(history) + [Ev(me, record.key, P.Load)]
      ensures HasRead(me, At(record.key), record)
    {
      var ev := Ev(me, record.key, P.Load);
      assert MirrorsKey(At(record.key), Lookup(store.ledger, record.key), Lookup(store.paused, record.key));
      LoadMove(Of(gp, record.key), At(record.key), me, record.key);
      NextMirrored(gp, declared, history, ev, store.ledger, store.paused, store.now, store.chain.rows,
                   store.ledger, store.paused, store.chain.rows, []);
      history := history + [ev];
    }

    // ----- The durable pause -----

    /** The run an approval reference names, whatever its key. */
    method FindPaused(me: P.Actor, ref: string) returns (run: Option<PausedRun>)
      requires Valid()
      modifies this, store
      ensures Valid() && Undisturbed(me, old(history), history) && Grew(old(Rows()), 0) && old(store.now) <= store.now
      ensures calm ==> Quiet(old(history), history)
      ensures run.Some? ==> At(run.value.key).run == run && run.value.approvalRef == ref
      ensures run.None? ==> forall k :: At(k).run.Some? ==> At(k).run.value.approvalRef != ref
    {
      Open();
      Others(me);
      run := store.LoadPausedByRef(ref);
      if run.Some? {
        assert MirrorsKey(At(run.value.key), Lookup(store.ledger, run.value.key), Lookup(store.paused, run.value.key));
      } else {
        forall k | At(k).run.Some? ensures At(k).run.value.approvalRef != ref {
          assert MirrorsKey(At(k), Lookup(store.ledger, k), Lookup(store.paused, k));
        }
      }
      Close();
    }

    method ReloadPaused(me: P.Actor, key: Key, ghost start: Log, ref: string) returns (run: Option<PausedRun>)
      requires Valid() && Worked(me, key, start) && At(key).run.Some? && At(key).run.value.approvalRef == ref
      modifies this, store
      ensures Valid() && Worked(me, key, start) && Undisturbed(me, old(history), history) && Grew(old(Rows()), 0)
      ensures run.Some? && run == At(key).run && Later(old(At(key)), At(key))
      ensures calm ==> Still(old(At(key)), At(key))
    {
      Open();
      ghost var before := Meanwhile(me, key, start);
      assert key in store.paused && store.paused[key].approvalRef == ref;
      run := store.LoadPausedByRef(ref);
      Close();
    }

    /** One swap along the status graph, with its records. Losing it changes nothing. */
    method Swap(me: P.Actor, key: Key, ghost start: Log, op: G.Op, audit: seq<AuditEvent>)
      returns (won: S.Written, ghost before: G.Gate)
      requires Sound() && Worked(me, key, start) && IsSwap(op) && Swappable(At(key), op)
      requires EventNotes(audit) == About(key, NewsOf(op)) && S.Writable(audit)
      modifies this, store
      ensures Sound() && Worked(me, key, start) && Grew(old(Rows()), |NewsOf(op)|)
      ensures Later(old(At(key)), before) && Later(before, At(key)) && before.run.Some?
      ensures won.Fenced? <==> before.run.value.status != FromOf(op)
      ensures won.Matched? ==> Swapped(before, At(key), op, store.now)
      ensures won.Raised? ==> Full()
      ensures !won.Matched? ==> At(key) == before && Undisturbed(me, old(history), history)
      ensures calm ==> Still(old(At(key)), before)
    {
      before := Meanwhile(me, key, start);
      StillSwappable(Of(gp, key), old(At(key)), before, me, op);
      won := SwapNow(me, key, start, op, audit);
    }

    method SwapNow(me: P.Actor, key: Key, ghost start: Log, op: G.Op, audit: seq<AuditEvent>) returns (won: S.Written)
      requires Sound() && Worked(me, key, start) && IsSwap(op) && G.Legal(Of(gp, key), At(key), me, op)
      requires EventNotes(audit) == About(key, NewsOf(op)) && S.Writable(audit)
      requires At(key).led.now == store.now && At(key).run.Some?
      modifies this, store
      ensures Sound() && Worked(me, key, start)
      ensures Rows() == old(Rows()) + (if won.Matched? then |NewsOf(op)| else 0)
      ensures Later(old(At(key)), At(key))
      ensures won.Fenced? <==> old(At(key)).run.value.status != FromOf(op)
      ensures won.Matched? ==> Swapped(old(At(key)), At(key), op, store.now)
      ensures won.Raised? ==> Full()
      ensures !won.Matched? ==> history == old(history)
    {
      ghost var g, ledger, paused, rows := At(key), store.ledger, store.paused, store.chain.rows;
      assert MirrorsKey(g, Lookup(ledger, key), Lookup(paused, key));
      SwapMove(Of(gp, key), g, me, key, op);
      LaterSelf(g);
      ThenLater(gp, history, key, G.Event(me, key, op), g);
      won := SwapTables(key, op, audit);
      if won.Matched? {
        Record(G.Event(me, key, op), start, ledger, paused, rows, NewsOf(op));
      }
    }

    /** The transaction of a swap. */
    method SwapTables(key: Key, op: G.Op, audit: seq<AuditEvent>) returns (won: S.Written)
      requires store.Valid() && IsSwap(op) && PauseEdge(FromOf(op), ToOf(op)) && key in store.paused
      requires EventNotes(audit) == About(key, NewsOf(op)) && S.Writable(audit)
      modifies store`paused, store`chain
      ensures store.Valid()
      ensures var moved := L.Transitioned(old(store.paused)[key], FromOf(op), ToOf(op), DecisionOf(op), store.now);
              && (won.Fenced? <==> moved.None?)
              && store.paused == (if won.Matched? then old(store.paused)[key := moved.value] else old(store.paused))
      ensures won.Matched? ==> Adds(old(store.chain.rows), store.chain.rows, key, NewsOf(op))
      ensures Rows() == old(Rows()) + (if won.Matched? then |NewsOf(op)| else 0)
      ensures won.Raised? ==> Full()
      ensures !won.Matched? ==> store.chain == old(store.chain)
    {
      AppendsOrNot(store.chainOk, store.append, store.chain, audit, store.wall, key, NewsOf(op));
      won := store.TransitionPaused(key, FromOf(op), ToOf(op), DecisionOf(op), audit);
    }

    /** The swap that records a decision; it raises only when the chain has no room. */
    method Decide(me: P.Actor, key: Key, ghost start: Log, d: ApprovalDecision, audit: seq<AuditEvent>)
      returns (won: S.Written)
      requires Valid() && Worked(me, key, start) && At(key).run.Some? && d.decidedAt.Some? && d.latencyMs.Some?
      requires EventNotes(audit) == About(key, [G.Edge(Some(Proposed), G.StatusFor(d.decision))]) && S.Writable(audit)
      modifies this, store
      ensures Valid() && Worked(me, key, start) && Grew(old(Rows()), 1)
      ensures Later(old(At(key)), At(key))
      ensures won.Raised? ==> Full()
      ensures !won.Raised? ==> !At(key).run.value.status.Proposed?
      ensures won.Matched? ==> OnRecord(At(key), d) && At(key).run.value.status == G.StatusFor(d.decision)
      ensures calm && old(At(key)).run.value.status.Proposed? ==> !won.Fenced?
      ensures !old(At(key)).run.value.status.Proposed? ==> won.Fenced?
      ensures !won.Matched? ==> Undisturbed(me, old(history), history)
      ensures calm && !won.Matched? ==> Still(old(At(key)), At(key))
    {
      Open();
      ghost var before;
      won, before := Swap(me, key, start, G.Decide(d), audit);
      LaterTwice(old(At(key)), before, At(key));
      Close();
    }

    /** The swap that resolves an approved run from its terminal row, or a rejected one. */
    method Resolve(me: P.Actor, key: Key, ghost start: Log, op: G.Op, audit: seq<AuditEvent>) returns (won: S.Written)
      requires Valid() && Worked(me, key, start) && At(key).run.Some?
      requires op.ResolveRejected? || (op.ResolveApproved? && ResolvesTo(At(key), op.to))
      requires EventNotes(audit) == About(key, NewsOf(op)) && S.Writable(audit)
      modifies this, store
      ensures Valid() && Worked(me, key, start) && Grew(old(Rows()), |NewsOf(op)|)
      ensures Later(old(At(key)), At(key))
      ensures won.Raised? ==> Full()
      ensures !won.Raised? && old(At(key)).run.value.status == FromOf(op) ==> At(key).run.value.status.Resolved()
      ensures calm && old(At(key)).run.value.status == FromOf(op) ==> !won.Fenced?
    {
      Open();
      ghost var before;
      won, before := Swap(me, key, start, op, audit);
      LaterTwice(old(At(key)), before, At(key));
      Close();
    }

    /** The first gate of a key saves a run; a later one is handed the run there is. It saves
        nothing only when another run has the reference or the chain has no room. */
    method Propose(me: P.Actor, key: Key, ghost start: Log, ref: string, action: string, args: Option<Value>,
                   version: nat, audit: seq<AuditEvent>)
      returns (c: S.PauseClaim)
      requires Valid() && Worked(me, key, start)
      requires EventNotes(audit) == About(key, [G.Edge(None, Proposed)]) && S.Writable(audit)
      modifies this, store
      ensures Valid() && Worked(me, key, start) && Grew(old(Rows()), 1)
      ensures !c.NotSaved? ==> At(key).run == Some(c.run)
      ensures c.Created? ==> c.run.approvalRef == ref && c.run.status.Proposed?
      ensures old(At(key)).run.Some? ==> c.Existing?
      ensures calm && old(At(key)).run.None? ==> !c.Existing?
      ensures c.NotSaved? ==> S.RefTaken(store.paused, ref) || Full()
    {
      Open();
      ghost var before := Meanwhile(me, key, start);
      c := ProposeNow(me, key, start, ref, action, args, version, audit);
      Close();
    }

    method ProposeNow(me: P.Actor, key: Key, ghost start: Log, ref: string, action: string, args: Option<Value>,
                      version: nat, audit: seq<AuditEvent>)
      returns (c: S.PauseClaim)
      requires Sound() && Worked(me, key, start) && At(key).led.now == store.now
      requires EventNotes(audit) == About(key, [G.Edge(None, Proposed)]) && S.Writable(audit)
      modifies this, store
      ensures Sound() && Worked(me, key, start)
      ensures Rows() == old(Rows()) + (if c.Created? then 1 else 0)
      ensures c.Existing? <==> old(At(key)).run.Some?
      ensures !c.NotSaved? ==> At(key).run == Some(c.run)
      ensures c.Created? ==> c.run.approvalRef == ref && c.run.status.Proposed?
      ensures c.NotSaved? ==> S.RefTaken(store.paused, ref) || Full()
    {
      ghost var g, ledger, paused, chain := At(key), store.ledger, store.paused, store.chain;
      assert MirrorsKey(g, Lookup(ledger, key), Lookup(paused, key));
      AppendsOrNot(store.chainOk, store.append, chain, audit, store.wall, key, [G.Edge(None, Proposed)]);
      c := store.SavePaused(ref, key, action, args, version, audit);
      if c.Created? {
        ProposeMove(Of(gp, key), g, me, key, ref, action, args, version);
        Record(G.Event(me, key, G.Propose(ref, action, args, version)), start, ledger, paused, chain.rows,
               [G.Edge(None, Proposed)]);
      }
    }

    method AssignId(me: P.Actor, key: Key, ghost start: Log, id: string)
      requires Valid() && Worked(me, key, start) && At(key).run.Some?
      modifies this, store
      ensures Valid() && Worked(me, key, start) && Grew(old(Rows()), 0)
      ensures At(key).run.Some? && At(key).run.value.approvalId == Some(id)
      ensures At(key).run.value.approvalRef == old(At(key)).run.value.approvalRef
    {
      Open();
      ghost var before := Meanwhile(me, key, start);
      ghost var ledger, paused := store.ledger, store.paused;
      var found := store.SetApprovalId(key, id);
      AssignMove(Of(gp, key), before, me, key, id);
      RecordQuietly(G.Event(me, key, G.AssignId(id)), start, ledger, paused);
      Close();
    }

    /** The scan of the paused sweep. */
    method StaleApproved(me: P.Actor, olderThan: int) returns (runs: seq<PausedRun>)
      requires Valid()
      modifies this, store
      ensures Valid() && Undisturbed(me, old(history), history) && Grew(old(Rows()), 0)
      ensures S.Selects(store.paused, S.WantApproved(old(store.now) - olderThan), S.DecidedAtOf, S.KeyOfRun, runs)
      ensures forall r :: r in runs ==> At(r.key).run == Some(r)
      ensures calm ==> Quiet(old(history), history) && store.paused == old(store.paused)
    {
      Open();
      var cutoff := store.now - olderThan;
      Others(me);
      runs := store.StaleApprovedPaused(cutoff);
      forall r | r in runs ensures At(r.key).run == Some(r) {
        assert MirrorsKey(At(r.key), Lookup(store.ledger, r.key), Lookup(store.paused, r.key));
      }
      Close();
    }

    /** The scan of the backstop. */
    method StalePolled(me: P.Actor, olderThan: int) returns (runs: seq<PausedRun>)
      requires Valid()
      modifies this, store
      ensures Valid() && Undisturbed(me, old(history), history) && Grew(old(Rows()), 0)
      ensures S.Selects(store.paused, S.WantPolled(old(store.now) - olderThan), S.CreatedAtOf, S.KeyOfRun, runs)
      ensures forall r :: r in runs ==> At(r.key).run == Some(r) && r.approvalId.Some?
    {
      Open();
      var cutoff := store.now - olderThan;
      Others(me);
      runs := store.StalePolledPaused(cutoff);
      forall r | r in runs ensures At(r.key).run == Some(r) {
        assert MirrorsKey(At(r.key), Lookup(store.ledger, r.key), Lookup(store.paused, r.key));
      }
      Close();
    }
  }

  /** A database that `ensure_schema` has just set up. */
  method FreshWorld(hash: Hash, gp: Rules, declared: map<string, Guarantee>, calm: bool, wall: Moment)
    returns (w: World)
    ensures fresh(w) && fresh(w.store) && w.Valid() && w.gp == gp && w.declared == declared && w.calm == calm
    ensures w.history == [] && w.store.chain == GenesisTable(hash)
  {
    S.FreshChain(hash);
    forall k ensures Pick(RowNotes(GenesisTable(hash).rows), k) == [] {
      GenesisSaysNothing(hash, k);
    }
    var store := new S.Store(S.Appending(hash), S.Unbroken(hash), GenesisTable(hash), 0, wall);
    w := new World(store, gp, declared, calm);
  }

  predicate SaysSomething(eventType: string) {
    eventType == "action_event" || eventType == "reconcile" || eventType == "pause_transition"
  }

  lemma GenesisIsOther()
    ensures !SaysSomething("genesis")
  {
    assert "genesis"[0] != "action_event"[0] && "genesis"[0] != "reconcile"[0] && "genesis"[0] != "pause_transition"[0];
  }

  lemma OtherTypesSayNothing(eventType: string, payload: PyObject)
    requires !SaysSomething(eventType)
    ensures Decode(eventType, payload).None?
  {
  }

  lemma {:induction false} NoNote(note: Option<Note>, k: Key)
    requires note.None?
    ensures Pick([note], k) == []
  {
    assert [note][..0] == [];
  }

  lemma {:induction false} RowSaysNothing(row: AuditRow, k: Key)
    requires !SaysSomething(row.eventType)
    ensures Pick(RowNotes([row]), k) == []
  {
    OtherTypesSayNothing(row.eventType, row.payload);
    assert RowNotes([row]) == [DecodeRow(row)];
    NoNote(DecodeRow(row), k);
  }

  /** The genesis row is about no key. */
  lemma {:induction false} GenesisSaysNothing(hash: Hash, k: Key)
    ensures Pick(RowNotes(GenesisTable(hash).rows), k) == []
  {
    GenesisIsOther();
    RowSaysNothing(GenesisRow(hash), k);
  }

  lemma {:induction false} StillOwns(gp: Rules, h: Log, h': Log, k: Key, me: P.Actor, e: nat, phase: P.Phase,
                                     dk: Option<string>)
    requires Untouched(me, k, h, h') && Owns(me, History.At(gp, h, k), e, phase, dk)
    ensures Owns(me, History.At(gp, h', k), e, phase, dk)
    ensures SameAction(Row(History.At(gp, h, k)).value, Row(History.At(gp, h', k)).value)
  {
    MineIsKept(gp, h, h', k, me);
    GoesOn(gp, h, h', k);
  }

  /** A terminal write the code may ask for is fenced only by another owner or by an end. */
  lemma {:induction false} EndsUnlessGone(gp: Rules, h: Log, k: Key, me: P.Actor, e: nat, phase: P.Phase,
                                          dk: Option<string>, target: LedgerState, result: Value)
    requires Owns(me, History.At(gp, h, k), e, phase, dk)
    requires P.MayFinalize(gp.commit, Guar(History.At(gp, h, k)), phase, target, result)
    ensures CanEnd(History.At(gp, h, k), e, target) || Gone(History.At(gp, h, k), e)
  {
    Reachable(gp, h, k);
  }

  lemma {:induction false} EpochsAt(gp: Rules, h: Log, k: Key)
    ensures Fencing.Epochs(History.At(gp, h, k).led)
  {
    Reachable(gp, h, k);
  }

  lemma {:induction false} StillRead(gp: Rules, h: Log, h': Log, k: Key, me: P.Actor, record: CommitRecord)
    requires Untouched(me, k, h, h') && HasRead(me, History.At(gp, h, k), record)
    ensures HasRead(me, History.At(gp, h', k), record)
  {
    MineIsKept(gp, h, h', k, me);
    GoesOn(gp, h, h', k);
  }

  /** What became of a key fits the constraints of the tables. */
  predicate Imposable(key: Key, g: G.Gate, g': G.Gate, paused: map<Key, PausedRun>) {
    && (Row(g').Some? ==> Row(g').value.key == key)
    && (Row(g').None? ==> Row(g).None?)
    && (g'.run.None? ==> key !in paused)
    && (g'.run.Some? ==>
          && g'.run.value.key == key
          && S.RefIsFree(paused, key, g'.run.value.approvalRef))
  }

  /** What an operation leaves of its key does. */
  lemma {:induction false} AbsorbedKey(gp: Rules, h: Log, ev: G.Event, paused: map<Key, PausedRun>)
    requires MirrorsKey(At(gp, h, ev.key), Row(At(gp, h, ev.key)), Lookup(paused, ev.key))
    requires forall k, l :: k in paused && l in paused && paused[k].approvalRef == paused[l].approvalRef ==> k == l
    requires ev.op.Propose? ==> !S.RefTaken(paused, ev.op.approvalRef)
    ensures Imposable(ev.key, At(gp, h, ev.key), G.Apply(Of(gp, ev.key), At(gp, h, ev.key), ev), paused)
  {
    KeyedRight(gp, h, ev.key);
    KeyStep(Of(gp, ev.key), At(gp, h, ev.key), ev, ev.key);
    Reachable(gp, h, ev.key);
    LaterStep(Of(gp, ev.key), At(gp, h, ev.key), ev);
    RefStep(Of(gp, ev.key), At(gp, h, ev.key), ev);
  }

  lemma {:induction false} TrailGrows(gp: Rules, h: Log, ev: G.Event)
    ensures var g := History.At(gp, h, ev.key);
            var trail := G.Apply(Of(gp, ev.key), g, ev).trail;
            g.trail <= trail && trail == g.trail + trail[|g.trail|..]
  {
    Reachable(gp, h, ev.key);
    LaterStep(Of(gp, ev.key), History.At(gp, h, ev.key), ev);
  }

  /** Events about one key were appended: the chain says just that more. */
  lemma {:induction false} ChainAdds(chainOk: AuditTable -> bool, append: S.Appender, t: AuditTable,
                                     events: seq<AuditEvent>, wall: Moment, key: Key, news: seq<G.Notice>)
    requires S.Keeps(chainOk, append) && chainOk(t) && S.AppendAll(append, t, events, wall).Table?
    requires EventNotes(events) == About(key, news)
    ensures Adds(t.rows, S.AppendAll(append, t, events, wall).table.rows, key, news)
  {
    AppendsAddNotes(chainOk, append, t, events, wall);
    if news == [] {
      assert |EventNotes(events)| == 0 && events == [];
    }
  }

  /** The appends of a transaction about one key: what they add, or why they raise. */
  lemma {:induction false} AppendsOrNot(chainOk: AuditTable -> bool, append: S.Appender, t: AuditTable,
                                        events: seq<AuditEvent>, wall: Moment, key: Key, news: seq<G.Notice>)
    requires S.Keeps(chainOk, append) && chainOk(t) && EventNotes(events) == About(key, news)
    ensures |events| == |news|
    ensures var appended := S.AppendAll(append, t, events, wall);
            && (appended.Table? ==>
                  && Adds(t.rows, appended.table.rows, key, news)
                  && |appended.table.rows| == |t.rows| + |events|)
            && (appended.Raised? && S.Writable(events) ==> events != [] && !S.HasRoom(|t.rows|, |events|))
  {
    assert |EventNotes(events)| == |About(key, news)|;
    if S.AppendAll(append, t, events, wall).Table? {
      ChainAdds(chainOk, append, t, events, wall, key, news);
      S.AppendAllKeeps(chainOk, append, t, events, wall);
    } else if S.Writable(events) {
      S.AppendAllRaises(chainOk, append, t, events, wall);
    }
  }

  lemma RefStep(gp: G.Params, g: G.Gate, ev: G.Event)
    ensures var g' := G.Apply(gp, g, ev);
            g'.run.Some? ==>
              || (g.run.Some? && g'.run.value.approvalRef == g.run.value.approvalRef)
              || (g.run.None? && ev.op.Propose? && g'.run.value.approvalRef == ev.op.approvalRef)
  {
  }
}
