/** The sweeps over paused runs, the gate that pauses a call, and what the two sweeps do
    together after a crash. */
module Sweeps {
  import opened Json
  import opened Types
  import opened Canonical
  import opened Audit
  import opened Effects
  import opened Reports
  import P = Protocol
  import G = Gate
  import S = Store
  import opened History
  import opened Moves
  import opened World
  import R = Recovery
  import Rc = Reconcile
  import C = Commit
  import Pz = Pause

  datatype SweepOutcome = StatusIs(status: PauseStatus) | Undecided | Errored(why: Pz.ApplyError) | PollFailed

  datatype PausedSweepAction = PausedSweepAction(approvalRef: string, actionType: string, outcome: SweepOutcome)

  type PausedSweepReport = Report<PausedSweepAction, SweepOutcome>

  /** A status reported for a resolved run is the one it keeps. */
  predicate Told(a: PausedSweepAction, run: PausedRun, g: G.Gate) {
    && a.approvalRef == run.approvalRef
    && (a.outcome.StatusIs? && a.outcome.status.Resolved() ==> g.run.Some? && g.run.value.status == a.outcome.status)
  }

  ghost predicate AllTold(gp: Rules, h: Log, runs: seq<PausedRun>, actions: seq<PausedSweepAction>) {
    |actions| <= |runs| && forall j :: 0 <= j < |actions| ==> Told(actions[j], runs[j], At(gp, h, runs[j].key))
  }

  lemma {:induction false} ToldMore(gp: Rules, h: Log, h': Log, runs: seq<PausedRun>,
                                    actions: seq<PausedSweepAction>, a: PausedSweepAction)
    requires AllTold(gp, h, runs, actions) && |actions| < |runs| && h <= h'
    requires Told(a, runs[|actions|], At(gp, h', runs[|actions|].key))
    ensures AllTold(gp, h', runs, actions + [a])
  {
    forall j | 0 <= j < |actions| ensures Told(actions[j], runs[j], At(gp, h', runs[j].key)) {
      GoesOn(gp, h, h', runs[j].key);
    }
  }

  /** The scanned runs are still approved and theirs, or were resolved since. */
  ghost predicate StillDecided(gp: Rules, h: Log, runs: seq<PausedRun>) {
    forall j :: 0 <= j < |runs| ==> Pz.Past(At(gp, h, runs[j].key), runs[j].approvalRef)
  }

  lemma StaysDecided(gp: Rules, h: Log, h': Log, runs: seq<PausedRun>)
    requires StillDecided(gp, h, runs) && h <= h'
    ensures StillDecided(gp, h', runs)
  {
    forall j | 0 <= j < |runs| ensures Pz.Past(At(gp, h', runs[j].key), runs[j].approvalRef) {
      GoesOn(gp, h, h', runs[j].key);
    }
  }

  /** Two references on one database name one run each. */
  lemma SameRun(w: World, k: Key, l: Key, ref: string)
    requires w.Valid() && Pz.OnRun(w.At(k), ref) && Pz.OnRun(w.At(l), ref)
    ensures k == l
  {
    w.Open();
    assert MirrorsKey(w.At(k), Lookup(w.store.ledger, k), Lookup(w.store.paused, k));
    assert MirrorsKey(w.At(l), Lookup(w.store.ledger, l), Lookup(w.store.paused, l));
  }

  function ActionFor(run: PausedRun, r: Pz.ApplyResult): PausedSweepAction {
    PausedSweepAction(run.approvalRef, run.actionType,
                      match r case Applied(o) => StatusIs(o.status) case ApplyFailed(why) => Errored(why))
  }

  /** How many records one run may take. */
  function RunCost(o: Pz.ApplyOptions): nat {
    o.polls + 4
  }

  /** One run of the paused sweep. */
  method SweepRun(w: World, me: P.Actor, run: PausedRun, registry: Registry, o: Pz.ApplyOptions)
    returns (r: Pz.ApplyResult)
    requires w.Valid() && Pz.Equipped(w, registry, o)
    requires Pz.Past(w.At(run.key), run.approvalRef)
    modifies w, w.store
    ensures w.Valid() && w.Worked(me, run.key, old(w.history)) && w.Grew(old(w.Rows()), RunCost(o))
    ensures Told(ActionFor(run, r), run, w.At(run.key))
    ensures r.Applied? ==> r.outcome.status.Resolved()
    ensures r.ApplyFailed? ==> Pz.NotApplied(w, me, run.key, run.approvalRef, None, registry, o, r.why)
    ensures w.calm && Pz.CanResume(old(w.At(run.key)), registry, o) ==> r.Applied? || w.Full()
  {
    ghost var start := w.history;
    var readings;
    ghost var key;
    r, readings, key := Pz.ApplyDecision(w, me, run.approvalRef, None, registry, o);
    assert start <= w.history;
    GoesOn(w.gp, start, w.history, run.key);
    assert w.At(run.key).run.Some? && w.At(run.key).run.value.approvalRef == run.approvalRef;
    SameRun(w, run.key, key, run.approvalRef);
  }

  // ----- What a sweep touches -----

  /** This actor worked on these keys alone. */
  ghost predicate Confined(me: P.Actor, h: Log, h': Log, keys: set<Key>) {
    h <= h' && forall i :: |h| <= i < |h'| && h'[i].actor == me ==> h'[i].key in keys
  }

  lemma ConfinedMore(me: P.Actor, calm: bool, h: Log, a: Log, b: Log, key: Key, keys: set<Key>)
    requires Confined(me, h, a, keys) && Works(me, key, calm, a, b) && (a == b || key in keys)
    ensures Confined(me, h, b, keys)
  {
    forall i | |h| <= i < |b| && b[i].actor == me ensures b[i].key in keys {
      if i < |a| { assert a[i] == b[i]; } else { assert WorkOf(me, key, calm, b[i]); }
    }
  }

  // ----- The paused sweep -----

  /** The runs not driven yet are as they were scanned. */
  ghost predicate LeftToDrive(gp: Rules, h0: Log, h: Log, runs: seq<PausedRun>, i: nat) {
    forall j :: i <= j < |runs| ==> Still(At(gp, h0, runs[j].key), At(gp, h, runs[j].key))
  }

  /** Every run that could be resumed was resolved, if the chain has room. */
  ghost predicate Driven(gp: Rules, h0: Log, runs: seq<PausedRun>, actions: seq<PausedSweepAction>,
                         registry: Registry, o: Pz.ApplyOptions, full: bool)
    requires |actions| <= |runs|
  {
    forall j :: 0 <= j < |actions| && Pz.CanResume(At(gp, h0, runs[j].key), registry, o) ==>
      actions[j].outcome.StatusIs? || full
  }

  lemma OneDriven(gp: Rules, me: P.Actor, h0: Log, h: Log, h': Log, runs: seq<PausedRun>, i: nat)
    requires i < |runs| && LeftToDrive(gp, h0, h, runs, i) && S.EachOnce(S.KeyOfRun, runs)
    requires Works(me, runs[i].key, true, h, h')
    ensures LeftToDrive(gp, h0, h', runs, i + 1)
  {
    forall j | i < j < |runs| ensures Still(At(gp, h0, runs[j].key), At(gp, h', runs[j].key)) {
      assert S.KeyOfRun(runs[i]) != S.KeyOfRun(runs[j]);
      assert Still(At(gp, h0, runs[j].key), At(gp, h, runs[j].key));
      CalmElsewhere(gp, me, runs[i].key, h, h', runs[j].key);
    }
  }

  predicate Settled(a: PausedSweepAction) {
    a.outcome.Errored? || (a.outcome.StatusIs? && a.outcome.status.Resolved())
  }

  /** How far a pass got: `h0` is when it scanned. */
  ghost predicate Passed(w: World, me: P.Actor, h0: Log, runs: seq<PausedRun>, actions: seq<PausedSweepAction>,
                         registry: Registry, o: Pz.ApplyOptions)
    reads w, w.store
  {
    PassedBy(w.gp, w.calm, w.Full(), me, h0, w.history, runs, actions, registry, o)
  }

  ghost predicate PassedBy(gp: Rules, calm: bool, full: bool, me: P.Actor, h0: Log, h: Log,
                           runs: seq<PausedRun>, actions: seq<PausedSweepAction>, registry: Registry,
                           o: Pz.ApplyOptions)
  {
    && AllTold(gp, h, runs, actions)
    && StillDecided(gp, h, runs)
    && S.EachOnce(S.KeyOfRun, runs)
    && Confined(me, h0, h, S.KeysOf(S.KeyOfRun, runs))
    && (forall a :: a in actions ==> Settled(a))
    && (calm ==> LeftToDrive(gp, h0, h, runs, |actions|) && Driven(gp, h0, runs, actions, registry, o, full))
  }

  lemma {:induction false} PassedMore(gp: Rules, calm: bool, full: bool, full': bool, me: P.Actor, h0: Log,
                                      h: Log, h': Log, runs: seq<PausedRun>, actions: seq<PausedSweepAction>,
                                      a: PausedSweepAction, registry: Registry, o: Pz.ApplyOptions)
    requires PassedBy(gp, calm, full, me, h0, h, runs, actions, registry, o) && |actions| < |runs|
    requires Works(me, runs[|actions|].key, calm, h, h') && (full ==> full')
    requires Settled(a) && Told(a, runs[|actions|], At(gp, h', runs[|actions|].key))
    requires calm && Pz.CanResume(At(gp, h, runs[|actions|].key), registry, o) ==> a.outcome.StatusIs? || full'
    ensures PassedBy(gp, calm, full', me, h0, h', runs, actions + [a], registry, o)
  {
    var run := runs[|actions|];
    ToldMore(gp, h, h', runs, actions, a);
    StaysDecided(gp, h, h', runs);
    assert run.key == S.KeyOfRun(run);
    ConfinedMore(me, calm, h0, h, h', run.key, S.KeysOf(S.KeyOfRun, runs));
    if calm {
      OneDriven(gp, me, h0, h, h', runs, |actions|);
      assert Still(At(gp, h0, run.key), At(gp, h, run.key));
    }
  }

  method DriveNext(w: World, me: P.Actor, runs: seq<PausedRun>, i: nat, registry: Registry, o: Pz.ApplyOptions,
                   report: PausedSweepReport, ghost h0: Log)
    requires w.Valid() && Pz.Equipped(w, registry, o)
    requires report.Tallied() && |report.actions| == i < |runs|
    requires Passed(w, me, h0, runs, report.actions, registry, o)
    modifies w, w.store, report
    ensures w.Valid() && report.Tallied() && |report.actions| == i + 1 && w.Grew(old(w.Rows()), RunCost(o))
    ensures old(w.history) <= w.history
    ensures Passed(w, me, h0, runs, report.actions, registry, o)
  {
    ghost var before, actions, full := w.history, report.actions, w.Full();
    assert Pz.Past(At(w.gp, before, runs[i].key), runs[i].approvalRef);
    var r := SweepRun(w, me, runs[i], registry, o);
    var action := ActionFor(runs[i], r);
    report.Record(action);
    PassedMore(w.gp, w.calm, full, w.Full(), me, h0, before, w.history, runs, actions, action, registry, o);
  }

  /** The runs of a pass, at the moment `scan` it read them. */
  ghost predicate ScannedAt(w: World, from: Log, scan: Snapshot, wanted: PausedRun -> bool,
                            rank: PausedRun -> int, runs: seq<PausedRun>)
    reads w
  {
    TakenBetween(w.gp, from, scan, w.history) && S.Selects(scan.paused, wanted, rank, S.KeyOfRun, runs)
  }

  /** Drives every run that was approved and stale when it scanned, once. A run it cannot
      settle is recorded and left for the next pass; a status it reports is the one the run
      keeps. It works on no key but theirs. */
  method ReconcilePaused(w: World, me: P.Actor, olderThan: int, registry: Registry, o: Pz.ApplyOptions)
    returns (report: PausedSweepReport, ghost runs: seq<PausedRun>, ghost scan: Snapshot)
    requires w.Valid() && Pz.Equipped(w, registry, o)
    modifies w, w.store
    ensures w.Valid() && fresh(report) && report.Tallied() && w.Grew(old(w.Rows()), |runs| * RunCost(o))
    ensures ScannedAt(w, old(w.history), scan, S.WantApproved(old(w.store.now) - olderThan), S.DecidedAtOf, runs)
    ensures |report.actions| == |runs| && AllTold(w.gp, w.history, runs, report.actions)
    ensures forall a :: a in report.actions ==> Settled(a)
    ensures Confined(me, scan.history, w.history, S.KeysOf(S.KeyOfRun, runs))
    ensures w.calm ==> scan.paused == old(w.store.paused) && Quiet(old(w.history), scan.history)
                       && Driven(w.gp, scan.history, runs, report.actions, registry, o, w.Full())
  {
    report := new Report<PausedSweepAction, SweepOutcome>((a: PausedSweepAction) => a.outcome);
    var scanned;
    scanned, scan := ScanApproved(w, me, olderThan, registry, o);
    runs := scanned;
    DriveAll(w, me, scanned, registry, o, report, scan.history);
  }

  /** The scan, as the state it leaves a pass to begin with. */
  method ScanApproved(w: World, me: P.Actor, olderThan: int, registry: Registry, o: Pz.ApplyOptions)
    returns (runs: seq<PausedRun>, ghost scan: Snapshot)
    requires w.Valid()
    modifies w, w.store
    ensures w.Valid() && w.Grew(old(w.Rows()), 0)
    ensures ScannedAt(w, old(w.history), scan, S.WantApproved(old(w.store.now) - olderThan), S.DecidedAtOf, runs)
    ensures Passed(w, me, scan.history, runs, [], registry, o)
    ensures w.calm ==> scan.paused == old(w.store.paused) && Quiet(old(w.history), scan.history)
  {
    runs := w.StaleApproved(me, olderThan);
    scan := w.Now();
    w.Open();
    AllDecided(w, runs);
  }

  method DriveAll(w: World, me: P.Actor, runs: seq<PausedRun>, registry: Registry, o: Pz.ApplyOptions,
                  report: PausedSweepReport, ghost h0: Log)
    requires w.Valid() && Pz.Equipped(w, registry, o)
    requires report.Tallied() && report.actions == [] && Passed(w, me, h0, runs, [], registry, o)
    modifies w, w.store, report
    ensures w.Valid() && report.Tallied() && |report.actions| == |runs| && old(w.history) <= w.history
    ensures Passed(w, me, h0, runs, report.actions, registry, o)
    ensures w.Grew(old(w.Rows()), |runs| * RunCost(o))
  {
    for i := 0 to |runs|
      invariant w.Valid() && report.Tallied() && |report.actions| == i && old(w.history) <= w.history
      invariant Passed(w, me, h0, runs, report.actions, registry, o)
      invariant w.Grew(old(w.Rows()), i * RunCost(o))
    {
      DriveNext(w, me, runs, i, registry, o, report, h0);
      OneMore(i, RunCost(o));
    }
  }

  lemma OneMore(i: nat, cost: nat)
    ensures (i + 1) * cost == i * cost + cost
  {
  }

  lemma NoMore(i: nat, n: nat, cost: nat)
    requires i <= n
    ensures i * cost <= n * cost
  {
  }

  lemma AllDecided(w: World, runs: seq<PausedRun>)
    requires w.Valid() && forall r :: r in runs ==> w.At(r.key).run == Some(r) && r.status.Approved?
    ensures StillDecided(w.gp, w.history, runs)
  {
    forall j | 0 <= j < |runs| ensures Pz.Past(w.At(runs[j].key), runs[j].approvalRef) {
      assert runs[j] in runs;
    }
  }

  // ----- The backstop poll -----

  /** One signed poll of the control plane. */
  datatype Poll = Decision(delivered: Pz.Delivered) | StillRequested | PollRaised

  /** The keys whose runs a poll brought a decision for. */
  function DecidedKeys(runs: seq<PausedRun>, answers: string -> Poll): set<Key> {
    set i | 0 <= i < |runs| && runs[i].approvalId.Some? && answers(runs[i].approvalId.value).Decision? :: runs[i].key
  }

  /** How far the backstop got: `h0` is when it scanned. */
  ghost predicate PolledSoFar(w: World, me: P.Actor, h0: Log, runs: seq<PausedRun>,
                              actions: seq<PausedSweepAction>, answers: string -> Poll)
    reads w
  {
    && AllTold(w.gp, w.history, runs, actions)
    && Confined(me, h0, w.history, DecidedKeys(runs, answers))
    && (forall j :: 0 <= j < |runs| ==>
          runs[j].approvalId.Some? && Pz.OnRun(At(w.gp, h0, runs[j].key), runs[j].approvalRef))
    && (forall j :: 0 <= j < |actions| ==> Polled(answers(runs[j].approvalId.value), actions[j].outcome))
  }

  method PollNext(w: World, me: P.Actor, runs: seq<PausedRun>, i: nat, answers: string -> Poll,
                  registry: Registry, o: Pz.ApplyOptions, report: PausedSweepReport, ghost h0: Log)
    requires w.Valid() && Pz.Equipped(w, registry, o)
    requires report.Tallied() && |report.actions| == i < |runs|
    requires PolledSoFar(w, me, h0, runs, report.actions, answers)
    modifies w, w.store, report
    ensures w.Valid() && report.Tallied() && |report.actions| == i + 1
    ensures PolledSoFar(w, me, h0, runs, report.actions, answers)
  {
    ghost var before, actions := w.history, report.actions;
    GoesOn(w.gp, h0, before, runs[i].key);
    var action := PollOne(w, me, runs[i], answers(runs[i].approvalId.value), registry, o);
    report.Record(action);
    ToldMore(w.gp, before, w.history, runs, actions, action);
    ConfinedMore(me, w.calm, h0, before, w.history, runs[i].key, DecidedKeys(runs, answers));
  }

  /** Polls, once each, for every run that was proposed, stale and had a hosted id when it
      scanned, and drives home what it learns. `answers` stands for the control plane. It
      works on no key without a decision: none is ever invented. */
  method BackstopPollPaused(w: World, me: P.Actor, olderThan: int, answers: string -> Poll, registry: Registry,
                            o: Pz.ApplyOptions)
    returns (report: PausedSweepReport, ghost runs: seq<PausedRun>, ghost scan: Snapshot)
    requires w.Valid() && Pz.Equipped(w, registry, o)
    modifies w, w.store
    ensures w.Valid() && fresh(report) && report.Tallied()
    ensures ScannedAt(w, old(w.history), scan, S.WantPolled(old(w.store.now) - olderThan), S.CreatedAtOf, runs)
    ensures |report.actions| == |runs| && AllTold(w.gp, w.history, runs, report.actions)
    ensures forall j :: 0 <= j < |runs| ==>
              runs[j].approvalId.Some? && Polled(answers(runs[j].approvalId.value), report.actions[j].outcome)
    ensures Confined(me, scan.history, w.history, DecidedKeys(runs, answers))
  {
    report := new Report<PausedSweepAction, SweepOutcome>((a: PausedSweepAction) => a.outcome);
    var scanned := w.StalePolled(me, olderThan);
    runs, scan := scanned, w.Now();
    w.Open();
    forall j | 0 <= j < |scanned|
      ensures Pz.OnRun(w.At(scanned[j].key), scanned[j].approvalRef) && scanned[j].approvalId.Some?
    {
      assert scanned[j] in scanned;
    }
    for i := 0 to |scanned|
      invariant w.Valid() && fresh(report) && report.Tallied() && |report.actions| == i
      invariant PolledSoFar(w, me, scan.history, scanned, report.actions, answers)
    {
      PollNext(w, me, scanned, i, answers, registry, o, report, scan.history);
    }
  }

  /** What the report says follows from the poll: no decision, no drive. */
  predicate Polled(poll: Poll, outcome: SweepOutcome) {
    match poll
    case PollRaised => outcome == PollFailed
    case StillRequested => outcome == Undecided
    case Decision(_) => outcome.Errored? || (outcome.StatusIs? && outcome.status.Resolved())
  }

  method PollOne(w: World, me: P.Actor, run: PausedRun, poll: Poll, registry: Registry, o: Pz.ApplyOptions)
    returns (a: PausedSweepAction)
    requires w.Valid() && Pz.Equipped(w, registry, o)
    requires Pz.OnRun(w.At(run.key), run.approvalRef)
    modifies w, w.store
    ensures w.Valid() && w.Worked(me, run.key, old(w.history))
    ensures !poll.Decision? ==> w.history == old(w.history)
    ensures Told(a, run, w.At(run.key)) && Polled(poll, a.outcome)
    ensures a.outcome.Errored? ==>
              poll.Decision? && Pz.NotApplied(w, me, run.key, run.approvalRef, Some(poll.delivered), registry, o,
                                              a.outcome.why)
  {
    match poll {
      case PollRaised => return PausedSweepAction(run.approvalRef, run.actionType, PollFailed);
      case StillRequested => return PausedSweepAction(run.approvalRef, run.actionType, Undecided);
      case Decision(delivered) =>
        ghost var start := w.history;
        var r, readings;
        ghost var key;
        r, readings, key := Pz.ApplyDecision(w, me, run.approvalRef, Some(delivered), registry, o);
        assert start <= w.history;
        GoesOn(w.gp, start, w.history, run.key);
        assert w.At(run.key).run.Some? && w.At(run.key).run.value.approvalRef == run.approvalRef;
        SameRun(w, run.key, key, run.approvalRef);
        a := ActionFor(run, r);
    }
  }

  // ----- The gate -----

  /** What a gated call gives its caller. */
  datatype GateResult =
    | Returns(result: Value)
    | RaisesRejected
    | RaisesPreconditionFailed
    | RaisesPending
    | Raises(why: Pz.ApplyError)
    | NotPaused

  /** How a resolved outcome surfaces. */
  function Surface(o: Pz.DecisionOutcome): GateResult {
    match o.status
    case RunCommitted => Returns(o.result)
    case RunAborted => if o.humanDecision == Some(Reject) then RaisesRejected else RaisesPreconditionFailed
    case _ => RaisesPending
  }

  /** What surfaced is what happened: the tool's result only if the run committed, a
      rejection only if a human rejected it, and the run stays so. */
  ghost predicate SurfacedTruly(w: World, key: Key, r: GateResult)
    reads w
  {
    && (r.Returns? ==> EndedAs(w.At(key), RunCommitted) && r.result == Pz.ResultOf(w.At(key)))
    && (r.RaisesRejected? ==> EndedAs(w.At(key), RunAborted) && (w.gp.gated(key) ==> w.At(key).verdict == Some(Reject)))
    && (r.RaisesPreconditionFailed? ==>
          EndedAs(w.At(key), RunAborted) && (w.gp.gated(key) ==> w.At(key).verdict == Some(Approve)))
  }

  predicate EndedAs(g: G.Gate, status: PauseStatus) {
    g.run.Some? && g.run.value.status == status
  }

  /** The run of this key could not be driven with such a delivery. */
  ghost predicate Undriven(w: World, me: P.Actor, key: Key, delivered: Option<Pz.Delivered>, registry: Registry,
                           o: Pz.ApplyOptions, why: Pz.ApplyError)
    reads w, w.store
  {
    w.At(key).run.Some? && Pz.NotApplied(w, me, key, w.At(key).run.value.approvalRef, delivered, registry, o, why)
  }

  /** Persist the pause first, attach to one that exists, deliver it, and drive it home. The
      transport is the two arguments: its receipt, and the decision it waited for, if any. */
  method DurablePause(w: World, me: P.Actor, key: Key, ref: string, action: string, args: Option<Value>,
                      receipt: Option<string>, waited: Option<Pz.Delivered>, registry: Registry,
                      o: Pz.ApplyOptions)
    returns (r: GateResult)
    requires w.Valid() && Pz.Equipped(w, registry, o)
    modifies w, w.store
    ensures w.Valid() && SurfacedTruly(w, key, r)
    ensures if r.NotPaused? then S.RefTaken(w.store.paused, ref) || w.Full() else w.At(key).run.Some?
    ensures old(w.At(key)).run.Some? ==> !r.NotPaused?
    ensures r.RaisesPending? ==> waited.None?
    ensures r.Raises? ==>
              Undriven(w, me, key, None, registry, o, r.why) || Undriven(w, me, key, waited, registry, o, r.why)
    ensures w.calm && old(w.At(key)).run.None? && waited.None? ==> r.RaisesPending? || r.NotPaused?
  {
    ghost var start := w.history;
    var draft := PausedRun(ref, key, action, args, Pz.STATE_VERSION, Proposed, None, None, None, None, None, None, 0,
                           None);
    Pz.TransitionEventSays(draft, None, Proposed);
    var claim := w.Propose(me, key, start, ref, action, args, Pz.STATE_VERSION,
                           [Pz.TransitionEvent(draft, None, Proposed)]);
    if claim.NotSaved? {
      return NotPaused;
    }
    var run := claim.run;
    KeyedRight(w.gp, w.history, key);
    if claim.Existing? {
      var driven := ApplyAndSurface(w, me, key, run.approvalRef, None, registry, o);
      if !driven.RaisesPending? {
        return driven;
      }
    }
    r := DeliverAndWait(w, me, key, run, receipt, waited, registry, o);
  }

  method ApplyAndSurface(w: World, me: P.Actor, key: Key, ref: string, delivered: Option<Pz.Delivered>,
                         registry: Registry, o: Pz.ApplyOptions)
    returns (r: GateResult)
    requires w.Valid() && Pz.Equipped(w, registry, o)
    requires Pz.OnRun(w.At(key), ref)
    modifies w, w.store
    ensures w.Valid() && SurfacedTruly(w, key, r) && Pz.OnRun(w.At(key), ref) && !r.NotPaused?
    ensures delivered.Some? ==> !r.RaisesPending?
    ensures r.Raises? ==> Undriven(w, me, key, delivered, registry, o, r.why)
  {
    ghost var start := w.history;
    var applied, readings;
    ghost var at;
    applied, readings, at := Pz.ApplyDecision(w, me, ref, delivered, registry, o);
    assert start <= w.history;
    GoesOn(w.gp, start, w.history, key);
    assert w.At(key).run.Some? && w.At(key).run.value.approvalRef == ref;
    SameRun(w, key, at, ref);
    r := match applied case Applied(outcome) => Surface(outcome) case ApplyFailed(why) => Raises(why);
  }

  method DeliverAndWait(w: World, me: P.Actor, key: Key, run: PausedRun, receipt: Option<string>,
                        waited: Option<Pz.Delivered>, registry: Registry, o: Pz.ApplyOptions)
    returns (r: GateResult)
    requires w.Valid() && Pz.Equipped(w, registry, o)
    requires Pz.OnRun(w.At(key), run.approvalRef)
    modifies w, w.store
    ensures w.Valid() && SurfacedTruly(w, key, r) && Pz.OnRun(w.At(key), run.approvalRef)
    ensures !r.NotPaused? && (waited.None? <==> r.RaisesPending?)
    ensures r.Raises? ==> Undriven(w, me, key, waited, registry, o, r.why)
  {
    ghost var start := w.history;
    if receipt.Some? && run.approvalId != receipt {
      w.AssignId(me, key, start, receipt.value);
    }
    if waited.None? {
      return RaisesPending;
    }
    r := ApplyAndSurface(w, me, key, run.approvalRef, waited, registry, o);
  }

  // ----- After a crash -----

  /** This process can resume the run. */
  predicate Resumes(run: PausedRun, registry: Registry, o: Pz.ApplyOptions) {
    && run.actionType in registry && run.stateVersion == Pz.STATE_VERSION && run.args.Some?
    && C.Startable(Pz.ResumeCall(run, registry[run.actionType], o), run.key, Pz.Rehydrated(run.args.value))
  }

  /** An approved run that a crash left behind, as the tables show it: it can be resumed here,
      and its key has no row yet, or its own row, terminal or stale. */
  predicate LeftBehind(ledger: map<Key, CommitRecord>, run: PausedRun, cutoff: Time, registry: Registry,
                       o: Pz.ApplyOptions)
  {
    && run.status.Approved? && Resumes(run, registry, o)
    && (run.key in ledger ==>
          && ledger[run.key].actionType == run.actionType
          && (ledger[run.key].state.Terminal() || S.Stale(ledger[run.key], cutoff)))
  }

  /** The chain has room for what two passes can record, and no stale row is at the last
      epoch that can be recorded. */
  predicate RoomForPasses(w: World, cutoff: Time, o: Pz.ApplyOptions)
    reads w.store
  {
    && w.Rows() + |w.store.ledger| + |w.store.paused| * RunCost(o) < MAX_CANONICAL_INT
    && forall k :: k in w.store.ledger && S.Stale(w.store.ledger[k], cutoff) ==>
          w.store.ledger[k].attempts < MAX_CANONICAL_INT
  }

  /** A pass in calm leaves the row of such a run terminal, or absent as it was. */
  lemma RowIsSettled(ledger0: map<Key, CommitRecord>, ledger: map<Key, CommitRecord>,
                     records: seq<CommitRecord>, run: PausedRun, registry: Registry, o: Pz.ApplyOptions,
                     cutoff: Time)
    requires Rc.CalmlySwept(ledger0, ledger, records, |records|, registry)
    requires S.Selects(ledger0, S.WantStale(cutoff), S.StampOf, S.KeyOfRow, records) && S.KeyedBy(ledger0, S.KeyOfRow)
    requires LeftBehind(ledger0, run, cutoff, registry, o)
    ensures run.key in ledger ==> ledger[run.key].state.Terminal()
    ensures run.key in ledger ==> run.key in ledger0
  {
    var k := run.key;
    if k in ledger0 && S.Stale(ledger0[k], cutoff) {
      assert ledger0[k] in records && S.KeyOfRow(ledger0[k]) == k;
      var j :| 0 <= j < |records| && records[j] == ledger0[k];
    } else {
      forall j | 0 <= j < |records| ensures records[j].key != k {
        assert records[j] in records && S.KeyOfRow(records[j]) == records[j].key;
      }
      assert Lookup(ledger, k) == Lookup(ledger0, k);
    }
  }

  /** With its row settled or absent, the run can be driven to its end. */
  lemma {:induction false} NowResumable(w: World, h: Log, run: PausedRun, registry: Registry, o: Pz.ApplyOptions)
    requires w.Valid() && h <= w.history && w.At(run.key).run == Some(run)
    requires run.status.Approved? && Resumes(run, registry, o)
    requires Row(w.At(run.key)).Some? ==> Row(w.At(run.key)).value.state.Terminal()
    requires Row(w.At(run.key)).Some? ==>
              Row(At(w.gp, h, run.key)).Some? && Row(At(w.gp, h, run.key)).value.actionType == run.actionType
    ensures Pz.CanResume(w.At(run.key), registry, o)
  {
    GoesOn(w.gp, h, w.history, run.key);
  }

  /** A resolved run that was approved has its row settled. */
  lemma {:induction false} ResolvedIsSettled(gp: Rules, h: Log, h': Log, k: Key)
    requires h <= h' && At(gp, h, k).run.Some? && At(gp, h, k).run.value.status.Approved?
    requires At(gp, h', k).run.Some? && At(gp, h', k).run.value.status.Resolved()
    ensures G.Settled(At(gp, h', k))
  {
    Reachable(gp, h, k);
    Reachable(gp, h', k);
    GoesOn(gp, h, h', k);
  }

  /** These runs, of the table there was, can be driven to their end. */
  ghost predicate AllResumable(gp: Rules, h: Log, ledger0: map<Key, CommitRecord>, paused: map<Key, PausedRun>,
                               cutoff: Time, registry: Registry, o: Pz.ApplyOptions) {
    forall k :: k in paused && LeftBehind(ledger0, paused[k], cutoff, registry, o) ==>
      paused[k].key == k && Pz.CanResume(At(gp, h, k), registry, o)
  }

  lemma RowsAreThere(w: World)
    requires w.Valid()
    ensures S.KeyedBy(w.store.ledger, S.KeyOfRow) && forall k :: Row(w.At(k)) == Lookup(w.store.ledger, k)
  {
    w.Open();
    forall k ensures Row(w.At(k)) == Lookup(w.store.ledger, k) {
      assert MirrorsKey(w.At(k), Lookup(w.store.ledger, k), Lookup(w.store.paused, k));
    }
  }

  /** The first pass after a crash: it finishes, and every run left behind can be resumed. */
  method SettleRows(w: World, me: P.Actor, olderThan: int, onAbsent: R.OnAbsent, executeTimeout: Option<int>,
                    registry: Registry, o: Pz.ApplyOptions)
    returns (report: R.ReconcileReport)
    requires w.Valid() && R.Declares(w, registry) && w.gp.commit.window <= olderThan
    requires WindowOk(olderThan, executeTimeout)
    requires w.calm && w.gp.commit.steady && RoomForPasses(w, w.store.now - olderThan, o)
    modifies w, w.store
    ensures w.Valid() && fresh(report) && old(w.store.now) <= w.store.now
    ensures w.Rows() <= old(w.Rows()) + |old(w.store.ledger)| && w.store.paused == old(w.store.paused)
    ensures AllResumable(w.gp, w.history, old(w.store.ledger), w.store.paused, old(w.store.now) - olderThan, registry,
                         o)
  {
    ghost var h, ledger0, cutoff := w.history, w.store.ledger, w.store.now - olderThan;
    RowsAreThere(w);
    ghost var records;
    report, records := FinishPass(w, me, olderThan, onAbsent, executeTimeout, registry, o);
    AllNowResumable(w, h, ledger0, records, cutoff, registry, o);
  }

  /** In calm and with room a pass over the rows finishes. */
  method FinishPass(w: World, me: P.Actor, olderThan: int, onAbsent: R.OnAbsent, executeTimeout: Option<int>,
                    registry: Registry, o: Pz.ApplyOptions)
    returns (report: R.ReconcileReport, ghost records: seq<CommitRecord>)
    requires w.Valid() && R.Declares(w, registry) && w.gp.commit.window <= olderThan
    requires WindowOk(olderThan, executeTimeout)
    requires w.calm && w.gp.commit.steady && RoomForPasses(w, w.store.now - olderThan, o)
    modifies w, w.store
    ensures w.Valid() && fresh(report) && old(w.history) <= w.history && old(w.store.now) <= w.store.now
    ensures w.Rows() <= old(w.Rows()) + |old(w.store.ledger)| && w.store.paused == old(w.store.paused)
    ensures S.Selects(old(w.store.ledger), S.WantStale(old(w.store.now) - olderThan), S.StampOf, S.KeyOfRow, records)
    ensures Rc.CalmlySwept(old(w.store.ledger), w.store.ledger, records, |records|, registry)
  {
    var end;
    ghost var scan;
    end, report, records, scan := Rc.Reconcile(w, me, olderThan, onAbsent, executeTimeout, registry);
    Unobstructed(w, old(w.store.ledger), records, old(w.store.now) - olderThan, |report.actions|, old(w.Rows()));
  }

  /** With room for every row, no row of the pass can stop it. */
  lemma Unobstructed(w: World, ledger0: map<Key, CommitRecord>, records: seq<CommitRecord>, cutoff: Time,
                     i: nat, rows0: nat)
    requires w.calm && w.gp.commit.steady && w.Grew(rows0, |records|) && rows0 + |ledger0| < MAX_CANONICAL_INT
    requires S.Selects(ledger0, S.WantStale(cutoff), S.StampOf, S.KeyOfRow, records)
    requires forall k :: k in ledger0 && S.Stale(ledger0[k], cutoff) ==> ledger0[k].attempts < MAX_CANONICAL_INT
    ensures !Rc.Obstructed(w, records, i) && w.Rows() <= rows0 + |ledger0|
  {
    S.SelectsNoMore(ledger0, S.WantStale(cutoff), S.StampOf, S.KeyOfRow, records);
    if i < |records| {
      assert records[i] in records;
    }
  }

  lemma AllNowResumable(w: World, h: Log, ledger0: map<Key, CommitRecord>, records: seq<CommitRecord>,
                        cutoff: Time, registry: Registry, o: Pz.ApplyOptions)
    requires w.Valid() && h <= w.history && S.KeyedBy(ledger0, S.KeyOfRow)
    requires forall k :: Row(At(w.gp, h, k)) == Lookup(ledger0, k)
    requires Rc.CalmlySwept(ledger0, w.store.ledger, records, |records|, registry)
    requires S.Selects(ledger0, S.WantStale(cutoff), S.StampOf, S.KeyOfRow, records)
    ensures AllResumable(w.gp, w.history, ledger0, w.store.paused, cutoff, registry, o)
  {
    w.Open();
    forall k | k in w.store.paused && LeftBehind(ledger0, w.store.paused[k], cutoff, registry, o)
      ensures w.store.paused[k].key == k && Pz.CanResume(w.At(k), registry, o)
    {
      assert MirrorsKey(w.At(k), Lookup(w.store.ledger, k), Lookup(w.store.paused, k));
      assert S.KeyOfRun(w.store.paused[k]) == k;
      assert Row(At(w.gp, h, k)) == Lookup(ledger0, k);
      RowIsSettled(ledger0, w.store.ledger, records, w.store.paused[k], registry, o, cutoff);
      NowResumable(w, h, w.store.paused[k], registry, o);
    }
  }

  /** The run is resolved and its row is terminal. */
  predicate Home(g: G.Gate) {
    g.run.Some? && g.run.value.status.Resolved() && G.Settled(g)
  }

  /** Every stale approved run that was left behind came to its end. */
  ghost predicate Converged(w: World, ledger0: map<Key, CommitRecord>, paused0: map<Key, PausedRun>,
                            cutoff: Time, decided: Time, registry: Registry, o: Pz.ApplyOptions)
    reads w
  {
    forall k :: k in paused0 && LeftBehind(ledger0, paused0[k], cutoff, registry, o) && S.StaleApproved(paused0[k],
                                                                                                        decided) ==>
      Home(w.At(k))
  }

  /** Crash convergence: whatever a crash left, a `reconcile` pass and then a
      `reconcile_paused` pass commit or abort every stale approved run that was left behind,
      with its ledger row terminal. Nothing is asked of any other row or run. */
  method RecoverAfterCrash(w: World, me: P.Actor, olderThan: int, decidedOlderThan: int, onAbsent: R.OnAbsent,
                           executeTimeout: Option<int>, registry: Registry, o: Pz.ApplyOptions)
    returns (rows: R.ReconcileReport, swept: PausedSweepReport)
    requires w.Valid() && Pz.Equipped(w, registry, o) && w.gp.commit.window <= olderThan
    requires WindowOk(olderThan, executeTimeout)
    requires w.calm && w.gp.commit.steady && RoomForPasses(w, w.store.now - olderThan, o)
    modifies w, w.store
    ensures w.Valid()
    ensures Converged(w, old(w.store.ledger), old(w.store.paused), old(w.store.now) - olderThan,
                      old(w.store.now) - decidedOlderThan, registry, o)
  {
    ghost var ledger0, cutoff := w.store.ledger, w.store.now - olderThan;
    rows := SettleRows(w, me, olderThan, onAbsent, executeTimeout, registry, o);
    ghost var paused, decided := w.store.paused, w.store.now - decidedOlderThan;
    swept := FinishRuns(w, me, decidedOlderThan, registry, o, ledger0, cutoff);
    ConvergedEarlier(w, ledger0, paused, cutoff, old(w.store.now) - decidedOlderThan, decided, registry, o);
  }

  /** The second pass: every run that can be resumed comes to its end. */
  method FinishRuns(w: World, me: P.Actor, decidedOlderThan: int, registry: Registry, o: Pz.ApplyOptions,
                    ghost ledger0: map<Key, CommitRecord>, ghost cutoff: Time)
    returns (swept: PausedSweepReport)
    requires w.Valid() && Pz.Equipped(w, registry, o) && w.calm
    requires w.Rows() + |w.store.paused| * RunCost(o) < MAX_CANONICAL_INT
    requires AllResumable(w.gp, w.history, ledger0, w.store.paused, cutoff, registry, o)
    modifies w, w.store
    ensures w.Valid()
    ensures Converged(w, ledger0, old(w.store.paused), cutoff, old(w.store.now) - decidedOlderThan, registry, o)
  {
    ghost var h, paused, decided := w.history, w.store.paused, w.store.now - decidedOlderThan;
    ghost var runs, scan;
    swept, runs, scan := ReconcilePaused(w, me, decidedOlderThan, registry, o);
    S.SelectsNoMore(paused, S.WantApproved(decided), S.DecidedAtOf, S.KeyOfRun, runs);
    NoMore(|runs|, |paused|, RunCost(o));
    AllConverged(w, h, scan, ledger0, runs, swept.actions, registry, o, cutoff, decided);
  }

  lemma AllConverged(w: World, h: Log, scan: Snapshot, ledger0: map<Key, CommitRecord>, runs: seq<PausedRun>,
                     actions: seq<PausedSweepAction>, registry: Registry, o: Pz.ApplyOptions, cutoff: Time,
                     decided: Time)
    requires Quiet(h, scan.history) && scan.history <= w.history
    requires |actions| == |runs| && AllTold(w.gp, w.history, runs, actions) && forall a :: a in actions ==> Settled(a)
    requires Driven(w.gp, scan.history, runs, actions, registry, o, false)
    requires S.Selects(scan.paused, S.WantApproved(decided), S.DecidedAtOf, S.KeyOfRun, runs)
    requires AllResumable(w.gp, h, ledger0, scan.paused, cutoff, registry, o)
    ensures Converged(w, ledger0, scan.paused, cutoff, decided, registry, o)
  {
    var paused := scan.paused;
    forall k | k in paused && LeftBehind(ledger0, paused[k], cutoff, registry, o) && S.StaleApproved(paused[k], decided)
      ensures Home(w.At(k))
    {
      assert paused[k] in runs && paused[k].key == k;
      var j :| 0 <= j < |runs| && runs[j] == paused[k];
      assert actions[j] in actions;
      QuietIsStill(w.gp, h, scan.history, k);
      assert Pz.CanResume(At(w.gp, scan.history, k), registry, o);
      assert Told(actions[j], runs[j], At(w.gp, w.history, k));
      ResolvedIsSettled(w.gp, scan.history, w.history, k);
    }
  }

  /** A cutoff that moved on misses no run. */
  lemma ConvergedEarlier(w: World, ledger0: map<Key, CommitRecord>, paused0: map<Key, PausedRun>, cutoff: Time,
                         decided: Time, decided': Time, registry: Registry, o: Pz.ApplyOptions)
    requires Converged(w, ledger0, paused0, cutoff, decided', registry, o) && decided <= decided'
    ensures Converged(w, ledger0, paused0, cutoff, decided, registry, o)
  {
  }
}
