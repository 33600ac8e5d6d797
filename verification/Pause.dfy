/** `apply_decision`: every delivery of a decision, duplicate or late, and every sweep goes
    through here, and drives whatever status it finds to the end through the ledger. */
module Pause {
  import opened Json
  import opened Types
  import opened Canonical
  import opened Audit
  import opened Effects
  import P = Protocol
  import G = Gate
  import S = Store
  import opened History
  import opened Moves
  import opened World
  import opened Evidence
  import R = Recovery
  import C = Commit

  const STATE_VERSION := 1

  /** How often `apply_decision` is prepared to read the run again. */
  const MAX_READS := 8

  /** A decision as a transport delivers it; `edited` is reserved and refused. */
  datatype Delivered = Delivered(decision: ApprovalDecision, edited: bool)

  datatype DecisionOutcome = DecisionOutcome(
    approvalRef: string, actionType: string, status: PauseStatus, applied: bool, humanDecision: Option<HumanDecision>,
    decidedBy: Option<string>, reason: Option<string>, reasonCode: Option<string>,
    ledgerState: Option<LedgerState>, result: Value)

  datatype ApplyError =
    | UnknownRef | WrongVersion | EditedArgs | Unregistered | BrokenState
    | CommitRefused(why: C.Refusal) | StoreRaised | NotSettling

  datatype ApplyResult = Applied(outcome: DecisionOutcome) | ApplyFailed(why: ApplyError)

  /** Completes a decision: the moment defaults to now, the latency to the time since the
      run was created, in milliseconds and never negative. */
  function Normalized(d: ApprovalDecision, run: PausedRun, now: Time): (n: ApprovalDecision)
    ensures n.decidedAt.Some? && n.latencyMs.Some? && n.decision == d.decision
    ensures d.decidedAt.Some? && d.latencyMs.Some? ==> n == d
  {
    var at := if d.decidedAt.Some? then d.decidedAt.value else now;
    var latency: nat :=
      if d.latencyMs.Some? then d.latencyMs.value else if at < run.createdAt then 0 else (at - run.createdAt) / 1000;
    d.(decidedAt := Some(at), latencyMs := Some(latency))
  }

  /** The record of one edge of the status graph. */
  function TransitionEvent(run: PausedRun, from: Option<PauseStatus>, to: PauseStatus): AuditEvent {
    AuditEvent("pause_transition", Some(run.approvalRef), Some(run.actionType),
      PyDict([Audit.Entry("approval_ref", PlainText(run.approvalRef)),
              Audit.Entry("idempotency_key", PlainText(run.key)),
              Audit.Entry("from_status", if from.Some? then PlainText(StatusName(from.value)) else PyNone),
              Audit.Entry("to_status", PlainText(StatusName(to))), Audit.Entry("decided_by", PyText(run.decidedBy))]),
      None)
  }

  /** The terminal record of a rejection: nothing was claimed, nothing ran. */
  function RejectionEvent(run: PausedRun): AuditEvent {
    AuditEvent("action_event", Some(run.approvalRef), Some(run.actionType),
      PyDict([Audit.Entry("idempotency_key", PlainText(run.key)), Audit.Entry("human_decision", PlainText("rejected")),
              Audit.Entry("outcome", PlainText("aborted"))]),
      None)
  }

  lemma TransitionEventIsWritable(run: PausedRun, from: Option<PauseStatus>, to: PauseStatus)
    ensures Permitted(TransitionEvent(run, from, to).payload)
  {
    var entries := TransitionEvent(run, from, to).payload.entries;
    assert PermittedEntry(entries[0]) && PermittedEntry(entries[1]) && PermittedEntry(entries[2]);
    assert PermittedEntry(entries[3]) && PermittedEntry(entries[4]);
  }

  lemma RejectionEventIsWritable(run: PausedRun)
    ensures Permitted(RejectionEvent(run).payload)
  {
    var entries := RejectionEvent(run).payload.entries;
    assert PermittedEntry(entries[0]) && PermittedEntry(entries[1]) && PermittedEntry(entries[2]);
  }

  /** The record of an edge says that edge, and is always in the canonical domain. */
  lemma TransitionEventSays(run: PausedRun, from: Option<PauseStatus>, to: PauseStatus)
    ensures DecodeEvent(TransitionEvent(run, from, to)) == Some(Note(run.key, G.Edge(from, to)))
    ensures EventNotes([TransitionEvent(run, from, to)]) == About(run.key, [G.Edge(from, to)])
    ensures S.Writable([TransitionEvent(run, from, to)])
  {
    TransitionEventIsWritable(run, from, to);
    var event := TransitionEvent(run, from, to);
    NamesReadBack(Pending, to);
    if from.Some? { NamesReadBack(Pending, from.value); }
    FieldAt(event.payload.entries, 1, "idempotency_key");
    FieldAt(event.payload.entries, 2, "from_status");
    FieldAt(event.payload.entries, 3, "to_status");
    OneNote(event, run.key, G.Edge(from, to));
  }

  lemma RejectionEventSays(run: PausedRun)
    ensures DecodeEvent(RejectionEvent(run)) == Some(Note(run.key, G.Outcome(Aborted)))
  {
    FieldAt(RejectionEvent(run).payload.entries, 2, "outcome");
  }

  /** Both records of a rejection. */
  lemma RejectionSays(run: PausedRun)
    ensures EventNotes([TransitionEvent(run, Some(Rejected), RunAborted), RejectionEvent(run)])
            == About(run.key, NewsOf(G.ResolveRejected))
    ensures S.Writable([TransitionEvent(run, Some(Rejected), RunAborted), RejectionEvent(run)])
  {
    TransitionEventIsWritable(run, Some(Rejected), RunAborted);
    RejectionEventIsWritable(run);
    TransitionEventSays(run, Some(Rejected), RunAborted);
    RejectionEventSays(run);
  }

  /** `json.loads` of the stored argument map. */
  function Rehydrated(v: Value): PyObject {
    match v
    case Null => PyNone
    case Bool(b) => PyBool(b)
    case Int(n) => PyInt(n)
    case Str(s) => PyStr(Clean(s))
    case List(items) => PyList(seq(|items|, i requires 0 <= i < |items| => Rehydrated(items[i])))
    case Obj(ms) => PyDict(seq(|ms|, i requires 0 <= i < |ms| => RehydratedEntry(ms[i])))
  }

  function RehydratedEntry(m: Member): PyEntry {
    PyEntry(StrKey(Clean(m.name)), Rehydrated(m.value))
  }

  datatype ApplyOptions = ApplyOptions(polls: nat, reconcileAfter: Option<int>, executeTimeout: Option<int>)

  function ResumeCall(run: PausedRun, registration: Registration, o: ApplyOptions): C.Call {
    C.Call(run.actionType, registration.effect, if registration.hasPreconditions then Coerced else Unconditional,
           C.Options(true, o.polls, o.reconcileAfter, R.Abort, o.executeTimeout, true))
  }

  /** The registry declares what rows were claimed under, and recovery waits out the window. */
  ghost predicate Equipped(w: World, registry: Registry, o: ApplyOptions) {
    && R.Declares(w, registry)
    && (o.reconcileAfter.Some? ==> w.gp.commit.window <= o.reconcileAfter.value)
  }

  /** The key of a run that exists, and that the caller works on. */
  ghost predicate OnRun(g: G.Gate, ref: string) {
    g.run.Some? && g.run.value.approvalRef == ref
  }

  /** The run was decided already. */
  ghost predicate Past(g: G.Gate, ref: string) {
    OnRun(g, ref) && !g.run.value.status.Proposed?
  }

  /** rejected -> aborted, with both its records in the one transaction. */
  method DriveRejected(w: World, me: P.Actor, ghost start: Log, run: PausedRun) returns (won: S.Written)
    requires w.Valid() && w.Worked(me, run.key, start) && w.At(run.key).run == Some(run) && run.status.Rejected?
    modifies w, w.store
    ensures w.Valid() && w.Worked(me, run.key, start) && w.Grew(old(w.Rows()), 2)
    ensures Later(old(w.At(run.key)), w.At(run.key))
    ensures won.Raised? ==> w.Full()
    ensures !won.Raised? ==> w.At(run.key).run.value.status.Resolved()
    ensures w.calm ==> !won.Fenced?
  {
    RejectionSays(run);
    won := w.Resolve(me, run.key, start, G.ResolveRejected,
                     [TransitionEvent(run, Some(Rejected), RunAborted), RejectionEvent(run)]);
  }

  /** The one `commit_once` call every approved resume goes through. */
  method CommitForPause(w: World, me: P.Actor, ghost start: Log, run: PausedRun, registration: Registration,
                        o: ApplyOptions)
    returns (r: C.CommitResult)
    requires w.Valid() && w.Worked(me, run.key, start) && w.At(run.key).run == Some(run) && run.status.Approved?
    requires run.args.Some?
    requires C.Fits(w, run.key, ResumeCall(run, registration, o))
    modifies w, w.store
    ensures w.Valid() && w.Worked(me, run.key, start) && w.Grew(old(w.Rows()), o.polls + 2)
    ensures Later(old(w.At(run.key)), w.At(run.key))
    ensures C.Agreed(r, w.At(run.key)) && Committing(w, me, run, registration, o, r)
    ensures w.calm && ResumesCalmly(old(w.At(run.key)), run, registration, o) ==>
              C.Concluded(w, r) && w.At(run.key).run == Some(run)
  {
    ghost var h := w.history;
    ApprovedMayClaim(w.gp, h, run);
    r := C.CommitOnce(w, me, run.key, h, ResumeCall(run, registration, o), Rehydrated(run.args.value));
    GoesOn(w.gp, h, w.history, run.key);
    WorksTwice(me, run.key, w.calm, start, h, w.history);
  }

  /** What the commit of a resume comes to follows from its call. */
  ghost predicate Committing(w: World, me: P.Actor, run: PausedRun, registration: Registration, o: ApplyOptions,
                             r: C.CommitResult)
    requires run.args.Some?
    reads w, w.store
  {
    C.Accounted(w, me, run.key, ResumeCall(run, registration, o), Rehydrated(run.args.value), r)
  }

  /** The run can be resumed here: its arguments are canonical, its options consistent, and
      its row, if there is one, is settled and its own. */
  predicate ResumesCalmly(g: G.Gate, run: PausedRun, registration: Registration, o: ApplyOptions) {
    && run.args.Some?
    && C.Startable(ResumeCall(run, registration, o), run.key, Rehydrated(run.args.value))
    && C.Resumable(g, ResumeCall(run, registration, o))
  }

  /** Why a run could not be driven: its action is unknown here, its arguments were lost, its
      commit was refused, or the chain has no room. */
  ghost predicate Stops(w: World, me: P.Actor, run: PausedRun, registry: Registry, o: ApplyOptions, why: ApplyError)
    reads w, w.store
  {
    && (why.Unregistered? ==> run.actionType !in registry)
    && (why.BrokenState? ==> run.actionType in registry && run.args.None?)
    && (why.CommitRefused? ==>
          && run.actionType in registry && run.args.Some?
          && Committing(w, me, run, registry[run.actionType], o, C.Refused(why.why)))
    && (why.StoreRaised? ==> w.Full())
    && (why.Unregistered? || why.BrokenState? || why.CommitRefused? || why.StoreRaised?)
  }

  /** approved -> committed or aborted, through the ledger: the ledger row decides. */
  method DriveApproved(w: World, me: P.Actor, ghost start: Log, run: PausedRun, registry: Registry, o: ApplyOptions)
    returns (won: bool, failed: Option<ApplyError>)
    requires w.Valid() && w.Worked(me, run.key, start) && w.At(run.key).run == Some(run) && run.status.Approved?
    requires Equipped(w, registry, o)
    modifies w, w.store
    ensures w.Valid() && w.Worked(me, run.key, start) && w.Grew(old(w.Rows()), o.polls + 3)
    ensures Later(old(w.At(run.key)), w.At(run.key))
    ensures failed.None? ==> w.At(run.key).run.value.status.Resolved() && G.Settled(w.At(run.key))
    ensures failed.Some? ==> Stops(w, me, run, registry, o, failed.value)
    ensures w.calm && run.actionType in registry && ResumesCalmly(old(w.At(run.key)), run, registry[run.actionType],
                                                                  o) ==>
              failed.None? || w.Full()
  {
    if run.actionType !in registry {
      return false, Some(Unregistered);
    }
    if run.args.None? {
      return false, Some(BrokenState);
    }
    var committed := CommitForPause(w, me, start, run, registry[run.actionType], o);
    if committed.Refused? {
      return false, Some(CommitRefused(committed.why));
    }
    ghost var middle := w.At(run.key);
    won, failed := ResolveFromLedger(w, me, start, run, committed.outcome.state);
    LaterTwice(old(w.At(run.key)), middle, w.At(run.key));
  }

  method ResolveFromLedger(w: World, me: P.Actor, ghost start: Log, run: PausedRun, state: LedgerState)
    returns (won: bool, failed: Option<ApplyError>)
    requires w.Valid() && w.Worked(me, run.key, start)
    requires w.At(run.key).run.Some? && w.At(run.key).run.value.approvalRef == run.approvalRef
    requires w.At(run.key).run.value.status == Approved || w.At(run.key).run.value.status.Resolved()
    requires G.Settled(w.At(run.key)) && Row(w.At(run.key)).value.state == state
    modifies w, w.store
    ensures w.Valid() && w.Worked(me, run.key, start) && w.Grew(old(w.Rows()), 1)
    ensures Later(old(w.At(run.key)), w.At(run.key))
    ensures failed.None? ==> w.At(run.key).run.value.status.Resolved() && G.Settled(w.At(run.key))
    ensures failed.Some? ==> failed.value == StoreRaised && w.Full()
  {
    var to := if state.Committed? then RunCommitted else RunAborted;
    TransitionEventSays(run, Some(Approved), to);
    var written := w.Resolve(me, run.key, start, G.ResolveApproved(to), [TransitionEvent(run, Some(Approved), to)]);
    won := written.Matched?;
    failed := if written.Raised? then Some(StoreRaised) else None;
  }

  lemma {:induction false} ApprovedMayClaim(gp: Rules, h: Log, run: PausedRun)
    requires At(gp, h, run.key).run == Some(run) && run.status.Approved?
    ensures MayClaim(At(gp, h, run.key), run.actionType)
  {
    Reachable(gp, h, run.key);
  }

  /** What a call reports of a run, with the ledger's row once the run is resolved. */
  method ReportRun(w: World, me: P.Actor, ghost start: Log, run: PausedRun, applied: bool)
    returns (o: DecisionOutcome)
    requires w.Valid() && w.Worked(me, run.key, start) && w.At(run.key).run == Some(run)
    requires run.status.Proposed? || run.status.Resolved()
    modifies w, w.store
    ensures w.Valid() && w.Worked(me, run.key, start) && Undisturbed(me, old(w.history), w.history)
    ensures w.Grew(old(w.Rows()), 0)
    ensures Later(old(w.At(run.key)), w.At(run.key))
    ensures o.applied == applied && o.status == run.status && o.approvalRef == run.approvalRef
    ensures o.decidedBy == run.decidedBy && o.reason == run.reason && o.reasonCode == run.reasonCode
    ensures o.humanDecision == G.RecordedDecision(run.status, o.ledgerState)
    ensures run.status.Resolved() ==>
              && o.ledgerState == G.RowState(w.At(run.key)) && o.result == ResultOf(w.At(run.key))
              && w.At(run.key).run.value.status == run.status
    ensures run.status.Resolved() && w.gp.gated(run.key) ==> o.humanDecision == w.At(run.key).verdict
  {
    var state: Option<LedgerState>, result: Value := None, Null;
    if run.status.Resolved() {
      var record := w.Peek(me, run.key, start);
      if record.Some? {
        state, result := Some(record.value.state), record.value.result;
      }
      if w.gp.gated(run.key) { DecisionKnown(w.gp, w.history, run.key); }
    }
    o := DecisionOutcome(run.approvalRef, run.actionType, run.status, applied, G.RecordedDecision(run.status, state),
                         run.decidedBy, run.reason, run.reasonCode, state, result);
  }

  lemma {:induction false} DecisionKnown(gp: Rules, h: Log, k: Key)
    requires gp.gated(k) && At(gp, h, k).run.Some?
    ensures G.RecordedDecision(At(gp, h, k).run.value.status, G.RowState(At(gp, h, k))) == At(gp, h, k).verdict
  {
    KeyIsRun(gp, h, k);
    G.GatedRunsCoupled(Of(gp, k), Project(h, k));
  }

  /** The attempt to record a fresh decision. */
  method TryDecide(w: World, me: P.Actor, ghost start: Log, run: PausedRun, d: ApprovalDecision)
    returns (won: S.Written)
    requires w.Valid() && w.Worked(me, run.key, start) && OnRun(w.At(run.key), run.approvalRef)
    modifies w, w.store
    ensures w.Valid() && w.Worked(me, run.key, start) && w.Grew(old(w.Rows()), 1)
    ensures Later(old(w.At(run.key)), w.At(run.key))
    ensures won.Raised? ==> w.Full()
    ensures !won.Raised? ==> !w.At(run.key).run.value.status.Proposed?
    ensures won.Matched? ==> OnRecord(w.At(run.key), Normalized(d, run, old(w.store.now)))
                             && w.At(run.key).run.value.status == G.StatusFor(d.decision)
    ensures w.calm && old(w.At(run.key)).run.value.status.Proposed? ==> !won.Fenced?
    ensures !old(w.At(run.key)).run.value.status.Proposed? ==> won.Fenced?
    ensures !won.Matched? ==> Undisturbed(me, old(w.history), w.history)
    ensures w.calm && !won.Matched? ==> Still(old(w.At(run.key)), w.At(run.key))
  {
    var n := Normalized(d, run, w.store.now);
    TransitionEventSays(run, Some(Proposed), G.StatusFor(n.decision));
    won := w.Decide(me, run.key, start, n, [TransitionEvent(run, Some(Proposed), G.StatusFor(n.decision))]);
  }

  /** One reading of the run, and the step its status calls for. */
  datatype Round = Finished(outcome: DecisionOutcome) | Moved(applied: bool) | Stopped(why: ApplyError)

  /** How many records driving a run of this status may take. */
  function Cost(status: PauseStatus, o: ApplyOptions): nat {
    match status case Rejected => 2 case Approved => o.polls + 3 case _ => 0
  }

  method DriveOnce(w: World, me: P.Actor, ghost start: Log, key: Key, ref: string, applied: bool,
                   registry: Registry, o: ApplyOptions)
    returns (round: Round)
    requires w.Valid() && w.Worked(me, key, start) && OnRun(w.At(key), ref)
    requires Equipped(w, registry, o)
    modifies w, w.store
    ensures w.Valid() && w.Worked(me, key, start) && OnRun(w.At(key), ref)
    ensures w.Grew(old(w.Rows()), Cost(old(w.At(key)).run.value.status, o))
    ensures round.Finished? ==> Shows(w, key, ref, !old(w.At(key)).run.value.status.Proposed?, round.outcome)
                                && round.outcome.applied == applied
    ensures round.Stopped? ==> StoppedAt(w, me, key, registry, o, round.why)
    ensures round.Moved? ==> w.At(key).run.value.status.Resolved()
    ensures old(w.At(key)).run.value.status.Resolved() ==>
              round.Finished? && Undisturbed(me, old(w.history), w.history)
    ensures w.calm && RunSettles(old(w.At(key)), registry, o) ==> round.Moved? || (round.Stopped? && w.Full())
  {
    var loaded := w.ReloadPaused(me, key, start, ref);
    KeyedRight(w.gp, w.history, key);
    ghost var h := w.history;
    round := DriveRun(w, me, start, loaded.value, applied, registry, o);
    if old(w.At(key)).run.value.status.Resolved() { UndisturbedTwice(me, old(w.history), h, w.history); }
  }

  /** The step a status calls for. */
  method DriveRun(w: World, me: P.Actor, ghost start: Log, run: PausedRun, applied: bool, registry: Registry,
                  o: ApplyOptions)
    returns (round: Round)
    requires w.Valid() && w.Worked(me, run.key, start) && w.At(run.key).run == Some(run)
    requires Equipped(w, registry, o)
    modifies w, w.store
    ensures w.Valid() && w.Worked(me, run.key, start) && OnRun(w.At(run.key), run.approvalRef)
    ensures w.Grew(old(w.Rows()), Cost(run.status, o))
    ensures round.Finished? ==> Shows(w, run.key, run.approvalRef, !run.status.Proposed?, round.outcome)
                                && round.outcome.applied == applied
    ensures round.Stopped? ==> StoppedAt(w, me, run.key, registry, o, round.why)
    ensures round.Moved? ==> w.At(run.key).run.value.status.Resolved()
    ensures run.status.Resolved() ==> round.Finished? && Undisturbed(me, old(w.history), w.history)
    ensures w.calm && RunSettles(old(w.At(run.key)), registry, o) ==> round.Moved? || (round.Stopped? && w.Full())
  {
    match run.status {
      case Rejected =>
        var won := DriveRejected(w, me, start, run);
        round := if won.Raised? then Stopped(StoreRaised) else Moved(applied || won.Matched?);
      case Approved =>
        var won, failed := DriveApproved(w, me, start, run, registry, o);
        round := if failed.Some? then Stopped(failed.value) else Moved(applied || won);
        if failed.Some? { StopsTheSame(w, me, run, w.At(run.key).run.value, registry, o, failed.value); }
      case _ =>
        var outcome := ReportRun(w, me, start, run, applied);
        round := Finished(outcome);
    }
  }

  /** The run of this key could not be driven. */
  ghost predicate StoppedAt(w: World, me: P.Actor, key: Key, registry: Registry, o: ApplyOptions, why: ApplyError)
    reads w, w.store
  {
    w.At(key).run.Some? && Stops(w, me, w.At(key).run.value, registry, o, why)
  }

  /** Only what a run keeps for good matters. */
  lemma StopsTheSame(w: World, me: P.Actor, run: PausedRun, run': PausedRun, registry: Registry,
                     o: ApplyOptions, why: ApplyError)
    requires Stops(w, me, run, registry, o, why)
    requires run'.key == run.key && run'.actionType == run.actionType && run'.args == run.args
    ensures Stops(w, me, run', registry, o, why)
  {
  }

  function ResultOf(g: G.Gate): Value {
    if Row(g).Some? then Row(g).value.result else Null
  }

  /** The outcome says of a resolved run what its row and its history say. */
  ghost predicate Truly(w: World, key: Key, o: DecisionOutcome)
    reads w
  {
    && w.At(key).run.Some? && w.At(key).run.value.status == o.status
    && o.ledgerState == G.RowState(w.At(key)) && o.result == ResultOf(w.At(key))
    && o.humanDecision == G.RecordedDecision(o.status, o.ledgerState)
    && (w.gp.gated(key) ==> o.humanDecision == w.At(key).verdict)
  }

  /** What a call that returns shows: the run the reference names, at rest; still `proposed`
      only when no decision was given. */
  ghost predicate Shows(w: World, key: Key, ref: string, decided: bool, o: DecisionOutcome)
    reads w
  {
    && o.approvalRef == ref && OnRun(w.At(key), ref)
    && (o.status.Resolved() || (o.status.Proposed? && !decided))
    && (o.status.Resolved() ==> Truly(w, key, o))
  }

  /** An approved run that can be resumed here. */
  predicate RunSettles(g: G.Gate, registry: Registry, o: ApplyOptions) {
    && g.run.Some? && g.run.value.status.Approved? && g.run.value.actionType in registry
    && ResumesCalmly(g, g.run.value, registry[g.run.value.actionType], o)
  }

  /** Reads and drives until the run is resolved. Statuses only move forward, so the second
      reading at the latest returns; `readings` counts them. */
  method DriveHome(w: World, me: P.Actor, ghost start: Log, key: Key, ref: string, applied0: bool,
                   registry: Registry, o: ApplyOptions)
    returns (r: ApplyResult, readings: nat)
    requires w.Valid() && w.Worked(me, key, start) && OnRun(w.At(key), ref)
    requires Equipped(w, registry, o)
    modifies w, w.store
    ensures w.Valid() && w.Worked(me, key, start) && OnRun(w.At(key), ref) && w.Grew(old(w.Rows()), o.polls + 3)
    ensures readings <= 2 && (r.ApplyFailed? ==> StoppedAt(w, me, key, registry, o, r.why))
    ensures r.Applied? ==> Shows(w, key, ref, !old(w.At(key)).run.value.status.Proposed?, r.outcome)
    ensures old(w.At(key)).run.value.status.Resolved() ==>
              r.Applied? && r.outcome.applied == applied0 && Undisturbed(me, old(w.history), w.history)
    ensures w.calm && RunSettles(old(w.At(key)), registry, o) ==>
              if r.Applied? then r.outcome.status.Resolved() else w.Full()
  {
    var applied := applied0;
    readings := 0;
    r := ApplyFailed(NotSettling);
    while readings < MAX_READS
      invariant w.Valid() && w.Worked(me, key, start) && OnRun(w.At(key), ref) && readings <= 1
      invariant readings == 0 ==> w.history == old(w.history) && applied == applied0 && w.Rows() == old(w.Rows())
      invariant readings == 1 ==> w.At(key).run.value.status.Resolved() && !old(w.At(key)).run.value.status.Resolved()
      invariant w.Grew(old(w.Rows()), o.polls + 3)
      decreases MAX_READS - readings
    {
      var round := DriveOnce(w, me, start, key, ref, applied, registry, o);
      readings := readings + 1;
      match round {
        case Finished(outcome) => return Applied(outcome), readings;
        case Stopped(why) => return ApplyFailed(why), readings;
        case Moved(did) => applied := did;
      }
    }
  }

  /** A recorded decision stays the one on record. */
  lemma {:induction false} StaysOnRecord(gp: Rules, h: Log, h': Log, k: Key, d: ApprovalDecision)
    requires h <= h' && OnRecord(At(gp, h, k), d) && !At(gp, h, k).run.value.status.Proposed?
    ensures OnRecord(At(gp, h', k), d)
  {
    GoesOn(gp, h, h', k);
  }

  /** The decision swap, if a decision came. `applied` says whether it won; nothing when the
      store raised. */
  method DecideFirst(w: World, me: P.Actor, ghost start: Log, run: PausedRun, decision: Option<ApprovalDecision>)
    returns (applied: Option<bool>)
    requires w.Valid() && w.Worked(me, run.key, start) && w.At(run.key).run == Some(run)
    modifies w, w.store
    ensures w.Valid() && w.Worked(me, run.key, start) && Later(old(w.At(run.key)), w.At(run.key))
    ensures w.Grew(old(w.Rows()), 1) && (applied.None? ==> w.Full())
    ensures decision.None? ==> applied == Some(false) && w.history == old(w.history)
    ensures decision.Some? && applied.Some? ==> !w.At(run.key).run.value.status.Proposed?
    ensures applied == Some(true) ==>
              decision.Some? && OnRecord(w.At(run.key), Normalized(decision.value, run, old(w.store.now)))
    ensures w.calm && decision.Some? && run.status.Proposed? ==> applied != Some(false)
    ensures run.status.Resolved() ==> applied != Some(true) && Undisturbed(me, old(w.history), w.history)
  {
    if decision.None? {
      LaterSelf(w.At(run.key));
      return Some(false);
    }
    var won := TryDecide(w, me, start, run, decision.value);
    applied := if won.Raised? then None else Some(won.Matched?);
  }

  /** A decision given to an undecided run is the one on record afterwards. */
  predicate Records(g: G.Gate, run: Option<PausedRun>, now: Time, decision: Option<ApprovalDecision>) {
    decision.Some? && run.Some? && run.value.status.Proposed? ==>
      OnRecord(g, Normalized(decision.value, run.value, now))
  }

  function DecisionIn(delivered: Option<Delivered>): Option<ApprovalDecision> {
    if delivered.Some? then Some(delivered.value.decision) else None
  }

  /** And so at some moment between two. */
  ghost predicate RecordsBetween(g: G.Gate, run: Option<PausedRun>, from: Time, to: Time,
                                 decision: Option<ApprovalDecision>) {
    exists now :: from <= now <= to && Records(g, run, now, decision)
  }

  /** The decision swap; then, whoever won it, the drive. */
  method ApplyTo(w: World, me: P.Actor, ghost start: Log, run: PausedRun, decision: Option<ApprovalDecision>,
                 registry: Registry, o: ApplyOptions)
    returns (r: ApplyResult, readings: nat)
    requires w.Valid() && w.Worked(me, run.key, start) && w.At(run.key).run == Some(run)
    requires Equipped(w, registry, o)
    modifies w, w.store
    ensures w.Valid() && w.Worked(me, run.key, start) && OnRun(w.At(run.key), run.approvalRef)
    ensures w.Grew(old(w.Rows()), o.polls + 4) && old(w.history) <= w.history
    ensures readings <= 2 && (r.ApplyFailed? ==> StoppedAt(w, me, run.key, registry, o, r.why))
    ensures r.Applied? ==> Shows(w, run.key, run.approvalRef, decision.Some? || !run.status.Proposed?, r.outcome)
    ensures w.calm && r.Applied? ==> Records(w.At(run.key), Some(run), old(w.store.now), decision)
    ensures run.status.Resolved() ==> (r.Applied? ==> !r.outcome.applied) && Undisturbed(me, old(w.history), w.history)
    ensures w.calm && decision.None? && RunSettles(old(w.At(run.key)), registry, o) ==>
              if r.Applied? then r.outcome.status.Resolved() else w.Full()
  {
    ghost var h := w.history;
    var applied := DecideFirst(w, me, h, run, decision);
    if applied.None? {
      WorksTwice(me, run.key, w.calm, start, h, w.history);
      return ApplyFailed(StoreRaised), 0;
    }
    ghost var h' := w.history;
    r, readings := DriveHome(w, me, h', run.key, run.approvalRef, applied.value, registry, o);
    WorksTwice(me, run.key, w.calm, h, h', w.history);
    WorksTwice(me, run.key, w.calm, start, h, w.history);
    if applied.value { StaysOnRecord(w.gp, h', w.history, run.key, Normalized(decision.value, run, old(w.store.now))); }
    if run.status.Resolved() { UndisturbedTwice(me, h, h', w.history); }
  }

  lemma ShowsLess(w: World, key: Key, ref: string, decided: bool, decided': bool, o: DecisionOutcome)
    requires Shows(w, key, ref, decided, o) && (decided' ==> decided)
    ensures Shows(w, key, ref, decided', o)
  {
  }

  /** Why a delivery was not applied: no run has the reference, its stored version is not
      this code's, its arguments were edited, or the run could not be driven. */
  ghost predicate NotApplied(w: World, me: P.Actor, key: Key, ref: string, delivered: Option<Delivered>,
                             registry: Registry, o: ApplyOptions, why: ApplyError)
    reads w, w.store
  {
    if why.UnknownRef? then forall k :: w.At(k).run.Some? ==> w.At(k).run.value.approvalRef != ref
    else OnRun(w.At(key), ref)
         && if w.At(key).run.value.stateVersion != STATE_VERSION then why.WrongVersion?
            else if delivered.Some? && delivered.value.edited then why.EditedArgs?
            else StoppedAt(w, me, key, registry, o, why)
  }

  /** Applies a decision, or with none drives the run's present status. It settles after at
      most two readings, never reports `proposed` when given a decision, and on a run that
      was already resolved it does nothing but report it. */
  method ApplyDecision(w: World, me: P.Actor, ref: string, delivered: Option<Delivered>, registry: Registry,
                       o: ApplyOptions)
    returns (r: ApplyResult, readings: nat, ghost key: Key)
    requires w.Valid() && Equipped(w, registry, o)
    modifies w, w.store
    ensures w.Valid() && w.Worked(me, key, old(w.history)) && w.Grew(old(w.Rows()), o.polls + 4) && readings <= 2
    ensures r.ApplyFailed? ==> NotApplied(w, me, key, ref, delivered, registry, o, r.why)
    ensures r.Applied? ==> Shows(w, key, ref, delivered.Some? || Past(old(w.At(key)), ref), r.outcome)
    ensures w.calm && r.Applied? ==>
              RecordsBetween(w.At(key), old(w.At(key)).run, old(w.store.now), w.store.now, DecisionIn(delivered))
    ensures OnRun(old(w.At(key)), ref) && old(w.At(key)).run.value.status.Resolved() ==>
              (r.Applied? ==> !r.outcome.applied) && Undisturbed(me, old(w.history), w.history)
    ensures w.calm && OnRun(old(w.At(key)), ref) && delivered.None? && CanResume(old(w.At(key)), registry, o) ==>
              if r.Applied? then r.outcome.status.Resolved() else w.Full()
  {
    var refused, found := Accepts(w, me, ref, delivered);
    key := KeyOf(found);
    if refused.Some? {
      return ApplyFailed(refused.value), 0, key;
    }
    ghost var h := w.history;
    r, readings := ApplyFound(w, me, old(w.history), old(w.store.now), delivered.Some? || Past(old(w.At(key)), ref),
                              found.value, DecisionIn(delivered), registry, o);
    if found.value.status.Resolved() { UndisturbedTwice(me, old(w.history), h, w.history); }
  }

  /** The run was found; `from` is when the delivery came, and `decided` whether it brought or
      found a decision. */
  method ApplyFound(w: World, me: P.Actor, ghost start: Log, ghost from: Time, ghost decided: bool,
                    run: PausedRun, decision: Option<ApprovalDecision>, registry: Registry, o: ApplyOptions)
    returns (r: ApplyResult, readings: nat)
    requires w.Valid() && w.Worked(me, run.key, start) && w.At(run.key).run == Some(run)
    requires from <= w.store.now && (decided ==> decision.Some? || !run.status.Proposed?)
    requires Equipped(w, registry, o)
    modifies w, w.store
    ensures w.Valid() && w.Worked(me, run.key, start) && w.Grew(old(w.Rows()), o.polls + 4)
    ensures OnRun(w.At(run.key), run.approvalRef) && w.At(run.key).run.value.stateVersion == run.stateVersion
    ensures readings <= 2 && (r.ApplyFailed? ==> StoppedAt(w, me, run.key, registry, o, r.why))
    ensures r.Applied? ==> Shows(w, run.key, run.approvalRef, decided, r.outcome)
    ensures w.calm && r.Applied? ==> RecordsBetween(w.At(run.key), Some(run), from, w.store.now, decision)
    ensures run.status.Resolved() ==> (r.Applied? ==> !r.outcome.applied) && Undisturbed(me, old(w.history), w.history)
    ensures w.calm && decision.None? && RunSettles(old(w.At(run.key)), registry, o) ==>
              if r.Applied? then r.outcome.status.Resolved() else w.Full()
  {
    ghost var h, now := w.history, w.store.now;
    w.TellsTime();
    r, readings := ApplyTo(w, me, start, run, decision, registry, o);
    w.TellsTime();
    ClockRuns(h, w.history);
    GoesOn(w.gp, h, w.history, run.key);
    if r.Applied? {
      ShowsLess(w, run.key, run.approvalRef, decision.Some? || !run.status.Proposed?, decided, r.outcome);
      if w.calm { assert Records(w.At(run.key), Some(run), now, decision); }
    }
  }

  /** An approved run of the stored version that can be resumed here. */
  predicate CanResume(g: G.Gate, registry: Registry, o: ApplyOptions) {
    RunSettles(g, registry, o) && g.run.value.stateVersion == STATE_VERSION
  }

  function KeyOf(run: Option<PausedRun>): Key {
    if run.Some? then run.value.key else ""
  }

  /** The run a reference names, and whether this delivery may act on it at all. */
  method Accepts(w: World, me: P.Actor, ref: string, delivered: Option<Delivered>)
    returns (refused: Option<ApplyError>, run: Option<PausedRun>)
    requires w.Valid()
    modifies w, w.store
    ensures w.Valid() && Undisturbed(me, old(w.history), w.history) && w.Worked(me, KeyOf(run), old(w.history))
    ensures w.Grew(old(w.Rows()), 0) && old(w.store.now) <= w.store.now
    ensures run.Some? ==> w.At(run.value.key).run == run && run.value.approvalRef == ref
    ensures run.None? ==>
              refused == Some(UnknownRef) && forall k :: w.At(k).run.Some? ==> w.At(k).run.value.approvalRef != ref
    ensures run.Some? ==> refused == if run.value.stateVersion != STATE_VERSION then Some(WrongVersion)
                                     else if delivered.Some? && delivered.value.edited then Some(EditedArgs) else None
    ensures OnRun(old(w.At(KeyOf(run))), ref) && old(w.At(KeyOf(run))).run.value.status.Resolved() ==>
              run.Some? && run.value.status.Resolved()
    ensures Past(old(w.At(KeyOf(run))), ref) ==> run.Some? && !run.value.status.Proposed?
    ensures w.calm ==> Still(old(w.At(KeyOf(run))), w.At(KeyOf(run)))
  {
    run := w.FindPaused(me, ref);
    refused :=
      if run.None? then Some(UnknownRef)
      else if run.value.stateVersion != STATE_VERSION then Some(WrongVersion)
      else if delivered.Some? && delivered.value.edited then Some(EditedArgs)
      else None;
    WorksOn(me, KeyOf(run), w.calm, old(w.history), old(w.history), w.history);
    GoesOn(w.gp, old(w.history), w.history, KeyOf(run));
    if w.calm { QuietIsStill(w.gp, old(w.history), w.history, KeyOf(run)); }
    if run.None? { assert w.At("").run.Some? ==> w.At("").run.value.approvalRef != ref; }
  }
}
