/** The recovery of one stale row: take it over, find out what happened, finish it. */
module Recovery {
  import opened Json
  import opened Types
  import opened Canonical
  import opened Audit
  import opened Effects
  import opened Reports
  import P = Protocol
  import G = Gate
  import L = Ledger
  import S = Store
  import opened History
  import opened Moves
  import opened World
  import opened Evidence

  datatype OnAbsent = Retry | Abort

  datatype Outcome =
    | DidCommit
    | DidRetry            // re-executed and committed
    | DidAbort
    | DidFail
    | DidUnknown
    | DidEscalate         // left as it was: nothing provable
    | DidSkip             // resolved or taken over meanwhile
    | NotRegistered
    | LostEpoch           // a third actor took over during recovery

  datatype ReconcileAction = ReconcileAction(
    key: Key, actionType: string, fromState: LedgerState, guarantee: Guarantee, outcome: Outcome, epoch: Option<nat>)

  type ReconcileReport = Report<ReconcileAction, Outcome>

  /** The state a row is in once an outcome that settles it is reported. */
  function Settles(outcome: Outcome): Option<LedgerState> {
    match outcome
    case DidCommit => Some(Committed)
    case DidRetry => Some(Committed)
    case DidAbort => Some(Aborted)
    case DidFail => Some(Failed)
    case DidUnknown => Some(Unknown)
    case _ => None
  }

  /** What is reported is true of the row. */
  predicate Told(outcome: Outcome, g: G.Gate) {
    Settles(outcome).Some? ==> Row(g).Some? && Row(g).value.state == Settles(outcome).value
  }

  /** The row was settled, unless the store raised. */
  predicate Ended(done: Option<Outcome>) {
    done.Some? ==> Settles(done.value).Some?
  }

  function ActionOn(r: CommitRecord, outcome: Outcome, epoch: Option<nat>): ReconcileAction {
    ReconcileAction(r.key, r.actionType, r.state, r.guarantee, outcome, epoch)
  }

  // ----- The recovery table -----

  /** What a recovery found out before it acted: the answer of its probe, and whether its
      preconditions held, where it asked. */
  datatype Findings = Findings(probe: Option<Verification>, held: Option<bool>)

  const NOTHING_ASKED := Findings(None, None)

  /** The outcomes of a row that was taken over. */
  predicate InTable(r: CommitRecord, onAbsent: OnAbsent, f: Findings, o: Outcome) {
    o.LostEpoch? ||
    if r.state.Pending? then f.probe.None? && EffectFree(onAbsent, f.held, o)
    else
      match r.guarantee
      case Verifiable => f.probe.Some? && AfterProbe(f.probe.value, onAbsent, f.held, o)
      case DownstreamIdempotent => f.probe.None? && f.held.Some? && (if f.held.value then Ran(o) else o.DidUnknown?)
      case AtMostOnce => f == NOTHING_ASKED && o.DidUnknown?
  }

  predicate AfterProbe(answer: Verification, onAbsent: OnAbsent, held: Option<bool>, o: Outcome) {
    match answer
    case Present => held.None? && o.DidCommit?
    case Absent => EffectFree(onAbsent, held, o)
    case Unproven => held.None? && o.DidEscalate?
  }

  /** The effect provably did not happen: it is left at that, or tried again if its
      preconditions still hold. */
  predicate EffectFree(onAbsent: OnAbsent, held: Option<bool>, o: Outcome) {
    match onAbsent
    case Abort => held.None? && o.DidAbort?
    case Retry => held.Some? && if held.value then Ran(o) else o.DidAbort?
  }

  /** A fresh attempt commits, is proved to have failed, or is left for the next pass. */
  predicate Ran(o: Outcome) {
    o.DidRetry? || o.DidFail? || o.DidEscalate?
  }

  // ----- Audit records of a recovery -----

  function GuaranteeName(g: Guarantee): string {
    match g
    case DownstreamIdempotent => "downstream_idempotent"
    case Verifiable => "verifiable"
    case AtMostOnce => "none"
  }

  function OutcomeName(o: Outcome): string {
    match o
    case DidCommit => "committed"
    case DidRetry => "retried_committed"
    case DidAbort => "aborted"
    case DidFail => "failed"
    case DidUnknown => "unknown"
    case DidEscalate => "escalated"
    case DidSkip => "skipped"
    case NotRegistered => "unregistered"
    case LostEpoch => "reexecute_fenced"
  }

  /** A small vocabulary, so that it is always canonical; free-form evidence stays on the row. */
  function ReconcileEvent(r: CommitRecord, o: Outcome, epoch: nat, to: Option<LedgerState>, reason: string)
    : AuditEvent {
    AuditEvent("reconcile", None, Some(r.actionType),
      PyDict([Audit.Entry("key", PlainText(r.key)), Audit.Entry("from_state", PlainText(StateName(r.state))),
              Audit.Entry("to_state", if to.Some? then PlainText(StateName(to.value)) else PyNone),
              Audit.Entry("outcome", PlainText(OutcomeName(o))), Audit.Entry("epoch", PyInt(epoch)),
              Audit.Entry("guarantee", PlainText(GuaranteeName(r.guarantee))),
              Audit.Entry("reason", PlainText(reason))]),
      None)
  }

  /** It is in the canonical domain if its epoch is. */
  lemma ReconcileEventIsWritable(r: CommitRecord, o: Outcome, epoch: nat, to: Option<LedgerState>, reason: string)
    ensures epoch <= MAX_CANONICAL_INT <==> S.Writable([ReconcileEvent(r, o, epoch, to, reason)])
  {
    var event := ReconcileEvent(r, o, epoch, to, reason);
    var entries := event.payload.entries;
    assert [event][0].payload == PyDict(entries);
    assert PermittedEntry(entries[4]) <==> epoch <= MAX_CANONICAL_INT;
    assert PermittedEntry(entries[0]) && PermittedEntry(entries[1]) && PermittedEntry(entries[2]);
    assert PermittedEntry(entries[3]) && PermittedEntry(entries[5]) && PermittedEntry(entries[6]);
  }

  /** On the chain it reads as a recovery to the state it names, or as an escalation. */
  lemma ReconcileEventSays(r: CommitRecord, o: Outcome, epoch: nat, to: Option<LedgerState>, reason: string)
    ensures EventNotes([ReconcileEvent(r, o, epoch, to, reason)]) ==
            About(r.key, [if to.Some? then G.Recovered(to.value) else G.Escalated])
  {
    var event := ReconcileEvent(r, o, epoch, to, reason);
    if to.Some? { NamesReadBack(to.value, Proposed); }
    FieldAt(event.payload.entries, 0, "key");
    FieldAt(event.payload.entries, 2, "to_state");
    OneNote(event, r.key, if to.Some? then G.Recovered(to.value) else G.Escalated);
  }

  /** When the record of a recovery under this epoch is refused. */
  predicate CannotRecord(w: World, e: nat)
    reads w.store
  {
    w.Full() || e > MAX_CANONICAL_INT
  }

  /** The row is no longer this epoch's to end, or no longer pending as it was read. */
  predicate Lost(record: CommitRecord, g: G.Gate, e: nat) {
    Gone(g, e) || (record.state.Pending? && Overtaken(g, e))
  }

  /** What a recovery under this epoch reports is so: nothing, only because it could not be
      recorded; a settling outcome, because the row is in that state; a lost epoch, because
      the row is someone else's; and an escalation is the last thing that was recorded. */
  ghost predicate Honest(w: World, me: P.Actor, record: CommitRecord, e: nat, done: Option<Outcome>)
    reads w, w.store
  {
    && (done.None? ==> CannotRecord(w, e))
    && (done.Some? ==> Told(done.value, w.At(record.key)))
    && (done == Some(LostEpoch) ==> Lost(record, w.At(record.key), e))
    && (done == Some(DidEscalate) ==> CannotRecord(w, e) || Escalated(w, me, record.key))
  }

  ghost predicate Escalated(w: World, me: P.Actor, key: Key)
    reads w
  {
    w.history != [] && w.history[|w.history| - 1] == G.Event(me, key, G.Escalate)
  }

  // ----- Finishing a row -----

  /** The terminal write of a recovery, with its record in the same transaction. */
  method FinalizeRecovered(w: World, me: P.Actor, record: CommitRecord, ghost start: Log, e: nat,
                           ghost phase: P.Phase, ghost dk: Option<string>, target: LedgerState,
                           outcome: Outcome, result: Value, reason: string)
    returns (written: S.Written)
    requires w.Valid() && w.Worked(me, record.key, start)
    requires Owns(me, w.At(record.key), e, phase, dk) && target.Terminal()
    requires P.MayFinalize(w.gp.commit, Guar(w.At(record.key)), phase, target, result)
    modifies w, w.store
    ensures w.Valid() && w.Worked(me, record.key, start) && w.Grew(old(w.Rows()), 1)
    ensures written.Matched? ==> EndedIn(w.At(record.key), target, result)
    ensures w.calm ==> w.At(record.key).run == old(w.At(record.key)).run
    ensures w.calm ==> ErrorOf(w.At(record.key)) == ErrorOf(old(w.At(record.key)))
    ensures w.calm && CanEnd(old(w.At(record.key)), e, target) ==> !written.Fenced?
    ensures written.Raised? ==> CannotRecord(w, e)
    ensures written.Fenced? ==> Gone(w.At(record.key), e)
  {
    ReconcileEventIsWritable(record, outcome, e, Some(target), reason);
    ReconcileEventSays(record, outcome, e, Some(target), reason);
    written := w.Finalize(me, record.key, start, e, phase, dk, target, result, Some(G.Recovered(target)),
                          [ReconcileEvent(record, outcome, e, Some(target), reason)]);
  }

  /** What a terminal write lets a recovery report: its outcome, or that a third actor owns
      the row now; nothing when the store raised. */
  function Reported(written: S.Written, outcome: Outcome): Option<Outcome> {
    match written case Matched => Some(outcome) case Fenced => Some(LostEpoch) case Raised => None
  }

  /** The terminal write, and what it lets the recovery report. */
  method FinishAs(w: World, me: P.Actor, record: CommitRecord, ghost start: Log, e: nat, ghost phase: P.Phase,
                  ghost dk: Option<string>, outcome: Outcome, result: Value, reason: string)
    returns (done: Option<Outcome>)
    requires w.Valid() && w.Worked(me, record.key, start)
    requires Owns(me, w.At(record.key), e, phase, dk) && Settles(outcome).Some?
    requires P.MayFinalize(w.gp.commit, Guar(w.At(record.key)), phase, Settles(outcome).value, result)
    modifies w, w.store
    ensures w.Valid() && w.Worked(me, record.key, start) && w.Grew(old(w.Rows()), 1)
    ensures Honest(w, me, record, e, done) && (done.Some? ==> done.value == outcome || done.value == LostEpoch)
    ensures done == Some(outcome) ==> EndedIn(w.At(record.key), Settles(outcome).value, result)
    ensures w.calm ==> w.At(record.key).run == old(w.At(record.key)).run
    ensures w.calm ==> ErrorOf(w.At(record.key)) == ErrorOf(old(w.At(record.key)))
    ensures w.calm && CanEnd(old(w.At(record.key)), e, Settles(outcome).value) ==> done != Some(LostEpoch)
  {
    var written := FinalizeRecovered(w, me, record, start, e, phase, dk, Settles(outcome).value, outcome, result,
                                     reason);
    done := Reported(written, outcome);
  }

  /** Evidence first, then the terminal state. */
  method Settle(w: World, me: P.Actor, record: CommitRecord, ghost start: Log, e: nat, ghost phase: P.Phase,
                ghost dk: Option<string>, outcome: Outcome, result: Value, evidence: Value, reason: string)
    returns (done: Option<Outcome>)
    requires w.Valid() && w.Worked(me, record.key, start)
    requires Owns(me, w.At(record.key), e, phase, dk) && Settles(outcome).Some?
    requires P.MayFinalize(w.gp.commit, Guar(w.At(record.key)), phase, Settles(outcome).value, result)
    modifies w, w.store
    ensures w.Valid() && w.Worked(me, record.key, start) && w.Grew(old(w.Rows()), 1)
    ensures Honest(w, me, record, e, done) && (done.Some? ==> done.value == outcome || done.value == LostEpoch)
    ensures done == Some(outcome) ==> EndedIn(w.At(record.key), Settles(outcome).value, result)
    ensures w.calm ==> w.At(record.key).run == old(w.At(record.key)).run
    ensures w.calm && CanEnd(old(w.At(record.key)), e, Settles(outcome).value) ==>
              done != Some(LostEpoch) && ErrorOf(w.At(record.key)) == evidence
  {
    w.NoteError(me, record.key, start, e, phase, dk, evidence);
    done := FinishAs(w, me, record, start, e, phase, dk, outcome, result, reason);
  }

  /** The evidence and the loud record of a row left as it is. */
  method LeaveEscalated(w: World, me: P.Actor, record: CommitRecord, ghost start: Log, e: nat,
                        ghost phase: P.Phase, ghost dk: Option<string>, evidence: Value, reason: string)
    returns (recorded: bool)
    requires w.Valid() && w.Worked(me, record.key, start)
    requires Owns(me, w.At(record.key), e, phase, dk)
    modifies w, w.store
    ensures w.Valid() && w.Worked(me, record.key, start) && w.Grew(old(w.Rows()), 1)
    ensures if recorded then Escalated(w, me, record.key) else CannotRecord(w, e)
    ensures w.calm ==> Row(w.At(record.key)) == Noted(Row(old(w.At(record.key))).value, e, evidence)
                       && w.At(record.key).run == old(w.At(record.key)).run
  {
    w.NoteError(me, record.key, start, e, phase, dk, evidence);
    ReconcileEventIsWritable(record, DidEscalate, e, None, reason);
    ReconcileEventSays(record, DidEscalate, e, None, reason);
    recorded := w.Escalate(me, record.key, start, [ReconcileEvent(record, DidEscalate, e, None, reason)]);
  }

  // ----- A fresh attempt -----

  /** The fresh attempt returned: verify it if there is a probe, then finish. */
  method FinishReexecute(w: World, me: P.Actor, record: CommitRecord, ghost start: Log, e: nat, value: Value,
                         verify: bool)
    returns (done: Option<Outcome>)
    requires w.Valid() && w.Worked(me, record.key, start)
    requires Owns(me, w.At(record.key), e, P.Returned(value), record.downstreamKey)
    requires w.gp.commit.steady && Guar(w.At(record.key)).Verifiable? ==> verify
    modifies w, w.store
    ensures w.Valid() && w.Worked(me, record.key, start) && w.Grew(old(w.Rows()), 1)
    ensures Honest(w, me, record, e, done) && (done.Some? ==> Ran(done.value) || done.value.LostEpoch?)
    ensures w.calm && Sits(old(w.At(record.key)), e, Executing) ==>
              Ended(done) && w.At(record.key).run == old(w.At(record.key)).run
  {
    if verify {
      done := VerifyFresh(w, me, record, start, e, value);
    } else {
      done := CommitRetried(w, me, record, start, e, P.Returned(value), value);
    }
  }

  method VerifyFresh(w: World, me: P.Actor, record: CommitRecord, ghost start: Log, e: nat, value: Value)
    returns (done: Option<Outcome>)
    requires w.Valid() && w.Worked(me, record.key, start)
    requires Owns(me, w.At(record.key), e, P.Returned(value), record.downstreamKey)
    modifies w, w.store
    ensures w.Valid() && w.Worked(me, record.key, start) && w.Grew(old(w.Rows()), 1)
    ensures Honest(w, me, record, e, done) && (done.Some? ==> Ran(done.value) || done.value.LostEpoch?)
    ensures w.calm && Sits(old(w.At(record.key)), e, Executing) ==>
              Ended(done) && w.At(record.key).run == old(w.At(record.key)).run
  {
    var answer, evidence := w.PostVerify(me, record.key, start, e, record.downstreamKey, value);
    match answer {
      case Present =>
        done := CommitRetried(w, me, record, start, e, P.Confirmed(value), value);
      case Absent =>
        done := FailFresh(w, me, record, start, e, evidence);
      case Unproven =>
        var recorded := LeaveEscalated(w, me, record, start, e, P.Over, record.downstreamKey, evidence,
                                       "post-verify answered unknown");
        done := Some(DidEscalate);
    }
  }

  method FailFresh(w: World, me: P.Actor, record: CommitRecord, ghost start: Log, e: nat, evidence: Value)
    returns (done: Option<Outcome>)
    requires w.Valid() && w.Worked(me, record.key, start)
    requires Owns(me, w.At(record.key), e, P.Refuted, record.downstreamKey)
    modifies w, w.store
    ensures w.Valid() && w.Worked(me, record.key, start) && w.Grew(old(w.Rows()), 1)
    ensures Honest(w, me, record, e, done) && (done.Some? ==> done.value.DidFail? || done.value.LostEpoch?)
    ensures w.calm && Sits(old(w.At(record.key)), e, Executing) ==>
              Ended(done) && w.At(record.key).run == old(w.At(record.key)).run
  {
    w.NoteError(me, record.key, start, e, P.Refuted, record.downstreamKey, evidence);
    done := Settle(w, me, record, start, e, P.Refuted, record.downstreamKey, DidFail, Null, evidence,
                   "fresh attempt proved absent");
  }

  method CommitRetried(w: World, me: P.Actor, record: CommitRecord, ghost start: Log, e: nat,
                       ghost phase: P.Phase, value: Value)
    returns (done: Option<Outcome>)
    requires w.Valid() && w.Worked(me, record.key, start)
    requires Owns(me, w.At(record.key), e, phase, record.downstreamKey)
    requires P.MayFinalize(w.gp.commit, Guar(w.At(record.key)), phase, Committed, value)
    modifies w, w.store
    ensures w.Valid() && w.Worked(me, record.key, start) && w.Grew(old(w.Rows()), 1)
    ensures Honest(w, me, record, e, done) && (done.Some? ==> done.value.DidRetry? || done.value.LostEpoch?)
    ensures w.calm && Sits(old(w.At(record.key)), e, Executing) ==>
              Ended(done) && w.At(record.key).run == old(w.At(record.key)).run
  {
    done := FinishAs(w, me, record, start, e, phase, record.downstreamKey, DidRetry, value, "re-executed and committed");
  }

  /** How far a recovery whose preconditions held has got: a row read pending is still to
      be marked. */
  function Ready(record: CommitRecord): P.Phase {
    if record.state.Pending? then P.Vetted else P.Rearmed
  }

  /** A pending row is marked first, under the epoch of the takeover. */
  method MarkForRetry(w: World, me: P.Actor, record: CommitRecord, ghost start: Log, e: nat)
    returns (ready: bool, ghost at: P.Phase)
    requires w.Valid() && w.Worked(me, record.key, start)
    requires Owns(me, w.At(record.key), e, Ready(record), record.downstreamKey)
    requires SameAction(record, Row(w.At(record.key)).value)
    modifies w, w.store
    ensures w.Valid() && w.Worked(me, record.key, start) && w.Grew(old(w.Rows()), 0)
    ensures !ready ==> record.state.Pending? && Overtaken(w.At(record.key), e)
    ensures ready ==>
              Owns(me, w.At(record.key), e, at, record.downstreamKey) && SameAction(record, Row(w.At(record.key)).value)
                      && P.MayExecute(at)
    ensures w.calm && Sits(old(w.At(record.key)), e, record.state) && record.state.InFlight() ==>
              ready && Sits(w.At(record.key), e, Executing) && w.At(record.key).run == old(w.At(record.key)).run
  {
    if !record.state.Pending? {
      return true, P.Rearmed;
    }
    ready := w.Mark(me, record.key, start, e, record.downstreamKey);
    at := P.Marked;
  }

  /** Runs the execute path again under the epoch of the takeover. */
  method Reexecute(w: World, me: P.Actor, record: CommitRecord, ghost start: Log, e: nat, registration: Registration)
    returns (done: Option<Outcome>)
    requires w.Valid() && w.Worked(me, record.key, start)
    requires Owns(me, w.At(record.key), e, Ready(record), record.downstreamKey)
    requires SameAction(record, Row(w.At(record.key)).value)
    requires w.gp.commit.steady ==> registration.effect.Guarantee() == record.guarantee
    modifies w, w.store
    ensures w.Valid() && w.Worked(me, record.key, start) && w.Grew(old(w.Rows()), 1)
    ensures Honest(w, me, record, e, done) && (done.Some? ==> Ran(done.value) || done.value.LostEpoch?)
    ensures w.calm && Sits(old(w.At(record.key)), e, record.state) && record.state.InFlight() ==>
              Ended(done) && w.At(record.key).run == old(w.At(record.key)).run
  {
    var ready;
    ghost var at;
    ready, at := MarkForRetry(w, me, record, start, e);
    if !ready {
      return Some(LostEpoch);
    }
    done := RunAgain(w, me, record, start, e, at, registration);
  }

  /** The fresh call, with no time limit of its own. */
  method RunAgain(w: World, me: P.Actor, record: CommitRecord, ghost start: Log, e: nat, ghost at: P.Phase,
                  registration: Registration)
    returns (done: Option<Outcome>)
    requires w.Valid() && w.Worked(me, record.key, start)
    requires Owns(me, w.At(record.key), e, at, record.downstreamKey) && P.MayExecute(at)
    requires SameAction(record, Row(w.At(record.key)).value)
    requires w.gp.commit.steady ==> registration.effect.Guarantee() == record.guarantee
    modifies w, w.store
    ensures w.Valid() && w.Worked(me, record.key, start) && w.Grew(old(w.Rows()), 1)
    ensures Honest(w, me, record, e, done) && (done.Some? ==> Ran(done.value) || done.value.LostEpoch?)
    ensures w.calm && Sits(old(w.At(record.key)), e, Executing) ==>
              Ended(done) && w.At(record.key).run == old(w.At(record.key)).run
  {
    var run := w.Execute(me, record.key, start, e, at, record.downstreamKey, false);
    if !run.Gave? {
      var recorded := LeaveEscalated(w, me, record, start, e, P.Adrift, record.downstreamKey,
                                     Str("reconcile_reexecute"), "re-execute raised");
      return Some(DidEscalate);
    }
    done := FinishReexecute(w, me, record, start, e, run.value, registration.effect.verify);
  }

  function Asked(registration: Registration): Preconditions {
    if registration.hasPreconditions then Coerced else Unconditional
  }

  // ----- The four recoveries -----

  /** The outcome's state may be entered from where the row is. */
  predicate Endable(g: G.Gate, e: nat, outcome: Outcome)
    requires Settles(outcome).Some?
  {
    CanEnd(g, e, Settles(outcome).value)
  }

  /** Asks the preconditions again: if they hold the effect is run again, otherwise the row
      is settled as the caller says. */
  method RerunIfHeld(w: World, me: P.Actor, record: CommitRecord, ghost start: Log, e: nat,
                     ghost phase: P.Phase, otherwise: Outcome, why: string, registration: Registration)
    returns (done: Option<Outcome>, held: bool)
    requires w.Valid() && w.Worked(me, record.key, start) && record.state.InFlight()
    requires Owns(me, w.At(record.key), e, phase, record.downstreamKey)
    requires P.MayVet(record.guarantee, phase) && P.NextPhase(phase, P.PreconditionsHeld) == Ready(record)
    requires otherwise == (if phase == P.Took(Executing) then DidUnknown else DidAbort)
    requires SameAction(record, Row(w.At(record.key)).value)
    requires w.gp.commit.steady ==> registration.effect.Guarantee() == record.guarantee
    modifies w, w.store
    ensures w.Valid() && w.Worked(me, record.key, start) && w.Grew(old(w.Rows()), 1)
    ensures Honest(w, me, record, e, done)
    ensures done.Some? ==> done.value.LostEpoch? || if held then Ran(done.value) else done.value == otherwise
    ensures !registration.hasPreconditions ==> held
    ensures w.calm && Sits(old(w.At(record.key)), e, record.state) && Endable(old(w.At(record.key)), e, otherwise) ==>
              Ended(done) && w.At(record.key).run == old(w.At(record.key)).run
  {
    var said := w.Vet(me, record.key, start, e, phase, record.downstreamKey, Asked(registration));
    held := said.Held?;
    if held {
      done := Reexecute(w, me, record, start, e, registration);
    } else {
      done := Settle(w, me, record, start, e, phase, record.downstreamKey, otherwise, Null, Str(why),
                     "preconditions do not hold");
    }
  }

  /** Pending, or executing and proved absent: abort, or retry if preconditions still hold. */
  method RecoverEffectFree(w: World, me: P.Actor, record: CommitRecord, ghost start: Log, e: nat,
                           ghost phase: P.Phase, onAbsent: OnAbsent, registration: Registration)
    returns (done: Option<Outcome>, held: Option<bool>)
    requires w.Valid() && w.Worked(me, record.key, start) && record.state.InFlight()
    requires Owns(me, w.At(record.key), e, phase, record.downstreamKey)
    requires if record.state.Pending? then phase == P.Took(Pending) else phase.Cleared?
    requires SameAction(record, Row(w.At(record.key)).value)
    requires w.gp.commit.steady ==> registration.effect.Guarantee() == record.guarantee
    modifies w, w.store
    ensures w.Valid() && w.Worked(me, record.key, start) && w.Grew(old(w.Rows()), 1)
    ensures Honest(w, me, record, e, done)
    ensures done.Some? ==> EffectFree(onAbsent, held, done.value) || done.value.LostEpoch?
    ensures !registration.hasPreconditions ==> held != Some(false)
    ensures w.calm && Sits(old(w.At(record.key)), e, record.state) ==>
              Ended(done) && w.At(record.key).run == old(w.At(record.key)).run
  {
    if onAbsent.Abort? {
      done := Settle(w, me, record, start, e, phase, record.downstreamKey, DidAbort, Null, Str("aborted"), "abort");
      return done, None;
    }
    var again;
    done, again := RerunIfHeld(w, me, record, start, e, phase, DidAbort, "preconditions_violated_on_retry",
                               registration);
    held := Some(again);
  }

  /** Executing and verifiable: probe first. */
  method RecoverVerifiable(w: World, me: P.Actor, record: CommitRecord, ghost start: Log, e: nat,
                           onAbsent: OnAbsent, registration: Registration)
    returns (done: Option<Outcome>, f: Findings)
    requires w.Valid() && w.Worked(me, record.key, start) && record.state.Executing? && record.guarantee.Verifiable?
    requires Owns(me, w.At(record.key), e, P.Took(Executing), record.downstreamKey)
    requires SameAction(record, Row(w.At(record.key)).value)
    requires w.gp.commit.steady ==> registration.effect.Guarantee() == record.guarantee
    modifies w, w.store
    ensures w.Valid() && w.Worked(me, record.key, start) && w.Grew(old(w.Rows()), 1)
    ensures Honest(w, me, record, e, done) && (done.Some? ==> InTable(record, onAbsent, f, done.value))
    ensures FoundBy(registration, f)
    ensures w.calm && registration.effect.verify ==> f.probe == Some(Actual(old(w.At(record.key))))
    ensures w.calm && registration.effect.verify && Sits(old(w.At(record.key)), e, Executing) ==>
              Ended(done) && w.At(record.key).run == old(w.At(record.key)).run
  {
    var answer, evidence := w.Probe(me, record.key, start, e, record.downstreamKey, registration.effect.verify);
    var held;
    done, held := RecoverProbed(w, me, record, start, e, answer, evidence, onAbsent, registration);
    f := Findings(Some(answer), held);
  }

  /** What the answer of the probe calls for. */
  method RecoverProbed(w: World, me: P.Actor, record: CommitRecord, ghost start: Log, e: nat,
                       answer: Verification, evidence: Value, onAbsent: OnAbsent, registration: Registration)
    returns (done: Option<Outcome>, held: Option<bool>)
    requires w.Valid() && w.Worked(me, record.key, start) && record.state.Executing?
    requires Owns(me, w.At(record.key), e, P.NextPhase(P.Took(Executing), P.ProbeSaid(answer, evidence)),
                  record.downstreamKey)
    requires SameAction(record, Row(w.At(record.key)).value)
    requires w.gp.commit.steady ==> registration.effect.Guarantee() == record.guarantee
    modifies w, w.store
    ensures w.Valid() && w.Worked(me, record.key, start) && w.Grew(old(w.Rows()), 1)
    ensures Honest(w, me, record, e, done)
    ensures done.Some? ==> AfterProbe(answer, onAbsent, held, done.value) || done.value.LostEpoch?
    ensures !registration.hasPreconditions ==> held != Some(false)
    ensures w.calm && !answer.Unproven? && Sits(old(w.At(record.key)), e, Executing) ==>
              Ended(done) && w.At(record.key).run == old(w.At(record.key)).run
  {
    held := None;
    match answer {
      case Present =>
        done := Settle(w, me, record, start, e, P.SawPresent(evidence), record.downstreamKey, DidCommit, evidence,
                       Str("present"), "probe confirmed");
      case Absent =>
        done, held := RecoverEffectFree(w, me, record, start, e, P.Cleared, onAbsent, registration);
      case Unproven =>
        var recorded := LeaveEscalated(w, me, record, start, e, P.Over, record.downstreamKey, evidence,
                                       "verify answered unknown");
        done := Some(DidEscalate);
    }
  }

  /** Preconditions that do not exist hold, and a probe that does not exist knows nothing. */
  predicate FoundBy(registration: Registration, f: Findings) {
    && (!registration.hasPreconditions ==> f.held != Some(false))
    && (!registration.effect.verify && f.probe.Some? ==> f.probe.value.Unproven?)
  }

  /** Executing under a downstream key: issue the stored key again, unless the world changed. */
  method RecoverDownstreamIdempotent(w: World, me: P.Actor, record: CommitRecord, ghost start: Log, e: nat,
                                     registration: Registration)
    returns (done: Option<Outcome>, held: bool)
    requires w.Valid() && w.Worked(me, record.key, start) && record.state.Executing?
    requires record.guarantee.DownstreamIdempotent?
    requires Owns(me, w.At(record.key), e, P.Took(Executing), record.downstreamKey)
    requires SameAction(record, Row(w.At(record.key)).value)
    requires w.gp.commit.steady ==> registration.effect.Guarantee() == record.guarantee
    modifies w, w.store
    ensures w.Valid() && w.Worked(me, record.key, start) && w.Grew(old(w.Rows()), 1)
    ensures Honest(w, me, record, e, done)
    ensures done.Some? ==> done.value.LostEpoch? || if held then Ran(done.value) else done.value.DidUnknown?
    ensures !registration.hasPreconditions ==> held
    ensures w.calm && Sits(old(w.At(record.key)), e, Executing) ==>
              Ended(done) && w.At(record.key).run == old(w.At(record.key)).run
  {
    done, held := RerunIfHeld(w, me, record, start, e, P.Took(Executing), DidUnknown,
                              "preconditions_violated_downstream_idempotent", registration);
  }

  /** Executing and unverifiable: unknown for good, and never executed again. */
  method RecoverNone(w: World, me: P.Actor, record: CommitRecord, ghost start: Log, e: nat)
    returns (done: Option<Outcome>)
    requires w.Valid() && w.Worked(me, record.key, start) && record.state.Executing? && record.guarantee.AtMostOnce?
    requires Owns(me, w.At(record.key), e, P.Took(Executing), record.downstreamKey)
    requires SameAction(record, Row(w.At(record.key)).value)
    modifies w, w.store
    ensures w.Valid() && w.Worked(me, record.key, start) && w.Grew(old(w.Rows()), 1)
    ensures Honest(w, me, record, e, done) && (done.Some? ==> done.value.DidUnknown? || done.value.LostEpoch?)
    ensures w.calm && Sits(old(w.At(record.key)), e, Executing) ==>
              Ended(done) && w.At(record.key).run == old(w.At(record.key)).run
  {
    done := Settle(w, me, record, start, e, P.Took(Executing), record.downstreamKey, DidUnknown, Null,
                   Str("at_most_once_no_probe"), "guarantee none, never retried");
  }

  // ----- One row -----

  /** What the recovery table says for one row after its takeover. */
  method Recover(w: World, me: P.Actor, record: CommitRecord, ghost start: Log, e: nat, onAbsent: OnAbsent,
                 registration: Registration)
    returns (done: Option<Outcome>, f: Findings)
    requires w.Valid() && w.Worked(me, record.key, start) && record.state.InFlight()
    requires Owns(me, w.At(record.key), e, P.Took(record.state), record.downstreamKey)
    requires SameAction(record, Row(w.At(record.key)).value)
    requires w.gp.commit.steady ==> registration.effect.Guarantee() == record.guarantee
    modifies w, w.store
    ensures w.Valid() && w.Worked(me, record.key, start) && w.Grew(old(w.Rows()), 1)
    ensures Honest(w, me, record, e, done) && (done.Some? ==> InTable(record, onAbsent, f, done.value))
    ensures FoundBy(registration, f)
    ensures w.calm && registration.effect.verify && f.probe.Some? ==> f.probe.value == Actual(old(w.At(record.key)))
    ensures w.calm && Sits(old(w.At(record.key)), e, record.state) && Provable(record, registration) ==>
              Ended(done) && w.At(record.key).run == old(w.At(record.key)).run
  {
    f := NOTHING_ASKED;
    if record.state.Pending? {
      var held;
      done, held := RecoverEffectFree(w, me, record, start, e, P.Took(Pending), onAbsent, registration);
      f := Findings(None, held);
    } else {
      match record.guarantee {
        case Verifiable => done, f := RecoverVerifiable(w, me, record, start, e, onAbsent, registration);
        case DownstreamIdempotent =>
          var held;
          done, held := RecoverDownstreamIdempotent(w, me, record, start, e, registration);
          f := Findings(None, Some(held));
        case AtMostOnce => done := RecoverNone(w, me, record, start, e);
      }
    }
  }

  /** The takeover and the recovery of one row; a row someone else resolved or took
      meanwhile is skipped. */
  method TakeOver(w: World, me: P.Actor, record: CommitRecord, ghost start: Log, olderThan: int,
                  onAbsent: OnAbsent, registration: Registration)
    returns (done: Option<Outcome>, epoch: Option<nat>, f: Findings)
    requires w.Valid() && w.Worked(me, record.key, start)
    requires HasRead(me, w.At(record.key), record) && w.gp.commit.window <= olderThan
    requires w.gp.commit.steady ==> registration.effect.Guarantee() == record.guarantee
    modifies w, w.store
    ensures w.Valid() && w.Worked(me, record.key, start) && w.Grew(old(w.Rows()), 1)
    ensures if epoch.None? then done == Some(DidSkip) && !StaleNow(w.At(record.key), old(w.store.now) - olderThan)
            else Honest(w, me, record, epoch.value, done) && (done.Some? ==> InTable(record, onAbsent, f, done.value))
    ensures w.calm && Row(old(w.At(record.key))) == Some(record) && epoch.Some? ==> epoch.value == record.attempts + 1
    ensures done.None? ==> w.Jammed(record.key)
    ensures FoundBy(registration, f)
    ensures w.calm && registration.effect.verify && f.probe.Some? ==> f.probe.value == Actual(old(w.At(record.key)))
    ensures w.calm && Row(old(w.At(record.key))) == Some(record) && S.Stale(record, old(w.store.now) - olderThan)
            && Provable(record, registration) ==>
              Ended(done) && w.At(record.key).run == old(w.At(record.key)).run
  {
    ghost var before;
    epoch, before := w.Bump(me, record.key, start, olderThan, record);
    if epoch.None? {
      return Some(DidSkip), None, NOTHING_ASKED;
    }
    ghost var h := w.history;
    done, f := Recover(w, me, record, h, epoch.value, onAbsent, registration);
    WorksTwice(me, record.key, w.calm, start, h, w.history);
    GoesOn(w.gp, h, w.history, record.key);
  }

  /** The row can be taken over. */
  predicate StaleNow(g: G.Gate, cutoff: Time) {
    Row(g).Some? && S.Stale(Row(g).value, cutoff)
  }

  predicate Provable(record: CommitRecord, registration: Registration) {
    record.guarantee.Verifiable? ==> registration.effect.verify
  }

  /** An action of the report: what it says of the row, and why. Nothing is done for an
      action type this process does not know. */
  predicate Accounts(a: ReconcileAction, record: CommitRecord, onAbsent: OnAbsent, registry: Registry, f: Findings) {
    && a == ActionOn(record, a.outcome, a.epoch)
    && if record.actionType !in registry then a.outcome.NotRegistered?
       else FoundBy(registry[record.actionType], f)
            && if a.epoch.None? then a.outcome.DidSkip? else InTable(record, onAbsent, f, a.outcome)
  }

  /** Takes one stale row over and recovers it. */
  method ReconcileRow(w: World, me: P.Actor, record: CommitRecord, ghost start: Log, olderThan: int,
                      onAbsent: OnAbsent, registry: Registry, report: ReconcileReport)
    returns (raised: bool, ghost action: ReconcileAction, f: Findings)
    requires w.Valid() && w.Worked(me, record.key, start) && report.Tallied()
    requires HasRead(me, w.At(record.key), record) && w.gp.commit.window <= olderThan && Declares(w, registry)
    modifies w, w.store, report
    ensures w.Valid() && w.Worked(me, record.key, start) && report.Tallied() && w.Grew(old(w.Rows()), 1)
    ensures report.actions == if raised then old(report.actions) else old(report.actions) + [action]
    ensures !raised ==> Accounts(action, record, onAbsent, registry, f) && Told(action.outcome, w.At(record.key))
    ensures !raised && record.actionType in registry ==>
              if action.epoch.None? then !StaleNow(w.At(record.key), old(w.store.now) - olderThan)
              else Honest(w, me, record, action.epoch.value, Some(action.outcome))
    ensures raised ==> w.Jammed(record.key)
    ensures raised && w.calm && Row(old(w.At(record.key))) == Some(record) ==> CannotRecord(w, record.attempts + 1)
    ensures record.actionType !in registry ==> !raised && w.history == old(w.history)
    ensures w.calm && Recoverable(old(w.At(record.key)), record, registry, old(w.store.now) - olderThan) ==>
              && (raised || Settles(action.outcome).Some?)
              && (f.probe.Some? && registry[record.actionType].effect.verify ==>
                    f.probe.value == Actual(old(w.At(record.key))))
              && w.At(record.key).run == old(w.At(record.key)).run
  {
    f := NOTHING_ASKED;
    if record.actionType !in registry {
      action := ActionOn(record, NotRegistered, None);
      report.Record(ActionOn(record, NotRegistered, None));
      return false, action, f;
    }
    RegisteredAsClaimed(w, record, registry);
    action := ActionOn(record, DidSkip, None);
    var done, epoch;
    done, epoch, f := TakeOver(w, me, record, start, olderThan, onAbsent, registry[record.actionType]);
    raised := done.None?;
    if !raised {
      action := ActionOn(record, done.value, epoch);
      report.Record(ActionOn(record, done.value, epoch));
    }
  }

  /** The action follows from something the recovery may have found out. */
  ghost predicate Explained(a: ReconcileAction, record: CommitRecord, onAbsent: OnAbsent, registry: Registry) {
    exists f :: Accounts(a, record, onAbsent, registry, f)
  }

  /** In a steady world the registry still declares what the rows were claimed under. */
  ghost predicate Declares(w: World, registry: Registry) {
    w.gp.commit.steady ==>
      forall a :: a in registry ==> a in w.declared && registry[a].effect.Guarantee() == w.declared[a]
  }

  lemma RegisteredAsClaimed(w: World, record: CommitRecord, registry: Registry)
    requires w.Valid() && Declares(w, registry) && record.actionType in registry
    requires Row(w.At(record.key)).Some? && SameAction(record, Row(w.At(record.key)).value)
    ensures w.gp.commit.steady ==> registry[record.actionType].effect.Guarantee() == record.guarantee
  {
    w.Open();
    assert Steady(w.gp, w.declared, w.At(record.key));
  }

  /** The row is as it was read, stale, and this process knows its action and its probe. */
  predicate Recoverable(g: G.Gate, record: CommitRecord, registry: Registry, cutoff: Time) {
    && Row(g) == Some(record) && S.Stale(record, cutoff)
    && record.actionType in registry
    && Provable(record, registry[record.actionType])
  }

  // ----- One key, for a caller that lost to it -----

  /** A stale row of an action this process knows, with its probe. */
  predicate RecoverableRow(g: G.Gate, registry: Registry, cutoff: Time) {
    Row(g).Some? && Recoverable(g, Row(g).value, registry, cutoff)
  }

  datatype KeyResult = NothingToDo | Did(action: ReconcileAction) | KeyRaised | BadWindow

  /** The targeted recovery a caller that lost to a stale row runs itself. `record` is the
      row as it was read. */
  method ReconcileKey(w: World, me: P.Actor, key: Key, ghost start: Log, olderThan: int, onAbsent: OnAbsent,
                      executeTimeout: Option<int>, registry: Registry)
    returns (r: KeyResult, ghost record: Option<CommitRecord>)
    requires w.Valid() && w.Worked(me, key, start) && w.gp.commit.window <= olderThan && Declares(w, registry)
    modifies w, w.store
    ensures w.Valid() && w.Worked(me, key, start) && w.Grew(old(w.Rows()), 1) && old(w.history) <= w.history
    ensures r.BadWindow? <==> !WindowOk(olderThan, executeTimeout)
    ensures r.BadWindow? ==> w.history == old(w.history)
    ensures r.NothingToDo? ==> Row(w.At(key)) == record && (record.None? || record.value.state.Terminal())
    ensures r.KeyRaised? ==> w.Jammed(key)
    ensures r.Did? ==> record.Some? && record.value.key == key && record.value.state.InFlight()
                       && r.action.key == key && Explained(r.action, record.value, onAbsent, registry)
                       && Told(r.action.outcome, w.At(key))
    ensures w.calm && !r.BadWindow? ==> record == Row(old(w.At(key)))
    ensures w.calm && (Row(old(w.At(key))).None? || G.Settled(old(w.At(key)))) ==>
              Row(w.At(key)) == Row(old(w.At(key))) && w.At(key).run == old(w.At(key)).run
    ensures w.calm && RecoverableRow(old(w.At(key)), registry, old(w.store.now) - olderThan) ==>
              (r.Did? ==> G.Settled(w.At(key))) && w.At(key).run == old(w.At(key)).run
  {
    record := None;
    if !WindowOk(olderThan, executeTimeout) {
      return BadWindow, record;
    }
    ghost var h := w.history;
    var loaded := w.LoadForRecovery(me, key, h);
    record := loaded;
    if loaded.None? || !loaded.value.state.InFlight() {
      r := NothingToDo;
    } else {
      KeyedRight(w.gp, w.history, key);
      r := ReconcileLoaded(w, me, loaded.value, h, olderThan, onAbsent, registry);
    }
    WorksTwice(me, key, w.calm, start, h, w.history);
  }

  method ReconcileLoaded(w: World, me: P.Actor, record: CommitRecord, ghost start: Log, olderThan: int,
                         onAbsent: OnAbsent, registry: Registry)
    returns (r: KeyResult)
    requires w.Valid() && w.Worked(me, record.key, start)
    requires HasRead(me, w.At(record.key), record) && w.gp.commit.window <= olderThan && Declares(w, registry)
    modifies w, w.store
    ensures w.Valid() && w.Worked(me, record.key, start) && w.Grew(old(w.Rows()), 1)
    ensures r.Did? || (r.KeyRaised? && w.Jammed(record.key))
    ensures r.Did? ==> r.action.key == record.key && Explained(r.action, record, onAbsent, registry)
                       && Told(r.action.outcome, w.At(record.key))
    ensures w.calm && Recoverable(old(w.At(record.key)), record, registry, old(w.store.now) - olderThan) ==>
              (r.Did? ==> Settles(r.action.outcome).Some?) && w.At(record.key).run == old(w.At(record.key)).run
  {
    var report := new Report<ReconcileAction, Outcome>((a: ReconcileAction) => a.outcome);
    var raised, f;
    ghost var action;
    raised, action, f := ReconcileRow(w, me, record, start, olderThan, onAbsent, registry, report);
    r := if raised then KeyRaised else Did(report.actions[0]);
  }
}
