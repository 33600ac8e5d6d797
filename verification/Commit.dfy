/** `commit_once`: claim, check, mark, execute, verify, finalize; or, for a caller that lost
    the claim or its epoch, the outcome someone else reaches. */
module Commit {
  import opened Json
  import opened Types
  import opened Canonical
  import opened Audit
  import opened Effects
  import P = Protocol
  import G = Gate
  import L = Ledger
  import S = Store
  import opened History
  import opened Moves
  import opened World
  import opened Evidence
  import R = Recovery

  /** `polls` is how many polls fit in the wait timeout. */
  datatype Options = Options(
    wait: bool, polls: nat, reconcileAfter: Option<int>, onAbsent: R.OnAbsent, executeTimeout: Option<int>,
    eventContext: bool)

  /** A call of one action, with what its losing paths need for targeted recovery. */
  datatype Call = Call(action: string, effect: Effect, preconditions: Preconditions, options: Options)

  datatype Refusal =
    | BadOptions | Uncanonical | BrokenMapKey | ActionMismatch
    | PreconditionsRaised | StaysUnknown | WaitTimedOut | ExecuteTimedOut | ExecuteFailed | StoreRaised

  datatype CommitResult = Returned(outcome: CommitOutcome) | Refused(why: Refusal)

  /** The timeout only means something below the age at which a row is taken over. */
  predicate OptionsOk(o: Options) {
    o.executeTimeout.Some? ==>
      0 < o.executeTimeout.value && o.reconcileAfter.Some? && o.executeTimeout.value < o.reconcileAfter.value
  }

  function OwnRegistry(c: Call): Registry {
    map[c.action := Registration(c.effect, !c.preconditions.Unconditional?)]
  }

  /** The world this call runs in: a steady one knows its action, recovery waits at least
      the window, and a key whose finalizations are recorded is finalized with its record. */
  ghost predicate Fits(w: World, key: Key, c: Call) {
    && (w.gp.commit.steady ==> c.action in w.declared && c.effect.Guarantee() == w.declared[c.action])
    && (c.options.reconcileAfter.Some? ==> w.gp.commit.window <= c.options.reconcileAfter.value)
    && (w.gp.recorded(key) ==> c.options.eventContext)
  }

  /** And its options were accepted. */
  ghost predicate Underway(w: World, key: Key, c: Call) {
    Fits(w, key, c) && OptionsOk(c.options)
  }

  /** The outcome every caller agrees on: the frozen terminal row's. */
  predicate Agreed(r: CommitResult, g: G.Gate) {
    r.Returned? ==> G.Settled(g) && r.outcome == OutcomeFrom(Row(g).value)
  }

  /** This actor holds the first epoch and got this far with it. */
  predicate Owner(me: P.Actor, g: G.Gate, phase: P.Phase) {
    P.Holds(g.led.cell, me, 1) && g.led.cell.tickets[1].phase == phase
  }

  /** Why a call that got past its checks did not return: a precondition of its raised, its
      execute raised or overran or its probe could not tell, and the row is left at that; or
      it waited in vain for a row that is there; or a record it needs was refused. */
  ghost predicate Explains(w: World, me: P.Actor, key: Key, c: Call, r: CommitResult)
    reads w, w.store
  {
    var g := w.At(key);
    && (r == Refused(PreconditionsRaised) ==> c.preconditions.Raw? && Owner(me, g, P.Won))
    && (r == Refused(StaysUnknown) ==> c.effect.verify && Owner(me, g, P.Over))
    && (r == Refused(ExecuteFailed) ==> Owner(me, g, P.Adrift))
    && (r == Refused(ExecuteTimedOut) ==> c.options.executeTimeout.Some? && Owner(me, g, P.Adrift))
    && (r == Refused(WaitTimedOut) ==> Row(g).Some? && (w.calm ==> !G.Settled(g)))
    && (r == Refused(StoreRaised) ==> w.Jammed(key))
    && (r.Refused? ==> AfterClaim(r.why))
  }

  predicate AfterClaim(why: Refusal) {
    why.PreconditionsRaised? || why.StaysUnknown? || why.ExecuteFailed? || why.ExecuteTimedOut? || why.WaitTimedOut?
    || why.StoreRaised?
  }

  /** The call returned, or the chain has no room for its record. */
  predicate Concluded(w: World, r: CommitResult)
    reads w.store
  {
    r.Returned? || (r == Refused(StoreRaised) && w.Full())
  }

  // ----- A caller that does not own the row -----

  /** The row is stale enough for this caller to recover it. */
  predicate InReach(g: G.Gate, c: Call, now: Time) {
    c.options.reconcileAfter.Some? && R.RecoverableRow(g, OwnRegistry(c), now - c.options.reconcileAfter.value)
  }

  /** Recovery run by a caller that does not own the row, if the row is stale. */
  method TryInlineReconcile(w: World, me: P.Actor, key: Key, ghost start: Log, c: Call)
    returns (r: Option<CommitResult>)
    requires w.Valid() && w.Worked(me, key, start) && Underway(w, key, c)
    modifies w, w.store
    ensures w.Valid() && w.Worked(me, key, start) && w.Grew(old(w.Rows()), 1) && old(w.history) <= w.history
    ensures r.Some? ==>
              Agreed(r.value, w.At(key)) && (r.value.Returned? || (r.value == Refused(StoreRaised) && w.Jammed(key)))
    ensures c.options.reconcileAfter.None? ==> r.None? && w.history == old(w.history)
    ensures w.calm && r.None? && !G.Settled(old(w.At(key))) ==> !G.Settled(w.At(key))
    ensures w.calm && InReach(old(w.At(key)), c, old(w.store.now)) ==> r.Some?
  {
    if c.options.reconcileAfter.None? {
      return None;
    }
    ghost var h := w.history;
    var done;
    ghost var record;
    done, record := R.ReconcileKey(w, me, key, h, c.options.reconcileAfter.value, c.options.onAbsent,
                                   c.options.executeTimeout, OwnRegistry(c));
    WorksTwice(me, key, w.calm, start, h, w.history);
    match done {
      case NothingToDo => return None;
      case KeyRaised => return Some(Refused(StoreRaised));
      case BadWindow => return Some(Refused(BadOptions));
      case Did(_) => r := OutcomeIfThere(w, me, key, start);
    }
  }

  /** The outcome of the row, if it is terminal. */
  method OutcomeIfThere(w: World, me: P.Actor, key: Key, ghost start: Log) returns (r: Option<CommitResult>)
    requires w.Valid() && w.Worked(me, key, start)
    modifies w, w.store
    ensures w.Valid() && w.Worked(me, key, start) && w.Grew(old(w.Rows()), 0)
    ensures Undisturbed(me, old(w.history), w.history) && Later(old(w.At(key)), w.At(key))
    ensures r.Some? <==> G.Settled(w.At(key))
    ensures r.Some? ==> r.value.Returned? && Agreed(r.value, w.At(key))
    ensures w.calm ==> Still(old(w.At(key)), w.At(key)) && old(w.store.now) <= w.store.now
  {
    var record := w.Peek(me, key, start);
    if record.None? || !record.value.state.Terminal() {
      return None;
    }
    r := Some(Returned(OutcomeFrom(record.value)));
  }

  /** Resolves a row this call does not own: its outcome if it has one, recovery if it is
      stale, or waiting. It never executes blindly, and over a terminal row it writes nothing. */
  method AwaitTerminal(w: World, me: P.Actor, key: Key, ghost start: Log, c: Call) returns (r: CommitResult)
    requires w.Valid() && w.Worked(me, key, start) && Underway(w, key, c) && Row(w.At(key)).Some?
    modifies w, w.store
    ensures w.Valid() && w.Worked(me, key, start) && w.Grew(old(w.Rows()), c.options.polls + 1)
    ensures Agreed(r, w.At(key)) && Explains(w, me, key, c, r)
    ensures r.Returned? || r == Refused(WaitTimedOut) || r == Refused(StoreRaised)
    ensures G.Settled(old(w.At(key))) ==> r.Returned? && Undisturbed(me, old(w.history), w.history)
    ensures w.calm && InReach(old(w.At(key)), c, old(w.store.now)) ==> r != Refused(WaitTimedOut)
  {
    var outcome := OutcomeIfThere(w, me, key, start);
    if outcome.Some? {
      return outcome.value;
    }
    ghost var h := w.history;
    var recovered := TryInlineReconcile(w, me, key, start, c);
    GoesOn(w.gp, h, w.history, key);
    if recovered.Some? {
      return recovered.value;
    }
    if !c.options.wait {
      return Refused(WaitTimedOut);
    }
    r := PollForOutcome(w, me, key, start, c);
  }

  /** The polls of a waiting loser, each with an attempt to recover the row. */
  method PollForOutcome(w: World, me: P.Actor, key: Key, ghost start: Log, c: Call) returns (r: CommitResult)
    requires w.Valid() && w.Worked(me, key, start) && Underway(w, key, c) && Row(w.At(key)).Some?
    requires w.calm ==> !G.Settled(w.At(key))
    modifies w, w.store
    ensures w.Valid() && w.Worked(me, key, start) && w.Grew(old(w.Rows()), c.options.polls)
    ensures Agreed(r, w.At(key)) && Explains(w, me, key, c, r)
    ensures r.Returned? || r == Refused(WaitTimedOut) || r == Refused(StoreRaised)
  {
    for i := 0 to c.options.polls
      invariant w.Valid() && w.Worked(me, key, start) && Row(w.At(key)).Some?
      invariant w.Grew(old(w.Rows()), i) && (w.calm ==> !G.Settled(w.At(key)))
    {
      var outcome := OutcomeIfThere(w, me, key, start);
      if outcome.Some? {
        return outcome.value;
      }
      ghost var h := w.history;
      outcome := TryInlineReconcile(w, me, key, start, c);
      GoesOn(w.gp, h, w.history, key);
      if outcome.Some? {
        return outcome.value;
      }
    }
    r := Refused(WaitTimedOut);
  }

  // ----- The owner -----

  /** The terminal write of the owner, with its audit record in the same transaction. Without
      a record nothing can refuse it. */
  method FinalizeCall(w: World, me: P.Actor, key: Key, ghost start: Log, c: Call, ghost phase: P.Phase,
                      ghost dk: Option<string>, target: LedgerState, result: Value)
    returns (written: S.Written)
    requires w.Valid() && w.Worked(me, key, start) && Underway(w, key, c)
    requires Owns(me, w.At(key), 1, phase, dk) && target.Terminal()
    requires Guar(w.At(key)) == c.effect.Guarantee()
    requires P.MayFinalize(w.gp.commit, c.effect.Guarantee(), phase, target, result)
    modifies w, w.store
    ensures w.Valid() && w.Worked(me, key, start) && w.Grew(old(w.Rows()), 1)
    ensures Row(w.At(key)).Some? && Guar(w.At(key)) == c.effect.Guarantee()
    ensures written.Matched? ==> EndedIn(w.At(key), target, result)
    ensures written.Fenced? ==> Gone(w.At(key), 1)
    ensures written.Raised? ==> c.options.eventContext && w.Full()
    ensures w.calm ==> w.At(key).run == old(w.At(key)).run
    ensures w.calm && CanEnd(old(w.At(key)), 1, target) ==> !written.Fenced?
  {
    ActionEventSays(key, c, target);
    ActionEventIsWritable(key, c, target);
    written := w.Finalize(me, key, start, 1, phase, dk, target, result, RecordOf(c, target), AuditOf(key, c, target));
  }

  /** The owner's last step. When its epoch was taken over, the outcome is whatever the new
      owner reaches. */
  method Conclude(w: World, me: P.Actor, key: Key, ghost start: Log, c: Call, ghost phase: P.Phase,
                  ghost dk: Option<string>, target: LedgerState, result: Value)
    returns (r: CommitResult)
    requires w.Valid() && w.Worked(me, key, start) && Underway(w, key, c)
    requires Owns(me, w.At(key), 1, phase, dk) && target.Terminal()
    requires Guar(w.At(key)) == c.effect.Guarantee()
    requires P.MayFinalize(w.gp.commit, c.effect.Guarantee(), phase, target, result)
    modifies w, w.store
    ensures w.Valid() && w.Worked(me, key, start) && w.Grew(old(w.Rows()), c.options.polls + 2)
    ensures Agreed(r, w.At(key)) && Explains(w, me, key, c, r)
    ensures w.calm && CanEnd(old(w.At(key)), 1, target) ==>
              Concluded(w, r) && w.At(key).run == old(w.At(key)).run
              && (r.Returned? ==> r.outcome.state == target && r.outcome.result == result)
  {
    var written := FinalizeCall(w, me, key, start, c, phase, dk, target, result);
    match written {
      case Matched =>
        KeyedRight(w.gp, w.history, key);
        r := Returned(CommitOutcome(key, target, c.effect.Guarantee(), result));
      case Raised =>
        r := Refused(StoreRaised);
      case Fenced =>
        r := AwaitTerminal(w, me, key, start, c);
    }
  }

  /** The terminal record of a guarded call. */
  function ActionEvent(key: Key, c: Call, target: LedgerState): AuditEvent {
    AuditEvent("action_event", None, Some(c.action),
      PyDict([Audit.Entry("idempotency_key", PlainText(key)), Audit.Entry("outcome", PlainText(StateName(target))),
              Audit.Entry("guarantee", PlainText(R.GuaranteeName(c.effect.Guarantee())))]),
      None)
  }

  /** A guarded call carries its record, any other call none. */
  function AuditOf(key: Key, c: Call, target: LedgerState): seq<AuditEvent> {
    if c.options.eventContext then [ActionEvent(key, c, target)] else []
  }

  function RecordOf(c: Call, target: LedgerState): Option<G.Notice> {
    if c.options.eventContext then Some(G.Outcome(target)) else None
  }

  lemma ActionEventSays(key: Key, c: Call, target: LedgerState)
    ensures EventNotes(AuditOf(key, c, target)) == About(key, Listed(RecordOf(c, target)))
  {
    var event := ActionEvent(key, c, target);
    NamesReadBack(target, Proposed);
    FieldAt(event.payload.entries, 1, "outcome");
    OneNote(event, key, G.Outcome(target));
  }

  lemma ActionEventIsWritable(key: Key, c: Call, target: LedgerState)
    ensures S.Writable(AuditOf(key, c, target)) && |AuditOf(key, c, target)| <= 1
  {
    var entries := ActionEvent(key, c, target).payload.entries;
    assert PermittedEntry(entries[0]) && PermittedEntry(entries[1]) && PermittedEntry(entries[2]);
    assert Permitted(ActionEvent(key, c, target).payload);
  }

  /** The probe found no effect: evidence first, then failed. */
  method ConcludeFailed(w: World, me: P.Actor, key: Key, ghost start: Log, c: Call, ghost dk: Option<string>,
                        evidence: Value)
    returns (r: CommitResult)
    requires w.Valid() && w.Worked(me, key, start) && Underway(w, key, c)
    requires Owns(me, w.At(key), 1, P.Refuted, dk) && Guar(w.At(key)) == c.effect.Guarantee()
    modifies w, w.store
    ensures w.Valid() && w.Worked(me, key, start) && w.Grew(old(w.Rows()), c.options.polls + 2)
    ensures Agreed(r, w.At(key)) && Explains(w, me, key, c, r)
    ensures w.calm && Sits(old(w.At(key)), 1, Executing) ==>
              Concluded(w, r) && w.At(key).run == old(w.At(key)).run
              && (r.Returned? ==> r.outcome.state.Failed?)
  {
    w.NoteError(me, key, start, 1, P.Refuted, dk, evidence);
    r := Conclude(w, me, key, start, c, P.Refuted, dk, Failed, Null);
  }

  /** After execute returned: the probe decides, if there is one. */
  method AfterExecute(w: World, me: P.Actor, key: Key, ghost start: Log, c: Call, ghost dk: Option<string>,
                      result: Value)
    returns (r: CommitResult)
    requires w.Valid() && w.Worked(me, key, start) && Underway(w, key, c)
    requires Owns(me, w.At(key), 1, P.Returned(result), dk) && Guar(w.At(key)) == c.effect.Guarantee()
    modifies w, w.store
    ensures w.Valid() && w.Worked(me, key, start) && w.Grew(old(w.Rows()), c.options.polls + 2)
    ensures Agreed(r, w.At(key)) && Explains(w, me, key, c, r)
    ensures w.calm && Sits(old(w.At(key)), 1, Executing) ==>
              Concluded(w, r) && w.At(key).run == old(w.At(key)).run
              && (r.Returned? ==> AsVerified(c, old(w.At(key)), r.outcome, result))
  {
    if !c.effect.verify {
      r := Conclude(w, me, key, start, c, P.Returned(result), dk, Committed, result);
      return;
    }
    var answer, evidence := w.PostVerify(me, key, start, 1, dk, result);
    match answer {
      case Present =>
        r := Conclude(w, me, key, start, c, P.Confirmed(result), dk, Committed, result);
      case Absent =>
        r := ConcludeFailed(w, me, key, start, c, dk, evidence);
      case Unproven =>
        w.NoteError(me, key, start, 1, P.Over, dk, evidence);
        r := Refused(StaysUnknown);
    }
  }

  /** Failed if the probe finds no effect, else committed with what execute returned. */
  predicate AsVerified(c: Call, g: G.Gate, o: CommitOutcome, result: Value) {
    if c.effect.verify && Actual(g).Absent? then o.state.Failed? else o.state.Committed? && o.result == result
  }

  /** What the winner of a claim does. */
  method RunAsOwner(w: World, me: P.Actor, key: Key, ghost start: Log, c: Call, dk: Option<string>)
    returns (r: CommitResult, said: Precheck)
    requires w.Valid() && w.Worked(me, key, start) && Underway(w, key, c)
    requires Owns(me, w.At(key), 1, P.Won, dk) && Guar(w.At(key)) == c.effect.Guarantee()
    modifies w, w.store
    ensures w.Valid() && w.Worked(me, key, start) && w.Grew(old(w.Rows()), c.options.polls + 2)
    ensures Agreed(r, w.At(key)) && Explains(w, me, key, c, r)
    ensures (c.preconditions.Unconditional? ==> said.Held?)
    ensures (said.Threw? ==> c.preconditions.Raw? && r == Refused(PreconditionsRaised))
    ensures w.calm && Sits(old(w.At(key)), 1, Pending) && !said.Threw? ==>
              Concluded(w, r) && w.At(key).run == old(w.At(key)).run
              && (r.Returned? ==> AsChecked(said, r.outcome.state))
  {
    said := w.Vet(me, key, start, 1, P.Won, dk, c.preconditions);
    match said {
      case Threw =>
        r := Refused(PreconditionsRaised);
      case NotHeld =>
        r := Conclude(w, me, key, start, c, P.Won, dk, Aborted, Null);
      case Held =>
        r := MarkAndRun(w, me, key, start, c, dk);
    }
  }

  /** Aborted exactly when the preconditions did not hold. */
  predicate AsChecked(said: Precheck, state: LedgerState) {
    if said.Held? then state.Committed? || state.Failed? else state.Aborted?
  }

  /** The durable marker, and then the effect. */
  method MarkAndRun(w: World, me: P.Actor, key: Key, ghost start: Log, c: Call, dk: Option<string>)
    returns (r: CommitResult)
    requires w.Valid() && w.Worked(me, key, start) && Underway(w, key, c)
    requires Owns(me, w.At(key), 1, P.Vetted, dk) && Guar(w.At(key)) == c.effect.Guarantee()
    modifies w, w.store
    ensures w.Valid() && w.Worked(me, key, start) && w.Grew(old(w.Rows()), c.options.polls + 2)
    ensures Agreed(r, w.At(key)) && Explains(w, me, key, c, r)
    ensures w.calm && Sits(old(w.At(key)), 1, Pending) ==>
              Concluded(w, r) && w.At(key).run == old(w.At(key)).run
              && (r.Returned? ==> r.outcome.state.Committed? || r.outcome.state.Failed?)
  {
    var won := w.Mark(me, key, start, 1, dk);
    if !won {
      r := AwaitTerminal(w, me, key, start, c);
      return;
    }
    var run := w.Execute(me, key, start, 1, P.Marked, dk, c.options.executeTimeout.Some?);
    match run {
      case Gave(result) =>
        r := AfterExecute(w, me, key, start, c, dk, result);
      case Broke(error) =>
        w.NoteError(me, key, start, 1, P.Adrift, dk, error);
        r := Refused(ExecuteFailed);
      case Overran =>
        w.NoteError(me, key, start, 1, P.Adrift, dk, Str("ExecuteTimeout"));
        r := Refused(ExecuteTimedOut);
    }
  }

  /** In which order a call is checked. */
  ghost function EarlyRefusal(c: Call, key: Key, args: PyObject): Option<Refusal> {
    if !OptionsOk(c.options) then Some(BadOptions)
    else if !Permitted(args) then Some(Uncanonical)
    else if c.effect.DownstreamKeyFor(key).BrokenMap? then Some(BrokenMapKey)
    else None
  }

  /** What is checked before the key is claimed: nothing has happened when this refuses. */
  method Prepare(key: Key, c: Call, args: PyObject)
    returns (refused: Option<Refusal>, stored: Value, downstream: Option<string>)
    ensures refused == EarlyRefusal(c, key, args)
    ensures refused.None? ==> Check(args) == Good(stored) && c.effect.DownstreamKeyFor(key) == Sent(downstream)
    ensures refused.None? <==> Startable(c, key, args)
  {
    refused, stored, downstream := None, Null, None;
    CheckAcceptsPermitted(args);
    if !OptionsOk(c.options) {
      return Some(BadOptions), Null, None;
    }
    match Check(args) {
      case Bad(_) => return Some(Uncanonical), Null, None;
      case Good(value) => stored := value;
    }
    match c.effect.DownstreamKeyFor(key) {
      case BrokenMap => refused := Some(BrokenMapKey);
      case Sent(k) => downstream := k;
    }
  }

  /** Whatever path a call takes -- winner, duplicate, waiting loser, inline reconciler,
      fenced owner -- if it returns, its outcome is the frozen terminal row's. */
  method CommitOnce(w: World, me: P.Actor, key: Key, ghost start: Log, c: Call, args: PyObject)
    returns (r: CommitResult)
    requires w.Valid() && w.Worked(me, key, start) && Fits(w, key, c)
    requires w.gp.gated(key) ==> MayClaim(w.At(key), c.action)
    modifies w, w.store
    ensures w.Valid() && w.Worked(me, key, start) && w.Grew(old(w.Rows()), c.options.polls + 2)
    ensures Agreed(r, w.At(key)) && Accounted(w, me, key, c, args, r)
    ensures !Startable(c, key, args) ==> w.history == old(w.history)
    ensures r.Returned? ==> Row(w.At(key)).value.actionType == c.action
    ensures Startable(c, key, args) && G.Settled(old(w.At(key))) ==> r.Returned? || Mismatched(r, w.At(key), c)
    ensures w.calm && Startable(c, key, args) && InReach(old(w.At(key)), c, old(w.store.now)) ==>
              r != Refused(WaitTimedOut)
    ensures w.calm && !c.preconditions.Raw? && Startable(c, key, args) && Resumable(old(w.At(key)), c) ==>
              Concluded(w, r) && w.At(key).run == old(w.At(key)).run
              && (Row(old(w.At(key))).None? && c.preconditions.Unconditional? && r.Returned? ==>
                    r.outcome.state.Committed? || r.outcome.state.Failed?)
  {
    var refused, stored, downstream := Prepare(key, c, args);
    if refused.Some? {
      return Refused(refused.value);
    }
    r := ClaimAndProceed(w, me, key, start, c, stored, downstream);
  }

  /** The claim decides who runs and who waits. */
  method ClaimAndProceed(w: World, me: P.Actor, key: Key, ghost start: Log, c: Call, stored: Value, dk: Option<string>)
    returns (r: CommitResult)
    requires w.Valid() && w.Worked(me, key, start) && Underway(w, key, c) && P.KeyFits(c.effect.Guarantee(), dk)
    requires w.gp.gated(key) ==> MayClaim(w.At(key), c.action)
    modifies w, w.store
    ensures w.Valid() && w.Worked(me, key, start) && w.Grew(old(w.Rows()), c.options.polls + 2)
    ensures Agreed(r, w.At(key)) && (Explains(w, me, key, c, r) || Mismatched(r, w.At(key), c))
    ensures r.Returned? ==> Row(w.At(key)).value.actionType == c.action
    ensures G.Settled(old(w.At(key))) ==> r.Returned? || Mismatched(r, w.At(key), c)
    ensures w.calm && InReach(old(w.At(key)), c, old(w.store.now)) ==> r != Refused(WaitTimedOut)
    ensures w.calm && !c.preconditions.Raw? && Resumable(old(w.At(key)), c) ==>
              && Concluded(w, r) && w.At(key).run == old(w.At(key)).run
              && (Row(old(w.At(key))).None? && c.preconditions.Unconditional? && r.Returned? ==>
                    r.outcome.state.Committed? || r.outcome.state.Failed?)
  {
    var won, record := w.Claim(me, key, start, c.action, c.effect.Guarantee(), stored, dk);
    if !won && record.actionType != c.action {
      return Refused(ActionMismatch);
    }
    if record.state.Terminal() {
      return Returned(OutcomeFrom(record));
    }
    r := Proceed(w, me, key, start, c, won, dk);
  }

  /** After the claim: the winner owns the row, anyone else waits for its end. */
  method Proceed(w: World, me: P.Actor, key: Key, ghost start: Log, c: Call, won: bool, dk: Option<string>)
    returns (r: CommitResult)
    requires w.Valid() && w.Worked(me, key, start) && Underway(w, key, c) && Row(w.At(key)).Some?
    requires won ==> Owns(me, w.At(key), 1, P.Won, dk) && Guar(w.At(key)) == c.effect.Guarantee()
    modifies w, w.store
    ensures w.Valid() && w.Worked(me, key, start) && w.Grew(old(w.Rows()), c.options.polls + 2)
    ensures Agreed(r, w.At(key)) && Explains(w, me, key, c, r)
    ensures Row(w.At(key)).Some? && Row(w.At(key)).value.actionType == Row(old(w.At(key))).value.actionType
    ensures w.calm && !won && InReach(old(w.At(key)), c, old(w.store.now)) ==> r != Refused(WaitTimedOut)
    ensures w.calm && won && !c.preconditions.Raw? && Sits(old(w.At(key)), 1, Pending) ==>
              && Concluded(w, r) && w.At(key).run == old(w.At(key)).run
              && (c.preconditions.Unconditional? && r.Returned? ==> r.outcome.state.Committed? || r.outcome.state.Failed?)
  {
    ghost var h := w.history;
    if won {
      var said;
      r, said := RunAsOwner(w, me, key, h, c, dk);
    } else {
      r := AwaitTerminal(w, me, key, h, c);
    }
    WorksTwice(me, key, w.calm, start, h, w.history);
    GoesOn(w.gp, h, w.history, key);
  }

  /** The key belongs to another action. */
  predicate Mismatched(r: CommitResult, g: G.Gate, c: Call) {
    r == Refused(ActionMismatch) && Row(g).Some? && Row(g).value.actionType != c.action
  }

  /** A call is refused for the first check it fails; past its checks, for one of the reasons
      there are. */
  ghost predicate Accounted(w: World, me: P.Actor, key: Key, c: Call, args: PyObject, r: CommitResult)
    reads w, w.store
  {
    && (Startable(c, key, args) <==> EarlyRefusal(c, key, args).None?)
    && if Startable(c, key, args) then Explains(w, me, key, c, r) || Mismatched(r, w.At(key), c)
       else r == Refused(EarlyRefusal(c, key, args).value)
  }

  predicate Startable(c: Call, key: Key, args: PyObject) {
    OptionsOk(c.options) && Check(args).Good? && c.effect.DownstreamKeyFor(key).Sent?
  }

  /** Nobody claimed the key, or it is already settled. */
  predicate Resumable(g: G.Gate, c: Call) {
    Row(g).Some? ==> Row(g).value.state.Terminal() && Row(g).value.actionType == c.action
  }
}
