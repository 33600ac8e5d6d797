/** What each operation of the code does to the one key it names, for an actor that holds
    an epoch of it. */
module Moves {
  import opened Json
  import opened Types
  import P = Protocol
  import G = Gate
  import L = Ledger
  import opened Fencing
  import Runs

  /** The actor holds this epoch, got this far with it, and was given this downstream key. */
  predicate Owns(me: P.Actor, g: G.Gate, e: nat, phase: P.Phase, dk: Option<string>) {
    && P.Holds(g.led.cell, me, e)
    && g.led.cell.tickets[e].phase == phase
    && g.led.cell.tickets[e].downstreamKey == dk
  }

  /** The actor read this row, in flight, ahead of a takeover. */
  predicate HasRead(me: P.Actor, g: G.Gate, record: CommitRecord) {
    && g.led.cell.row.Some? && me in g.led.cell.readings && g.led.cell.readings[me].record == record
    && record.state.InFlight() && SameAction(record, g.led.cell.row.value)
  }

  /** The key is claimed by driving its approved run. */
  predicate MayClaim(g: G.Gate, action: string) {
    g.verdict == Some(Approve) && g.run.Some? && g.run.value.actionType == action
  }

  function Row(g: G.Gate): Option<CommitRecord> {
    g.led.cell.row
  }

  function Guar(g: G.Gate): Guarantee
    requires Row(g).Some?
  {
    Row(g).value.guarantee
  }

  function Ev(me: P.Actor, key: Key, op: P.Op): G.Event {
    G.Event(me, key, G.Commit(op, None))
  }

  lemma ClaimMove(gp: G.Params, g: G.Gate, me: P.Actor, key: Key, op: P.Op)
    requires op.Claim? && P.KeyFits(op.guarantee, op.downstreamKey) && op.stamp <= g.led.now && Epochs(g.led)
    requires gp.gated ==> MayClaim(g, op.action)
    ensures var g' := G.Apply(gp, g, Ev(me, key, op));
            && (Row(g).Some? ==> g' == g)
            && (Row(g).None? ==>
                  && Row(g') == Some(L.Inserted(key, op.action, op.guarantee, op.args, op.downstreamKey, op.stamp))
                  && Owns(me, g', 1, P.Won, op.downstreamKey))
            && g'.run == g.run && g'.trail == g.trail
  {
  }

  lemma LoadMove(gp: G.Params, g: G.Gate, me: P.Actor, key: Key)
    requires Row(g).Some? && Row(g).value.state.InFlight()
    ensures var g' := G.Apply(gp, g, Ev(me, key, P.Load));
            HasRead(me, g', Row(g).value) && Row(g') == Row(g) && g'.run == g.run && g'.trail == g.trail
  {
  }

  lemma BumpMove(gp: G.Params, g: G.Gate, me: P.Actor, key: Key, olderThan: int, stamp: Time, record: CommitRecord)
    requires HasRead(me, g, record) && gp.commit.window <= olderThan && stamp <= g.led.now
    ensures var g' := G.Apply(gp, g, Ev(me, key, P.Bump(olderThan, stamp)));
            var bumped := L.Bumped(Row(g).value, olderThan, stamp);
            && Row(g') == (if bumped.Some? then bumped else Row(g))
            && (bumped.Some? ==> Owns(me, g', Row(g).value.attempts + 1, P.Took(record.state), record.downstreamKey))
            && g'.led.cell.effects == g.led.cell.effects
            && g'.run == g.run && g'.trail == g.trail
  {
  }

  lemma MarkMove(gp: G.Params, g: G.Gate, me: P.Actor, key: Key, e: nat, stamp: Time, dk: Option<string>)
    requires Owns(me, g, e, P.Vetted, dk) && stamp <= g.led.now
    ensures var g' := G.Apply(gp, g, Ev(me, key, P.Mark(e, stamp)));
            var marked := L.Marked(Row(g).value, e, stamp);
            && Row(g') == (if marked.Some? then marked else Row(g))
            && Owns(me, g', e, if marked.Some? then P.Marked else P.Over, dk)
            && g'.run == g.run && g'.trail == g.trail
  {
  }

  lemma BeginMove(gp: G.Params, g: G.Gate, me: P.Actor, key: Key, e: nat, phase: P.Phase, dk: Option<string>)
    requires Owns(me, g, e, phase, dk) && P.MayExecute(phase)
    ensures var g' := G.Apply(gp, g, Ev(me, key, P.Begin(e)));
            && Owns(me, g', e, P.Calling, dk) && Row(g') == Row(g) && g'.run == g.run && g'.trail == g.trail
            && g'.led.cell.sent == g.led.cell.sent + [dk]
  {
  }

  lemma LandMove(gp: G.Params, g: G.Gate, me: P.Actor, key: Key, e: nat, dk: Option<string>)
    requires Owns(me, g, e, P.Calling, dk)
    requires G.Legal(gp, g, me, G.Commit(P.Land(e), None))
    ensures var g' := G.Apply(gp, g, Ev(me, key, P.Land(e)));
            Owns(me, g', e, P.Calling, dk) && Row(g') == Row(g) && g'.run == g.run && g'.trail == g.trail
  {
  }

  lemma LearnMove(gp: G.Params, g: G.Gate, me: P.Actor, key: Key, e: nat, phase: P.Phase, dk: Option<string>,
                  news: P.News)
    requires Owns(me, g, e, phase, dk) && P.MayLearn(gp.commit, g.led.cell, phase, news)
    ensures var g' := G.Apply(gp, g, Ev(me, key, P.Learn(e, news)));
            Owns(me, g', e, P.NextPhase(phase, news), dk) && Row(g') == Row(g) && g'.run == g.run && g'.trail == g.trail
  {
  }

  lemma NoteMove(gp: G.Params, g: G.Gate, me: P.Actor, key: Key, e: nat, phase: P.Phase, dk: Option<string>,
                 error: Value)
    requires Owns(me, g, e, phase, dk)
    ensures var g' := G.Apply(gp, g, Ev(me, key, P.NoteError(e, error)));
            var noted := L.WithError(Row(g).value, e, error);
            && Row(g') == (if noted.Some? then noted else Row(g))
            && Owns(me, g', e, phase, dk) && g'.run == g.run && g'.trail == g.trail
  {
  }

  lemma FinalizeMove(gp: G.Params, g: G.Gate, me: P.Actor, key: Key, e: nat, phase: P.Phase, dk: Option<string>,
                     target: LedgerState, result: Value, record: Option<G.Notice>)
    requires Owns(me, g, e, phase, dk) && P.MayFinalize(gp.commit, Guar(g), phase, target, result)
    requires G.Recordable(gp.recorded, target, record)
    ensures var g' := G.Apply(gp, g, G.Event(me, key, G.Commit(P.Finalize(e, target, result), record)));
            var final := L.Finalized(Row(g).value, e, target, result, g.led.now);
            && Row(g') == (if final.Some? then final else Row(g))
            && Owns(me, g', e, P.Over, dk) && g'.run == g.run
            && g'.trail == g.trail + (if final.Some? && record.Some? then [record.value] else [])
  {
  }

  lemma EscalateMove(gp: G.Params, g: G.Gate, me: P.Actor, key: Key)
    requires Row(g).Some?
    ensures var g' := G.Apply(gp, g, G.Event(me, key, G.Escalate));
            g'.led == g.led && g'.run == g.run && g'.trail == g.trail + [G.Escalated]
  {
  }

  // ----- The pause -----

  lemma ProposeMove(gp: G.Params, g: G.Gate, me: P.Actor, key: Key, ref: string, action: string,
                    args: Option<Value>, version: nat)
    ensures var g' := G.Apply(gp, g, G.Event(me, key, G.Propose(ref, action, args, version)));
            && g'.led == g.led
            && g'.run == (if g.run.Some? then g.run else Some(L.Paused(ref, key, action, args, version, g.led.now)))
            && g'.trail == if g.run.Some? then g.trail else g.trail + [G.Edge(None, Proposed)]
  {
  }

  lemma AssignMove(gp: G.Params, g: G.Gate, me: P.Actor, key: Key, id: string)
    ensures var g' := G.Apply(gp, g, G.Event(me, key, G.AssignId(id)));
            && g'.led == g.led && g'.trail == g.trail
            && g'.run == (if g.run.Some? then Some(g.run.value.(approvalId := Some(id))) else g.run)
  {
  }

  // ----- The swaps along the status graph -----

  predicate IsSwap(op: G.Op) {
    op.Decide? || op.ResolveApproved? || op.ResolveRejected?
  }

  function FromOf(op: G.Op): PauseStatus
    requires IsSwap(op)
  {
    match op case Decide(_) => Proposed case ResolveApproved(_) => Approved case ResolveRejected => Rejected
  }

  function ToOf(op: G.Op): PauseStatus
    requires IsSwap(op)
  {
    match op case Decide(d) => G.StatusFor(d.decision) case ResolveApproved(to) => to case ResolveRejected => RunAborted
  }

  function DecisionOf(op: G.Op): Option<ApprovalDecision>
    requires IsSwap(op)
  {
    if op.Decide? then Some(op.decision) else None
  }

  /** The records that ride in the transaction of a swap. */
  function NewsOf(op: G.Op): seq<G.Notice>
    requires IsSwap(op)
  {
    if op.ResolveRejected? then [G.Edge(Some(Rejected), RunAborted), G.Outcome(Aborted)]
    else [G.Edge(Some(FromOf(op)), ToOf(op))]
  }

  lemma SwapMove(gp: G.Params, g: G.Gate, me: P.Actor, key: Key, op: G.Op)
    requires IsSwap(op) && G.Legal(gp, g, me, op)
    ensures PauseEdge(FromOf(op), ToOf(op))
    ensures var g' := G.Apply(gp, g, G.Event(me, key, op));
            var moved := L.Transitioned(g.run.value, FromOf(op), ToOf(op), DecisionOf(op), g.led.now);
            && g'.led == g.led
            && g'.run == (if moved.Some? then moved else g.run)
            && g'.trail == (if moved.Some? then g.trail + NewsOf(op) else g.trail)
            && g'.verdict == (if moved.Some? && op.Decide? then Some(op.decision.decision) else g.verdict)
            && (moved.None? ==> g' == g)
  {
  }
}
