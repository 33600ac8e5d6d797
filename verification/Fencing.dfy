/** What every step of the protocol keeps, with no assumption about time or probes. */
module Fencing {
  import opened Json
  import opened Types
  import opened Protocol

  predicate WritesRow(op: Op) {
    op.Claim? || op.Bump? || op.Mark? || op.NoteError? || op.Finalize?
  }

  // ----- Epochs and the frozen terminal row -----

  ghost predicate Epochs(s: Sys) {
    var c := s.cell;
    && (c.row.None? ==> c == EmptyCell)
    && (c.row.Some? ==>
          var r := c.row.value;
          && (forall e :: e in c.tickets <==> 1 <= e <= r.attempts)
          && r.attempts == 1 + c.bumps
          && c.finals == (if r.state.Terminal() then 1 else 0)
          && (r.committedAt.Some? <==> r.state.Committed?)
          && c.tickets[r.attempts].stamp == r.lastAttemptAt
          && (r.state.Terminal() ==> c.tickets[r.attempts].phase.Over?))
    && (forall e :: e in c.tickets ==> c.tickets[e].stamp <= s.now)
    && (forall a :: a in c.readings ==> c.readings[a].at <= s.now && c.readings[a].record.state.InFlight())
  }

  lemma EpochsRow(p: Params, s: Sys, ev: Event)
    requires Epochs(s) && WritesRow(ev.op)
    ensures Epochs(Apply(p, s, ev))
  {
  }

  lemma EpochsStep(p: Params, s: Sys, ev: Event)
    requires Epochs(s)
    ensures Epochs(Apply(p, s, ev))
  {
    if WritesRow(ev.op) { EpochsRow(p, s, ev); }
  }

  predicate WritesUnder(op: Op, e: nat) {
    match op
    case Mark(f, _) => e == f
    case NoteError(f, _) => e == f
    case Finalize(f, _, _) => e == f
    case _ => false
  }

  /** A superseded actor's writes change nothing. */
  lemma Superseded(p: Params, s: Sys, ev: Event, e: nat)
    requires Epochs(s) && s.cell.row.Some? && e != s.cell.row.value.attempts
    requires WritesUnder(ev.op, e)
    ensures Apply(p, s, ev).cell.row == s.cell.row
  {
  }

  // ----- One downstream key -----

  ghost predicate OneKey(s: Sys) {
    var c := s.cell;
    && (c.row.None? ==> c == EmptyCell)
    && (c.row.Some? ==>
          var dk := c.row.value.downstreamKey;
          && KeyFits(c.row.value.guarantee, dk)
          && (forall e :: e in c.tickets ==> c.tickets[e].downstreamKey == dk)
          && (forall a :: a in c.readings ==> SameAction(c.readings[a].record, c.row.value))
          && (forall i :: 0 <= i < |c.sent| ==> c.sent[i] == dk)
          && (forall i :: 0 <= i < |c.effects| ==> c.effects[i] == dk))
  }

  lemma OneKeyRow(p: Params, s: Sys, ev: Event)
    requires OneKey(s) && WritesRow(ev.op)
    ensures OneKey(Apply(p, s, ev))
  {
  }

  lemma OneKeyStep(p: Params, s: Sys, ev: Event)
    requires OneKey(s)
    ensures OneKey(Apply(p, s, ev))
  {
    if WritesRow(ev.op) { OneKeyRow(p, s, ev); }
  }

  // ----- A pending row never started its effect -----

  predicate Idle(phase: Phase) {
    phase.Won? || phase == Took(Pending) || phase.Vetted? || phase.Over?
  }

  ghost predicate PendingIsIdle(s: Sys) {
    var c := s.cell;
    && (c.row.None? ==> c == EmptyCell)
    && (c.row.Some? ==>
          && (c.row.value.state.Pending? ==>
                && c.sent == [] && c.effects == []
                && (forall e :: e in c.tickets ==> Idle(c.tickets[e].phase)))
          && (forall a :: a in c.readings && c.readings[a].record.state.Executing? ==> !c.row.value.state.Pending?)
          && (forall e :: e in c.tickets && c.tickets[e].phase.Won? ==> e == 1)
          && (forall e :: e in c.tickets && c.tickets[e].phase.Took? ==> c.tickets[e].phase.from.InFlight())
          && (forall e :: e in c.tickets && c.tickets[e].phase.Cleared? ==> c.row.value.guarantee.Verifiable?)
          && (forall e :: e in c.tickets && c.tickets[e].phase.Rearmed? ==> !c.row.value.guarantee.AtMostOnce?))
  }

  lemma PendingIsIdleRow(p: Params, s: Sys, ev: Event)
    requires Epochs(s) && PendingIsIdle(s) && WritesRow(ev.op)
    ensures PendingIsIdle(Apply(p, s, ev))
  {
  }

  lemma PendingIsIdleTicket(p: Params, s: Sys, ev: Event)
    requires Epochs(s) && PendingIsIdle(s) && (ev.op.Begin? || ev.op.Land? || ev.op.Learn?)
    ensures PendingIsIdle(Apply(p, s, ev))
  {
  }

  lemma PendingIsIdleStep(p: Params, s: Sys, ev: Event)
    requires Epochs(s) && PendingIsIdle(s)
    ensures PendingIsIdle(Apply(p, s, ev))
  {
    if WritesRow(ev.op) {
      PendingIsIdleRow(p, s, ev);
    } else if ev.op.Begin? || ev.op.Land? || ev.op.Learn? {
      PendingIsIdleTicket(p, s, ev);
    }
  }

  // ----- At most one invocation when nothing can be verified -----

  ghost predicate InvokedOnce(s: Sys) {
    var c := s.cell;
    c.row.Some? && c.row.value.guarantee.AtMostOnce? ==>
      && |c.sent| <= 1
      && (forall e :: e in c.tickets && c.tickets[e].phase.Marked? ==>
            c.sent == [] && forall f :: f in c.tickets && f != e ==> !c.tickets[f].phase.Marked?)
  }

  lemma InvokedOnceRow(p: Params, s: Sys, ev: Event)
    requires Epochs(s) && PendingIsIdle(s) && InvokedOnce(s) && WritesRow(ev.op)
    ensures InvokedOnce(Apply(p, s, ev))
  {
  }

  lemma InvokedOnceTicket(p: Params, s: Sys, ev: Event)
    requires Epochs(s) && PendingIsIdle(s) && InvokedOnce(s) && (ev.op.Begin? || ev.op.Learn?)
    ensures InvokedOnce(Apply(p, s, ev))
  {
  }

  lemma InvokedOnceStep(p: Params, s: Sys, ev: Event)
    requires Epochs(s) && PendingIsIdle(s) && InvokedOnce(s)
    ensures InvokedOnce(Apply(p, s, ev))
  {
    if WritesRow(ev.op) {
      InvokedOnceRow(p, s, ev);
    } else if ev.op.Begin? || ev.op.Learn? {
      InvokedOnceTicket(p, s, ev);
    }
  }

  // ----- Results -----

  /** What a holder was shown, and the result of a committed row, are answers someone got;
      a row that is not committed has no result. */
  ghost predicate Answered(s: Sys) {
    var c := s.cell;
    c.row.Some? ==>
      && (forall e :: e in c.tickets ==> Backed(c.tickets[e].phase, c.answers))
      && (if c.row.value.state.Committed? then c.row.value.result in c.answers else c.row.value.result.Null?)
  }

  predicate Backed(phase: Phase, answers: seq<Value>) {
    match phase
    case SawPresent(v) => v in answers
    case Returned(v) => v in answers
    case Confirmed(v) => v in answers
    case _ => true
  }

  lemma AnsweredRow(p: Params, s: Sys, ev: Event)
    requires Epochs(s) && Answered(s) && WritesRow(ev.op)
    ensures Answered(Apply(p, s, ev))
  {
  }

  lemma AnsweredStep(p: Params, s: Sys, ev: Event)
    requires Epochs(s) && Answered(s)
    ensures Answered(Apply(p, s, ev))
  {
    if WritesRow(ev.op) { AnsweredRow(p, s, ev); }
  }
}
