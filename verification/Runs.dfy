/** The commit protocol's theorems, over every run: any number of owners, losers and
    reconcilers, interleaved in any order, each free to stop anywhere. */
module Runs {
  import opened Json
  import opened Types
  import opened Protocol
  import opened Fencing
  import opened Timing

  function Front(evs: seq<Event>): seq<Event>
    requires evs != []
  {
    evs[..|evs| - 1]
  }

  function Last(evs: seq<Event>): Event
    requires evs != []
  {
    evs[|evs| - 1]
  }

  /** Every effect of the run lands within `d` of its caller's last stamp: the caller
      finished or lost its execute call by then. */
  ghost predicate Punctual(p: Params, evs: seq<Event>, d: int) {
    evs == [] || (Punctual(p, Front(evs), d) && LandsInTime(p, Exec(p, Front(evs)), Last(evs), d))
  }

  /** Every takeover of the run is attempted within `f` of the read it acts on. */
  ghost predicate Timely(p: Params, evs: seq<Event>, f: int) {
    evs == [] || (Timely(p, Front(evs), f) && ReadsInTime(p, Exec(p, Front(evs)), Last(evs), f))
  }

  /** Every claim, mark and takeover of the run stamps the row with a clock it read at most
      `lag` before, having waited that long for the write lock. */
  ghost predicate Prompt(p: Params, evs: seq<Event>, lag: int) {
    evs == [] || (Prompt(p, Front(evs), lag) && StampsInTime(p, Exec(p, Front(evs)), Last(evs), lag))
  }

  ghost predicate Untimed(p: Params, s: Sys) {
    Epochs(s) && OneKey(s) && PendingIsIdle(s) && InvokedOnce(s) && Answered(s) && Overtaken(p, s)
  }

  lemma UntimedStep(p: Params, s: Sys, ev: Event)
    requires Untimed(p, s)
    ensures Untimed(p, Apply(p, s, ev))
  {
    EpochsStep(p, s, ev);
    OneKeyStep(p, s, ev);
    PendingIsIdleStep(p, s, ev);
    InvokedOnceStep(p, s, ev);
    AnsweredStep(p, s, ev);
    OvertakenStep(p, s, ev);
  }

  lemma {:induction false} UntimedRun(p: Params, evs: seq<Event>)
    ensures Untimed(p, Exec(p, evs))
  {
    if evs != [] {
      UntimedRun(p, Front(evs));
      UntimedStep(p, Exec(p, Front(evs)), Last(evs));
    }
  }

  lemma {:induction false} LandsOnceRun(p: Params, evs: seq<Event>, d: int)
    requires p.truthful && d <= p.window && Punctual(p, evs, d)
    ensures LandsOnce(p, Exec(p, evs))
  {
    if evs != [] {
      LandsOnceRun(p, Front(evs), d);
      UntimedRun(p, Front(evs));
      LandsOnceStep(p, Exec(p, Front(evs)), Last(evs), d);
    }
  }

  lemma {:induction false} ReadingsTrackRun(p: Params, evs: seq<Event>, lag: int)
    requires Prompt(p, evs, lag)
    ensures ReadingsTrack(Exec(p, evs), lag)
  {
    if evs != [] {
      ReadingsTrackRun(p, Front(evs), lag);
      UntimedRun(p, Front(evs));
      ReadingsTrackStep(p, Exec(p, Front(evs)), Last(evs), lag);
    }
  }

  lemma {:induction false} LandedSinceReadRun(p: Params, evs: seq<Event>, d: int)
    requires d <= p.window && Punctual(p, evs, d)
    ensures LandedSinceRead(Exec(p, evs), d)
  {
    if evs != [] {
      LandedSinceReadRun(p, Front(evs), d);
      UntimedRun(p, Front(evs));
      LandedSinceReadStep(p, Exec(p, Front(evs)), Last(evs), d);
    }
  }

  function Min(a: int, b: int): int {
    if a <= b then a else b
  }

  /** How far behind the read of a pending row the stamp of an effect can be: a call that
      landed was stamped late by at most the lag, and ended at most `d` after. */
  lemma {:induction false} BothBounds(p: Params, evs: seq<Event>, d: int, lag: int)
    requires d <= p.window && Punctual(p, evs, d) && Prompt(p, evs, lag)
    ensures LandedSinceRead(Exec(p, evs), Min(lag, d))
  {
    UntimedRun(p, evs);
    ReadingsTrackRun(p, evs, lag);
    LandedByLag(Exec(p, evs), lag);
    LandedSinceReadRun(p, evs, d);
  }

  lemma {:induction false} NothingLandedRun(p: Params, evs: seq<Event>, d: int, f: int, lag: int)
    requires d <= p.window && f + Min(lag, d) <= p.window
    requires Punctual(p, evs, d) && Timely(p, evs, f) && Prompt(p, evs, lag)
    ensures NothingLandedYet(Exec(p, evs))
  {
    if evs != [] {
      NothingLandedRun(p, Front(evs), d, f, lag);
      UntimedRun(p, Front(evs));
      BothBounds(p, Front(evs), d, lag);
      NothingLandedYetStep(p, Exec(p, Front(evs)), Last(evs), d, f, Min(lag, d));
    }
  }

  lemma {:induction false} AbortedRun(p: Params, evs: seq<Event>, d: int, f: int, lag: int)
    requires p.truthful && d <= p.window && f + Min(lag, d) <= p.window
    requires Punctual(p, evs, d) && Timely(p, evs, f) && Prompt(p, evs, lag)
    ensures AbortedIsClean(Exec(p, evs))
  {
    if evs != [] {
      AbortedRun(p, Front(evs), d, f, lag);
      UntimedRun(p, Front(evs));
      LandsOnceRun(p, Front(evs), d);
      NothingLandedRun(p, Front(evs), d, f, lag);
      AbortedIsCleanStep(p, Exec(p, Front(evs)), Last(evs), d);
    }
  }

  // ----- Epochs -----

  /** Every epoch up to `attempts` was issued, each to one actor; `attempts` counts the
      takeovers; the row is finalized at most once. */
  lemma {:induction false} EpochsIssuedOnce(p: Params, evs: seq<Event>)
    ensures var c := Exec(p, evs).cell;
            c.row.Some? ==>
              && (forall e :: e in c.tickets <==> 1 <= e <= c.row.value.attempts)
              && c.row.value.attempts == 1 + c.bumps
              && c.finals == (if c.row.value.state.Terminal() then 1 else 0)
  {
    UntimedRun(p, evs);
  }

  ghost predicate Continues(s: Sys, s': Sys) {
    && s.now <= s'.now
    && (forall e :: e in s.cell.tickets ==>
          e in s'.cell.tickets && s'.cell.tickets[e].holder == s.cell.tickets[e].holder)
    && (s.cell.row.Some? ==>
          var r := s.cell.row.value;
          && s'.cell.row.Some?
          && var r' := s'.cell.row.value;
          && SameAction(r, r') && r.attempts <= r'.attempts
          && (r.state.Terminal() ==> r' == r)
          && (r.state.Executing? ==> !r'.state.Pending?))
    && s.cell.sent <= s'.cell.sent && s.cell.effects <= s'.cell.effects && s.cell.answers <= s'.cell.answers
  }

  lemma ContinuesIssue(p: Params, s: Sys, ev: Event)
    requires Epochs(s) && (ev.op.Claim? || ev.op.Bump?)
    ensures Continues(s, Apply(p, s, ev))
  {
  }

  lemma ContinuesFinal(p: Params, s: Sys, ev: Event)
    requires Epochs(s) && ev.op.Finalize?
    ensures Continues(s, Apply(p, s, ev))
  {
  }

  lemma ContinuesRow(p: Params, s: Sys, ev: Event)
    requires Epochs(s) && (ev.op.Mark? || ev.op.NoteError?)
    ensures Continues(s, Apply(p, s, ev))
  {
  }

  lemma ContinuesTicket(p: Params, s: Sys, ev: Event)
    requires Epochs(s) && !WritesRow(ev.op)
    ensures Continues(s, Apply(p, s, ev))
  {
  }

  lemma ContinuesStep(p: Params, s: Sys, ev: Event)
    requires Epochs(s)
    ensures Continues(s, Apply(p, s, ev))
  {
    match ev.op
    case Claim(_, _, _, _, _) => ContinuesIssue(p, s, ev);
    case Bump(_, _) => ContinuesIssue(p, s, ev);
    case Mark(_, _) => ContinuesRow(p, s, ev);
    case NoteError(_, _) => ContinuesRow(p, s, ev);
    case Finalize(_, _, _) => ContinuesFinal(p, s, ev);
    case _ => ContinuesTicket(p, s, ev);
  }

  /** Whatever happens later, an epoch keeps its holder, a terminal row is frozen in all
      its columns, and no effect is undone. */
  lemma {:induction false} RunsContinue(p: Params, evs: seq<Event>, more: seq<Event>)
    ensures Continues(Exec(p, evs), Exec(p, evs + more))
    decreases |more|
  {
    if more == [] {
      assert evs + more == evs;
    } else {
      var all := evs + more;
      assert Front(all) == evs + Front(more);
      RunsContinue(p, evs, Front(more));
      UntimedRun(p, Front(all));
      ContinuesStep(p, Exec(p, Front(all)), Last(all));
    }
  }

  /** Under a superseded epoch no mark, error note or finalization changes the row. */
  lemma {:induction false} FencedOut(p: Params, evs: seq<Event>, ev: Event, e: nat)
    requires Exec(p, evs).cell.row.Some? && e != Exec(p, evs).cell.row.value.attempts
    requires WritesUnder(ev.op, e)
    ensures Exec(p, evs + [ev]).cell.row == Exec(p, evs).cell.row
  {
    UntimedRun(p, evs);
    assert Front(evs + [ev]) == evs;
    Superseded(p, Exec(p, evs), ev, e);
  }

  // ----- Guarantee none, and downstream idempotency: no timing assumption at all -----

  lemma {:induction false} AtMostOneInvocation(p: Params, evs: seq<Event>)
    ensures var c := Exec(p, evs).cell;
            c.row.Some? && c.row.value.guarantee.AtMostOnce? ==> |c.sent| <= 1
  {
    UntimedRun(p, evs);
  }

  /** A committed row's result is what some execute call returned, or what a probe that
      answered present showed; no other row has a result. */
  lemma {:induction false} ResultsAreAnswers(p: Params, evs: seq<Event>)
    ensures var c := Exec(p, evs).cell;
            c.row.Some? ==>
                  if c.row.value.state.Committed? then c.row.value.result in c.answers else c.row.value.result.Null?
  {
    UntimedRun(p, evs);
  }

  /** The preconditions of an epoch were found to hold, by its holder. */
  predicate VettedBy(p: Params, evs: seq<Event>, e: nat) {
    evs != [] &&
    (|| VettedBy(p, Front(evs), e)
     || (Last(evs).op == Learn(e, PreconditionsHeld) && Legal(p, Exec(p, Front(evs)), Last(evs).actor, Last(evs).op)))
  }

  predicate NeedsVetting(phase: Phase) {
    !phase.Won? && !phase.Took? && !phase.Cleared? && !phase.SawPresent? && !phase.Over?
  }

  lemma {:induction false} PhasesAreVetted(p: Params, evs: seq<Event>, e: nat)
    requires e in Exec(p, evs).cell.tickets && NeedsVetting(Exec(p, evs).cell.tickets[e].phase)
    ensures VettedBy(p, evs, e)
  {
    UntimedRun(p, Front(evs));
    var s, ev := Exec(p, Front(evs)), Last(evs);
    if Last(evs).op != Learn(e, PreconditionsHeld) || !Legal(p, s, ev.actor, ev.op) {
      VettedBefore(p, s, ev, e);
      PhasesAreVetted(p, Front(evs), e);
    }
  }

  lemma VettedBefore(p: Params, s: Sys, ev: Event, e: nat)
    requires Epochs(s) && e in Apply(p, s, ev).cell.tickets && NeedsVetting(Apply(p, s, ev).cell.tickets[e].phase)
    requires ev.op != Learn(e, PreconditionsHeld) || !Legal(p, s, ev.actor, ev.op)
    ensures e in s.cell.tickets && NeedsVetting(s.cell.tickets[e].phase)
  {
  }

  /** Whoever executes -- owner or recoverer -- found the preconditions to hold after it
      claimed the key or took it over. */
  lemma {:induction false} CallsFollowPreconditions(p: Params, evs: seq<Event>, ev: Event)
    requires ev.op.Begin? && Legal(p, Exec(p, evs), ev.actor, ev.op)
    ensures VettedBy(p, evs, ev.op.epoch)
  {
    PhasesAreVetted(p, evs, ev.op.epoch);
  }

  /** What a downstream that remembers keys sees of the calls that reached it. */
  function Distinct(keys: seq<Option<string>>): set<Option<string>> {
    set k | k in keys
  }

  /** Every call carries the key stored at the claim, which a downstream-idempotent row has,
      so a downstream that drops repeated keys performs its effect at most once. */
  lemma {:induction false} DownstreamSeesOneKey(p: Params, evs: seq<Event>)
    ensures var c := Exec(p, evs).cell;
            c.row.Some? ==>
              && (forall i :: 0 <= i < |c.sent| ==> c.sent[i] == c.row.value.downstreamKey)
              && (c.row.value.guarantee.DownstreamIdempotent? <==> c.row.value.downstreamKey.Some?)
              && |Distinct(c.effects)| <= 1
  {
    UntimedRun(p, evs);
    var c := Exec(p, evs).cell;
    if c.row.Some? {
      var one := {c.row.value.downstreamKey};
      assert Distinct(c.effects) <= one;
      SubsetCounts(Distinct(c.effects), one);
    }
  }

  // ----- Verifiable effects: the window, exactly -----

  predicate LandedAtMostOnce(s: Sys) {
    s.cell.row.Some? && s.cell.row.value.guarantee.Verifiable? ==> |s.cell.effects| <= 1
  }

  function Do(actor: Actor, op: Op): Event {
    Event(actor, "", op)
  }

  /** Calls end, takeovers follow their reads and stamps follow their clocks in time. */
  ghost predicate Timed(p: Params, evs: seq<Event>, d: int, f: int, lag: int) {
    Punctual(p, evs, d) && Timely(p, evs, f) && Prompt(p, evs, lag)
  }

  predicate InTime(p: Params, s: Sys, ev: Event, d: int, f: int, lag: int) {
    LandsInTime(p, s, ev, d) && ReadsInTime(p, s, ev, f) && StampsInTime(p, s, ev, lag)
  }

  lemma {:induction false} Extend(p: Params, evs: seq<Event>, ev: Event, d: int, f: int, lag: int)
    ensures Exec(p, evs + [ev]) == Apply(p, Exec(p, evs), ev)
    ensures Timed(p, evs + [ev], d, f, lag) <==> Timed(p, evs, d, f, lag) && InTime(p, Exec(p, evs), ev, d, f, lag)
  {
    assert Front(evs + [ev]) == evs;
  }

  /** The row after its owner marked it at 0. */
  const MARKED := CommitRecord("", "", Executing, Verifiable, Null, None, Null, Null, 1, 0, 0, None)

  /** An owner that stays in execute. */
  lemma OwnerInExecute(p: Params, d: int, f: nat, lag: nat) returns (evs: seq<Event>)
    ensures Timed(p, evs, d, f, lag)
    ensures var c := Exec(p, evs).cell;
            && Exec(p, evs).now == 0 && c.row == Some(MARKED)
            && c.tickets == map[1 := Ticket(1, 0, Calling, None, false)]
            && c.readings == map[] && c.effects == []
  {
    evs := [];
    Extend(p, evs, Do(1, Claim("", Verifiable, Null, None, 0)), d, f, lag);
    evs := evs + [Do(1, Claim("", Verifiable, Null, None, 0))];
    Extend(p, evs, Do(1, Learn(1, PreconditionsHeld)), d, f, lag);
    evs := evs + [Do(1, Learn(1, PreconditionsHeld))];
    Extend(p, evs, Do(1, Mark(1, 0)), d, f, lag);
    evs := evs + [Do(1, Mark(1, 0))];
    Extend(p, evs, Do(1, Begin(1)), d, f, lag);
    evs := evs + [Do(1, Begin(1))];
  }

  /** A reconciler that takes over once the row is stale. */
  lemma TakenOver(p: Params, evs: seq<Event>, d: int, f: nat, lag: nat)
    returns (evs': seq<Event>)
    requires Timed(p, evs, d, f, lag)
    requires var c := Exec(p, evs).cell;
             && Exec(p, evs).now == 0 && c.row == Some(MARKED)
             && c.tickets == map[1 := Ticket(1, 0, Calling, None, false)]
             && c.readings == map[] && c.effects == []
    ensures Timed(p, evs', d, f, lag)
    ensures var c := Exec(p, evs').cell;
            && Exec(p, evs').now == p.window + 1
            && c.row.Some? && c.row.value.guarantee.Verifiable?
            && c.row.value.state.Executing? && c.row.value.attempts == 2
            && c.tickets == map[1 := Ticket(1, 0, Calling, None, false),
                                2 := Ticket(2, p.window + 1, Took(Executing), None, false)]
            && c.effects == []
  {
    evs' := evs;
    Extend(p, evs', Do(0, Tick(p.window + 1)), d, f, lag);
    evs' := evs' + [Do(0, Tick(p.window + 1))];
    Extend(p, evs', Do(2, Load), d, f, lag);
    evs' := evs' + [Do(2, Load)];
    Extend(p, evs', Do(2, Bump(p.window, p.window + 1)), d, f, lag);
    evs' := evs' + [Do(2, Bump(p.window, p.window + 1))];
  }

  /** Its truthful probe answers absent, its preconditions hold, and it executes again. */
  lemma SecondCall(p: Params, evs: seq<Event>, d: int, f: nat, lag: nat)
    returns (evs': seq<Event>)
    requires Timed(p, evs, d, f, lag)
    requires var c := Exec(p, evs).cell;
             && Exec(p, evs).now == p.window + 1
             && c.row.Some? && c.row.value.guarantee.Verifiable?
             && c.tickets == map[1 := Ticket(1, 0, Calling, None, false),
                                 2 := Ticket(2, p.window + 1, Took(Executing), None, false)]
             && c.effects == []
    ensures Timed(p, evs', d, f, lag)
    ensures var c := Exec(p, evs').cell;
            && Exec(p, evs').now == p.window + 1
            && c.row.Some? && c.row.value.guarantee.Verifiable?
            && c.tickets == map[1 := Ticket(1, 0, Calling, None, false),
                                2 := Ticket(2, p.window + 1, Calling, None, false)]
            && c.effects == []
  {
    evs' := evs;
    Extend(p, evs', Do(2, Learn(2, ProbeSaid(Absent, Null))), d, f, lag);
    evs' := evs' + [Do(2, Learn(2, ProbeSaid(Absent, Null)))];
    Extend(p, evs', Do(2, Learn(2, PreconditionsHeld)), d, f, lag);
    evs' := evs' + [Do(2, Learn(2, PreconditionsHeld))];
    Extend(p, evs', Do(2, Begin(2)), d, f, lag);
    evs' := evs' + [Do(2, Begin(2))];
  }

  /** If calls may outlive the window, that reconciler executes again, and then the first
      owner's effect lands as well, however fresh reads and stamps are. */
  lemma LateOwnerLandsTwice(p: Params, d: int, f: nat, lag: nat) returns (evs: seq<Event>)
    requires p.window < d
    ensures Timed(p, evs, d, f, lag)
    ensures !LandedAtMostOnce(Exec(p, evs))
  {
    evs := OwnerInExecute(p, d, f, lag);
    evs := TakenOver(p, evs, d, f, lag);
    evs := SecondCall(p, evs, d, f, lag);
    Extend(p, evs, Do(2, Land(2)), d, f, lag);
    evs := evs + [Do(2, Land(2))];
    Extend(p, evs, Do(1, Land(1)), d, f, lag);
    evs := evs + [Do(1, Land(1))];
  }

  /** With truthful probes a verifiable effect lands at most once in every run whose
      calls end within `d` of their stamp, exactly when `d` is within the window. */
  lemma AtMostOnceExactlyWithinWindow(p: Params, d: int)
    requires p.truthful
    ensures (forall evs :: Punctual(p, evs, d) ==> LandedAtMostOnce(Exec(p, evs))) <==> d <= p.window
  {
    if d <= p.window {
      forall evs | Punctual(p, evs, d) ensures LandedAtMostOnce(Exec(p, evs)) {
        LandsOnceRun(p, evs, d);
      }
    } else {
      var evs := LateOwnerLandsTwice(p, d, 0, 0);
    }
  }

  /** The terminal state of a verifiable row tells the truth about the world. */
  lemma {:induction false} VerifiableVerdict(p: Params, evs: seq<Event>, d: int)
    requires p.truthful && p.steady && d <= p.window && Punctual(p, evs, d)
    ensures var c := Exec(p, evs).cell;
            c.row.Some? && c.row.value.guarantee.Verifiable? ==>
              && (c.row.value.state.Committed? ==> |c.effects| == 1)
              && (c.row.value.state.Failed? ==> |c.effects| == 0)
              && !c.row.value.state.Unknown?
  {
    LandsOnceRun(p, evs, d);
  }

  // ----- An aborted row and its effect -----

  /** An owner that reads the clock for its mark at 0 and gets the write lock `m` later, just
      after an actor read its row pending; its effect lands at once. */
  lemma ReadThenMarked(p: Params, d: int, f: nat, lag: int, m: nat) returns (evs: seq<Event>)
    requires m <= lag && m <= d
    ensures Timed(p, evs, d, f, lag)
    ensures var s := Exec(p, evs);
            && s.now == m && s.cell.effects == [None] && s.cell.row == Some(MARKED)
            && 2 in s.cell.readings && s.cell.readings[2].at == m && s.cell.readings[2].record.state.Pending?
  {
    evs := [];
    Extend(p, evs, Do(1, Claim("", Verifiable, Null, None, 0)), d, f, lag);
    evs := evs + [Do(1, Claim("", Verifiable, Null, None, 0))];
    Extend(p, evs, Do(1, Learn(1, PreconditionsHeld)), d, f, lag);
    evs := evs + [Do(1, Learn(1, PreconditionsHeld))];
    Extend(p, evs, Do(0, Tick(m)), d, f, lag);
    evs := evs + [Do(0, Tick(m))];
    Extend(p, evs, Do(2, Load), d, f, lag);
    evs := evs + [Do(2, Load)];
    evs := MarkedAndLanded(p, evs, d, f, lag, m);
  }

  lemma MarkedAndLanded(p: Params, evs: seq<Event>, d: int, f: nat, lag: int, m: nat)
    returns (evs': seq<Event>)
    requires m <= lag && m <= d && Timed(p, evs, d, f, lag)
    requires var s := Exec(p, evs);
             && s.now == m && s.cell.effects == [] && s.cell.row == Some(MARKED.(state := Pending))
             && s.cell.tickets == map[1 := Ticket(1, 0, Vetted, None, false)]
             && 2 in s.cell.readings && s.cell.readings[2].at == m && s.cell.readings[2].record.state.Pending?
    ensures Timed(p, evs', d, f, lag)
    ensures var s := Exec(p, evs');
            && s.now == m && s.cell.effects == [None] && s.cell.row == Some(MARKED)
            && 2 in s.cell.readings && s.cell.readings[2].at == m && s.cell.readings[2].record.state.Pending?
  {
    evs' := evs;
    Extend(p, evs', Do(1, Mark(1, 0)), d, f, lag);
    evs' := evs' + [Do(1, Mark(1, 0))];
    Extend(p, evs', Do(1, Begin(1)), d, f, lag);
    evs' := evs' + [Do(1, Begin(1))];
    Extend(p, evs', Do(1, Land(1)), d, f, lag);
    evs' := evs' + [Do(1, Land(1))];
  }

  /** A takeover that acts on such a read as soon as the stamp is stale: it aborts a row
      whose effect landed. */
  lemma StaleReadAborts(p: Params, d: int, f: nat, lag: int, m: nat) returns (evs: seq<Event>)
    requires m <= lag && m <= d && d <= p.window && p.window < f + m
    ensures Timed(p, evs, d, f, lag)
    ensures !AbortedIsClean(Exec(p, evs))
  {
    evs := ReadThenMarked(p, d, f, lag, m);
    var rest, at := p.window + 1 - m, p.window + 1;
    Extend(p, evs, Do(0, Tick(rest)), d, f, lag);
    evs := evs + [Do(0, Tick(rest))];
    Extend(p, evs, Do(2, Bump(p.window, at)), d, f, lag);
    evs := evs + [Do(2, Bump(p.window, at))];
    Extend(p, evs, Do(2, Finalize(2, Aborted, Null)), d, f, lag);
    evs := evs + [Do(2, Finalize(2, Aborted, Null))];
  }

  lemma ProbedAndAborted(p: Params, evs: seq<Event>, d: int, f: nat, lag: nat)
    returns (evs': seq<Event>)
    requires Timed(p, evs, d, f, lag)
    requires var c := Exec(p, evs).cell;
             && c.row.Some? && c.row.value.guarantee.Verifiable?
             && c.row.value.state.Executing? && c.row.value.attempts == 2
             && c.tickets == map[1 := Ticket(1, 0, Calling, None, false),
                                 2 := Ticket(2, p.window + 1, Took(Executing), None, false)]
             && c.effects == []
    ensures Timed(p, evs', d, f, lag) && Exec(p, evs').now == Exec(p, evs).now
    ensures var c := Exec(p, evs').cell;
            && c.row.Some? && c.row.value.state.Aborted?
            && 1 in c.tickets && c.tickets[1] == Ticket(1, 0, Calling, None, false)
  {
    evs' := evs;
    Extend(p, evs', Do(2, Learn(2, ProbeSaid(Absent, Null))), d, f, lag);
    evs' := evs' + [Do(2, Learn(2, ProbeSaid(Absent, Null)))];
    Extend(p, evs', Do(2, Finalize(2, Aborted, Null)), d, f, lag);
    evs' := evs' + [Do(2, Finalize(2, Aborted, Null))];
  }

  /** A reconciler that aborts while the first owner is still in a call that outlives the
      window. */
  lemma LateOwnerLandsAborted(p: Params, d: int, f: nat, lag: nat) returns (evs: seq<Event>)
    requires p.window < d
    ensures Timed(p, evs, d, f, lag)
    ensures !AbortedIsClean(Exec(p, evs))
  {
    evs := OwnerInExecute(p, d, f, lag);
    evs := TakenOver(p, evs, d, f, lag);
    evs := ProbedAndAborted(p, evs, d, f, lag);
    Extend(p, evs, Do(1, Land(1)), d, f, lag);
    evs := evs + [Do(1, Land(1))];
  }

  /** An aborted row never had its effect: exactly when calls end within the window of their
      stamp, and the window also covers the age of the read a takeover acts on together with
      how late a stamp can be -- late by the lag, or by the length of a call if that is less. */
  lemma {:induction false} AbortedIsCleanExactlyWhenFresh(p: Params, d: nat, f: nat, lag: nat)
    requires p.truthful
    ensures (forall evs :: Timed(p, evs, d, f, lag) ==> AbortedIsClean(Exec(p, evs)))
            <==> d <= p.window && f + Min(lag, d) <= p.window
  {
    if d > p.window {
      var evs := LateOwnerLandsAborted(p, d, f, lag);
    } else if f + Min(lag, d) > p.window {
      var evs := StaleReadAborts(p, d, f, lag, Min(lag, d));
    } else {
      forall evs | Timed(p, evs, d, f, lag) ensures AbortedIsClean(Exec(p, evs)) {
        AbortedRun(p, evs, d, f, lag);
      }
    }
  }
}
