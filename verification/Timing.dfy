/** What the staleness window buys: takeovers find no live call behind them. */
module Timing {
  import opened Types
  import opened Protocol
  import opened Fencing

  // ----- A takeover proves every earlier holder's window has closed -----

  ghost predicate Overtaken(p: Params, s: Sys) {
    var c := s.cell;
    c.row.Some? ==>
      forall e :: e in c.tickets && e < c.row.value.attempts ==> c.tickets[e].stamp + p.window < s.now
  }

  lemma OvertakenRow(p: Params, s: Sys, ev: Event)
    requires Epochs(s) && Overtaken(p, s) && WritesRow(ev.op)
    ensures Overtaken(p, Apply(p, s, ev))
  {
  }

  lemma OvertakenStep(p: Params, s: Sys, ev: Event)
    requires Epochs(s) && Overtaken(p, s)
    ensures Overtaken(p, Apply(p, s, ev))
  {
    if WritesRow(ev.op) { OvertakenRow(p, s, ev); }
  }

  /** An effect lands no later than `d` after its caller last stamped the row. */
  predicate LandsInTime(p: Params, s: Sys, ev: Event, d: int) {
    ev.op.Land? && Legal(p, s, ev.actor, ev.op) ==> s.now <= s.cell.tickets[ev.op.epoch].stamp + d
  }

  /** The window lemma: only the call of the current epoch can still land. */
  lemma OnlyCurrentLands(p: Params, s: Sys, ev: Event, d: int)
    requires Epochs(s) && Overtaken(p, s)
    requires d <= p.window && LandsInTime(p, s, ev, d)
    requires ev.op.Land? && Legal(p, s, ev.actor, ev.op)
    ensures s.cell.row.Some? && ev.op.epoch == s.cell.row.value.attempts
    ensures !s.cell.row.value.state.Terminal()
  {
  }

  // ----- A verifiable effect lands at most once -----

  predicate Untouched(t: Ticket) {
    match t.phase
    case Marked => true
    case Cleared => true
    case Rearmed => true
    case Refuted => true
    case Calling => !t.landed
    case Adrift => !t.landed
    case _ => false
  }

  ghost predicate LandsOnce(p: Params, s: Sys) {
    var c := s.cell;
    c.row.Some? && c.row.value.guarantee.Verifiable? ==>
      var r := c.row.value;
      && |c.effects| <= 1
      && (r.attempts in c.tickets && Untouched(c.tickets[r.attempts]) ==> c.effects == [])
      && (forall e :: e in c.tickets && (c.tickets[e].phase.SawPresent? || c.tickets[e].phase.Confirmed?) ==>
            c.effects != [])
      && (p.steady && r.state.Committed? ==> c.effects != [])
      && (r.state.Failed? ==> c.effects == [])
      && !r.state.Unknown?
  }

  lemma LandsOnceRow(p: Params, s: Sys, ev: Event)
    requires Epochs(s) && PendingIsIdle(s) && LandsOnce(p, s)
    requires WritesRow(ev.op)
    ensures LandsOnce(p, Apply(p, s, ev))
  {
  }

  lemma LandsOnceStep(p: Params, s: Sys, ev: Event, d: int)
    requires Epochs(s) && PendingIsIdle(s) && Overtaken(p, s) && LandsOnce(p, s)
    requires p.truthful && d <= p.window && LandsInTime(p, s, ev, d)
    ensures LandsOnce(p, Apply(p, s, ev))
  {
    if WritesRow(ev.op) {
      LandsOnceRow(p, s, ev);
    } else if ev.op.Land? && Legal(p, s, ev.actor, ev.op) {
      OnlyCurrentLands(p, s, ev, d);
    }
  }

  // ----- How fresh the read before a takeover is -----

  /** A clock read no more than `lag` before the write it stamps. */
  predicate StampsInTime(p: Params, s: Sys, ev: Event, lag: int) {
    Legal(p, s, ev.actor, ev.op) && (ev.op.Claim? || ev.op.Mark? || ev.op.Bump?) ==> s.now - lag <= ev.op.stamp
  }

  /** Since it was read, the row kept its state and epoch, or it became terminal, or
      someone stamped it, at most `lag` earlier than the read. */
  ghost predicate ReadingsTrack(s: Sys, lag: int) {
    var c := s.cell;
    forall a :: a in c.readings && c.row.Some? ==>
      var seen := c.readings[a];
      || (c.row.value.state == seen.record.state && c.row.value.attempts == seen.record.attempts)
      || c.row.value.state.Terminal()
      || seen.at - lag <= c.row.value.lastAttemptAt
  }

  lemma ReadingsTrackRow(p: Params, s: Sys, ev: Event, lag: int)
    requires Epochs(s) && ReadingsTrack(s, lag) && WritesRow(ev.op) && StampsInTime(p, s, ev, lag)
    ensures ReadingsTrack(Apply(p, s, ev), lag)
  {
  }

  lemma ReadingsTrackStep(p: Params, s: Sys, ev: Event, lag: int)
    requires Epochs(s) && ReadingsTrack(s, lag) && StampsInTime(p, s, ev, lag)
    ensures ReadingsTrack(Apply(p, s, ev), lag)
  {
    if WritesRow(ev.op) { ReadingsTrackRow(p, s, ev, lag); }
  }

  /** A takeover is attempted no later than `f` after its read. */
  predicate ReadsInTime(p: Params, s: Sys, ev: Event, f: int) {
    ev.op.Bump? && Legal(p, s, ev.actor, ev.op) ==> s.now <= s.cell.readings[ev.actor].at + f
  }

  /** A takeover that succeeds while the age of its read and the lag of stamps fit into the
      window finds the row exactly as it was read. */
  lemma FreshTakeover(p: Params, s: Sys, ev: Event, f: int, lag: int)
    requires Epochs(s) && ReadingsTrack(s, lag)
    requires f + lag <= p.window && ReadsInTime(p, s, ev, f)
    requires ev.op.Bump? && Legal(p, s, ev.actor, ev.op)
    requires Apply(p, s, ev).cell.bumps == s.cell.bumps + 1
    ensures s.cell.row.value.state == s.cell.readings[ev.actor].record.state
    ensures s.cell.row.value.attempts == s.cell.readings[ev.actor].record.attempts
  {
  }

  /** An effect that landed although an actor read the row pending was stamped at most `m`
      before that read. */
  ghost predicate LandedSinceRead(s: Sys, m: int) {
    var c := s.cell;
    c.row.Some? && !c.row.value.state.Terminal() && c.effects != [] ==>
      forall a :: a in c.readings && c.readings[a].record.state.Pending? ==>
            c.readings[a].at - m <= c.row.value.lastAttemptAt
  }

  /** Because the mark was stamped at most `lag` before it. */
  lemma LandedByLag(s: Sys, lag: int)
    requires PendingIsIdle(s) && ReadingsTrack(s, lag)
    ensures LandedSinceRead(s, lag)
  {
  }

  /** And because a call lands at most `d` after its stamp. */
  lemma LandedSinceReadRow(p: Params, s: Sys, ev: Event, d: int)
    requires Epochs(s) && PendingIsIdle(s) && LandedSinceRead(s, d) && WritesRow(ev.op)
    ensures LandedSinceRead(Apply(p, s, ev), d)
  {
  }

  lemma LandedSinceReadStep(p: Params, s: Sys, ev: Event, d: int)
    requires Epochs(s) && PendingIsIdle(s) && Overtaken(p, s) && LandedSinceRead(s, d)
    requires d <= p.window && LandsInTime(p, s, ev, d)
    ensures LandedSinceRead(Apply(p, s, ev), d)
  {
    if WritesRow(ev.op) {
      LandedSinceReadRow(p, s, ev, d);
    } else if ev.op.Land? && Legal(p, s, ev.actor, ev.op) {
      OnlyCurrentLands(p, s, ev, d);
    }
  }

  /** The current holder of a row that it may still abort found no effect behind it. */
  ghost predicate NothingLandedYet(s: Sys) {
    var c := s.cell;
    c.row.Some? && c.row.value.attempts in c.tickets ==>
      var phase := c.tickets[c.row.value.attempts].phase;
      phase.Won? || phase == Took(Pending) || phase.Vetted? ==> c.effects == []
  }

  lemma NothingLandedYetBump(p: Params, s: Sys, ev: Event, f: int, m: int)
    requires Epochs(s) && LandedSinceRead(s, m) && NothingLandedYet(s)
    requires f + m <= p.window && ReadsInTime(p, s, ev, f) && ev.op.Bump?
    ensures NothingLandedYet(Apply(p, s, ev))
  {
  }

  lemma NothingLandedYetStep(p: Params, s: Sys, ev: Event, d: int, f: int, m: int)
    requires Epochs(s) && PendingIsIdle(s) && Overtaken(p, s) && LandedSinceRead(s, m) && NothingLandedYet(s)
    requires d <= p.window && LandsInTime(p, s, ev, d)
    requires f + m <= p.window && ReadsInTime(p, s, ev, f)
    ensures NothingLandedYet(Apply(p, s, ev))
  {
    if ev.op.Bump? {
      NothingLandedYetBump(p, s, ev, f, m);
    } else if ev.op.Land? && Legal(p, s, ev.actor, ev.op) {
      OnlyCurrentLands(p, s, ev, d);
    }
  }

  ghost predicate AbortedIsClean(s: Sys) {
    s.cell.row.Some? && s.cell.row.value.state.Aborted? ==> s.cell.effects == []
  }

  lemma AbortedIsCleanStep(p: Params, s: Sys, ev: Event, d: int)
    requires Epochs(s) && PendingIsIdle(s) && Overtaken(p, s) && LandsOnce(p, s)
    requires NothingLandedYet(s) && AbortedIsClean(s)
    requires d <= p.window && LandsInTime(p, s, ev, d)
    ensures AbortedIsClean(Apply(p, s, ev))
  {
    if ev.op.Land? && Legal(p, s, ev.actor, ev.op) {
      OnlyCurrentLands(p, s, ev, d);
    }
  }
}
