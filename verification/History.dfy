/** The history of a database: every operation any actor performed on any key, and what
    it left of each key. */
module History {
  import opened Json
  import opened Types
  import P = Protocol
  import G = Gate
  import L = Ledger
  import opened Fencing
  import Runs

  type Log = seq<G.Event>

  predicate IsTick(op: G.Op) {
    op.Commit? && op.op.Tick? && op.record.None?
  }

  /** What is known of the keys of one database: which are claimed only through their pause,
      and which are finalized only with their audit record. */
  datatype Rules = Rules(commit: P.Params, gated: Key -> bool, recorded: Key -> bool)

  function Of(gp: Rules, k: Key): G.Params {
    G.Params(gp.commit, gp.gated(k), gp.recorded(k))
  }

  /** Clock ticks concern every key; everything else concerns its own. */
  predicate Concerns(ev: G.Event, k: Key) {
    ev.key == k || IsTick(ev.op)
  }

  /** One key after a history. */
  function At(gp: Rules, h: Log, k: Key): G.Gate {
    if h == [] then G.Initial
    else
      var g, ev := At(gp, h[..|h| - 1], k), h[|h| - 1];
      if Concerns(ev, k) then G.Apply(Of(gp, k), g, ev) else g
  }

  lemma {:induction false} AtNext(gp: Rules, h: Log, ev: G.Event, k: Key)
    ensures At(gp, h + [ev], k) == if Concerns(ev, k) then G.Apply(Of(gp, k), At(gp, h, k), ev) else At(gp, h, k)
  {
    assert (h + [ev])[..|h|] == h;
  }

  /** The part of a history that concerns one key. */
  function Project(h: Log, k: Key): seq<G.Event> {
    if h == [] then []
    else Project(h[..|h| - 1], k) + if Concerns(h[|h| - 1], k) then [h[|h| - 1]] else []
  }

  /** What a key went through is a run of the gate, so every theorem about runs holds of it. */
  lemma {:induction false} KeyIsRun(gp: Rules, h: Log, k: Key)
    ensures At(gp, h, k) == G.Exec(Of(gp, k), Project(h, k))
  {
    if h != [] {
      KeyIsRun(gp, h[..|h| - 1], k);
      var evs, ev := Project(h[..|h| - 1], k), h[|h| - 1];
      if Concerns(ev, k) {
        G.Then(Of(gp, k), evs, ev);
      } else {
        assert Project(h, k) == evs;
      }
    }
  }

  lemma {:induction false} Reachable(gp: Rules, h: Log, k: Key)
    ensures G.Coupled(Of(gp, k), At(gp, h, k)) && Runs.Untimed(gp.commit, At(gp, h, k).led)
  {
    KeyIsRun(gp, h, k);
    G.CoupledRun(Of(gp, k), Project(h, k));
    G.LedgerUntimed(Of(gp, k), Project(h, k));
  }

  function SpanOf(op: G.Op): nat {
    if IsTick(op) then op.op.span else 0
  }

  function Clock(h: Log): Time {
    if h == [] then 0 else Clock(h[..|h| - 1]) + SpanOf(h[|h| - 1].op)
  }

  /** Every key lives on one clock. */
  lemma {:induction false} OneClock(gp: Rules, h: Log, k: Key)
    ensures At(gp, h, k).led.now == Clock(h)
  {
    if h != [] {
      OneClock(gp, h[..|h| - 1], k);
      TimeStep(Of(gp, k), At(gp, h[..|h| - 1], k), h[|h| - 1]);
    }
  }

  lemma TimeStep(gp: G.Params, g: G.Gate, ev: G.Event)
    ensures G.Apply(gp, g, ev).led.now == g.led.now + SpanOf(ev.op)
  {
  }

  /** Rows and runs carry the key they are stored under. */
  lemma {:induction false} KeyedRight(gp: Rules, h: Log, k: Key)
    ensures At(gp, h, k).led.cell.row.Some? ==> At(gp, h, k).led.cell.row.value.key == k
    ensures At(gp, h, k).run.Some? ==> At(gp, h, k).run.value.key == k
  {
    if h != [] {
      KeyedRight(gp, h[..|h| - 1], k);
      if Concerns(h[|h| - 1], k) { KeyStep(Of(gp, k), At(gp, h[..|h| - 1], k), h[|h| - 1], k); }
    }
  }

  lemma KeyStep(gp: G.Params, g: G.Gate, ev: G.Event, k: Key)
    requires g.led.cell.row.Some? ==> g.led.cell.row.value.key == k
    requires g.run.Some? ==> g.run.value.key == k
    requires Concerns(ev, k)
    ensures G.Apply(gp, g, ev).led.cell.row.Some? ==> G.Apply(gp, g, ev).led.cell.row.value.key == k
    ensures G.Apply(gp, g, ev).run.Some? ==> G.Apply(gp, g, ev).run.value.key == k
  {
  }

  // ----- What the others cannot take from an actor -----

  ghost predicate TicketsKept(me: P.Actor, c: P.Cell, c': P.Cell) {
    && (forall e :: e in c.tickets && c.tickets[e].holder == me ==>
          e in c'.tickets && c'.tickets[e] == c.tickets[e].(landed := c'.tickets[e].landed))
    && (me in c.readings ==> me in c'.readings && c'.readings[me] == c.readings[me])
  }

  /** Nothing another actor does touches this actor's tickets and readings. */
  lemma OthersRow(p: P.Params, s: P.Sys, ev: P.Event, me: P.Actor)
    requires Epochs(s) && ev.actor != me && WritesRow(ev.op)
    ensures TicketsKept(me, s.cell, P.Apply(p, s, ev).cell)
  {
  }

  lemma OthersTicket(p: P.Params, s: P.Sys, ev: P.Event, me: P.Actor)
    requires Epochs(s) && ev.actor != me && !WritesRow(ev.op)
    ensures TicketsKept(me, s.cell, P.Apply(p, s, ev).cell)
  {
  }

  lemma OthersGate(gp: G.Params, g: G.Gate, ev: G.Event, me: P.Actor)
    requires Epochs(g.led) && ev.actor != me
    ensures TicketsKept(me, g.led.cell, G.Apply(gp, g, ev).led.cell)
  {
    if ev.op.Commit? && G.Legal(gp, g, ev.actor, ev.op) {
      var pev := P.Event(ev.actor, ev.key, ev.op.op);
      if WritesRow(pev.op) { OthersRow(gp.commit, g.led, pev, me); } else { OthersTicket(gp.commit, g.led, pev, me); }
      assert G.Apply(gp, g, ev).led == P.Apply(gp.commit, g.led, pev);
    }
  }

  /** A history that goes on without the actor. */
  ghost predicate Undisturbed(me: P.Actor, h: Log, h': Log) {
    h <= h' && forall i :: |h| <= i < |h'| ==> h'[i].actor != me
  }

  lemma TicketsKeptTwice(me: P.Actor, a: P.Cell, b: P.Cell, c: P.Cell)
    requires TicketsKept(me, a, b) && TicketsKept(me, b, c)
    ensures TicketsKept(me, a, c)
  {
  }

  lemma UndisturbedTwice(me: P.Actor, a: Log, b: Log, c: Log)
    requires Undisturbed(me, a, b) && Undisturbed(me, b, c)
    ensures Undisturbed(me, a, c)
  {
    forall i | |a| <= i < |c| ensures c[i].actor != me {
      if i < |b| { assert b[i] == c[i]; }
    }
  }

  /** Whatever the actor itself did meanwhile was not about this key. */
  ghost predicate Untouched(me: P.Actor, k: Key, h: Log, h': Log) {
    h <= h' && forall i :: |h| <= i < |h'| ==> h'[i].actor != me || !Concerns(h'[i], k)
  }

  /** The actor worked on this key alone, and in calm the others did but let time pass. */
  ghost predicate Works(me: P.Actor, key: Key, calm: bool, h: Log, h': Log) {
    h <= h' && forall i :: |h| <= i < |h'| ==> WorkOf(me, key, calm, h'[i])
  }

  predicate WorkOf(me: P.Actor, key: Key, calm: bool, ev: G.Event) {
    if ev.actor == me then ev.key == key && !IsTick(ev.op) else calm ==> IsTick(ev.op)
  }

  /** Nothing but time passed. */
  ghost predicate Quiet(h: Log, h': Log) {
    h <= h' && forall i :: |h| <= i < |h'| ==> IsTick(h'[i].op)
  }

  lemma WorksOn(me: P.Actor, key: Key, calm: bool, start: Log, h: Log, h': Log)
    requires Works(me, key, calm, start, h) && Undisturbed(me, h, h') && (calm ==> Quiet(h, h'))
    ensures Works(me, key, calm, start, h')
  {
    forall i | |start| <= i < |h'| ensures WorkOf(me, key, calm, h'[i]) {
      if i < |h| { assert h[i] == h'[i]; }
    }
  }

  lemma WorksNext(calm: bool, start: Log, h: Log, ev: G.Event)
    requires Works(ev.actor, ev.key, calm, start, h) && !IsTick(ev.op)
    ensures Works(ev.actor, ev.key, calm, start, h + [ev])
  {
  }

  lemma WorksTwice(me: P.Actor, key: Key, calm: bool, a: Log, b: Log, c: Log)
    requires Works(me, key, calm, a, b) && Works(me, key, calm, b, c)
    ensures Works(me, key, calm, a, c)
  {
    forall i | |a| <= i < |c| ensures WorkOf(me, key, calm, c[i]) {
      if i < |b| { assert b[i] == c[i]; }
    }
  }

  /** The same at a later time. */
  predicate Still(g: G.Gate, g': G.Gate) {
    && g'.led.cell == g.led.cell && g.led.now <= g'.led.now
    && g'.run == g.run && g'.verdict == g.verdict && g'.trail == g.trail
  }

  lemma TickIsStill(gp: G.Params, g: G.Gate, ev: G.Event)
    requires IsTick(ev.op)
    ensures Still(g, G.Apply(gp, g, ev))
  {
  }

  lemma {:induction false} QuietIsStill(gp: Rules, h: Log, h': Log, k: Key)
    requires Quiet(h, h')
    ensures Still(At(gp, h, k), At(gp, h', k))
    decreases |h'|
  {
    if h != h' {
      var front, ev := h'[..|h'| - 1], h'[|h'| - 1];
      QuietIsStill(gp, h, front, k);
      TickIsStill(Of(gp, k), At(gp, front, k), ev);
    }
  }

  /** In calm the other keys stay as they were. */
  lemma {:induction false} CalmElsewhere(gp: Rules, me: P.Actor, key: Key, h: Log, h': Log, k: Key)
    requires Works(me, key, true, h, h') && k != key
    ensures Still(At(gp, h, k), At(gp, h', k))
    decreases |h'|
  {
    if h != h' {
      var front, ev := h'[..|h'| - 1], h'[|h'| - 1];
      CalmElsewhere(gp, me, key, h, front, k);
      assert WorkOf(me, key, true, ev);
      if Concerns(ev, k) { TickIsStill(Of(gp, k), At(gp, front, k), ev); }
    }
  }

  /** The clock never runs back. */
  lemma {:induction false} ClockRuns(h: Log, h': Log)
    requires h <= h'
    ensures Clock(h) <= Clock(h')
    decreases |h'|
  {
    if h != h' {
      ClockRuns(h, h'[..|h'| - 1]);
    }
  }

  lemma WorksElsewhere(me: P.Actor, key: Key, calm: bool, h: Log, h': Log, k: Key)
    requires Works(me, key, calm, h, h') && k != key
    ensures Untouched(me, k, h, h')
  {
    forall i | |h| <= i < |h'| ensures h'[i].actor != me || !Concerns(h'[i], k) {
      assert WorkOf(me, key, calm, h'[i]);
    }
  }

  lemma {:induction false} MineIsKept(gp: Rules, h: Log, h': Log, k: Key, me: P.Actor)
    requires Untouched(me, k, h, h')
    ensures TicketsKept(me, At(gp, h, k).led.cell, At(gp, h', k).led.cell)
    decreases |h'|
  {
    if h != h' {
      var front, ev := h'[..|h'| - 1], h'[|h'| - 1];
      MineIsKept(gp, h, front, k, me);
      Reachable(gp, front, k);
      if Concerns(ev, k) {
        OthersGate(Of(gp, k), At(gp, front, k), ev, me);
        TicketsKeptTwice(me, At(gp, h, k).led.cell, At(gp, front, k).led.cell, At(gp, h', k).led.cell);
      }
    }
  }

  // ----- What nobody can undo -----

  ghost predicate Later(g: G.Gate, g': G.Gate) {
    Runs.Continues(g.led, g'.led) && G.RunContinues(g, g')
  }

  lemma LaterStep(gp: G.Params, g: G.Gate, ev: G.Event)
    requires Epochs(g.led) && G.Coupled(gp, g)
    ensures Later(g, G.Apply(gp, g, ev))
  {
    G.RunContinuesStep(gp, g, ev);
    if ev.op.Commit? && G.Legal(gp, g, ev.actor, ev.op) {
      Runs.ContinuesStep(gp.commit, g.led, P.Event(ev.actor, ev.key, ev.op.op));
    }
  }

  lemma ContinuesTwice(a: P.Sys, b: P.Sys, c: P.Sys)
    requires Runs.Continues(a, b) && Runs.Continues(b, c)
    ensures Runs.Continues(a, c)
  {
  }

  lemma RunContinuesTwice(a: G.Gate, b: G.Gate, c: G.Gate)
    requires G.RunContinues(a, b) && G.RunContinues(b, c)
    ensures G.RunContinues(a, c)
  {
  }

  lemma LaterTwice(a: G.Gate, b: G.Gate, c: G.Gate)
    requires Later(a, b) && Later(b, c)
    ensures Later(a, c)
  {
    ContinuesTwice(a.led, b.led, c.led);
    RunContinuesTwice(a, b, c);
  }

  lemma LaterSelf(g: G.Gate)
    ensures Later(g, g)
  {
  }

  lemma {:induction false} ThenLater(gp: Rules, h: Log, k: Key, ev: G.Event, g: G.Gate)
    requires Later(g, At(gp, h, k))
    ensures Later(g, G.Apply(Of(gp, k), At(gp, h, k), ev))
  {
    Reachable(gp, h, k);
    LaterStep(Of(gp, k), At(gp, h, k), ev);
    LaterTwice(g, At(gp, h, k), G.Apply(Of(gp, k), At(gp, h, k), ev));
  }

  /** Whatever happens next, rows and runs go on from where they were. */
  lemma {:induction false} GoesOn(gp: Rules, h: Log, h': Log, k: Key)
    requires h <= h'
    ensures Later(At(gp, h, k), At(gp, h', k))
    decreases |h'|
  {
    if h != h' {
      var front, ev := h'[..|h'| - 1], h'[|h'| - 1];
      GoesOn(gp, h, front, k);
      Reachable(gp, front, k);
      if Concerns(ev, k) {
        LaterStep(Of(gp, k), At(gp, front, k), ev);
        ContinuesTwice(At(gp, h, k).led, At(gp, front, k).led, At(gp, h', k).led);
        RunContinuesTwice(At(gp, h, k), At(gp, front, k), At(gp, h', k));
      }
    }
  }
}
