/** The commit protocol of one ledger key, as the operations its actors perform.

    An actor is a thread of some process: a `commit_once` caller or a reconciler. It
    may stop for ever after any operation, which is what a crash looks like to the
    others, so a run needs no crash step. Each epoch a claim or a takeover hands out
    is a ticket; a ticket records how far its holder got with that epoch. */
module Protocol {
  import opened Json
  import opened Types
  import L = Ledger

  type Actor = nat

  /** How far the holder of an epoch got. */
  datatype Phase =
    | Won                      // the claim created the row
    | Took(from: LedgerState)  // a takeover; `from` is the state read before it
    | Vetted                   // preconditions held; the pending row is still to be marked
    | Marked                   // the pending -> executing edge was this holder's
    | Cleared                  // the probe after the takeover answered absent
    | Rearmed                  // preconditions held; the executing row may run again
    | SawPresent(shown: Value) // the probe after the takeover answered present, with evidence
    | Calling                  // execute is in flight
    | Adrift                   // execute raised or was abandoned; it may still land
    | Returned(value: Value)   // execute returned
    | Confirmed(value: Value)  // and the post-verify probe answered present
    | Refuted                  // the post-verify probe answered absent
    | Over                     // fenced, escalated or finalized

  /** `stamp` is the last value this holder wrote to `last_attempt_at`: its clock, read
      before it waited for the write lock. */
  datatype Ticket = Ticket(holder: Actor, stamp: Time, phase: Phase,
                           downstreamKey: Option<string>, landed: bool)

  /** A row read by a reconciler ahead of its takeover. */
  datatype Reading = Reading(record: CommitRecord, at: Time)

  datatype Cell = Cell(
    row: Option<CommitRecord>,
    tickets: map<nat, Ticket>,
    readings: map<Actor, Reading>,
    bumps: nat,                    // takeovers that succeeded
    finals: nat,                   // finalizations that succeeded
    sent: seq<Option<string>>,     // downstream key of every execute call
    effects: seq<Option<string>>,  // downstream key of every effect that landed
    answers: seq<Value>)           // what execute calls returned and confirming probes showed

  const EmptyCell := Cell(None, map[], map[], 0, 0, [], [], [])

  datatype Sys = Sys(now: Time, cell: Cell)

  /** What a holder learns from the outside world. */
  datatype News =
    | ProbeSaid(answer: Verification, evidence: Value)
    | PreconditionsHeld
    | ExecuteReturned(value: Value)
    | ExecuteRaised
    | PostVerifySaid(answer: Verification)

  function NextPhase(phase: Phase, news: News): Phase {
    match news
    case ProbeSaid(answer, evidence) =>
      (match answer case Present => SawPresent(evidence) case Absent => Cleared case Unproven => Over)
    case PreconditionsHeld => if phase.Won? || phase == Took(Pending) then Vetted else Rearmed
    case ExecuteReturned(value) => Returned(value)
    case ExecuteRaised => Adrift
    case PostVerifySaid(answer) =>
      if answer.Absent? then Refuted else if answer.Present? && phase.Returned? then Confirmed(phase.value) else Over
  }

  function Shown(news: News): seq<Value> {
    match news
    case ProbeSaid(answer, evidence) => if answer.Present? then [evidence] else []
    case ExecuteReturned(value) => [value]
    case _ => []
  }

  datatype Op =
    | Tick(span: nat)
    | Claim(action: string, guarantee: Guarantee, args: Value, downstreamKey: Option<string>, stamp: Time)
    | Load
    | Bump(olderThan: int, stamp: Time)
    | Mark(epoch: nat, stamp: Time)
    | Begin(epoch: nat)
    | Land(epoch: nat)
    | Learn(epoch: nat, news: News)
    | NoteError(epoch: nat, error: Value)
    | Finalize(epoch: nat, target: LedgerState, result: Value)

  datatype Event = Event(actor: Actor, key: Key, op: Op)

  /** `window` bounds from below the `older_than` of every reconciler. `truthful` says
      probes never lie. `steady` says an action type keeps the Effect its rows were
      claimed under, so a verifiable row is always recovered with its probe. */
  datatype Params = Params(window: nat, truthful: bool, steady: bool)

  predicate Holds(c: Cell, a: Actor, e: nat) {
    c.row.Some? && e in c.tickets && c.tickets[e].holder == a
  }

  predicate Truthful(p: Params, c: Cell, answer: Verification) {
    p.truthful ==> (answer.Present? ==> c.effects != []) && (answer.Absent? ==> c.effects == [])
  }

  /** A takeover of an executing verifiable row probes first; preconditions are asked after
      the claim or the takeover, and of an executing row only once it may run again; an
      execute call ends by returning or raising; a probe follows one that returned. */
  predicate MayLearn(p: Params, c: Cell, phase: Phase, news: News)
    requires c.row.Some?
  {
    match news
    case ProbeSaid(answer, _) =>
      phase == Took(Executing) && c.row.value.guarantee.Verifiable? && Truthful(p, c, answer)
    case PreconditionsHeld => MayVet(c.row.value.guarantee, phase)
    case ExecuteReturned(_) => phase.Calling?
    case ExecuteRaised => phase.Calling?
    case PostVerifySaid(answer) => phase.Returned? && Truthful(p, c, answer)
  }

  /** Before a mark; or, of an executing row, after a disproving probe, or to re-issue to a
      deduplicating downstream. */
  predicate MayVet(g: Guarantee, phase: Phase) {
    phase.Won? || phase == Took(Pending) || phase.Cleared? || (phase == Took(Executing) && g.DownstreamIdempotent?)
  }

  /** When the code invokes execute under an epoch: its preconditions held first. */
  predicate MayExecute(phase: Phase) {
    phase.Marked? || phase.Rearmed?
  }

  /** Which terminal state the code asks for, after what, and with what result. */
  predicate MayFinalize(p: Params, g: Guarantee, phase: Phase, target: LedgerState, result: Value) {
    match target
    case Committed =>
      || phase == SawPresent(result)
      || phase == Confirmed(result)
      || (phase == Returned(result) && (p.steady ==> !g.Verifiable?))
    case Aborted => result.Null? && (phase.Won? || phase == Took(Pending) || phase.Cleared?)
    case Failed => result.Null? && phase.Refuted?
    case Unknown => result.Null? && phase == Took(Executing) && !g.Verifiable?
    case _ => false
  }

  /** A row is claimed with a downstream key exactly under the guarantee that needs one. */
  predicate KeyFits(g: Guarantee, downstreamKey: Option<string>) {
    g.DownstreamIdempotent? <==> downstreamKey.Some?
  }

  predicate Legal(p: Params, s: Sys, a: Actor, op: Op) {
    var c := s.cell;
    match op
    case Tick(_) => true
    case Claim(_, g, _, dk, stamp) => KeyFits(g, dk) && stamp <= s.now
    case Load => c.row.Some? && c.row.value.state.InFlight()
    case Bump(olderThan, stamp) => c.row.Some? && a in c.readings && p.window <= olderThan && stamp <= s.now
    case Mark(e, stamp) => Holds(c, a, e) && c.tickets[e].phase.Vetted? && stamp <= s.now
    case Begin(e) => Holds(c, a, e) && MayExecute(c.tickets[e].phase)
    case Land(e) =>
      && e in c.tickets && !c.tickets[e].landed
      && (c.tickets[e].phase.Calling? || c.tickets[e].phase.Adrift?)
    case Learn(e, news) => Holds(c, a, e) && MayLearn(p, c, c.tickets[e].phase, news)
    case NoteError(e, _) => Holds(c, a, e)
    case Finalize(e, target, result) =>
      Holds(c, a, e) && MayFinalize(p, c.row.value.guarantee, c.tickets[e].phase, target, result)
  }

  function At(c: Cell, e: nat, phase: Phase): Cell
    requires e in c.tickets
  {
    c.(tickets := c.tickets[e := c.tickets[e].(phase := phase)])
  }

  function Step(p: Params, s: Sys, a: Actor, key: Key, op: Op): Sys
    requires Legal(p, s, a, op)
  {
    var c := s.cell;
    match op
    case Tick(span) => s.(now := s.now + span)
    case Claim(action, g, args, dk, stamp) =>
      if c.row.Some? then s
      else s.(cell := c.(row := Some(L.Inserted(key, action, g, args, dk, stamp)),
                         tickets := map[1 := Ticket(a, stamp, Won, dk, false)]))
    case Load => s.(cell := c.(readings := c.readings[a := Reading(c.row.value, s.now)]))
    case Bump(olderThan, stamp) =>
      (match L.Bumped(c.row.value, olderThan, stamp)
       case None => s
       case Some(r) =>
         var ticket := Ticket(a, stamp, Took(c.readings[a].record.state), c.readings[a].record.downstreamKey, false);
         s.(cell := c.(row := Some(r), bumps := c.bumps + 1, tickets := c.tickets[r.attempts := ticket])))
    case Mark(e, stamp) =>
      (match L.Marked(c.row.value, e, stamp)
       case None => s.(cell := At(c, e, Over))
       case Some(r) =>
         s.(cell := c.(row := Some(r),
                       tickets := c.tickets[e := c.tickets[e].(phase := Marked, stamp := stamp)])))
    case Begin(e) => s.(cell := At(c, e, Calling).(sent := c.sent + [c.tickets[e].downstreamKey]))
    case Land(e) =>
      s.(cell := c.(tickets := c.tickets[e := c.tickets[e].(landed := true)],
                    effects := c.effects + [c.tickets[e].downstreamKey]))
    case Learn(e, news) =>
      s.(cell := At(c, e, NextPhase(c.tickets[e].phase, news)).(answers := c.answers + Shown(news)))
    case NoteError(e, error) =>
      (match L.WithError(c.row.value, e, error)
       case None => s
       case Some(r) => s.(cell := c.(row := Some(r))))
    case Finalize(e, target, result) =>
      (match L.Finalized(c.row.value, e, target, result, s.now)
       case None => s.(cell := At(c, e, Over))
       case Some(r) => s.(cell := At(c, e, Over).(row := Some(r), finals := c.finals + 1)))
  }

  /** An event the code cannot produce in this state changes nothing. */
  function Apply(p: Params, s: Sys, ev: Event): Sys {
    if Legal(p, s, ev.actor, ev.op) then Step(p, s, ev.actor, ev.key, ev.op) else s
  }

  const Initial := Sys(0, EmptyCell)

  /** The state after a run: any interleaving of any number of actors. */
  function Exec(p: Params, evs: seq<Event>): Sys {
    if evs == [] then Initial else Apply(p, Exec(p, evs[..|evs| - 1]), evs[|evs| - 1])
  }
}
