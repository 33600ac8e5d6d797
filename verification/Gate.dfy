/** One key with its paused run and its part of the audit trail, over the commit
    protocol: what appliers, owners and reconcilers do to the three together. */
module Gate {
  import opened Json
  import opened Types
  import L = Ledger
  import P = Protocol
  import opened Fencing
  import Runs

  /** What an audit row says about the key. */
  datatype Notice =
    | Edge(from: Option<PauseStatus>, to: PauseStatus)  // a pause_transition record
    | Outcome(state: LedgerState)                       // a terminal action_event
    | Recovered(state: LedgerState)                     // a reconcile event with a to_state
    | Escalated                                         // a reconcile event without one

  predicate IsTerminalRecord(n: Notice) {
    n.Outcome? || n.Recovered?
  }

  /** `verdict` is the decision of the applier whose decision swap won. The row does not
      store it; the code infers it. */
  datatype Gate = Gate(
    led: P.Sys,
    run: Option<PausedRun>,
    verdict: Option<HumanDecision>,
    trail: seq<Notice>)

  datatype Op =
    | Commit(op: P.Op, record: Option<Notice>)
    | Escalate
    | Propose(approvalRef: string, action: string, args: Option<Value>, stateVersion: nat)
    | AssignId(approvalId: string)
    | Decide(decision: ApprovalDecision)
    | ResolveApproved(to: PauseStatus)
    | ResolveRejected

  datatype Event = Event(actor: P.Actor, key: Key, op: Op)

  /** `gated` says the key is only ever claimed by driving an approved run; `recorded`, that
      every finalization carries its audit record, as a guarded call's does. */
  datatype Params = Params(commit: P.Params, gated: bool, recorded: bool)

  function StatusFor(d: HumanDecision): PauseStatus {
    match d case Approve => Approved case Reject => Rejected
  }

  /** A terminal write carries its record, or none where that is allowed. */
  predicate Recordable(recorded: bool, target: LedgerState, record: Option<Notice>) {
    record == Some(Outcome(target)) || record == Some(Recovered(target)) || (record.None? && !recorded)
  }

  predicate Legal(gp: Params, g: Gate, a: P.Actor, op: Op) {
    match op
    case Commit(op, record) =>
      && P.Legal(gp.commit, g.led, a, op)
      && (gp.gated && op.Claim? ==> g.verdict == Some(Approve) && g.run.Some? && g.run.value.actionType == op.action)
      && (if op.Finalize?
          then Recordable(gp.recorded, op.target, record)
          else record.None?)
    case Escalate => g.led.cell.row.Some?
    case Propose(_, _, _, _) => true
    case AssignId(_) => g.run.Some?
    case Decide(d) => g.run.Some? && d.decidedAt.Some? && d.latencyMs.Some?
    case ResolveApproved(to) =>
      && g.run.Some? && g.led.cell.row.Some? && g.led.cell.row.value.state.Terminal()
      && to == (if g.led.cell.row.value.state.Committed? then RunCommitted else RunAborted)
    case ResolveRejected => g.run.Some?
  }

  function Step(gp: Params, g: Gate, a: P.Actor, key: Key, op: Op): Gate
    requires Legal(gp, g, a, op)
  {
    match op
    case Commit(op, record) =>
      var led := P.Step(gp.commit, g.led, a, key, op);
      if record.Some? && led.cell.finals != g.led.cell.finals
      then g.(led := led, trail := g.trail + [record.value])
      else g.(led := led)
    case Escalate => g.(trail := g.trail + [Escalated])
    case Propose(ref, action, args, version) =>
      if g.run.Some? then g
      else g.(run := Some(L.Paused(ref, key, action, args, version, g.led.now)),
              trail := g.trail + [Edge(None, Proposed)])
    case AssignId(id) => g.(run := Some(g.run.value.(approvalId := Some(id))))
    case Decide(d) =>
      (match L.Transitioned(g.run.value, Proposed, StatusFor(d.decision), Some(d), g.led.now)
       case None => g
       case Some(run) =>
         g.(run := Some(run), verdict := Some(d.decision),
            trail := g.trail + [Edge(Some(Proposed), StatusFor(d.decision))]))
    case ResolveApproved(to) =>
      (match L.Transitioned(g.run.value, Approved, to, None, g.led.now)
       case None => g
       case Some(run) => g.(run := Some(run), trail := g.trail + [Edge(Some(Approved), to)]))
    case ResolveRejected =>
      (match L.Transitioned(g.run.value, Rejected, RunAborted, None, g.led.now)
       case None => g
       case Some(run) =>
         g.(run := Some(run), trail := g.trail + [Edge(Some(Rejected), RunAborted), Outcome(Aborted)]))
  }

  function Apply(gp: Params, g: Gate, ev: Event): Gate {
    if Legal(gp, g, ev.actor, ev.op) then Step(gp, g, ev.actor, ev.key, ev.op) else g
  }

  const Initial := Gate(P.Initial, None, None, [])

  function Exec(gp: Params, evs: seq<Event>): Gate {
    if evs == [] then Initial else Apply(gp, Exec(gp, evs[..|evs| - 1]), evs[|evs| - 1])
  }

  function Front(evs: seq<Event>): seq<Event>
    requires evs != []
  {
    evs[..|evs| - 1]
  }

  function Last(evs: seq<Event>): Event
    requires evs != []
  {
    evs[|evs| - 1]
  }

  // ----- The ledger part of a gated run is a run of the commit protocol -----

  function LedgerEvents(gp: Params, evs: seq<Event>): seq<P.Event> {
    if evs == [] then []
    else
      var ev := Last(evs);
      LedgerEvents(gp, Front(evs)) +
      if ev.op.Commit? && Legal(gp, Exec(gp, Front(evs)), ev.actor, ev.op)
      then [P.Event(ev.actor, ev.key, ev.op.op)] else []
  }

  lemma {:induction false} LedgerRun(gp: Params, evs: seq<Event>)
    ensures Exec(gp, evs).led == P.Exec(gp.commit, LedgerEvents(gp, evs))
  {
    if evs != [] {
      LedgerRun(gp, Front(evs));
      var before := LedgerEvents(gp, Front(evs));
      var ev := Last(evs);
      if ev.op.Commit? && Legal(gp, Exec(gp, Front(evs)), ev.actor, ev.op) {
        var step := P.Event(ev.actor, ev.key, ev.op.op);
        assert LedgerEvents(gp, evs) == before + [step];
        assert (before + [step])[..|before|] == before;
      } else {
        assert LedgerEvents(gp, evs) == before;
      }
    }
  }

  lemma {:induction false} LedgerUntimed(gp: Params, evs: seq<Event>)
    ensures Runs.Untimed(gp.commit, Exec(gp, evs).led)
  {
    LedgerRun(gp, evs);
    Runs.UntimedRun(gp.commit, LedgerEvents(gp, evs));
  }

  // ----- How the run and the ledger row are coupled -----

  predicate Settled(g: Gate) {
    g.led.cell.row.Some? && g.led.cell.row.value.state.Terminal()
  }

  ghost predicate Coupled(gp: Params, g: Gate) {
    var row := g.led.cell.row;
    && (gp.gated && row.Some? ==>
          g.verdict == Some(Approve) && g.run.Some? && g.run.value.actionType == row.value.actionType)
    && (g.run.None? ==> g.verdict.None?)
    && (g.run.Some? ==>
          match g.run.value.status
          case Proposed => g.verdict.None?
          case Approved => g.verdict == Some(Approve)
          case Rejected => g.verdict == Some(Reject)
          case RunCommitted => g.verdict == Some(Approve) && Settled(g) && row.value.state.Committed?
          case RunAborted =>
            || g.verdict == Some(Reject)
            || (g.verdict == Some(Approve) && Settled(g) && !row.value.state.Committed?))
  }

  lemma CoupledCommit(gp: Params, g: Gate, ev: Event)
    requires Coupled(gp, g) && Epochs(g.led) && ev.op.Commit?
    ensures Coupled(gp, Apply(gp, g, ev))
  {
    if Legal(gp, g, ev.actor, ev.op) {
      Runs.ContinuesStep(gp.commit, g.led, P.Event(ev.actor, ev.key, ev.op.op));
    }
  }

  lemma CoupledStep(gp: Params, g: Gate, ev: Event)
    requires Coupled(gp, g) && Epochs(g.led)
    ensures Coupled(gp, Apply(gp, g, ev))
  {
    if ev.op.Commit? { CoupledCommit(gp, g, ev); }
  }

  lemma {:induction false} CoupledRun(gp: Params, evs: seq<Event>)
    ensures Coupled(gp, Exec(gp, evs))
  {
    if evs != [] {
      CoupledRun(gp, Front(evs));
      LedgerUntimed(gp, Front(evs));
      CoupledStep(gp, Exec(gp, Front(evs)), Last(evs));
    }
  }

  /** The decision the code reads off a run and the state of its ledger row. */
  function RecordedDecision(status: PauseStatus, ledger: Option<LedgerState>): Option<HumanDecision> {
    match status
    case Proposed => None
    case Approved => Some(Approve)
    case RunCommitted => Some(Approve)
    case Rejected => Some(Reject)
    case RunAborted => if ledger.None? then Some(Reject) else Some(Approve)
  }

  function RowState(g: Gate): Option<LedgerState> {
    if g.led.cell.row.Some? then Some(g.led.cell.row.value.state) else None
  }

  /** For a key claimed only through its pause that never happens: a committed run has a
      committed row, an approved run that aborted has a terminal row that is not, and a
      rejected run has no row, so the code recovers exactly the decision that won. */
  lemma {:induction false} GatedRunsCoupled(gp: Params, evs: seq<Event>)
    requires gp.gated
    ensures var g := Exec(gp, evs);
            g.run.Some? ==>
              && (g.run.value.status.RunCommitted? ==> RowState(g) == Some(Committed))
              && (g.verdict == Some(Approve) && g.run.value.status.RunAborted? ==>
                    Settled(g) && RowState(g) != Some(Committed))
              && (g.verdict == Some(Reject) ==> RowState(g) == None)
              && RecordedDecision(g.run.value.status, RowState(g)) == g.verdict
  {
    CoupledRun(gp, evs);
  }

  lemma {:induction false} Then(gp: Params, evs: seq<Event>, ev: Event)
    ensures Exec(gp, evs + [ev]) == Apply(gp, Exec(gp, evs), ev)
  {
    assert Front(evs + [ev]) == evs;
  }

  /** A key claimed by an ungated call, and then gated and rejected: the rejection is
      reported as an approval. */
  lemma RejectionMisread(p: P.Params) returns (evs: seq<Event>)
    ensures var g := Exec(Params(p, false, true), evs);
            && g.verdict == Some(Reject) && g.run.Some?
            && RecordedDecision(g.run.value.status, RowState(g)) == Some(Approve)
            && g.run.value.status.RunAborted? && RowState(g) == Some(Pending) && g.led.cell.row.value.attempts == 1
            && P.Holds(g.led.cell, 1, 1) && g.led.cell.tickets[1].phase.Won?
  {
    var gp := Params(p, false, true);
    var no := ApprovalDecision(Reject, None, Some(0), Some(0), None, None);
    var claim := Event(1, "", Commit(P.Claim("", Verifiable, Null, None, 0), None));
    Then(gp, [], claim);
    Then(gp, [claim], Event(2, "", Propose("", "", None, 1)));
    evs := [claim, Event(2, "", Propose("", "", None, 1))];
    Then(gp, evs, Event(2, "", Decide(no)));
    evs := evs + [Event(2, "", Decide(no))];
    Then(gp, evs, Event(2, "", ResolveRejected));
    evs := evs + [Event(2, "", ResolveRejected)];
  }

  // ----- What never changes on a paused run -----

  predicate Reaches(from: PauseStatus, to: PauseStatus) {
    || from == to
    || PauseEdge(from, to)
    || (from.Proposed? && to.Resolved())
  }

  predicate SameDecision(a: PausedRun, b: PausedRun) {
    && a.decidedBy == b.decidedBy && a.decidedAt == b.decidedAt && a.latencyMs == b.latencyMs
    && a.reason == b.reason && a.reasonCode == b.reasonCode
  }

  ghost predicate RunContinues(g: Gate, g': Gate) {
    && (g.verdict.Some? ==> g'.verdict == g.verdict)
    && g.trail <= g'.trail
    && (g.run.Some? ==>
          var r := g.run.value;
          && g'.run.Some?
          && var r' := g'.run.value;
          && r'.approvalRef == r.approvalRef && r'.key == r.key && r'.actionType == r.actionType
          && r'.args == r.args && r'.stateVersion == r.stateVersion && r'.createdAt == r.createdAt
          && Reaches(r.status, r'.status)
          && (!r.status.Proposed? ==> SameDecision(r, r'))
          && (r.status.Resolved() ==> r' == r.(approvalId := r'.approvalId)))
  }

  lemma RunContinuesStep(gp: Params, g: Gate, ev: Event)
    requires Coupled(gp, g)
    ensures RunContinues(g, Apply(gp, g, ev))
  {
  }

  /** The first decision stands: its metadata is never overwritten, the status only moves
      forward, and a resolved run is frozen. */
  lemma {:induction false} FirstDecisionStands(gp: Params, evs: seq<Event>, more: seq<Event>)
    ensures RunContinues(Exec(gp, evs), Exec(gp, evs + more))
    decreases |more|
  {
    if more == [] {
      assert evs + more == evs;
    } else {
      var all := evs + more;
      assert Front(all) == evs + Front(more);
      FirstDecisionStands(gp, evs, Front(more));
      CoupledRun(gp, Front(all));
      RunContinuesStep(gp, Exec(gp, Front(all)), Last(all));
    }
  }

  // ----- Terminal evidence -----

  function TerminalRecords(trail: seq<Notice>): nat {
    if trail == [] then 0
    else TerminalRecords(trail[..|trail| - 1]) + if IsTerminalRecord(trail[|trail| - 1]) then 1 else 0
  }

  function Edges(trail: seq<Notice>): seq<Notice> {
    if trail == [] then []
    else Edges(trail[..|trail| - 1]) + if trail[|trail| - 1].Edge? then [trail[|trail| - 1]] else []
  }

  lemma {:induction false} TrailGrows(trail: seq<Notice>, n: Notice)
    ensures TerminalRecords(trail + [n]) == TerminalRecords(trail) + if IsTerminalRecord(n) then 1 else 0
    ensures Edges(trail + [n]) == Edges(trail) + if n.Edge? then [n] else []
  {
    assert (trail + [n])[..|trail|] == trail;
  }

  /** The edges from creation to a status, under the decision that led there. */
  function PathTo(status: PauseStatus, decision: Option<HumanDecision>): seq<Notice> {
    var created := [Edge(None, Proposed)];
    if decision.None? then created
    else
      var decided := created + [Edge(Some(Proposed), StatusFor(decision.value))];
      if status.Resolved() then decided + [Edge(Some(StatusFor(decision.value)), status)] else decided
  }

  function StatusPath(g: Gate): seq<Notice> {
    if g.run.None? then [] else PathTo(g.run.value.status, g.verdict)
  }

  /** One terminal record for a terminal row, and one for a rejection that was carried out. */
  function RecordsDue(g: Gate): nat {
    (if Settled(g) then 1 else 0) + (if Rebuffed(g) then 1 else 0)
  }

  /** The run was rejected, and resolved so. */
  predicate Rebuffed(g: Gate) {
    g.run.Some? && g.run.value.status.RunAborted? && g.verdict == Some(Reject)
  }

  ghost predicate Evidenced(gp: Params, g: Gate) {
    && Edges(g.trail) == StatusPath(g)
    && (gp.recorded ==> TerminalRecords(g.trail) == RecordsDue(g))
  }

  /** A finalization appends its record, if it has one and the row took it. */
  lemma EvidencedFinal(gp: Params, g: Gate, ev: Event)
    requires Epochs(g.led) && Evidenced(gp, g)
    requires ev.op.Commit? && ev.op.op.Finalize? && Legal(gp, g, ev.actor, ev.op)
    ensures Evidenced(gp, Apply(gp, g, ev))
  {
    EpochsStep(gp.commit, g.led, P.Event(ev.actor, ev.key, ev.op.op));
    if ev.op.record.Some? { TrailGrows(g.trail, ev.op.record.value); }
  }

  /** No other operation on the row ends it or appends anything. */
  lemma EvidencedCommit(gp: Params, g: Gate, ev: Event)
    requires Epochs(g.led) && Evidenced(gp, g)
    requires ev.op.Commit? && Legal(gp, g, ev.actor, ev.op)
    ensures Evidenced(gp, Apply(gp, g, ev))
  {
    if ev.op.op.Finalize? {
      EvidencedFinal(gp, g, ev);
    } else {
      var pev := P.Event(ev.actor, ev.key, ev.op.op);
      EpochsStep(gp.commit, g.led, pev);
      Unfinalized(gp.commit, g.led, pev);
      StillDue(gp, g, Apply(gp, g, ev));
    }
  }

  lemma StillDue(gp: Params, g: Gate, g': Gate)
    requires Epochs(g.led) && Epochs(g'.led) && Evidenced(gp, g) && g' == g.(led := g'.led)
    requires g.led.cell.row.Some? ==> g'.led.cell.row.Some? && g'.led.cell.finals == g.led.cell.finals
    requires g.led.cell.row.None? && g'.led.cell.row.Some? ==> g'.led.cell.row.value.state.Pending?
    ensures Evidenced(gp, g')
  {
  }

  lemma Unfinalized(p: P.Params, s: P.Sys, ev: P.Event)
    requires !ev.op.Finalize?
    ensures var s' := P.Apply(p, s, ev);
            && (s.cell.row.Some? ==> s'.cell.row.Some? && s'.cell.finals == s.cell.finals)
            && (s.cell.row.None? && s'.cell.row.Some? ==> s'.cell.row.value.state.Pending?)
  {
  }

  lemma RejectionEvidenced(gp: Params, g: Gate, g': Gate)
    requires Coupled(gp, g) && Evidenced(gp, g) && g.run.Some? && g.run.value.status.Rejected?
    requires g'.run.Some? && g'.run.value.status.RunAborted? && g'.verdict == g.verdict && g'.led == g.led
    requires g'.trail == g.trail + [Edge(Some(Rejected), RunAborted), Outcome(Aborted)]
    ensures Evidenced(gp, g')
  {
    var aborted := Edge(Some(Rejected), RunAborted);
    TrailGrows(g.trail, aborted);
    TrailGrows(g.trail + [aborted], Outcome(Aborted));
    assert g'.trail == g.trail + [aborted] + [Outcome(Aborted)];
    assert Edges(g'.trail) == StatusPath(g) + [aborted];
  }

  /** Any other change of the run appends the one edge it took. */
  lemma EdgeEvidenced(gp: Params, g: Gate, g': Gate, n: Notice)
    requires Evidenced(gp, g) && n.Edge? && g'.trail == g.trail + [n] && g'.led == g.led
    requires StatusPath(g') == StatusPath(g) + [n]
    requires Rebuffed(g') == Rebuffed(g)
    ensures Evidenced(gp, g')
  {
    TrailGrows(g.trail, n);
  }

  lemma DecisionEvidenced(gp: Params, g: Gate, ev: Event)
    requires Coupled(gp, g) && Evidenced(gp, g) && (ev.op.Propose? || ev.op.Decide?)
    ensures Evidenced(gp, Apply(gp, g, ev))
  {
    var g' := Apply(gp, g, ev);
    if g'.trail != g.trail {
      EdgeEvidenced(gp, g, g', g'.trail[|g.trail|]);
    }
  }

  lemma ResolutionEvidenced(gp: Params, g: Gate, ev: Event)
    requires Coupled(gp, g) && Evidenced(gp, g) && ev.op.ResolveApproved?
    ensures Evidenced(gp, Apply(gp, g, ev))
  {
    var g' := Apply(gp, g, ev);
    if g'.trail != g.trail {
      EdgeEvidenced(gp, g, g', Edge(Some(Approved), ev.op.to));
    }
  }

  lemma EscalationEvidenced(gp: Params, g: Gate, g': Gate)
    requires Evidenced(gp, g) && g' == g.(trail := g.trail + [Escalated])
    ensures Evidenced(gp, g')
  {
    TrailGrows(g.trail, Escalated);
  }

  lemma EvidencedPause(gp: Params, g: Gate, ev: Event)
    requires Coupled(gp, g) && Evidenced(gp, g) && !ev.op.Commit?
    requires Legal(gp, g, ev.actor, ev.op)
    ensures Evidenced(gp, Apply(gp, g, ev))
  {
    match ev.op
    case Escalate => EscalationEvidenced(gp, g, Apply(gp, g, ev));
    case Propose(_, _, _, _) => DecisionEvidenced(gp, g, ev);
    case AssignId(_) =>
    case Decide(d) => DecisionEvidenced(gp, g, ev);
    case ResolveApproved(to) => ResolutionEvidenced(gp, g, ev);
    case ResolveRejected =>
      if g.run.value.status.Rejected? { RejectionEvidenced(gp, g, Apply(gp, g, ev)); }
  }

  /** In every run, with any mix of guarded and direct calls, the pause records spell out the
      path the paused run took; and where every finalization carries its record, the terminal
      records are one for a terminal row and one for a rejection carried out, and no more. */
  lemma {:induction false} EvidenceRun(gp: Params, evs: seq<Event>)
    ensures var g := Exec(gp, evs);
            && Edges(g.trail) == StatusPath(g)
            && (gp.recorded ==> TerminalRecords(g.trail) == RecordsDue(g))
  {
    if evs != [] {
      EvidenceRun(gp, Front(evs));
      CoupledRun(gp, Front(evs));
      LedgerUntimed(gp, Front(evs));
      var g, ev := Exec(gp, Front(evs)), Last(evs);
      if Legal(gp, g, ev.actor, ev.op) {
        if ev.op.Commit? { EvidencedCommit(gp, g, ev); } else { EvidencedPause(gp, g, ev); }
      }
    }
  }

  /** So a key never has two terminal records, except exactly when its run was rejected and
      its row, claimed some other way, is terminal as well. */
  lemma {:induction false} OneRecordExactly(gp: Params, evs: seq<Event>)
    requires gp.recorded
    ensures var g := Exec(gp, evs);
            && (TerminalRecords(g.trail) <= 1 <==> !(Settled(g) && Rebuffed(g)))
            && (gp.gated ==> TerminalRecords(g.trail) == if Settled(g) || Rebuffed(g) then 1 else 0)
  {
    EvidenceRun(gp, evs);
    CoupledRun(gp, evs);
  }

  /** The exception happens: a direct call owns the key whose pause is rejected, and aborts. */
  lemma TwoRecords(p: P.Params) returns (evs: seq<Event>)
    ensures var g := Exec(Params(p, false, true), evs);
            TerminalRecords(g.trail) == 2 && Settled(g) && Rebuffed(g)
  {
    var gp := Params(p, false, true);
    evs := RejectionMisread(p);
    var abort := Event(1, "", Commit(P.Finalize(1, Aborted, Null), Some(Outcome(Aborted))));
    Then(gp, evs, abort);
    evs := evs + [abort];
    EvidenceRun(gp, evs);
  }

  // ----- The decision, as it is inferred and as the trail tells it -----

  /** The decision an audit trail tells of. */
  function DecisionTold(trail: seq<Notice>): Option<HumanDecision> {
    if Edge(Some(Proposed), Approved) in trail then Some(Approve)
    else if Edge(Some(Proposed), Rejected) in trail then Some(Reject)
    else None
  }

  lemma {:induction false} EdgesAreThere(trail: seq<Notice>, n: Notice)
    requires n.Edge?
    ensures n in Edges(trail) <==> n in trail
  {
    if trail != [] {
      var front := trail[..|trail| - 1];
      EdgesAreThere(front, n);
      assert trail == front + [trail[|trail| - 1]];
    }
  }

  /** The trail tells the decision that won, in every run. */
  lemma {:induction false} TrailTellsDecision(gp: Params, evs: seq<Event>)
    ensures DecisionTold(Exec(gp, evs).trail) == Exec(gp, evs).verdict
  {
    var g := Exec(gp, evs);
    EvidenceRun(gp, evs);
    CoupledRun(gp, evs);
    EdgesAreThere(g.trail, Edge(Some(Proposed), Approved));
    EdgesAreThere(g.trail, Edge(Some(Proposed), Rejected));
  }

  /** The inferred decision is the decision that won, in every run and at every moment,
      except exactly when the trail tells of a rejection, the run is aborted, and the key has
      a ledger row, so that it was claimed some other way. */
  lemma {:induction false} DecisionRecoveredExactly(gp: Params, evs: seq<Event>)
    ensures var g := Exec(gp, evs);
            g.run.Some? ==>
              (RecordedDecision(g.run.value.status, RowState(g)) == g.verdict <==>
               !(g.run.value.status.RunAborted? && DecisionTold(g.trail) == Some(Reject) && g.led.cell.row.Some?))
  {
    CoupledRun(gp, evs);
    TrailTellsDecision(gp, evs);
  }

  /** What will be reported of a run someone saw decided: an approval always as one; a
      rejection as one until its run is aborted while a row of its key exists, and from then
      on as an approval. */
  lemma {:induction false} DecisionReportedLater(gp: Params, evs: seq<Event>, more: seq<Event>)
    requires Exec(gp, evs).run.Some?
    ensures var g, g' := Exec(gp, evs), Exec(gp, evs + more);
            && g'.run.Some?
            && var reported := RecordedDecision(g'.run.value.status, RowState(g'));
            && (g.run.value.status.Approved? ==> reported == Some(Approve))
            && (g.run.value.status.Rejected? ==>
                  (reported == Some(Reject) <==> !(g'.run.value.status.RunAborted? && g'.led.cell.row.Some?)))
  {
    FirstDecisionStands(gp, evs, more);
    CoupledRun(gp, evs);
    CoupledRun(gp, evs + more);
  }
}
