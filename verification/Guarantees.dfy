/** What the tables say at any moment, whichever methods ran on whatever number of
    processes, interleaved in whatever way. */
module Guarantees {
  import opened Types
  import P = Protocol
  import G = Gate
  import opened History
  import opened Moves
  import opened World
  import opened Evidence
  import Runs
  import Timing
  import C = Commit

  /** The commit-protocol run one key went through. */
  function RunOf(w: World, k: Key): seq<P.Event>
    reads w
  {
    G.LedgerEvents(Of(w.gp, k), Project(w.history, k))
  }

  lemma KeyIsProtocolRun(w: World, k: Key)
    ensures w.At(k).led == P.Exec(w.gp.commit, RunOf(w, k))
  {
    KeyIsRun(w.gp, w.history, k);
    G.LedgerRun(Of(w.gp, k), Project(w.history, k));
  }

  /** With no assumption about time or probes: the epoch of a stored row is one more than
      its takeovers, it was finalized once if it is terminal, a row under no guarantee was
      executed at most once, and every execute call of a row carried its stored key. */
  lemma TablesKeepTheProtocol(w: World, k: Key)
    requires w.Valid() && k in w.store.ledger
    ensures var r, c := w.store.ledger[k], w.At(k).led.cell;
            && r.key == k && r.attempts == 1 + c.bumps && c.finals == (if r.state.Terminal() then 1 else 0)
            && (r.guarantee.AtMostOnce? ==> |c.sent| <= 1)
            && (forall i :: 0 <= i < |c.sent| ==> c.sent[i] == r.downstreamKey)
            && (r.guarantee.DownstreamIdempotent? <==> r.downstreamKey.Some?)
            && |Runs.Distinct(c.effects)| <= 1
  {
    w.Open();
    assert MirrorsKey(w.At(k), Lookup(w.store.ledger, k), Lookup(w.store.paused, k));
    KeyIsProtocolRun(w, k);
    Runs.EpochsIssuedOnce(w.gp.commit, RunOf(w, k));
    Runs.AtMostOneInvocation(w.gp.commit, RunOf(w, k));
    Runs.DownstreamSeesOneKey(w.gp.commit, RunOf(w, k));
  }

  /** The result stored with a committed row is what some execute call returned, or what a
      probe that answered present showed; no other row stores one. */
  lemma TablesHoldAnswers(w: World, k: Key)
    requires w.Valid() && k in w.store.ledger
    ensures var r := w.store.ledger[k];
            if r.state.Committed? then r.result in w.At(k).led.cell.answers else r.result.Null?
  {
    w.Open();
    assert MirrorsKey(w.At(k), Lookup(w.store.ledger, k), Lookup(w.store.paused, k));
    KeyIsProtocolRun(w, k);
    Runs.ResultsAreAnswers(w.gp.commit, RunOf(w, k));
  }

  /** With truthful probes, and every call over within `d` of its caller's last stamp: a
      verifiable effect landed at most once; in a steady world exactly once if its row says
      committed and never if it says failed. */
  lemma {:induction false} TablesTellTheTruth(w: World, k: Key, d: int)
    requires w.Valid() && k in w.store.ledger && w.store.ledger[k].guarantee.Verifiable?
    requires w.gp.commit.truthful && d <= w.gp.commit.window && Runs.Punctual(w.gp.commit, RunOf(w, k), d)
    ensures var r, landed := w.store.ledger[k], |w.At(k).led.cell.effects|;
            && landed <= 1
            && (w.gp.commit.steady && r.state.Committed? ==> landed == 1)
            && (r.state.Failed? ==> landed == 0)
  {
    w.Open();
    assert MirrorsKey(w.At(k), Lookup(w.store.ledger, k), Lookup(w.store.paused, k));
    KeyIsProtocolRun(w, k);
    Runs.LandsOnceRun(w.gp.commit, RunOf(w, k), d);
  }

  /** If the window also covers the age of the reads that takeovers act on and how late stamps
      can be, an aborted row of any guarantee never had its effect land. */
  lemma AbortedMeansNothingHappened(w: World, k: Key, d: nat, f: nat, lag: nat)
    requires w.Valid() && k in w.store.ledger && w.store.ledger[k].state.Aborted?
    requires w.gp.commit.truthful && d <= w.gp.commit.window && f + Runs.Min(lag, d) <= w.gp.commit.window
    requires Runs.Timed(w.gp.commit, RunOf(w, k), d, f, lag)
    ensures w.At(k).led.cell.effects == []
  {
    w.Open();
    assert MirrorsKey(w.At(k), Lookup(w.store.ledger, k), Lookup(w.store.paused, k));
    KeyIsProtocolRun(w, k);
    Runs.AbortedRun(w.gp.commit, RunOf(w, k), d, f, lag);
  }

  /** The two tables agree, for a key claimed only through its pause. */
  lemma TablesAreCoupled(w: World, k: Key)
    requires w.Valid() && w.gp.gated(k) && k in w.store.paused
    ensures var run, row := w.store.paused[k], Lookup(w.store.ledger, k);
            && (row.Some? ==> row.value.actionType == run.actionType && !run.status.Proposed? && !run.status.Rejected?)
            && (run.status.RunCommitted? ==> row.Some? && row.value.state.Committed?)
            && (run.status.RunAborted? && row.Some? ==> row.value.state.Terminal() && !row.value.state.Committed?)
            && G.RecordedDecision(run.status, G.RowState(w.At(k))) == w.At(k).verdict
  {
    w.Open();
    assert MirrorsKey(w.At(k), Lookup(w.store.ledger, k), Lookup(w.store.paused, k));
    Reachable(w.gp, w.history, k);
    KeyIsRun(w.gp, w.history, k);
    G.GatedRunsCoupled(Of(w.gp, k), Project(w.history, k));
  }

  /** What the rows of the audit chain say about a key, read back from their payloads. */
  function Said(w: World, k: Key): seq<G.Notice>
    reads w.store
  {
    Pick(RowNotes(w.store.chain.rows), k)
  }

  /** One terminal record for a terminal row, and one for a rejection carried out. */
  function Due(run: Option<PausedRun>, row: Option<CommitRecord>, told: Option<HumanDecision>): nat {
    (if row.Some? && row.value.state.Terminal() then 1 else 0) +
    (if run.Some? && run.value.status.RunAborted? && told == Some(Reject) then 1 else 0)
  }

  /** Of every key, paused or not, claimed in whatever way: the chain's pause transitions spell
      out the path its run took, under the decision they tell of; and if its finalizations
      carry their records, the chain holds one terminal record for a terminal row, one for a
      rejection carried out, and no other. */
  lemma ChainHoldsTheEvidence(w: World, k: Key)
    requires w.Valid()
    ensures var said, run, row := Said(w, k), Lookup(w.store.paused, k), Lookup(w.store.ledger, k);
            && G.Edges(said) == (if run.None? then [] else G.PathTo(run.value.status, G.DecisionTold(said)))
            && (w.gp.recorded(k) ==> G.TerminalRecords(said) == Due(run, row, G.DecisionTold(said)))
  {
    w.Open();
    assert MirrorsKey(w.At(k), Lookup(w.store.ledger, k), Lookup(w.store.paused, k));
    assert Said(w, k) == w.At(k).trail;
    KeyIsRun(w.gp, w.history, k);
    G.EvidenceRun(Of(w.gp, k), Project(w.history, k));
    G.TrailTellsDecision(Of(w.gp, k), Project(w.history, k));
  }

  /** So a key never has two terminal records, unless its run was rejected although its key was
      claimed otherwise; a key claimed only through its pause never has. */
  lemma OneTerminalRecord(w: World, k: Key)
    requires w.Valid() && w.gp.recorded(k)
    ensures var said, run, row := Said(w, k), Lookup(w.store.paused, k), Lookup(w.store.ledger, k);
            G.TerminalRecords(said) <= 1 <==>
            !(&& row.Some? && row.value.state.Terminal()
              && run.Some? && run.value.status.RunAborted? && G.DecisionTold(said) == Some(Reject))
    ensures w.gp.gated(k) ==> G.TerminalRecords(Said(w, k)) <= 1
  {
    ChainHoldsTheEvidence(w, k);
    if w.gp.gated(k) && k in w.store.paused {
      TablesAreCoupled(w, k);
      DecisionIsTold(w, k);
    }
  }

  lemma DecisionIsTold(w: World, k: Key)
    requires w.Valid()
    ensures G.DecisionTold(Said(w, k)) == w.At(k).verdict && Row(w.At(k)) == Lookup(w.store.ledger, k)
    ensures w.At(k).run == Lookup(w.store.paused, k) && Said(w, k) == w.At(k).trail
  {
    w.Open();
    assert MirrorsKey(w.At(k), Lookup(w.store.ledger, k), Lookup(w.store.paused, k));
    assert Said(w, k) == w.At(k).trail;
    KeyIsRun(w.gp, w.history, k);
    G.TrailTellsDecision(Of(w.gp, k), Project(w.history, k));
  }

  function StateOf(row: Option<CommitRecord>): Option<LedgerState> {
    if row.Some? then Some(row.value.state) else None
  }

  /** The decision the code reports of a paused run, which it infers from the two tables, is
      the one the audit chain tells of, except exactly when the chain tells of a rejection and
      the aborted run's key has a ledger row. */
  lemma ReportedIsTold(w: World, k: Key)
    requires w.Valid() && k in w.store.paused
    ensures var run, row, told := w.store.paused[k], Lookup(w.store.ledger, k), G.DecisionTold(Said(w, k));
            G.RecordedDecision(run.status, StateOf(row)) == told <==>
            !(run.status.RunAborted? && told == Some(Reject) && row.Some?)
  {
    DecisionIsTold(w, k);
    KeyIsRun(w.gp, w.history, k);
    G.DecisionRecoveredExactly(Of(w.gp, k), Project(w.history, k));
  }

  /** All callers agree: two calls on one key that returned, at whatever moments and by
      whatever paths, returned the same outcome. */
  lemma {:induction false} CallersAgree(gp: Rules, h: Log, h': Log, k: Key, r: C.CommitResult, r': C.CommitResult)
    requires h <= h' && r.Returned? && r'.Returned?
    requires C.Agreed(r, At(gp, h, k)) && C.Agreed(r', At(gp, h', k))
    ensures r.outcome == r'.outcome
  {
    GoesOn(gp, h, h', k);
  }
}
