/** The shared vocabulary of the commit core and of the durable pause. */
module Types {
  import opened Json

  datatype Option<+T> = None | Some(value: T)

  type Key = string
  type Time = int

  datatype LedgerState = Pending | Executing | Committed | Aborted | Failed | Unknown {
    predicate Terminal() {
      Committed? || Aborted? || Failed? || Unknown?
    }
    predicate InFlight() {
      Pending? || Executing?
    }
  }

  datatype Guarantee = DownstreamIdempotent | Verifiable | AtMostOnce

  /** The answer of a probe. `Unproven` is the honest non-answer. */
  datatype Verification = Present | Absent | Unproven

  /** One row of the commit ledger. `attempts` doubles as the ownership epoch. */
  datatype CommitRecord = CommitRecord(
    key: Key,
    actionType: string,
    state: LedgerState,
    guarantee: Guarantee,
    args: Value,
    downstreamKey: Option<string>,
    result: Value,
    error: Value,
    attempts: nat,
    lastAttemptAt: Time,
    createdAt: Time,
    committedAt: Option<Time>)

  /** The columns a row keeps from its claim on. */
  predicate SameAction(a: CommitRecord, b: CommitRecord) {
    && a.actionType == b.actionType && a.guarantee == b.guarantee && a.args == b.args
    && a.downstreamKey == b.downstreamKey && a.key == b.key
  }

  datatype CommitOutcome = CommitOutcome(
    key: Key,
    state: LedgerState,
    guarantee: Guarantee,
    result: Value)

  function OutcomeFrom(r: CommitRecord): CommitOutcome {
    CommitOutcome(r.key, r.state, r.guarantee, r.result)
  }

  datatype HumanDecision = Approve | Reject

  datatype PauseStatus = Proposed | Approved | Rejected | RunCommitted | RunAborted {
    predicate Resolved() {
      RunCommitted? || RunAborted?
    }
  }

  /** The only legal status edges of a paused run. */
  predicate PauseEdge(from: PauseStatus, to: PauseStatus) {
    match from
    case Proposed => to == Approved || to == Rejected
    case Approved => to == RunCommitted || to == RunAborted
    case Rejected => to == RunAborted
    case _ => false
  }

  /** What the transport delivers with a decision, recorded once on the run. */
  datatype ApprovalDecision = ApprovalDecision(
    decision: HumanDecision,
    decidedBy: Option<string>,
    decidedAt: Option<Time>,
    latencyMs: Option<nat>,
    reason: Option<string>,
    reasonCode: Option<string>)

  datatype PausedRun = PausedRun(
    approvalRef: string,
    key: Key,
    actionType: string,
    args: Option<Value>,
    stateVersion: nat,
    status: PauseStatus,
    approvalId: Option<string>,
    decidedBy: Option<string>,
    decidedAt: Option<Time>,
    latencyMs: Option<nat>,
    reason: Option<string>,
    reasonCode: Option<string>,
    createdAt: Time,
    resolvedAt: Option<Time>)

  lemma SubsetCounts<T>(a: set<T>, b: set<T>)
    requires a <= b
    ensures |a| <= |b|
    decreases a
  {
    if x :| x in a {
      SubsetCounts(a - {x}, b - {x});
    }
  }
}
