/** The guarded updates of one ledger row and of one paused run. `None` is an update that
    matched no row. */
module Ledger {
  import opened Json
  import opened Types

  function Inserted(key: Key, action: string, g: Guarantee, args: Value, downstreamKey: Option<string>,
                    now: Time): CommitRecord {
    CommitRecord(key, action, Pending, g, args, downstreamKey, Null, Null, 1, now, now, None)
  }

  function Marked(r: CommitRecord, epoch: nat, now: Time): Option<CommitRecord> {
    if r.state.Pending? && r.attempts == epoch
    then Some(r.(state := Executing, lastAttemptAt := now))
    else None
  }

  function WithError(r: CommitRecord, epoch: nat, error: Value): Option<CommitRecord> {
    if r.state.InFlight() && r.attempts == epoch then Some(r.(error := error)) else None
  }

  /** The states each terminal state may be entered from. */
  predicate FinalizableFrom(target: LedgerState, state: LedgerState) {
    match target
    case Committed => state.Executing?
    case Aborted => state.InFlight()
    case Failed => state.Executing?
    case Unknown => state.Executing?
    case _ => false
  }

  function Finalized(r: CommitRecord, epoch: nat, target: LedgerState, result: Value, now: Time)
    : Option<CommitRecord>
  {
    if r.attempts == epoch && FinalizableFrom(target, r.state)
    then Some(r.(state := target, result := result,
                 committedAt := if target.Committed? then Some(now) else None))
    else None
  }

  function Bumped(r: CommitRecord, olderThan: int, now: Time): Option<CommitRecord> {
    if r.state.InFlight() && r.lastAttemptAt < now - olderThan
    then Some(r.(attempts := r.attempts + 1, lastAttemptAt := now))
    else None
  }

  function Paused(ref: string, key: Key, action: string, args: Option<Value>, version: nat, now: Time): PausedRun {
    PausedRun(ref, key, action, args, version, Proposed, None, None, None, None, None, None, now, None)
  }

  function Transitioned(run: PausedRun, from: PauseStatus, to: PauseStatus, decision: Option<ApprovalDecision>,
                        now: Time)
    : Option<PausedRun>
  {
    if run.status != from then None
    else
      var moved := run.(status := to, resolvedAt := if to.Resolved() then Some(now) else None);
      match decision
      case None => Some(moved)
      case Some(d) =>
        Some(moved.(decidedBy := d.decidedBy, decidedAt := if d.decidedAt.Some? then d.decidedAt else Some(now),
                    latencyMs := d.latencyMs, reason := d.reason, reasonCode := d.reasonCode))
  }
}
