# Airlock, modelled and proved in Dafny

Airlock makes an agent's side effects happen at most once and leaves a tamper-evident record
of what happened. This project models its three linked parts and proves what they promise.
`dafny verify dfyconfig.toml` checks everything.

**The commit ledger** (`Ledger`, `Protocol`, `Fencing`, `Timing`, `Runs`). A row per key is
moved by guarded updates; owners, losers, fenced owners and reconcilers race for it.
`Protocol` is the transition system of one key. Each epoch that a claim or a takeover hands
out is a ticket that records how far its holder got. A crash needs no step of its own: an
actor may simply do nothing more, and an execute call it left behind may still land. `Runs`
states the theorems over every run.

**The durable pause** (`Gate`). The paused run, the decision that won, and the audit trail of
a key, coupled to its ledger row.

**The audit chain, canonical text and keys** (`Json`, `Canonical`, `Reader`, `KeyOrder`,
`Utf8`, `Audit`, `Tamper`, `VerifyChain`, `SuffixFree`, `Idempotency`, `DecimalString`,
`Arguments`, `Rebinding`). String escapes follow section 7 of RFC 8259; keys are ordered by
code point, unlike section 3.2.3 of RFC 8785. The hash is an arbitrary function: results
say "equal, or these two preimages collide".

**From tables to programs** (`Store`, `History`, `Moves`, `Evidence`, `World`, `Effects`,
`Reports`, `Recovery`, `Reconcile`, `Commit`, `Pause`, `Sweeps`, `Guarantees`). `Store` is the
SQLite store as a class whose methods are transactions. `World` is a process on that store:
before each of its operations any number of operations of any other actors may happen. Its
invariant ties the tables, key by key, to the history of everything done, and the audit
chain, read back from its payloads, to what that history recorded. The imperative code --
`commit_once`, the reconciler, `apply_decision`, the sweeps -- is written against `World`, so
each step it takes must be one the protocol allows, and its contracts hold under every
interleaving. `Guarantees` brings the theorems about runs back to the tables.

A `World` carries its hypotheses as parameters. `gp.commit.steady`: action types keep the
effect their rows were claimed under. `gp.gated(k)`: the key `k` is claimed only through its
pause. `gp.recorded(k)`: each finalization of `k` carries its audit record. `calm`: of the
others nothing is running, so that between two operations only time passes, execute returns,
and probes answer what is the case; what contracts say of an undisturbed process is under it,
and the convergence results are. `gp.commit.window` is a lower bound of every `older_than`,
and `gp.commit.truthful` says probes do not lie.

The store refuses a canonical record only when the chain has run out of numbers, after
9007199254740991 of them. `World.Full` says that it has no room for the two records a
transaction may carry; every contract that lets an operation raise says so, or names what else
it was: an epoch beyond that number, or an approval reference that is taken.

Lemmas on which Dafny would try induction by itself switch that off; where one is inductive,
its induction is written out.

## Where the code and its documentation differ

- `execute_timeout < older_than` bounds how long an owner waits, not how long its call runs:
  an abandoned call goes on in its thread, and a reconciler's own execute has no timeout at
  all. So "calls end within the window of their last stamp" is a hypothesis here, on
  reconcilers as well. `Runs.AtMostOnceExactlyWithinWindow` shows it is exactly what is needed.
- Recovery dispatches on the state read before the takeover, and a claim, a mark and a takeover
  read the clock for their stamp before they wait for the write lock. An aborted row may
  therefore have had its effect, unless the window covers the age of that read together with
  how late a stamp can be: `Runs.AbortedIsCleanExactlyWhenFresh`, with the failing runs
  `Runs.StaleReadAborts` and `Runs.LateOwnerLandsAborted`.
- The decision reported for an aborted run is inferred from whether a ledger row exists. It is
  wrong exactly when a rejected run's key was claimed some other way:
  `Gate.DecisionRecoveredExactly`, with the instance `Gate.RejectionMisread`. The audit chain
  always tells the decision: `Guarantees.ReportedIsTold`. Such a key can also have two terminal
  records: `Gate.OneRecordExactly`, with the instance `Gate.TwoRecords`.
- Recovery binds the argument map by position, so leaving an ignored positional parameter out
  of the map shifts the later ones: `Rebinding.RecoveryKeepsExactly`.

## Model

| member | source | states |
|---|---|---|
| Runs.AtMostOnceExactlyWithinWindow | src/airlock/reconcile.py:228-254 | With truthful probes, a verifiable effect lands at most once in every run in which each call ends within `d` of its caller's last stamp, if and only if `d` is at most the window that every takeover waits |
| Runs.LateOwnerLandsTwice | src/airlock/reconcile.py:969-1118 | The failing run when calls outlive the window: a reconciler probes absent, executes again, and then the first owner's effect lands too |
| Timing.OnlyCurrentLands | src/airlock/reconcile.py:666-675 | A takeover proves the window of every earlier holder closed, so only the call of the current epoch can still land |
| Timing.LandsOnceStep | src/airlock/reconcile.py:791-872 | Every step of every actor keeps: at most one landed effect, none under an epoch that may still execute, and terminal states that tell the truth |
| Runs.VerifiableVerdict | src/airlock/commit.py:449-491 | If an action keeps the effect it was claimed under, a verifiable row that says committed landed exactly once, one that says failed never, and none says unknown |
| Runs.AbortedIsCleanExactlyWhenFresh | src/airlock/reconcile.py:725-756 | An aborted row never had its effect land in every run whose calls end within `d` of their stamp, whose takeovers follow their reads within `f` and whose stamps lag their writes by at most `lag`, if and only if `d` is within the window and so is `f` plus the smaller of `lag` and `d`: the dispatch state is read before the takeover, and stamps are read before the write lock |
| Runs.StaleReadAborts | src/airlock/reconcile.py:637-693 | The failing run when an old read and a late stamp together outlast the window: read pending just before the mark, marked under an earlier stamp, landed, aborted |
| Runs.LateOwnerLandsAborted | src/airlock/reconcile.py:725-756 | The failing run when calls outlive the window: a reconciler probes absent and aborts, and then the first owner's effect lands |
| Timing.LandedSinceReadStep | src/airlock/store/sqlite.py:647-660 | Every step keeps: if an effect landed although an actor has read the row pending, the row was stamped at most the length of a call before that read |
| Timing.FreshTakeover | src/airlock/store/sqlite.py:325-331 | A takeover whose read is no older than the window less the lag of stamps finds state and epoch as they were read |
| Runs.AtMostOneInvocation | src/airlock/reconcile.py:931-966 | A row with guarantee none is executed at most once in every run, with no assumption about time or probes |
| Runs.DownstreamSeesOneKey | src/airlock/effects.py:95-119 | Every execute call of a key, by owner or recoverer, carries the downstream key stored at the claim; a row has one exactly under the guarantee that needs it; so a downstream that drops repeated keys performs one effect at most |
| Runs.EpochsIssuedOnce | src/airlock/store/sqlite.py:319-331 | In every run each epoch up to `attempts` was issued, to one actor; `attempts` is one plus the successful takeovers; a row was finalized once exactly if it is terminal |
| Runs.FencedOut | src/airlock/store/sqlite.py:299-317 | A mark, error note or finalization under a superseded epoch changes no column of the row |
| Runs.RunsContinue | src/airlock/store/sqlite.py:406-429 | Whatever follows, an epoch keeps its holder, a terminal row is frozen in all columns, and no effect is undone |
| Runs.ResultsAreAnswers | src/airlock/commit.py:471-491 | A committed row's result is a value some execute call returned, or the evidence of a probe that answered present; every other row has none |
| Runs.CallsFollowPreconditions | src/airlock/commit.py:368-397 | Every execute call, first or recovering, comes after its caller found the preconditions to hold under the epoch it calls with |
| Gate.DecisionRecoveredExactly | src/airlock/pause.py:702-719 | The decision inferred from status and ledger row is the decision that won, except exactly when the audit trail tells of a rejection, the run is aborted and its key has a row |
| Gate.DecisionReportedLater | src/airlock/pause.py:702-719 | What will be reported of a run seen decided: an approval always as one; a rejection as one until its run is aborted while its key has a row, and then as an approval |
| Gate.TrailTellsDecision | src/airlock/pause.py:166-202 | In every run the pause records on the trail tell the decision that won |
| Gate.RejectionMisread | src/airlock/pause.py:702-719 | The exception happens: a rejection of a key that an ungated call had claimed is reported as an approval |
| Gate.GatedRunsCoupled | src/airlock/pause.py:382-526 | For a key claimed only through its pause: committed run, committed row; approved then aborted, a terminal row that is not committed; rejected, no row; and the inferred decision is right |
| Gate.CoupledStep | src/airlock/pause.py:429-526 | Every step of every actor keeps run and ledger row coupled |
| Gate.FirstDecisionStands | src/airlock/store/sqlite.py:382-403 | The first decision's metadata is never overwritten, the status only moves forward along the graph, and a resolved run is frozen |
| Gate.EvidenceRun | src/airlock/store/sqlite.py:670-704 | In every run, of guarded and direct calls alike, the pause records spell the path of the run; and where every finalization carries its record, the terminal records are one for a terminal row and one for a rejection carried out |
| Gate.OneRecordExactly | src/airlock/store/sqlite.py:670-704 | So there are two terminal records exactly when the run was rejected and the row, claimed some other way, is terminal too; never for a key claimed only through its pause |
| Gate.TwoRecords | src/airlock/pause.py:382-426 | That happens: a direct call owns the key whose pause is rejected, and aborts |
| Gate.LedgerRun | src/airlock/pause.py:529-564 | The ledger part of any gated run is a run of the commit protocol, so every theorem about those holds of it |
| History.KeyIsRun | src/airlock/store/sqlite.py:505-568 | What one key goes through among all keys of a database is a run of the gate |
| History.OthersGate | src/airlock/store/sqlite.py:299-331 | No operation of another actor touches the epochs and readings an actor holds |
| History.GoesOn | src/airlock/store/sqlite.py:406-429 | However a history goes on, each key goes on from where it was: decided runs, frozen rows, growing trail |
| History.MineIsKept | src/airlock/store/sqlite.py:299-317 | Any interference by others leaves an actor's epoch, its phase and its reading in place |
| Store.Store.Claim | src/airlock/store/sqlite.py:613-645 | Inserts at epoch 1 iff the key is free, stamped with the clock read before the write lock; otherwise returns the row there is and changes nothing |
| Store.Store.MarkExecuting | src/airlock/store/sqlite.py:647-660 | pending to executing under the given epoch, stamped with the clock read before the write lock, or no change |
| Store.Store.RecordError | src/airlock/store/sqlite.py:662-668 | Writes the error of an in-flight row under the given epoch, or nothing |
| Store.Store.Finalize | src/airlock/store/sqlite.py:670-704 | Swap and audit append are one transaction: matched, fenced or raised, and in the last two cases no table changes |
| Store.Store.BumpEpoch | src/airlock/store/sqlite.py:717-727 | Takes over an in-flight row older than the cutoff, raising the epoch and stamping it with the clock read before the write lock, or changes nothing |
| Store.Store.StaleInflight | src/airlock/store/sqlite.py:711-715 | Exactly the stale in-flight rows, each once, oldest first |
| Store.Store.SavePaused | src/airlock/store/sqlite.py:729-767 | Creates a proposed run with its audit record, or returns the run of that key, or raises and changes nothing |
| Store.Store.TransitionPaused | src/airlock/store/sqlite.py:774-823 | Compare-and-set along a legal edge with its records in one transaction; fenced or raised changes nothing |
| Store.Store.StaleApprovedPaused | src/airlock/store/sqlite.py:825-829 | Exactly the stale approved runs, each once, in decision order |
| Store.Store.StalePolledPaused | src/airlock/store/sqlite.py:838-844 | Exactly the stale proposed runs with a hosted id, each once, in creation order |
| Store.Store.AppendAllOn | src/airlock/store/sqlite.py:851-893 | Appends all events in order or none |
| Store.AppendAllRaises | src/airlock/store/sqlite.py:851-893 | A transaction of canonical payloads raises exactly when the chain has no number left for its last record |
| Store.Select | src/airlock/store/sqlite.py:311-316 | SELECT with a filter and an ORDER BY: contains a row iff it is wanted, each once, sorted |
| Store.FreshChain | src/airlock/store/sqlite.py:570-575 | The seeded chain is unbroken and the store's append keeps every unbroken chain so |
| World.World.Others | src/airlock/store/sqlite.py:505-568 | Any number of operations of other actors happen, in calm only the clock; tables still mirror the history, and none was this actor's |
| World.World.Claim | src/airlock/commit.py:346-366 | The winner owns epoch 1; a loser sees the row that is there |
| World.World.Bump | src/airlock/reconcile.py:666-678 | A takeover owns the next epoch with the state and downstream key of the earlier read; it succeeds iff the row is stale by the clock read before the lock, and otherwise changes nothing |
| World.World.Mark | src/airlock/commit.py:399-412 | The marker lands iff the epoch is current and the row pending; otherwise a later epoch owns the row or it is no longer pending |
| World.World.Vet | src/airlock/reconcile.py:1244-1256 | Preconditions are asked after the claim or takeover; one that raises counts as a no where the code coerces it |
| World.World.Execute | src/airlock/commit.py:527-583 | One call with the given downstream key; it may land while it runs, and after a timeout it runs on |
| World.World.Finalize | src/airlock/reconcile.py:1181-1227 | Matched, the row ends in the target with the result; fenced, a later epoch owns it or it is terminal; raised, the chain has no room; undisturbed and current it is not fenced |
| World.World.Escalate | src/airlock/reconcile.py:1158-1178 | The record is the last thing on the history, or the chain has no room; the row stays |
| World.World.Propose | src/airlock/_guard.py:815-909 | Saves a run, or hands out the one there is; neither only if another run has the reference or the chain has no room |
| World.World.Decide | src/airlock/pause.py:292-319 | A won decision swap records exactly this decision; one that is lost changes nothing, and is lost to a racer, an earlier decision or a full chain |
| World.World.Resolve | src/airlock/pause.py:481-526 | The run ends resolved by this swap or by a racer's, unless the chain has no room |
| World.FreshWorld | src/airlock/audit.py:190-205 | A database just set up meets every hypothesis of this model: its chain is the genesis row, which says nothing of any key |
| World.ChainNext | src/airlock/store/sqlite.py:851-893 | The audit rows about every key, read back, stay equal to what its history recorded |
| Evidence.AppendsAddNotes | src/airlock/store/sqlite.py:851-893 | A transaction's appends add to the chain exactly what its events say, in order |
| Recovery.Recover | src/airlock/reconcile.py:40-60 | The recovery table, refined: which outcome is reported is fixed by state, guarantee, policy, probe answer and preconditions; what is reported is true of the row; nothing is reported only when it cannot be recorded; undisturbed, a provable row is settled |
| Recovery.RecoverEffectFree | src/airlock/reconcile.py:725-788 | Abort on policy; else retry iff preconditions hold, else abort; nothing only when it cannot be recorded |
| Recovery.RerunIfHeld | src/airlock/reconcile.py:760-788 | Preconditions are asked again after the takeover: held, the effect runs again; not held, the row is settled as its guarantee says; nothing only when it cannot be recorded |
| Recovery.RecoverVerifiable | src/airlock/reconcile.py:791-872 | Present commits with the evidence, absent aborts or retries, unknown is left and escalated; undisturbed the answer is the truth and the row is settled |
| Recovery.RecoverDownstreamIdempotent | src/airlock/reconcile.py:875-928 | Re-issued iff preconditions hold, else unknown; nothing only when it cannot be recorded |
| Recovery.RecoverNone | src/airlock/reconcile.py:931-966 | Unknown for good, never executed again; nothing only when it cannot be recorded |
| Recovery.Reexecute | src/airlock/reconcile.py:969-1118 | Marks a pending row first, executes under the new epoch, verifies, and commits, fails or leaves the row with an escalation on record; lost only if a later epoch owns the row, it is terminal, or it is no longer pending as read |
| Recovery.Settle | src/airlock/reconcile.py:1181-1227 | Evidence first, then the terminal state with its result; a fenced write is reported as such, and one that raised found no room for its record |
| Recovery.LeaveEscalated | src/airlock/reconcile.py:1158-1178 | The row keeps its state; the escalation is the last thing on record, unless it could not be recorded |
| Recovery.TakeOver | src/airlock/reconcile.py:627-693 | Skipped iff the row could not be taken over, which is then not stale; else by the table; nothing only when the key's recovery cannot be recorded |
| Recovery.ReconcileRow | src/airlock/reconcile.py:627-722 | One action for the row: unregistered iff its action is unknown here, and then nothing is touched; it raises only when the recovery cannot be recorded |
| Recovery.ReconcileKey | src/airlock/reconcile.py:341-383 | Refuses a bad window first; nothing to do iff the row it read was absent or terminal; what it reports follows from that row and is true of the key; it raises only when the recovery cannot be recorded |
| Recovery.ReconcileEventSays | src/airlock/reconcile.py:1121-1155 | The event reads back as a recovery to the state it names, or as an escalation |
| Reconcile.Reconcile | src/airlock/reconcile.py:274-338 | A pass over exactly the rows that were stale when it scanned: one action each, in scan order, tallied, each by the table and true at the end; it stops early only at a row whose recovery cannot be recorded; undisturbed it settles every row it knows and touches no other |
| Reports.Report.Record | src/airlock/reconcile.py:205-226 | Counts always tally the actions |
| Reports.Report.Count | src/airlock/reconcile.py:220-221 | How many of the recorded actions had an outcome |
| Commit.CommitOnce | src/airlock/commit.py:127-491 | Refuses bad options, uncanonical arguments and a broken key map, in this order, before anything is durable; whatever path it takes, if it returns, its outcome is the key's frozen terminal row; each later refusal says what is left behind; a foreign action is refused |
| Commit.RunAsOwner | src/airlock/commit.py:367-412 | Aborts when preconditions fail, shows a raised one to the caller, else marks and executes; undisturbed it returns unless the chain has no room |
| Commit.MarkAndRun | src/airlock/commit.py:398-447 | Executes only after its durable marker; a fenced owner waits instead |
| Commit.AfterExecute | src/airlock/commit.py:449-491 | Undisturbed it returns unless the chain has no room: failed iff there is a probe and it finds nothing, else committed with what execute returned |
| Commit.FinalizeCall | src/airlock/commit.py:471-487 | The terminal write of a guarded call carries its action event, any other call's none; it raises only with an event and no room for it |
| Commit.ActionEventSays | src/airlock/events.py:175-200 | The action event of a guarded call reads back as one terminal outcome of its key |
| Commit.AwaitTerminal | src/airlock/commit.py:761-815 | Over a terminal row a loser returns its outcome and writes nothing; else it returns, times out on a row that undisturbed is still not terminal, or meets a recovery that cannot be recorded; undisturbed it does not time out on a stale row it can recover |
| Commit.TryInlineReconcile | src/airlock/commit.py:818-851 | Without an age it does nothing; it answers with a terminal row's outcome or with a recovery that cannot be recorded; undisturbed it answers for every stale row it can recover |
| Guarantees.CallersAgree | src/airlock/commit.py:751-758 | Two calls on one key that returned, at any moments and by any paths, returned the same outcome |
| Pause.ApplyDecision | src/airlock/pause.py:205-360 | Under any interference it settles after at most two readings; never reports proposed when given a decision; on a resolved run it writes nothing; undisturbed, the decision given to an undecided run is the one on record; each refusal has its cause |
| Pause.DriveHome | src/airlock/pause.py:321-360 | The eight-reading bound is unreachable, and undisturbed a run that can be resumed is resolved unless the chain has no room |
| Pause.TryDecide | src/airlock/pause.py:292-319 | A won swap puts the completed decision on record; a lost one changes nothing; it raises only when the chain has no room |
| Pause.DriveRejected | src/airlock/pause.py:382-426 | rejected to aborted with both records in one transaction, or a racer did it; it raises only when the chain has no room |
| Pause.DriveApproved | src/airlock/pause.py:429-526 | Through the ledger: the terminal row decides committed or aborted; it stops only for an unknown action, lost arguments, a refused commit or a full chain |
| Pause.CommitForPause | src/airlock/pause.py:529-564 | Every resume is one commit of the run's key, which an approved run may claim; undisturbed it returns unless the chain has no room |
| Pause.ReportRun | src/airlock/pause.py:675-699 | A resolved run is reported with its row's state and result and the decision that won |
| Pause.StaysOnRecord | src/airlock/pause.py:363-379 | A decision on record stays the one on record |
| Pause.TransitionEventSays | src/airlock/pause.py:166-202 | The record of an edge reads back as that edge |
| Pause.RejectionSays | src/airlock/pause.py:393-424 | A rejection's two records read back as its edge and one terminal outcome |
| Sweeps.RecoverAfterCrash | src/airlock/reconcile.py:274-527 | Crash convergence, with actions registered, execute returning, probes answering and room on the chain: a reconcile pass and then a reconcile_paused pass resolve every stale approved run whose row is absent, terminal or stale, and leave its row terminal, whatever other rows and runs look like and however the clock moves |
| Sweeps.ReconcilePaused | src/airlock/reconcile.py:446-527 | One action for exactly the runs that were approved and stale when it scanned, and no work on any other key; a status it reports is the one the run keeps; undisturbed it resolves every run that can be resumed unless the chain has no room |
| Sweeps.BackstopPollPaused | src/airlock/reconcile.py:530-611 | One poll for exactly the runs that were proposed, stale and hosted when it scanned; it works on the keys of those with a decision and on no other |
| Sweeps.DurablePause | src/airlock/_guard.py:815-909 | The tool's result surfaces only if the run committed with it, a rejection only if it was rejected, a failed precondition only if it was approved and aborted; pending only if no decision was waited for; not paused only if the reference is taken or the chain has no room |
| Sweeps.DeliverAndWait | src/airlock/_guard.py:912-979 | Pending iff nobody answered while waiting |
| Guarantees.TablesKeepTheProtocol | src/airlock/store/sqlite.py:613-725 | Of any stored row at any moment: epoch, finalization count, single downstream key, one invocation under guarantee none |
| Guarantees.TablesTellTheTruth | src/airlock/reconcile.py:228-254 | Of any stored verifiable row at any moment, if calls end within the window |
| Guarantees.AbortedMeansNothingHappened | src/airlock/reconcile.py:725-756 | Of any stored aborted row, if the window covers calls, and the age of reads with the lateness of stamps |
| Guarantees.TablesHoldAnswers | src/airlock/commit.py:471-491 | Of any stored row: its result is an answer someone got, iff committed |
| Guarantees.TablesAreCoupled | src/airlock/pause.py:382-526 | Of any paused run and its ledger row, for a key claimed only through its pause, whatever happens to other keys |
| Guarantees.ChainHoldsTheEvidence | src/airlock/store/sqlite.py:670-704 | Of the audit table itself and every key: its pause records spell its run's path, and if its finalizations carry records, it holds one terminal record for a terminal row, one for a rejection carried out, and no other |
| Guarantees.OneTerminalRecord | src/airlock/store/sqlite.py:670-704 | Of the audit table itself: a second terminal record exactly if the chain tells of a rejection carried out and the row is terminal; never for a key claimed only through its pause |
| Guarantees.ReportedIsTold | src/airlock/pause.py:702-719 | Of any paused run: the decision reported from the two tables is the one the audit chain tells, except exactly when it tells of a rejection and the aborted run's key has a row |
| Audit.AppendKeepsChain | src/airlock/store/sqlite.py:851-893 | An append to an unbroken chain adds one row saying what was asked and keeps it unbroken; it raises iff the payload or the number is outside the canonical domain |
| Audit.LinkedAscends | src/airlock/audit.py:285-330 | Linked rows are numbered without gaps |
| Audit.GenesisChains | src/airlock/audit.py:190-205 | The genesis table is an unbroken chain |
| Tamper.HeadHashPinsTable | src/airlock/audit.py:158-187 | Two tables that pass in full with one head hash agree on every hashed column of every row, or two of their rows exhibit colliding preimages |
| Tamper.RowHashPinsColumns | src/airlock/audit.py:133-187 | Two sound rows with one hash agree on every hashed column, or their preimages collide |
| Tamper.Rfc3339IsInjective | src/airlock/audit.py:112-130 | Two instants with one rendering are equal |
| Tamper.FullIsPrefixAndCheckpoint | src/airlock/audit.py:374-409 | A full pass accepts iff, at any row, the pass up to it and the checkpoint pass from it both accept |
| VerifyChain.VerifyChain | src/airlock/audit.py:234-371 | On a quiet table accepts exactly the unbroken chains and otherwise names the first row at fault; never reports a break of a chain the store built, whatever is appended between its reads |
| VerifyChain.BlamedRow | src/airlock/audit.py:374-409 | The number an error carries is the faulty row's, or the checkpoint's for the first row below one |
| VerifyChain.CatchUp | src/airlock/audit.py:331-366 | Ends, because each round consumes a row or gives up; accepts iff the head it last read is the row it last consumed |
| VerifyChain.Consume | src/airlock/audit.py:285-330 | Stops at the first row not accepted |
| VerifyChain.AppendingKeeps | src/airlock/store/sqlite.py:851-893 | Appends by other processes add at most one row each and keep an honest chain honest |
| Canonical.CheckAcceptsPermitted | src/airlock/_canonical.py:183-230 | The domain check accepts exactly values built of permitted parts |
| Reader.CanonReadsBack | src/airlock/_canonical.py:91-107 | Parsing canonical text gives the value back with members in key order |
| KeyOrder.CanonDecidesSame | src/airlock/_canonical.py:91-107 | Two values print equally iff they are equal up to key order |
| Utf8.EncodeIsInjective | src/airlock/_canonical.py:110-117 | The UTF-8 encoding loses nothing |
| SuffixFree.NoProperSuffix | src/airlock/idempotency.py:48-80 | No proper suffix of a canonical object is a canonical object |
| Idempotency.PreimageDetermines | src/airlock/idempotency.py:48-80 | The separator-free preimage determines action type and canonical map, braces and quotes in the action type included |
| Idempotency.KeysDetermineCalls | src/airlock/idempotency.py:48-80 | Two derived keys are equal iff action and map are, or their two preimages collide |
| Idempotency.DeriveKey | src/airlock/idempotency.py:48-80 | Feeding the hasher in three parts computes the key of the concatenation, and refuses what the code refuses |
| Idempotency.NamespacedIsInjective | src/airlock/idempotency.py:179-210 | A namespaced key determines action type and user key |
| Idempotency.NamespacedIsNotDerived | src/airlock/idempotency.py:179-210 | A namespaced key is never a derived one |
| DecimalString.RenderIsExact | src/airlock/_canonical.py:119-158 | Reading a rendering back gives the same number, for every digit count and exponent |
| DecimalString.RenderIsCanonical | src/airlock/types.py:307-332 | Two decimals render equally iff they are numerically equal |
| Arguments.BuildArgMap | src/airlock/idempotency.py:83-176 | The loop builds the map of the bound parameters, and reports unknown names, calls that do not bind and collisions |
| Arguments.BindFromMap | src/airlock/_guard.py:1221-1268 | The loop takes the parameters out of the map in declaration order and binds them again |
| Rebinding.RecoveryMakesTheSameCall | src/airlock/_guard.py:1221-1268 | With nothing ignored, recovery binds exactly what the owner's live call bound, for every mix of parameter kinds |
| Rebinding.RecoveryBindsTheLiveCall | src/airlock/_guard.py:1186-1268 | With ignored names, each kept parameter gets its value, the key parameter the stored downstream key, each ignored one its default; it fails iff one has none |
| Rebinding.RecoveryKeepsExactly | src/airlock/idempotency.py:133-176 | Recovery keeps every kept value of every call of a signature iff no ignored positional parameter stands before a kept one and ignored ones have defaults |
| Rebinding.PassedByName | src/airlock/idempotency.py:133-176 | Passing an argument by name gives the same map as by place |
| Rebinding.DefaultLeftOut | src/airlock/idempotency.py:133-176 | Leaving a keyword's default out gives the same map as passing it |
| Rebinding.LastDefaultLeftOut | src/airlock/idempotency.py:133-176 | So does leaving out a last positional argument equal to its default, positional-only or not |
| Rebinding.SameMapExactly | src/airlock/idempotency.py:133-176 | Two calls of a signature get the same map exactly when they pass the same values for everything not ignored, by place or by name, spelled out or defaulted |

## Left out

- HTTP, console and hosted transports, the ASGI receiver and the CLI: a delivered decision is an arbitrary argument of `apply_decision`.
- HMAC signing and header parsing.
- The async bridge and the worker pool: an async effect is an ordinary execute call.
- SQLite connections, busy retries, `close()` and the SQL text: each write block is one atomic method; a write that fails for reasons of the connection is not modelled.
- The PostgreSQL store: same guards, other dialect.
- Event sinks, warnings and message texts; audit payloads carry the key, outcome, states, edge, epoch, guarantee and reason, and not their other columns, nor an append that one of those would make raise.
- Policies, rules, previews and the direct (ungated) path of `@guard`.
- User callables: execute, probes and preconditions answer arbitrarily, probes subject to `truthful`.
- Python introspection: a signature is a list of parameters with their kinds and defaults; a keyword passed for a positional-only name goes to `**kwargs` if there is one.
- The `error` column when outcomes are compared: the winner may add a note the row lacks.
- `_json_safe`: results and evidence are JSON values already.
- `run_id`: a run is identified by its idempotency key and its `approval_ref`.
- `decided_by_display`, propose-time precondition snapshots and risk metadata of a run.
- The wait of a loser is a number of polls instead of a deadline on the clock.
- `created_at`, `decided_at` and `resolved_at` of a run are stamped when its transaction runs; the code reads the clock just before the lock, as it does for the ledger, where the model has the difference. No result rests on them.
- One clock stamps all rows; clock skew between processes is not modelled. The chain's own timestamps are separate and arbitrary.
- Timestamps are UTC instants of the years 1000 to 9999; conversion from other zones is not modelled.
- Parsing of `Money` amounts and currencies; only their rendering is modelled.
- Runtime errors other than those named in the results, such as exhausted memory.
- World.World.Execute: undisturbed, an execute call returns; a call that never ends is an actor that does nothing more, and is not undisturbed.
- Sweeps.RecoverAfterCrash: two passes by one process, with nobody else running; a crash during them is a crash before the next two.
- Sweeps.BackstopPollPaused: one poll per run, with the answers given in advance as a function of the hosted id.
- VerifyChain.VerifyChain: exact acceptance is stated for a table at rest; under concurrent appends, that an honest chain is accepted.
