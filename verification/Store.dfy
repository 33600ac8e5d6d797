/** The store: the commit ledger, the paused runs and the audit chain, each method one
    transaction. A method that raises leaves every table as it found it. */
module Store {
  import opened Json
  import opened Types
  import opened Canonical
  import opened Hashing
  import opened Audit
  import L = Ledger

  /** How a guarded update ended: one row matched, none did, or it raised and rolled back. */
  datatype Written = Matched | Fenced | Raised

  datatype PauseClaim = Created(run: PausedRun) | Existing(run: PausedRun) | NotSaved

  type Appender = (AuditTable, AuditEvent, Moment) -> Appended

  /** The append of the audit chain, hashing with the given function. */
  function Appending(hash: Hash): Appender {
    (t: AuditTable, e: AuditEvent, now: Moment) => Append(hash, t, e, now)
  }

  ghost function Unbroken(hash: Hash): AuditTable -> bool {
    (t: AuditTable) => ChainOk(hash, Genesis, t)
  }

  /** Appends keep the chain, and raise exactly when the payload or the row's number leaves
      the canonical domain. */
  ghost predicate Keeps(chainOk: AuditTable -> bool, append: Appender) {
    forall t, e, now {:trigger append(t, e, now)} :: chainOk(t) ==>
      && (append(t, e, now).Raised? <==> |t.rows| > MAX_CANONICAL_INT || !Permitted(e.payload))
      && (append(t, e, now).Table? ==> chainOk(append(t, e, now).table) && AddedRow(t, e, append(t, e, now).table))
  }

  /** One row was added, at the end, and it says what was asked. */
  ghost predicate AddedRow(t: AuditTable, e: AuditEvent, t': AuditTable) {
    |t'.rows| == |t.rows| + 1 && t'.rows[..|t.rows|] == t.rows && Says(t'.rows[|t.rows|], e)
  }

  lemma AppendingKeeps(hash: Hash)
    ensures Keeps(Unbroken(hash), Appending(hash))
  {
    forall t, e, now | ChainOk(hash, Genesis, t)
      ensures Append(hash, t, e, now).Raised? <==> |t.rows| > MAX_CANONICAL_INT || !Permitted(e.payload)
      ensures Append(hash, t, e, now).Table? ==>
                ChainOk(hash, Genesis, Append(hash, t, e, now).table) && AddedRow(t, e, Append(hash, t, e, now).table)
    {
      AppendKeepsChain(hash, t, e, now);
    }
  }

  /** The seeded chain is unbroken and the store's append keeps it so. */
  lemma FreshChain(hash: Hash)
    ensures Keeps(Unbroken(hash), Appending(hash)) && Unbroken(hash)(GenesisTable(hash))
  {
    GenesisChains(hash);
    AppendingKeeps(hash);
  }

  /** Several appends in one transaction: all of them or none. */
  function AppendAll(append: Appender, t: AuditTable, es: seq<AuditEvent>, now: Moment): Appended {
    if es == [] then Table(t)
    else
      match AppendAll(append, t, es[..|es| - 1], now)
      case Raised => Appended.Raised
      case Table(t') => append(t', es[|es| - 1], now)
  }

  lemma {:induction false} AppendAllKeeps(chainOk: AuditTable -> bool, append: Appender, t: AuditTable,
                                          es: seq<AuditEvent>, now: Moment)
    requires Keeps(chainOk, append) && chainOk(t) && AppendAll(append, t, es, now).Table?
    ensures chainOk(AppendAll(append, t, es, now).table)
    ensures |AppendAll(append, t, es, now).table.rows| == |t.rows| + |es|
  {
    if es != [] {
      AppendAllKeeps(chainOk, append, t, es[..|es| - 1], now);
    }
  }

  /** Every payload is in the canonical domain. */
  ghost predicate Writable(es: seq<AuditEvent>) {
    forall i :: 0 <= i < |es| ==> Permitted(es[i].payload)
  }

  /** The last row of a chain can carry the largest number there is. */
  predicate HasRoom(rows: nat, n: nat) {
    rows + n <= MAX_CANONICAL_INT + 1
  }

  /** A transaction with such payloads raises exactly when the chain has no room for it. */
  lemma {:induction false} AppendAllRaises(chainOk: AuditTable -> bool, append: Appender, t: AuditTable,
                                           es: seq<AuditEvent>, now: Moment)
    requires Keeps(chainOk, append) && chainOk(t) && Writable(es)
    ensures AppendAll(append, t, es, now).Raised? <==> es != [] && !HasRoom(|t.rows|, |es|)
  {
    if es != [] {
      var front := es[..|es| - 1];
      AppendAllRaises(chainOk, append, t, front, now);
      if AppendAll(append, t, front, now).Table? {
        AppendAllKeeps(chainOk, append, t, front, now);
      }
    }
  }

  predicate Stale(r: CommitRecord, cutoff: Time) {
    r.state.InFlight() && r.lastAttemptAt < cutoff
  }

  predicate StaleApproved(r: PausedRun, cutoff: Time) {
    r.status.Approved? && r.decidedAt.Some? && r.decidedAt.value < cutoff
  }

  predicate StalePolled(r: PausedRun, cutoff: Time) {
    r.status.Proposed? && r.approvalId.Some? && r.createdAt < cutoff
  }

  /** `ORDER BY`, one row at a time. */
  function InsertBy<R>(rank: R -> int, r: R, rows: seq<R>): seq<R> {
    if rows == [] then [r]
    else if rank(rows[0]) <= rank(r) then [rows[0]] + InsertBy(rank, r, rows[1..])
    else [r] + rows
  }

  /** A relation that holds between a row and all later ones. */
  ghost predicate Pairwise<R>(rel: (R, R) -> bool, rows: seq<R>) {
    forall i, j :: 0 <= i < j < |rows| ==> rel(rows[i], rows[j])
  }

  ghost predicate InOrder<R>(rank: R -> int, rows: seq<R>) {
    Pairwise((x: R, y: R) => rank(x) <= rank(y), rows)
  }

  lemma {:induction false} InsertByHas<R>(rank: R -> int, r: R, rows: seq<R>, x: R)
    ensures x in InsertBy(rank, r, rows) <==> x == r || x in rows
  {
    if rows != [] {
      InsertByHas(rank, r, rows[1..], x);
      assert rows == [rows[0]] + rows[1..];
    }
  }

  /** What holds of the new row and of every row holds of the rows with it inserted. */
  lemma {:induction false} InsertByAll<R>(rank: R -> int, r: R, rows: seq<R>, holds: R -> bool)
    requires holds(r) && forall x :: x in rows ==> holds(x)
    ensures forall x :: x in InsertBy(rank, r, rows) ==> holds(x)
  {
    forall x | x in InsertBy(rank, r, rows) ensures holds(x) {
      InsertByHas(rank, r, rows, x);
    }
  }

  lemma PairwiseCons<R>(rel: (R, R) -> bool, r: R, rows: seq<R>)
    requires Pairwise(rel, rows) && forall x :: x in rows ==> rel(r, x)
    ensures Pairwise(rel, [r] + rows)
  {
    var all := [r] + rows;
    forall i, j | 0 <= i < j < |all| ensures rel(all[i], all[j]) {
      assert all[j] == rows[j - 1] && rows[j - 1] in rows;
      if i > 0 { assert all[i] == rows[i - 1]; }
    }
  }

  lemma {:induction false} InsertByKeepsOrder<R>(rank: R -> int, r: R, rows: seq<R>)
    requires InOrder(rank, rows)
    ensures InOrder(rank, InsertBy(rank, r, rows))
  {
    if rows != [] && rank(rows[0]) <= rank(r) {
      InsertByKeepsOrder(rank, r, rows[1..]);
      forall x | x in rows[1..] ensures rank(rows[0]) <= rank(x) {
      }
      InsertByAll(rank, r, rows[1..], (x: R) => rank(rows[0]) <= rank(x));
      PairwiseCons((x: R, y: R) => rank(x) <= rank(y), rows[0], InsertBy(rank, r, rows[1..]));
    }
  }

  ghost predicate EachOnce<R>(keyOf: R -> Key, rows: seq<R>) {
    Pairwise((x: R, y: R) => keyOf(x) != keyOf(y), rows)
  }

  lemma {:induction false} InsertByKeepsOnce<R>(rank: R -> int, keyOf: R -> Key, r: R, rows: seq<R>)
    requires EachOnce(keyOf, rows) && forall x :: x in rows ==> keyOf(x) != keyOf(r)
    ensures EachOnce(keyOf, InsertBy(rank, r, rows))
  {
    if rows != [] && rank(rows[0]) <= rank(r) {
      forall x | x in rows[1..] ensures keyOf(x) != keyOf(r) && keyOf(rows[0]) != keyOf(x) {
        assert x in rows;
      }
      InsertByKeepsOnce(rank, keyOf, r, rows[1..]);
      InsertByAll(rank, r, rows[1..], (x: R) => keyOf(rows[0]) != keyOf(x));
      PairwiseCons((x: R, y: R) => keyOf(x) != keyOf(y), rows[0], InsertBy(rank, r, rows[1..]));
    }
  }

  /** The rows of a table that a sweep wants, each once, in order. */
  ghost predicate Selects<R>(table: map<Key, R>, wanted: R -> bool, rank: R -> int, keyOf: R -> Key, rows: seq<R>) {
    && InOrder(rank, rows)
    && EachOnce(keyOf, rows)
    && (forall r :: r in rows ==> keyOf(r) in table && table[keyOf(r)] == r && wanted(r))
    && (forall k :: k in table && wanted(table[k]) ==> table[k] in rows)
  }

  function KeysOf<R>(keyOf: R -> Key, rows: seq<R>): set<Key> {
    set i | 0 <= i < |rows| :: keyOf(rows[i])
  }

  lemma EachKeyCounts<R>(keyOf: R -> Key, rows: seq<R>)
    requires EachOnce(keyOf, rows)
    ensures |KeysOf(keyOf, rows)| == |rows|
  {
    if rows != [] {
      var n := |rows| - 1;
      var front := rows[..n];
      assert EachOnce(keyOf, front) by {
        forall i, j | 0 <= i < j < n ensures keyOf(front[i]) != keyOf(front[j]) {
          assert keyOf(rows[i]) != keyOf(rows[j]);
        }
      }
      EachKeyCounts(keyOf, front);
      forall i | 0 <= i < n ensures keyOf(rows[i]) != keyOf(rows[n]) {
      }
      assert keyOf(rows[n]) !in KeysOf(keyOf, front);
      assert KeysOf(keyOf, rows) == KeysOf(keyOf, front) + {keyOf(rows[n])};
    }
  }

  /** A scan finds no more rows than there are. */
  lemma SelectsNoMore<R>(table: map<Key, R>, wanted: R -> bool, rank: R -> int, keyOf: R -> Key, rows: seq<R>)
    requires Selects(table, wanted, rank, keyOf, rows)
    ensures |rows| <= |table|
  {
    EachKeyCounts(keyOf, rows);
    forall k | k in KeysOf(keyOf, rows) ensures k in table {
      var i :| 0 <= i < |rows| && keyOf(rows[i]) == k;
      assert rows[i] in rows;
    }
    SubsetCounts(KeysOf(keyOf, rows), table.Keys);
  }

  ghost predicate KeyedBy<R>(table: map<Key, R>, keyOf: R -> Key) {
    forall k :: k in table ==> keyOf(table[k]) == k
  }

  /** `SELECT ... WHERE wanted ORDER BY rank` */
  method Select<R>(table: map<Key, R>, wanted: R -> bool, rank: R -> int, ghost keyOf: R -> Key)
    returns (rows: seq<R>)
    requires KeyedBy(table, keyOf)
    ensures Selects(table, wanted, rank, keyOf, rows)
  {
    rows := [];
    var left := table.Keys;
    while left != {}
      invariant left <= table.Keys
      invariant InOrder(rank, rows) && EachOnce(keyOf, rows)
      invariant forall r :: r in rows ==> keyOf(r) in table && table[keyOf(r)] == r && wanted(r) && keyOf(r) !in left
      invariant forall k :: k in table && wanted(table[k]) ==> k in left || table[k] in rows
    {
      var k :| k in left;
      left := left - {k};
      if wanted(table[k]) {
        assert keyOf(table[k]) == k;
        InsertByKeepsOrder(rank, table[k], rows);
        InsertByKeepsOnce(rank, keyOf, table[k], rows);
        InsertByAll(rank, table[k], rows,
                    (r: R) => keyOf(r) in table && table[keyOf(r)] == r && wanted(r) && keyOf(r) !in left);
        forall x | x in rows || x == table[k] ensures x in InsertBy(rank, table[k], rows) {
          InsertByHas(rank, table[k], rows, x);
        }
        rows := InsertBy(rank, table[k], rows);
      }
    }
  }

  function KeyOfRow(r: CommitRecord): Key { r.key }

  function KeyOfRun(r: PausedRun): Key { r.key }

  function StampOf(r: CommitRecord): int { r.lastAttemptAt }

  function DecidedAtOf(r: PausedRun): int { if r.decidedAt.Some? then r.decidedAt.value else 0 }

  function CreatedAtOf(r: PausedRun): int { r.createdAt }

  function WantStale(cutoff: Time): CommitRecord -> bool { (r: CommitRecord) => Stale(r, cutoff) }

  function WantApproved(cutoff: Time): PausedRun -> bool { (r: PausedRun) => StaleApproved(r, cutoff) }

  function WantPolled(cutoff: Time): PausedRun -> bool { (r: PausedRun) => StalePolled(r, cutoff) }

  /** UNIQUE(idempotency_key), UNIQUE(approval_ref), and an unbroken chain. */
  ghost predicate Kept(append: Appender, chainOk: AuditTable -> bool, ledger: map<Key, CommitRecord>,
                       paused: map<Key, PausedRun>, chain: AuditTable)
  {
    && KeyedBy(ledger, KeyOfRow)
    && KeyedBy(paused, KeyOfRun)
    && (forall k, l :: k in paused && l in paused && paused[k].approvalRef == paused[l].approvalRef ==> k == l)
    && Keeps(chainOk, append)
    && chainOk(chain)
  }

  class Store {
    const append: Appender
    ghost const chainOk: AuditTable -> bool
    var now: Time
    var wall: Moment
    var ledger: map<Key, CommitRecord>
    var paused: map<Key, PausedRun>
    var chain: AuditTable

    ghost predicate Valid()
      reads this
    {
      Kept(append, chainOk, ledger, paused, chain)
    }

    /** A store with empty tables on a chain `ensure_schema` seeded; by `FreshChain` the
        genesis row and head are such a chain. */
    constructor (append: Appender, ghost chainOk: AuditTable -> bool, chain: AuditTable, now: Time, wall: Moment)
      requires Keeps(chainOk, append) && chainOk(chain)
      ensures Valid() && this.append == append && this.chainOk == chainOk && this.now == now && this.wall == wall
      ensures ledger == map[] && paused == map[] && this.chain == chain
    {
      this.append, this.chainOk, this.chain := append, chainOk, chain;
      this.now, this.wall := now, wall;
      ledger, paused := map[], map[];
    }

    /** What another process left of one key. */
    method Impose(key: Key, row: Option<CommitRecord>, run: Option<PausedRun>, now: Time)
      requires Valid()
      requires row.Some? ==> row.value.key == key
      requires row.None? ==> key !in ledger
      requires run.None? ==> key !in paused
      requires run.Some? ==> run.value.key == key && RefIsFree(paused, key, run.value.approvalRef)
      modifies this
      ensures Valid() && this.now == now && chain == old(chain) && wall == old(wall)
      ensures ledger == if row.Some? then old(ledger)[key := row.value] else old(ledger)
      ensures paused == if run.Some? then old(paused)[key := run.value] else old(paused)
    {
      this.now := now;
      if row.Some? { ledger := ledger[key := row.value]; }
      if run.Some? { paused := paused[key := run.value]; }
    }

    /** Time passes. */
    method Advance(span: nat)
      requires Valid()
      modifies `now
      ensures Valid() && now == old(now) + span
    {
      now := now + span;
    }

    // ----- Ledger -----

    // A method that stamps a row reads the clock, into `stamp`, and then waits for the write
    // lock; by the time its transaction runs the clock may have gone on.

    method Claim(key: Key, action: string, g: Guarantee, args: Value, downstreamKey: Option<string>, stamp: Time)
      returns (won: bool, record: CommitRecord)
      requires Valid() && stamp <= now
      modifies `ledger
      ensures Valid()
      ensures won <==> key !in old(ledger)
      ensures record == if won then L.Inserted(key, action, g, args, downstreamKey, stamp) else old(ledger)[key]
      ensures ledger == old(ledger)[key := record]
    {
      if key in ledger {
        return false, ledger[key];
      }
      record := L.Inserted(key, action, g, args, downstreamKey, stamp);
      ledger := ledger[key := record];
      won := true;
    }

    method Load(key: Key) returns (record: Option<CommitRecord>)
      ensures record == if key in ledger then Some(ledger[key]) else None
    {
      record := if key in ledger then Some(ledger[key]) else None;
    }

    method MarkExecuting(key: Key, epoch: nat, stamp: Time) returns (won: bool)
      requires Valid() && stamp <= now
      modifies `ledger
      ensures Valid()
      ensures won <==> key in old(ledger) && L.Marked(old(ledger)[key], epoch, stamp).Some?
      ensures ledger == if won then old(ledger)[key := L.Marked(old(ledger)[key], epoch, stamp).value] else old(ledger)
    {
      won := key in ledger && ledger[key].state.Pending? && ledger[key].attempts == epoch;
      if won {
        ledger := ledger[key := ledger[key].(state := Executing, lastAttemptAt := stamp)];
      }
    }

    method RecordError(key: Key, epoch: nat, error: Value) returns (won: bool)
      requires Valid()
      modifies `ledger
      ensures Valid()
      ensures won <==> key in old(ledger) && L.WithError(old(ledger)[key], epoch, error).Some?
      ensures ledger ==
              if won then old(ledger)[key := L.WithError(old(ledger)[key], epoch, error).value] else old(ledger)
    {
      won := key in ledger && ledger[key].state.InFlight() && ledger[key].attempts == epoch;
      if won {
        ledger := ledger[key := ledger[key].(error := error)];
      }
    }

    /** The appends of one transaction; when one raises, none is kept. */
    method AppendAllOn(events: seq<AuditEvent>) returns (ok: bool)
      requires Valid()
      modifies `chain
      ensures Valid()
      ensures ok <==> AppendAll(append, old(chain), events, wall).Table?
      ensures chain == if ok then AppendAll(append, old(chain), events, wall).table else old(chain)
    {
      var before := chain;
      for i := 0 to |events|
        invariant AppendAll(append, before, events[..i], wall) == Table(chain)
      {
        assert events[..i + 1][..i] == events[..i];
        match append(chain, events[i], wall) {
          case Raised =>
            chain := before;
            RaisedStays(append, before, events, i + 1, wall);
            return false;
          case Table(table) =>
            chain := table;
        }
      }
      assert events[..|events|] == events;
      AppendAllKeeps(chainOk, append, before, events, wall);
      ok := true;
    }

    /** The terminal swap and its audit append are one transaction, and nothing is appended
        for a swap that matched no row. */
    method Finalize(key: Key, epoch: nat, target: LedgerState, result: Value, audit: seq<AuditEvent>)
      returns (w: Written)
      requires Valid()
      modifies `ledger, `chain
      ensures Valid()
      ensures var swap :=
                if key in old(ledger) then L.Finalized(old(ledger)[key], epoch, target, result, now) else None;
              var appended := AppendAll(append, old(chain), audit, wall);
              && (w.Raised? <==> !target.Terminal() || (swap.Some? && appended.Raised?))
              && (w.Matched? <==> target.Terminal() && swap.Some? && appended.Table?)
              && ledger == (if w.Matched? then old(ledger)[key := swap.value] else old(ledger))
              && chain == (if w.Matched? then appended.table else old(chain))
    {
      if !target.Terminal() {
        return Written.Raised;
      }
      if !(key in ledger && ledger[key].attempts == epoch && L.FinalizableFrom(target, ledger[key].state)) {
        return Fenced;
      }
      var before := ledger;
      ledger := ledger[key := ledger[key].(state := target, result := result,
                                           committedAt := if target.Committed? then Some(now) else None)];
      var ok := AppendAllOn(audit);
      if !ok {
        ledger := before;
        return Written.Raised;
      }
      w := Matched;
    }

    /** The cutoff comes from a clock read ahead of the query, as for every scan. */
    method StaleInflight(cutoff: Time) returns (records: seq<CommitRecord>)
      requires Valid()
      ensures Selects(ledger, WantStale(cutoff), StampOf, KeyOfRow, records)
    {
      records := Select(ledger, WantStale(cutoff), StampOf, KeyOfRow);
    }

    method BumpEpoch(key: Key, olderThan: int, stamp: Time) returns (epoch: Option<nat>)
      requires Valid() && stamp <= now
      modifies `ledger
      ensures Valid()
      ensures epoch.Some? <==> key in old(ledger) && L.Bumped(old(ledger)[key], olderThan, stamp).Some?
      ensures epoch.Some? ==> epoch.value == old(ledger)[key].attempts + 1
      ensures ledger ==
              if epoch.None? then old(ledger)
              else old(ledger)[key := L.Bumped(old(ledger)[key], olderThan, stamp).value]
    {
      if !(key in ledger && Stale(ledger[key], stamp - olderThan)) {
        return None;
      }
      var attempts := ledger[key].attempts + 1;
      ledger := ledger[key := ledger[key].(attempts := attempts, lastAttemptAt := stamp)];
      epoch := Some(attempts);
    }

    // ----- Pause -----

    /** The first gate of a key wins; a later one is handed the run that exists. */
    method SavePaused(ref: string, key: Key, action: string, args: Option<Value>, version: nat,
                      audit: seq<AuditEvent>)
      returns (c: PauseClaim)
      requires Valid()
      modifies `paused, `chain
      ensures Valid()
      ensures c.Existing? <==> key in old(paused)
      ensures c.Existing? ==> c.run == old(paused)[key]
      ensures c.Created? ==> c.run == L.Paused(ref, key, action, args, version, now)
      ensures c.NotSaved? <==>
                && key !in old(paused)
                && (RefTaken(old(paused), ref) || AppendAll(append, old(chain), audit, wall).Raised?)
      ensures paused == if c.Created? then old(paused)[key := c.run] else old(paused)
      ensures chain == if c.Created? then AppendAll(append, old(chain), audit, wall).table else old(chain)
    {
      if key in paused {
        return Existing(paused[key]);
      }
      if RefTaken(paused, ref) {
        return NotSaved;
      }
      var run := L.Paused(ref, key, action, args, version, now);
      var before := paused;
      paused := paused[key := run];
      var ok := AppendAllOn(audit);
      if !ok {
        paused := before;
        return NotSaved;
      }
      c := Created(run);
    }

    method LoadPausedByRef(ref: string) returns (run: Option<PausedRun>)
      requires Valid()
      ensures run.None? <==> !RefTaken(paused, ref)
      ensures run.Some? ==>
                run.value.approvalRef == ref && run.value.key in paused && paused[run.value.key] == run.value
    {
      if k :| k in paused && paused[k].approvalRef == ref {
        return Some(paused[k]);
      }
      run := None;
    }

    /** The swap along one edge of the status graph, with every record it carries. */
    method TransitionPaused(key: Key, from: PauseStatus, to: PauseStatus, decision: Option<ApprovalDecision>,
                            audit: seq<AuditEvent>)
      returns (w: Written)
      requires Valid()
      modifies `paused, `chain
      ensures Valid()
      ensures var swap :=
                if key in old(paused) then L.Transitioned(old(paused)[key], from, to, decision, now) else None;
              var appended := AppendAll(append, old(chain), audit, wall);
              && (w.Raised? <==> !PauseEdge(from, to) || (swap.Some? && appended.Raised?))
              && (w.Matched? <==> PauseEdge(from, to) && swap.Some? && appended.Table?)
              && paused == (if w.Matched? then old(paused)[key := swap.value] else old(paused))
              && chain == (if w.Matched? then appended.table else old(chain))
    {
      if !PauseEdge(from, to) {
        return Written.Raised;
      }
      var swap := if key in paused then L.Transitioned(paused[key], from, to, decision, now) else None;
      if swap.None? {
        return Fenced;
      }
      var before := paused;
      paused := paused[key := swap.value];
      var ok := AppendAllOn(audit);
      if !ok {
        paused := before;
        return Written.Raised;
      }
      w := Matched;
    }

    method SetApprovalId(key: Key, id: string) returns (found: bool)
      requires Valid()
      modifies `paused
      ensures Valid()
      ensures found <==> key in old(paused)
      ensures paused == if found then old(paused)[key := old(paused)[key].(approvalId := Some(id))] else old(paused)
    {
      found := key in paused;
      if found {
        paused := paused[key := paused[key].(approvalId := Some(id))];
      }
    }

    method StaleApprovedPaused(cutoff: Time) returns (runs: seq<PausedRun>)
      requires Valid()
      ensures Selects(paused, WantApproved(cutoff), DecidedAtOf, KeyOfRun, runs)
    {
      runs := Select(paused, WantApproved(cutoff), DecidedAtOf, KeyOfRun);
    }

    method StalePolledPaused(cutoff: Time) returns (runs: seq<PausedRun>)
      requires Valid()
      ensures Selects(paused, WantPolled(cutoff), CreatedAtOf, KeyOfRun, runs)
    {
      runs := Select(paused, WantPolled(cutoff), CreatedAtOf, KeyOfRun);
    }
  }

  /** No other key has a run under this reference. */
  predicate RefIsFree(paused: map<Key, PausedRun>, key: Key, ref: string) {
    forall k :: k in paused && k != key ==> paused[k].approvalRef != ref
  }

  predicate RefTaken(paused: map<Key, PausedRun>, ref: string) {
    exists k :: k in paused && paused[k].approvalRef == ref
  }

  /** Once an append of the transaction raised, the transaction raises. */
  lemma {:induction false} RaisedStays(append: Appender, t: AuditTable, es: seq<AuditEvent>, i: nat, now: Moment)
    requires i <= |es| && AppendAll(append, t, es[..i], now).Raised?
    ensures AppendAll(append, t, es, now).Raised?
    decreases |es|
  {
    if i == |es| {
      assert es[..i] == es;
    } else {
      assert es[..|es| - 1][..i] == es[..i];
      RaisedStays(append, t, es[..|es| - 1], i, now);
    }
  }
}
