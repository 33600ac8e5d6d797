/** `verify_chain`: the streaming verifier, run against a table other processes may still
    be appending to. */
module VerifyChain {
  import opened Json
  import opened Types
  import opened Canonical
  import opened Utf8
  import opened Hashing
  import opened Audit
  import opened Tamper

  // ----- The appends of other processes -----

  type Queued = (AuditEvent, Moment)

  /** One append, or nothing if it raises. */
  function Appending(hash: Hash): (AuditTable, Queued) -> AuditTable {
    (t: AuditTable, e: Queued) =>
      match Append(hash, t, e.0, e.1) case Raised => t case Table(t') => t'
  }

  /** A store another process may append to between any two reads. `pending` holds the
      appends still to come, which are finite but otherwise arbitrary. */
  class LiveLog {
    const append: (AuditTable, Queued) -> AuditTable
    var table: AuditTable
    var pending: seq<Queued>

    constructor (hash: Hash, table: AuditTable, pending: seq<Queued>)
      ensures this.append == Appending(hash) && this.table == table && this.pending == pending
    {
      this.append, this.table, this.pending := Appending(hash), table, pending;
    }

    /** Any number of the pending appends happen. */
    method Others()
      modifies this
      ensures Evolved(append, old(table), old(pending), table, pending)
    {
      while * 
        invariant Evolved(append, old(table), old(pending), table, pending)
        decreases |pending|
      {
        if pending == [] { break; }
        EvolvedOneMore(append, old(table), old(pending), table, pending);
        table, pending := append(table, pending[0]), pending[1..];
      }
    }

    method IterAudit(start: int) returns (rows: seq<AuditRow>)
      modifies this
      ensures Evolved(append, old(table), old(pending), table, pending)
      ensures rows == Above(table.rows, start)
    {
      Others();
      rows := Above(table.rows, start);
    }

    method ReadHead() returns (head: Option<AuditHead>)
      modifies this
      ensures Evolved(append, old(table), old(pending), table, pending)
      ensures head == table.head
    {
      Others();
      head := table.head;
    }
  }

  /** The first few of the pending appends took place, in order. */
  ghost predicate Evolved(append: (AuditTable, Queued) -> AuditTable, t: AuditTable, p: seq<Queued>,
                          t': AuditTable, p': seq<Queued>)
    decreases |p|
  {
    (t == t' && p == p') || (p != [] && Evolved(append, append(t, p[0]), p[1..], t', p'))
  }

  lemma {:induction false} EvolvedOneMore(append: (AuditTable, Queued) -> AuditTable, t: AuditTable,
                                          p: seq<Queued>, t': AuditTable, p': seq<Queued>)
    requires Evolved(append, t, p, t', p') && p' != []
    ensures Evolved(append, t, p, append(t', p'[0]), p'[1..])
    decreases |p|
  {
    if t == t' && p == p' {
      assert Evolved(append, append(t, p[0]), p[1..], append(t', p'[0]), p'[1..]);
    } else {
      EvolvedOneMore(append, append(t, p[0]), p[1..], t', p');
    }
  }

  lemma {:induction false} EvolvedTwice(append: (AuditTable, Queued) -> AuditTable, t: AuditTable,
                                        p: seq<Queued>, t': AuditTable, p': seq<Queued>, t'': AuditTable,
                                        p'': seq<Queued>)
    requires Evolved(append, t, p, t', p') && Evolved(append, t', p', t'', p'')
    ensures Evolved(append, t, p, t'', p'')
    decreases |p|
  {
    if !(t == t' && p == p') {
      EvolvedTwice(append, append(t, p[0]), p[1..], t', p', t'', p'');
    }
  }

  // ----- What appends keep -----

  /** Rows numbered by their places from 0, linked, and a head that names the last one. */
  ghost predicate Honest(selfOk: AuditRow -> bool, t: AuditTable) {
    Chained(selfOk, t.rows != [] && t.rows[0].seqNo == 0, t)
  }

  ghost predicate KeepsHonest(selfOk: AuditRow -> bool, append: (AuditTable, Queued) -> AuditTable) {
    forall t: AuditTable, e: Queued {:trigger Honest(selfOk, append(t, e))} ::
      Honest(selfOk, t) ==> Honest(selfOk, append(t, e)) && t.rows <= append(t, e).rows
  }

  ghost predicate AddsAtMostOne(append: (AuditTable, Queued) -> AuditTable) {
    forall t: AuditTable, e: Queued {:trigger OneMoreAbove(t, append(t, e))} ::
      Ascends(t.rows) ==> Ascends(append(t, e).rows) && OneMoreAbove(t, append(t, e))
  }

  ghost predicate OneMoreAbove(t: AuditTable, t': AuditTable) {
    forall start :: |Above(t'.rows, start)| <= |Above(t.rows, start)| + 1
  }

  lemma {:induction false} InsertAscends(rows: seq<AuditRow>, r: AuditRow)
    requires Ascends(rows) && r.seqNo !in SeqNos(rows)
    ensures Ascends(InsertRow(rows, r))
    ensures forall x :: x in InsertRow(rows, r) ==> x == r || x in rows
  {
    if rows != [] && !(rows[|rows| - 1].seqNo < r.seqNo) {
      var front, last := rows[..|rows| - 1], rows[|rows| - 1];
      assert forall x :: x in front ==> x in rows;
      assert last.seqNo in SeqNos(rows);
      InsertAscends(front, r);
      forall x | x in InsertRow(front, r) ensures x.seqNo < last.seqNo {
      }
      AscendsGrows(InsertRow(front, r), last);
    }
  }

  lemma AscendsGrows(rows: seq<AuditRow>, r: AuditRow)
    requires Ascends(rows) && forall x :: x in rows ==> x.seqNo < r.seqNo
    ensures Ascends(rows + [r])
  {
  }

  lemma {:induction false} AboveConcat(a: seq<AuditRow>, b: seq<AuditRow>, start: int)
    ensures Above(a + b, start) == Above(a, start) + Above(b, start)
  {
    if a == [] {
      assert a + b == b;
    } else {
      var head, front, back := if a[0].seqNo >= start then [a[0]] else [], Above(a[1..], start), Above(b, start);
      AboveConcat(a[1..], b, start);
      assert (a + b)[1..] == a[1..] + b && (a + b)[0] == a[0];
      assert head + (front + back) == (head + front) + back;
    }
  }

  lemma {:induction false} InsertAbove(rows: seq<AuditRow>, r: AuditRow, start: int)
    ensures |Above(InsertRow(rows, r), start)| <= |Above(rows, start)| + 1
  {
    if rows == [] || rows[|rows| - 1].seqNo < r.seqNo {
      AboveConcat(rows, [r], start);
    } else {
      var front, last := rows[..|rows| - 1], rows[|rows| - 1];
      InsertAbove(front, r, start);
      AboveConcat(InsertRow(front, r), [last], start);
      AboveConcat(front, [last], start);
      assert front + [last] == rows;
    }
  }

  lemma AppendInserts(hash: Hash, t: AuditTable, e: AuditEvent, now: Moment) returns (r: AuditRow)
    requires Append(hash, t, e, now).Table?
    ensures Append(hash, t, e, now).table.rows == InsertRow(t.rows, r) && r.seqNo !in SeqNos(t.rows)
  {
    var seqNo, prev := t.head.value.seqNo + 1, t.head.value.rowHash;
    var at: Moment := if e.createdAt.Some? then e.createdAt.value else now;
    r := AuditRow(seqNo, e.runId, e.actionType, e.eventType, e.payload, prev,
                  RowHash(hash, prev, Envelope(seqNo, e.runId, e.actionType, e.eventType, at, e.payload)).value, at);
  }

  lemma AppendingAdds(hash: Hash, t: AuditTable, e: Queued)
    requires Ascends(t.rows)
    ensures Ascends(Appending(hash)(t, e).rows) && OneMoreAbove(t, Appending(hash)(t, e))
  {
    if Append(hash, t, e.0, e.1).Table? {
      var r := AppendInserts(hash, t, e.0, e.1);
      InsertAscends(t.rows, r);
      forall start ensures |Above(InsertRow(t.rows, r), start)| <= |Above(t.rows, start)| + 1 {
        InsertAbove(t.rows, r, start);
      }
    }
  }

  lemma HonestGrows(selfOk: AuditRow -> bool, t: AuditTable, r: AuditRow)
    requires Honest(selfOk, t) && selfOk(r) && Follows(t.head.value, r)
    ensures Honest(selfOk, AuditTable(t.rows + [r], Some(HeadOf(r)))) && t.rows <= t.rows + [r]
  {
    LinkedGrows(selfOk, t.rows, r);
  }

  lemma AppendingLinks(hash: Hash, t: AuditTable, e: Queued)
    requires Honest(SelfOk(hash), t)
    ensures Honest(SelfOk(hash), Appending(hash)(t, e)) && t.rows <= Appending(hash)(t, e).rows
  {
    if Append(hash, t, e.0, e.1).Table? {
      var r := AppendedRow(hash, t, e.0, e.1);
      HonestGrows(SelfOk(hash), t, r);
    }
  }

  /** The store's append, on any table whatever and on an honest one. */
  lemma AppendingKeeps(hash: Hash)
    ensures AddsAtMostOne(Appending(hash)) && KeepsHonest(SelfOk(hash), Appending(hash))
  {
    forall t: AuditTable, e: Queued | Ascends(t.rows)
      ensures Ascends(Appending(hash)(t, e).rows) && OneMoreAbove(t, Appending(hash)(t, e))
    {
      AppendingAdds(hash, t, e);
    }
    forall t: AuditTable, e: Queued | Honest(SelfOk(hash), t)
      ensures Honest(SelfOk(hash), Appending(hash)(t, e)) && t.rows <= Appending(hash)(t, e).rows
    {
      AppendingLinks(hash, t, e);
    }
  }

  lemma {:induction false} EvolvedAscends(append: (AuditTable, Queued) -> AuditTable, t: AuditTable,
                                          p: seq<Queued>, t': AuditTable, p': seq<Queued>, start: int)
    requires Evolved(append, t, p, t', p') && AddsAtMostOne(append) && Ascends(t.rows)
    ensures Ascends(t'.rows)
    ensures |Above(t'.rows, start)| + |p'| <= |Above(t.rows, start)| + |p|
    decreases |p|
  {
    if !(t == t' && p == p') {
      assert OneMoreAbove(t, append(t, p[0]));
      EvolvedAscends(append, append(t, p[0]), p[1..], t', p', start);
    }
  }

  lemma {:induction false} EvolvedHonest(selfOk: AuditRow -> bool, append: (AuditTable, Queued) -> AuditTable,
                                         t: AuditTable, p: seq<Queued>, t': AuditTable, p': seq<Queued>)
    requires Evolved(append, t, p, t', p') && KeepsHonest(selfOk, append) && Honest(selfOk, t)
    ensures Honest(selfOk, t') && t.rows <= t'.rows
    decreases |p|
  {
    if !(t == t' && p == p') {
      assert Honest(selfOk, append(t, p[0]));
      EvolvedHonest(selfOk, append, append(t, p[0]), p[1..], t', p');
    }
  }

  // ----- The rows a pass consumes -----

  predicate Accepts(anchorOk: AuditRow -> bool, selfOk: AuditRow -> bool, last: Option<AuditHead>, r: AuditRow) {
    && (match last case None => anchorOk(r) case Some(h) => Follows(h, r))
    && selfOk(r)
  }

  function LastOf(last: Option<AuditHead>, rows: seq<AuditRow>): Option<AuditHead> {
    if rows == [] then last else Some(HeadOf(rows[|rows| - 1]))
  }

  predicate AcceptsAt(anchorOk: AuditRow -> bool, selfOk: AuditRow -> bool, last: Option<AuditHead>,
                      rows: seq<AuditRow>, i: int)
    requires 0 <= i < |rows|
  {
    Accepts(anchorOk, selfOk, LastOf(last, rows[..i]), rows[i])
  }

  /** Every row is accepted after the one before it, the first after `last`. */
  ghost predicate Spans(anchorOk: AuditRow -> bool, selfOk: AuditRow -> bool, last: Option<AuditHead>,
                        rows: seq<AuditRow>)
  {
    forall i {:trigger AcceptsAt(anchorOk, selfOk, last, rows, i)} ::
      0 <= i < |rows| ==> AcceptsAt(anchorOk, selfOk, last, rows, i)
  }

  ghost predicate FirstBreak(anchorOk: AuditRow -> bool, selfOk: AuditRow -> bool, last: Option<AuditHead>,
                             rows: seq<AuditRow>, i: nat)
  {
    && i < |rows|
    && (forall k {:trigger AcceptsAt(anchorOk, selfOk, last, rows, k)} ::
          0 <= k < i ==> AcceptsAt(anchorOk, selfOk, last, rows, k))
    && !AcceptsAt(anchorOk, selfOk, last, rows, i)
  }

  /** Threads the last accepted row through one streamed span; stops at the first row it
      does not accept. */
  method Consume(anchorOk: AuditRow -> bool, selfOk: AuditRow -> bool, last0: Option<AuditHead>, rows: seq<AuditRow>)
    returns (last: Option<AuditHead>, accepted: nat)
    ensures accepted <= |rows|
    ensures accepted == |rows| ==> Spans(anchorOk, selfOk, last0, rows)
    ensures accepted < |rows| ==> FirstBreak(anchorOk, selfOk, last0, rows, accepted)
    ensures last == LastOf(last0, rows[..accepted])
  {
    last, accepted := last0, 0;
    while accepted < |rows| && Accepts(anchorOk, selfOk, last, rows[accepted])
      invariant accepted <= |rows|
      invariant last == LastOf(last0, rows[..accepted])
      invariant forall k {:trigger AcceptsAt(anchorOk, selfOk, last0, rows, k)} ::
                  0 <= k < accepted ==> AcceptsAt(anchorOk, selfOk, last0, rows, k)
    {
      assert AcceptsAt(anchorOk, selfOk, last0, rows, accepted);
      last := Some(HeadOf(rows[accepted]));
      accepted := accepted + 1;
    }
  }

  /** A span from the anchor is an anchored unbroken stretch of rows. */
  lemma SpanIsChain(anchorOk: AuditRow -> bool, selfOk: AuditRow -> bool, rows: seq<AuditRow>)
    requires rows != []
    ensures Spans(anchorOk, selfOk, None, rows) <==> anchorOk(rows[0]) && Linked(selfOk, rows)
  {
    if Spans(anchorOk, selfOk, None, rows) {
      assert AcceptsAt(anchorOk, selfOk, None, rows, 0);
      forall i | 0 < i < |rows| ensures LinkAt(rows, i) {
        assert AcceptsAt(anchorOk, selfOk, None, rows, i);
      }
      forall i | 0 <= i < |rows| ensures selfOk(rows[i]) {
        assert AcceptsAt(anchorOk, selfOk, None, rows, i);
      }
    }
    if anchorOk(rows[0]) && Linked(selfOk, rows) {
      forall i | 0 <= i < |rows| ensures AcceptsAt(anchorOk, selfOk, None, rows, i) {
        assert i > 0 ==> LinkAt(rows, i);
      }
    }
  }

  lemma SpanCounts(anchorOk: AuditRow -> bool, selfOk: AuditRow -> bool, last: Option<AuditHead>, rows: seq<AuditRow>)
    requires Spans(anchorOk, selfOk, last, rows) && rows != []
    ensures rows[|rows| - 1].seqNo == (if last.Some? then last.value.seqNo + 1 else rows[0].seqNo) + |rows| - 1
    ensures last.None? ==> anchorOk(rows[0])
  {
    var front, i := rows[..|rows| - 1], |rows| - 1;
    assert AcceptsAt(anchorOk, selfOk, last, rows, i);
    if front != [] {
      forall k | 0 <= k < |front| ensures AcceptsAt(anchorOk, selfOk, last, front, k) {
        assert AcceptsAt(anchorOk, selfOk, last, rows, k) && front[..k] == rows[..k];
      }
      SpanCounts(anchorOk, selfOk, last, front);
    }
  }

  lemma {:induction false} NoneAbove(rows: seq<AuditRow>, start: int)
    requires forall i :: 0 <= i < |rows| ==> rows[i].seqNo < start
    ensures Above(rows, start) == []
  {
    if rows != [] { NoneAbove(rows[1..], start); }
  }

  /** Once the last streamed row is consumed, no row is left above it. */
  lemma NothingAboveLast(rows: seq<AuditRow>, start: int)
    requires Ascends(rows) && Above(rows, start) != []
    ensures Above(rows, start)[|Above(rows, start)| - 1] == rows[|rows| - 1]
    ensures Above(rows, rows[|rows| - 1].seqNo + 1) == []
  {
    var last := rows[|rows| - 1];
    AboveConcat(rows[..|rows| - 1], [last], start);
    assert rows[..|rows| - 1] + [last] == rows;
    if last.seqNo < start {
      NoneAbove(rows, start);
    } else {
      NoneAbove(rows, last.seqNo + 1);
    }
  }

  // ----- Reading an honest chain -----

  /** A head some row of the table stands behind. */
  predicate InChain(t: AuditTable, h: AuditHead) {
    0 <= h.seqNo < |t.rows| && HeadOf(t.rows[h.seqNo]) == h
  }

  lemma {:induction false} HonestRows(selfOk: AuditRow -> bool, t: AuditTable, start: nat)
    requires Honest(selfOk, t) && start <= |t.rows|
    ensures Above(t.rows, start) == t.rows[start..]
  {
    LinkedAscends(selfOk, t.rows);
    if start < |t.rows| {
      AboveIsSuffix(t.rows, start);
    } else {
      NoneAbove(t.rows, start);
    }
  }

  lemma HeadInChain(selfOk: AuditRow -> bool, t: AuditTable)
    requires Honest(selfOk, t)
    ensures InChain(t, t.head.value) && t.head.value.seqNo == |t.rows| - 1
  {
    LinkedAscends(selfOk, t.rows);
  }

  lemma HonestSpan(anchorOk: AuditRow -> bool, selfOk: AuditRow -> bool, rows: seq<AuditRow>, k: nat,
                   last: Option<AuditHead>)
    requires Linked(selfOk, rows) && k <= |rows|
    requires k < |rows| && last.None? ==> anchorOk(rows[k])
    requires last.Some? ==> 0 < k && last.value == HeadOf(rows[k - 1])
    ensures Spans(anchorOk, selfOk, last, rows[k..])
  {
    var high := rows[k..];
    forall i | 0 <= i < |high| ensures AcceptsAt(anchorOk, selfOk, last, high, i) {
      if i > 0 || last.Some? { assert LinkAt(rows, k + i); }
    }
  }

  /** The anchor is one of the rows of an honest chain. */
  ghost predicate OnChain(anchorOk: AuditRow -> bool, selfOk: AuditRow -> bool, start: nat, t: AuditTable) {
    Honest(selfOk, t) && start < |t.rows| && anchorOk(t.rows[start])
  }

  lemma {:induction false} HonestRead(anchorOk: AuditRow -> bool, selfOk: AuditRow -> bool, start: nat,
                                      t: AuditTable, last: Option<AuditHead>)
    requires Honest(selfOk, t)
    requires last.None? ==> OnChain(anchorOk, selfOk, start, t)
    requires last.Some? ==> InChain(t, last.value) && start == last.value.seqNo + 1
    ensures Spans(anchorOk, selfOk, last, Above(t.rows, start))
    ensures LastOf(last, Above(t.rows, start)) == t.head
  {
    HonestRows(selfOk, t, start);
    HonestSpan(anchorOk, selfOk, t.rows, start, last);
    assert start == |t.rows| ==> last == Some(HeadOf(t.rows[|t.rows| - 1]));
    LastOfSuffix(t.rows, start, last);
  }

  lemma LastOfSuffix(rows: seq<AuditRow>, k: nat, last: Option<AuditHead>)
    requires rows != [] && k <= |rows|
    requires k == |rows| ==> last == Some(HeadOf(rows[|rows| - 1]))
    ensures LastOf(last, rows[k..]) == Some(HeadOf(rows[|rows| - 1]))
  {
  }

  // ----- The verifier -----

  /** How a streaming pass ended. */
  datatype Streamed =
    | Verified(count: nat, head: AuditHead)
    | BrokenAt(last: Option<AuditHead>, row: AuditRow)  // the first row not accepted
    | Empty
    | HeadMismatch(lastSeq: int)

  /** What a pass knows between two reads. */
  ghost predicate Midway(selfOk: AuditRow -> bool, t: AuditTable, last: AuditHead, head: Option<AuditHead>)
  {
    Honest(selfOk, t) && InChain(t, last) && head.Some? && InChain(t, head.value) && last.seqNo <= head.value.seqNo
  }

  lemma MidwayReads(anchorOk: AuditRow -> bool, selfOk: AuditRow -> bool, t: AuditTable, t': AuditTable,
                    last: AuditHead, head: Option<AuditHead>)
    requires Midway(selfOk, t, last, head)
    requires Honest(selfOk, t') && t.rows <= t'.rows
    ensures Spans(anchorOk, selfOk, Some(last), Above(t'.rows, last.seqNo + 1))
    ensures head.value.seqNo > last.seqNo ==> Above(t'.rows, last.seqNo + 1) != []
    ensures LastOf(Some(last), Above(t'.rows, last.seqNo + 1)) == t'.head
  {
    HonestRead(anchorOk, selfOk, last.seqNo + 1, t', Some(last));
    HonestRows(selfOk, t', last.seqNo + 1);
  }

  /** The head read after a span is never behind it. */
  lemma MidwayAgain(selfOk: AuditRow -> bool, t: AuditTable, t': AuditTable)
    requires Honest(selfOk, t) && Honest(selfOk, t') && t.rows <= t'.rows
    ensures Midway(selfOk, t', t.head.value, t'.head)
  {
    HeadInChain(selfOk, t);
    HeadInChain(selfOk, t');
  }

  ghost predicate Ready(log: LiveLog, selfOk: AuditRow -> bool)
    reads log
  {
    Ascends(log.table.rows) && AddsAtMostOne(log.append) && KeepsHonest(selfOk, log.append)
  }

  /** One streamed span: what was read, and what the other processes kept meanwhile. */
  method ReadSpan(log: LiveLog, anchorOk: AuditRow -> bool, selfOk: AuditRow -> bool, last0: Option<AuditHead>,
                  start: int)
    returns (last: Option<AuditHead>, accepted: nat, rows: seq<AuditRow>)
    requires Ready(log, selfOk)
    modifies log
    ensures Ready(log, selfOk) && Evolved(log.append, old(log.table), old(log.pending), log.table, log.pending)
    ensures rows == Above(log.table.rows, start)
    ensures |rows| + |log.pending| <= |Above(old(log.table).rows, start)| + |old(log.pending)|
    ensures Honest(selfOk, old(log.table)) ==> Honest(selfOk, log.table) && old(log.table).rows <= log.table.rows
    ensures accepted <= |rows|
    ensures accepted == |rows| ==> Spans(anchorOk, selfOk, last0, rows) && last == LastOf(last0, rows)
    ensures accepted < |rows| ==> !Spans(anchorOk, selfOk, last0, rows) && last == LastOf(last0, rows[..accepted])
                                  && FirstBreak(anchorOk, selfOk, last0, rows, accepted)
  {
    rows := log.IterAudit(start);
    EvolvedAscends(log.append, old(log.table), old(log.pending), log.table, log.pending, start);
    if Honest(selfOk, old(log.table)) {
      EvolvedHonest(selfOk, log.append, old(log.table), old(log.pending), log.table, log.pending);
    }
    last, accepted := Consume(anchorOk, selfOk, last0, rows);
    assert rows[..|rows|] == rows;
  }

  /** Reading the head while the other processes carry on. */
  method ReadHeadLive(log: LiveLog, selfOk: AuditRow -> bool, start: int) returns (head: Option<AuditHead>)
    requires Ready(log, selfOk)
    modifies log
    ensures Ready(log, selfOk) && Evolved(log.append, old(log.table), old(log.pending), log.table, log.pending)
    ensures head == log.table.head
    ensures |Above(log.table.rows, start)| + |log.pending| <= |Above(old(log.table).rows, start)| + |old(log.pending)|
    ensures Honest(selfOk, old(log.table)) ==> Honest(selfOk, log.table) && old(log.table).rows <= log.table.rows
  {
    head := log.ReadHead();
    EvolvedAscends(log.append, old(log.table), old(log.pending), log.table, log.pending, start);
    if Honest(selfOk, old(log.table)) {
      EvolvedHonest(selfOk, log.append, old(log.table), old(log.pending), log.table, log.pending);
    }
  }

  /** After a span is consumed: how far it went, and that no row is left above it. */
  lemma {:induction false} AfterSpan(anchorOk: AuditRow -> bool, selfOk: AuditRow -> bool, last: AuditHead,
                                     all: seq<AuditRow>, rows: seq<AuditRow>)
    requires Ascends(all) && rows != [] && rows == Above(all, last.seqNo + 1)
    requires Spans(anchorOk, selfOk, Some(last), rows)
    ensures LastOf(Some(last), rows).value.seqNo == last.seqNo + |rows|
    ensures Above(all, LastOf(Some(last), rows).value.seqNo + 1) == []
  {
    SpanCounts(anchorOk, selfOk, Some(last), rows);
    NothingAboveLast(all, last.seqNo + 1);
  }

  datatype Round = Advanced(last: AuditHead, rows: nat) | GaveUp | Stopped(failure: Streamed)

  /** One round of catching up: stream what is above `last`, then read the head again. */
  method CatchUpOnce(log: LiveLog, anchorOk: AuditRow -> bool, selfOk: AuditRow -> bool, last: AuditHead,
                     head0: Option<AuditHead>)
    returns (round: Round, head: Option<AuditHead>)
    requires Ready(log, selfOk)
    requires head0.Some? && head0.value.seqNo > last.seqNo
    modifies log
    ensures Ready(log, selfOk) && Evolved(log.append, old(log.table), old(log.pending), log.table, log.pending)
    ensures Midway(selfOk, old(log.table), last, head0) ==>
              round.Advanced? && Midway(selfOk, log.table, round.last, head)
    ensures old(log.pending) == [] && Above(old(log.table).rows, last.seqNo + 1) == [] ==>
              round.GaveUp? && head == old(log.table).head
    ensures round.Advanced? ==>
              && round.rows == round.last.seqNo - last.seqNo
              && |Above(log.table.rows, round.last.seqNo + 1)| + |log.pending|
                 < |Above(old(log.table).rows, last.seqNo + 1)| + |old(log.pending)|
    ensures round.Stopped? ==> round.failure.BrokenAt?
  {
    var next, accepted, rows := ReadSpan(log, anchorOk, selfOk, Some(last), last.seqNo + 1);
    ghost var middle, left := log.table, log.pending;
    if Midway(selfOk, old(log.table), last, head0) {
      MidwayReads(anchorOk, selfOk, old(log.table), middle, last, head0);
    }
    if accepted < |rows| {
      return Stopped(BrokenAt(next, rows[accepted])), head0;
    }
    if rows != [] { AfterSpan(anchorOk, selfOk, last, middle.rows, rows); }
    assert |rows| + |left| <= |Above(old(log.table).rows, last.seqNo + 1)| + |old(log.pending)|;
    head := ReadHeadLive(log, selfOk, next.value.seqNo + 1);
    assert rows != [] ==> |Above(log.table.rows, next.value.seqNo + 1)| + |log.pending| <= |left|;
    EvolvedTwice(log.append, old(log.table), old(log.pending), middle, left, log.table, log.pending);
    if Midway(selfOk, old(log.table), last, head0) { MidwayAgain(selfOk, middle, log.table); }
    round := if head.None? || rows == [] then GaveUp else Advanced(next.value, |rows|);
  }

  /** Nothing is left to appear, and nothing is above the last row consumed. */
  ghost predicate AtRest(pending: seq<Queued>, t: AuditTable, last: AuditHead, head: Option<AuditHead>) {
    pending == [] && Above(t.rows, last.seqNo + 1) == [] && head == t.head
  }

  /** The catch-up loop: while the head is ahead of the last row consumed, consume the
      rows that appeared. It ends because each round consumes a row or gives up. */
  method CatchUp(log: LiveLog, anchorOk: AuditRow -> bool, selfOk: AuditRow -> bool, last0: AuditHead,
                 head0: Option<AuditHead>, count0: nat)
    returns (r: Streamed)
    requires Ready(log, selfOk)
    modifies log
    ensures Evolved(log.append, old(log.table), old(log.pending), log.table, log.pending)
    ensures AtRest(old(log.pending), old(log.table), last0, head0) ==>
              if head0 == Some(last0) then r.Verified? && r.head == last0 else r == HeadMismatch(last0.seqNo)
    ensures Midway(selfOk, old(log.table), last0, head0) ==> r.Verified? && InChain(log.table, r.head)
    ensures r.Verified? ==> r.count - count0 == r.head.seqNo - last0.seqNo
    ensures !r.Empty?
  {
    var last, head, count: nat := last0, head0, count0;
    ghost var quiet := log.pending == [] && Above(log.table.rows, last0.seqNo + 1) == [] && head0 == log.table.head;
    ghost var midway := Midway(selfOk, log.table, last0, head0);
    while head.Some? && head.value.seqNo > last.seqNo
      invariant Ready(log, selfOk) && Evolved(log.append, old(log.table), old(log.pending), log.table, log.pending)
      invariant quiet ==>
                  last == last0 && head == head0 && log.table == old(log.table) && log.pending == []
      invariant midway ==> Midway(selfOk, log.table, last, head)
      invariant count - count0 == last.seqNo - last0.seqNo
      decreases |Above(log.table.rows, last.seqNo + 1)| + |log.pending|
    {
      ghost var t, p := log.table, log.pending;
      var round;
      round, head := CatchUpOnce(log, anchorOk, selfOk, last, head);
      EvolvedTwice(log.append, old(log.table), old(log.pending), t, p, log.table, log.pending);
      if round.Stopped? {
        return round.failure;
      }
      if round.GaveUp? {
        break;
      }
      last, count := round.last, count + round.rows;
    }
    r := if head == Some(last) then Verified(count, last) else HeadMismatch(last.seqNo);
  }

  lemma StreamedWhole(anchorOk: AuditRow -> bool, selfOk: AuditRow -> bool, t: AuditTable, rows: seq<AuditRow>)
    ensures Chained(selfOk, rows != [] && anchorOk(rows[0]), AuditTable(rows, t.head)) <==>
            rows != [] && Spans(anchorOk, selfOk, None, rows) && t.head == LastOf(None, rows)
  {
    if rows != [] { SpanIsChain(anchorOk, selfOk, rows); }
  }

  lemma {:induction false} NothingLeft(all: seq<AuditRow>, rows: seq<AuditRow>, start: int)
    requires Ascends(all) && rows == Above(all, start)
    ensures rows != [] ==> Above(all, LastOf(None, rows).value.seqNo + 1) == []
  {
    if rows != [] { NothingAboveLast(all, start); }
  }

  lemma {:induction false} Quiet(append: (AuditTable, Queued) -> AuditTable, t: AuditTable, t': AuditTable,
                                 p': seq<Queued>)
    requires Evolved(append, t, [], t', p')
    ensures t' == t && p' == []
  {
  }

  /** The head after the streamed rows, and whatever was appended since. */
  method Finish(log: LiveLog, anchorOk: AuditRow -> bool, selfOk: AuditRow -> bool, start: nat,
                rows: seq<AuditRow>, last: AuditHead)
    returns (r: Streamed)
    requires Ready(log, selfOk) && rows == Above(log.table.rows, start) && rows != []
    requires Spans(anchorOk, selfOk, None, rows) && LastOf(None, rows) == Some(last)
    requires forall row :: anchorOk(row) ==> row.seqNo == start
    modifies log
    ensures Evolved(log.append, old(log.table), old(log.pending), log.table, log.pending)
    ensures old(log.pending) == [] ==>
              if old(log.table).head == Some(last) then r.Verified? else r == HeadMismatch(last.seqNo)
    ensures Honest(selfOk, old(log.table)) && old(log.table).head == Some(last) ==>
              r.Verified? && InChain(log.table, r.head)
    ensures r.Verified? ==> r.count == r.head.seqNo - start + 1
  {
    ghost var t, p := log.table, log.pending;
    NothingLeft(t.rows, rows, start);
    SpanCounts(anchorOk, selfOk, None, rows);
    var head := ReadHeadLive(log, selfOk, start);
    ghost var t', p' := log.table, log.pending;
    if p == [] { Quiet(log.append, t, t', p'); }
    if Honest(selfOk, t) && t.head == Some(last) { MidwayAgain(selfOk, t, t'); }
    r := CatchUp(log, anchorOk, selfOk, last, head, |rows|);
    EvolvedTwice(log.append, t, p, t', p', log.table, log.pending);
  }

  ghost predicate Breaks(anchorOk: AuditRow -> bool, selfOk: AuditRow -> bool, rows: seq<AuditRow>, i: nat,
                         last: Option<AuditHead>, row: AuditRow) {
    FirstBreak(anchorOk, selfOk, None, rows, i) && last == LastOf(None, rows[..i]) && row == rows[i]
  }

  /** A pass that fails names the first row that breaks the chain, or finds all rows linked
      and the head elsewhere, or finds no row at all. */
  ghost predicate FindsFirst(anchorOk: AuditRow -> bool, selfOk: AuditRow -> bool, rows: seq<AuditRow>, r: Streamed) {
    match r
    case Verified(_, _) => true
    case BrokenAt(last, row) => exists i: nat :: Breaks(anchorOk, selfOk, rows, i, last, row)
    case Empty => rows == []
    case HeadMismatch(lastSeq) => rows != [] && Spans(anchorOk, selfOk, None, rows) && lastSeq == rows[|rows| - 1].seqNo
  }

  /** The whole pass from the first row at or above `start`. */
  method Stream(log: LiveLog, anchorOk: AuditRow -> bool, selfOk: AuditRow -> bool, start: nat) returns (r: Streamed)
    requires Ready(log, selfOk)
    requires forall row :: anchorOk(row) ==> row.seqNo == start
    modifies log
    ensures Evolved(log.append, old(log.table), old(log.pending), log.table, log.pending)
    ensures old(log.pending) == [] ==>
              var rows := Above(old(log.table).rows, start);
              r.Verified? <==> Chained(selfOk, rows != [] && anchorOk(rows[0]), From(old(log.table), start))
    ensures old(log.pending) == [] ==> FindsFirst(anchorOk, selfOk, Above(old(log.table).rows, start), r)
    ensures OnChain(anchorOk, selfOk, start, old(log.table)) ==> r.Verified? && InChain(log.table, r.head)
    ensures r.Verified? ==> r.count == r.head.seqNo - start + 1
  {
    var last, accepted, rows := ReadSpan(log, anchorOk, selfOk, None, start);
    ghost var t, p := log.table, log.pending;
    StreamedWhole(anchorOk, selfOk, t, rows);
    if old(log.pending) == [] { Quiet(log.append, old(log.table), t, p); }
    if OnChain(anchorOk, selfOk, start, old(log.table)) {
      HonestRead(anchorOk, selfOk, start, t, None);
      HonestRows(selfOk, t, start);
    }
    if accepted < |rows| {
      assert Breaks(anchorOk, selfOk, rows, accepted, last, rows[accepted]);
      return BrokenAt(last, rows[accepted]);
    }
    if last.None? {
      return Empty;
    }
    r := Finish(log, anchorOk, selfOk, start, rows, last.value);
    EvolvedTwice(log.append, old(log.table), old(log.pending), t, p, log.table, log.pending);
  }

  // ----- The public entry -----

  datatype Verdict =
    | Report(rowsVerified: nat, fromSeq: int, headSeq: int, headHash: Digest)
    | Broken(seqNo: int)    // AuditChainError, naming the offending row
    | Uncanonical           // a stored payload is outside the canonical domain
    | BadArguments

  predicate ValidArguments(fromSeq: Option<int>, fromHash: Option<Bytes>) {
    && (fromSeq.None? <==> fromHash.None?)
    && (fromSeq.Some? ==> fromSeq.value >= 0)
    && (fromHash.Some? ==> |fromHash.value| == 32)
  }

  function AnchorFor(fromSeq: Option<int>, fromHash: Option<Bytes>): Anchor
    requires ValidArguments(fromSeq, fromHash)
  {
    if fromSeq.None? then Genesis else Checkpoint(fromSeq.value, fromHash.value)
  }

  function StartOf(anchor: Anchor): nat {
    match anchor case Genesis => 0 case Checkpoint(n, _) => n
  }

  /** The error raised at a row that is not accepted. */
  function BreakAt(hash: Hash, anchor: Anchor, last: Option<AuditHead>, r: AuditRow): Verdict {
    if last.None? && !AnchorOk(hash, anchor)(r)
    then Broken(match anchor case Genesis => r.seqNo case Checkpoint(n, _) => n)
    else if last.Some? && !Follows(last.value, r) then Broken(r.seqNo)
    else if RowHash(hash, r.prevHash, EnvelopeOf(r)).Bad? then Uncanonical
    else Broken(r.seqNo)
  }

  lemma WholeIsChainOk(hash: Hash, anchor: Anchor, t: AuditTable)
    ensures ChainOk(hash, anchor, t) <==> Chained(SelfOk(hash), t.rows != [] && AnchorOk(hash, anchor)(t.rows[0]), t)
  {
  }

  lemma AnchorNames(hash: Hash, anchor: Anchor)
    ensures forall row :: AnchorOk(hash, anchor)(row) ==> row.seqNo == StartOf(anchor)
  {
  }

  lemma HonestAnchor(hash: Hash, anchor: Anchor, t: AuditTable)
    requires ChainOk(hash, Genesis, t) && StartOf(anchor) < |t.rows| && AnchorOk(hash, anchor)(t.rows[StartOf(anchor)])
    ensures OnChain(AnchorOk(hash, anchor), SelfOk(hash), StartOf(anchor), t)
  {
  }

  /** What an error says: the table starts too late, a row is the first to break the chain,
      or the head does not name the last one. */
  ghost predicate Blames(hash: Hash, anchor: Anchor, rows: seq<AuditRow>, v: Verdict) {
    v.Report? ||
    (rows == [] && v == Broken(StartOf(anchor))) ||
    (exists i: nat, last: Option<AuditHead>, row: AuditRow
       {:trigger Breaks(AnchorOk(hash, anchor), SelfOk(hash), rows, i, last, row)} ::
       Breaks(AnchorOk(hash, anchor), SelfOk(hash), rows, i, last, row) && v == BreakAt(hash, anchor, last, row)) ||
    (rows != [] && Spans(AnchorOk(hash, anchor), SelfOk(hash), None, rows) && v == Broken(rows[|rows| - 1].seqNo))
  }

  /** The sequence number an error carries is the one of the row at fault; the first row
      below a checkpoint is blamed under the checkpoint's own number. */
  lemma BlamedRow(hash: Hash, anchor: Anchor, rows: seq<AuditRow>, i: nat, last: Option<AuditHead>, row: AuditRow)
    requires Breaks(AnchorOk(hash, anchor), SelfOk(hash), rows, i, last, row)
    ensures match BreakAt(hash, anchor, last, row)
            case Broken(n) => n == row.seqNo || (i == 0 && anchor.Checkpoint? && n == StartOf(anchor))
            case Uncanonical => RowHash(hash, row.prevHash, EnvelopeOf(row)).Bad?
            case _ => false
  {
    assert i == 0 <==> last.None?;
  }

  function VerdictOf(hash: Hash, anchor: Anchor, streamed: Streamed): Verdict {
    match streamed
    case Verified(count, head) => Report(count, StartOf(anchor), head.seqNo, head.rowHash)
    case BrokenAt(last, row) => BreakAt(hash, anchor, last, row)
    case Empty => Broken(StartOf(anchor))
    case HeadMismatch(lastSeq) => Broken(lastSeq)
  }

  lemma VerdictBlames(hash: Hash, anchor: Anchor, rows: seq<AuditRow>, streamed: Streamed)
    requires FindsFirst(AnchorOk(hash, anchor), SelfOk(hash), rows, streamed)
    ensures Blames(hash, anchor, rows, VerdictOf(hash, anchor, streamed))
  {
    if streamed.BrokenAt? {
      var i: nat :| Breaks(AnchorOk(hash, anchor), SelfOk(hash), rows, i, streamed.last, streamed.row);
    }
  }

  lemma VerdictReports(hash: Hash, anchor: Anchor, streamed: Streamed)
    ensures VerdictOf(hash, anchor, streamed).Report? <==> streamed.Verified?
    ensures !VerdictOf(hash, anchor, streamed).BadArguments?
  {
  }

  /** Streams every row from the anchor, then catches up with rows appended meanwhile.
      On a table nobody appends to, it accepts exactly the unbroken chains. Of a chain the
      store built it never reports a break, whatever is appended between its reads. */
  method VerifyChain(log: LiveLog, hash: Hash, fromSeq: Option<int>, fromHash: Option<Bytes>)
    returns (verdict: Verdict)
    requires log.append == Appending(hash) && Ascends(log.table.rows)
    modifies log
    ensures Evolved(log.append, old(log.table), old(log.pending), log.table, log.pending)
    ensures verdict.BadArguments? <==> !ValidArguments(fromSeq, fromHash)
    ensures ValidArguments(fromSeq, fromHash) && old(log.pending) == [] ==>
              var anchor := AnchorFor(fromSeq, fromHash);
              verdict.Report? <==> ChainOk(hash, anchor, From(old(log.table), StartOf(anchor)))
    ensures ValidArguments(fromSeq, fromHash) && ChainOk(hash, Genesis, old(log.table)) ==>
              var anchor, rows := AnchorFor(fromSeq, fromHash), old(log.table).rows;
              StartOf(anchor) < |rows| && AnchorOk(hash, anchor)(rows[StartOf(anchor)]) ==>
                verdict.Report? && InChain(log.table, AuditHead(verdict.headSeq, verdict.headHash))
    ensures ValidArguments(fromSeq, fromHash) && old(log.pending) == [] ==>
              var anchor := AnchorFor(fromSeq, fromHash);
              Blames(hash, anchor, Above(old(log.table).rows, StartOf(anchor)), verdict)
    ensures verdict.Report? ==>
              && verdict.fromSeq == StartOf(AnchorFor(fromSeq, fromHash))
              && verdict.rowsVerified == verdict.headSeq - verdict.fromSeq + 1
  {
    if !ValidArguments(fromSeq, fromHash) {
      return BadArguments;
    }
    var anchor := AnchorFor(fromSeq, fromHash);
    ghost var t := log.table;
    AppendingKeeps(hash);
    AnchorNames(hash, anchor);
    WholeIsChainOk(hash, anchor, From(t, StartOf(anchor)));
    if ChainOk(hash, Genesis, t) && StartOf(anchor) < |t.rows| && AnchorOk(hash, anchor)(t.rows[StartOf(anchor)]) {
      HonestAnchor(hash, anchor, t);
    }
    var streamed := Stream(log, AnchorOk(hash, anchor), SelfOk(hash), StartOf(anchor));
    VerdictReports(hash, anchor, streamed);
    if FindsFirst(AnchorOk(hash, anchor), SelfOk(hash), Above(t.rows, StartOf(anchor)), streamed) {
      VerdictBlames(hash, anchor, Above(t.rows, StartOf(anchor)), streamed);
    }
    verdict := VerdictOf(hash, anchor, streamed);
  }
}
