/** The hash-chained audit table: how a row is hashed, how the store appends one, and
    what it means for a table to be an unbroken chain. */
module Audit {
  import opened Json
  import opened Types
  import opened Canonical
  import opened Utf8
  import opened Hashing

  // ----- Rows -----

  /** A UTC instant to the microsecond, as its civil fields. */
  datatype Instant = Instant(year: nat, month: nat, day: nat, hour: nat, minute: nat, second: nat, micro: nat) {
    predicate InRange() {
      && 1000 <= year <= 9999 && 1 <= month <= 12 && 1 <= day <= 31
      && hour < 24 && minute < 60 && second < 60 && micro < 1000000
    }
  }

  type Moment = i: Instant | i.InRange() witness Instant(1970, 1, 1, 0, 0, 0, 0)

  /** What a caller asks to have appended. */
  datatype AuditEvent = AuditEvent(
    eventType: string,
    runId: Option<string>,
    actionType: Option<string>,
    payload: PyObject,
    createdAt: Option<Moment>)

  datatype AuditRow = AuditRow(
    seqNo: int,
    runId: Option<string>,
    actionType: Option<string>,
    eventType: string,
    payload: PyObject,
    prevHash: Digest,
    rowHash: Digest,
    createdAt: Moment)

  datatype AuditHead = AuditHead(seqNo: int, rowHash: Digest)

  /** `audit_events` in `seq` order with the `audit_chain_head` singleton. */
  datatype AuditTable = AuditTable(rows: seq<AuditRow>, head: Option<AuditHead>)

  // ----- The row hash -----

  function Two(n: nat): string
    requires n < 100
  {
    [Digit(n / 10), Digit(n % 10)]
  }

  function Groups(pairs: seq<nat>, marks: seq<string>): string
    requires |pairs| == |marks| && forall i :: 0 <= i < |pairs| ==> pairs[i] < 100
  {
    if pairs == [] then "" else Two(pairs[0]) + marks[0] + Groups(pairs[1..], marks[1..])
  }

  function Pairs(m: Moment): (pairs: seq<nat>)
    ensures |pairs| == 10 && forall i :: 0 <= i < |pairs| ==> pairs[i] < 100
  {
    [m.year / 100, m.year % 100, m.month, m.day, m.hour, m.minute, m.second,
     m.micro / 10000, m.micro / 100 % 100, m.micro % 100]
  }

  const MARKS: seq<string> := ["", "-", "-", "T", ":", ":", ".", "", "", "Z"]

  /** `YYYY-MM-DDTHH:MM:SS.ffffffZ` */
  function Rfc3339(m: Moment): string {
    Groups(Pairs(m), MARKS)
  }

  function PyText(s: Option<string>): PyObject {
    match s case None => PyNone case Some(t) => PyStr(Clean(t))
  }

  function Entry(name: string, value: PyObject): PyEntry {
    PyEntry(StrKey(Clean(name)), value)
  }

  /** Every column that means something, so that none can be edited on its own. */
  function Envelope(seqNo: int, runId: Option<string>, actionType: Option<string>, eventType: string,
                    createdAt: Moment, payload: PyObject): PyObject {
    PyDict([Entry("seq", PyInt(seqNo)), Entry("run_id", PyText(runId)),
            Entry("action_type", PyText(actionType)), Entry("event_type", PyStr(Clean(eventType))),
            Entry("created_at", PyStr(Clean(Rfc3339(createdAt)))), Entry("payload", payload)])
  }

  function EnvelopeOf(r: AuditRow): PyObject {
    Envelope(r.seqNo, r.runId, r.actionType, r.eventType, r.createdAt, r.payload)
  }

  function Preimage(prev: Digest, envelope: PyObject): Checked<Bytes> {
    match CanonicalJson(envelope) case Good(text) => Good(prev + Encode(text)) case Bad(path) => Bad(path)
  }

  function RowHash(hash: Hash, prev: Digest, envelope: PyObject): Checked<Digest> {
    match Preimage(prev, envelope) case Good(bytes) => Good(hash(bytes)) case Bad(path) => Bad(path)
  }

  // ----- Genesis -----

  const ZERO_HASH: Digest := [0, 0, 0, 0, 0, 0, 0, 0, 0, 0, 0, 0, 0, 0, 0, 0,
                             0, 0, 0, 0, 0, 0, 0, 0, 0, 0, 0, 0, 0, 0, 0, 0]

  const GENESIS_TIME: Moment := Instant(1970, 1, 1, 0, 0, 0, 0)

  const GENESIS_PAYLOAD :=
    PyDict([Entry("chain", PyStr(Clean("airlock-audit-v1"))), Entry("canon", PyStr(Clean("airlock-canon-1")))])

  const GENESIS_ENVELOPE := Envelope(0, None, None, "genesis", GENESIS_TIME, GENESIS_PAYLOAD)

  function GenesisHash(hash: Hash): Digest {
    match RowHash(hash, ZERO_HASH, GENESIS_ENVELOPE) case Good(d) => d case Bad(_) => ZERO_HASH
  }

  function GenesisRow(hash: Hash): AuditRow {
    AuditRow(0, None, None, "genesis", GENESIS_PAYLOAD, ZERO_HASH, GenesisHash(hash), GENESIS_TIME)
  }

  function GenesisTable(hash: Hash): AuditTable {
    AuditTable([GenesisRow(hash)], Some(HeadOf(GenesisRow(hash))))
  }

  function HeadOf(r: AuditRow): AuditHead {
    AuditHead(r.seqNo, r.rowHash)
  }

  // ----- Appending -----

  datatype Appended = Table(table: AuditTable) | Raised

  function SeqNos(rows: seq<AuditRow>): set<int> {
    set r | r in rows :: r.seqNo
  }

  /** Where `ORDER BY seq` shows a new row. */
  function InsertRow(rows: seq<AuditRow>, r: AuditRow): seq<AuditRow> {
    if rows == [] || rows[|rows| - 1].seqNo < r.seqNo then rows + [r]
    else InsertRow(rows[..|rows| - 1], r) + [rows[|rows| - 1]]
  }

  /** One append under the write lock: read the head, hash, insert, move the head. It
      raises, and so changes nothing, when the head is missing, when the envelope is
      outside the canonical domain, or when the sequence number is taken. */
  function Append(hash: Hash, t: AuditTable, e: AuditEvent, now: Moment): Appended {
    if t.head.None? then Raised
    else
      var seqNo := t.head.value.seqNo + 1;
      var prev := t.head.value.rowHash;
      var at: Moment := if e.createdAt.Some? then e.createdAt.value else now;
      match RowHash(hash, prev, Envelope(seqNo, e.runId, e.actionType, e.eventType, at, e.payload))
      case Bad(_) => Raised
      case Good(rowHash) =>
        var row := AuditRow(seqNo, e.runId, e.actionType, e.eventType, e.payload, prev, rowHash, at);
        if seqNo in SeqNos(t.rows) then Raised
        else Table(AuditTable(InsertRow(t.rows, row), Some(HeadOf(row))))
  }

  // ----- An unbroken chain -----

  /** What the first row is held against. */
  datatype Anchor = Genesis | Checkpoint(seqNo: nat, rowHash: Digest)

  function AnchorOk(hash: Hash, anchor: Anchor): AuditRow -> bool {
    match anchor
    case Genesis => (r: AuditRow) => r.seqNo == 0 && r.prevHash == ZERO_HASH && r.rowHash == GenesisHash(hash)
    case Checkpoint(n, h) => (r: AuditRow) => r.seqNo == n && r.rowHash == h
  }

  /** The rows that hash to what they say. */
  function SelfOk(hash: Hash): AuditRow -> bool {
    (r: AuditRow) => RowHash(hash, r.prevHash, EnvelopeOf(r)) == Good(r.rowHash)
  }

  predicate Follows(before: AuditHead, r: AuditRow) {
    r.seqNo == before.seqNo + 1 && r.prevHash == before.rowHash
  }

  predicate LinkAt(rows: seq<AuditRow>, i: int)
    requires 0 < i < |rows|
  {
    Follows(HeadOf(rows[i - 1]), rows[i])
  }

  /** Rows without a gap, each linked to the one before and hashing to what it says. */
  ghost predicate Linked(selfOk: AuditRow -> bool, rows: seq<AuditRow>) {
    && (forall i :: 0 <= i < |rows| ==> selfOk(rows[i]))
    && (forall i {:trigger LinkAt(rows, i)} :: 0 < i < |rows| ==> LinkAt(rows, i))
  }

  ghost predicate ChainOk(hash: Hash, anchor: Anchor, t: AuditTable) {
    && t.rows != []
    && AnchorOk(hash, anchor)(t.rows[0])
    && Linked(SelfOk(hash), t.rows)
    && t.head == Some(HeadOf(t.rows[|t.rows| - 1]))
  }

  ghost predicate Ascends(rows: seq<AuditRow>) {
    forall i, j :: 0 <= i < j < |rows| ==> rows[i].seqNo < rows[j].seqNo
  }

  lemma FrontLinked(selfOk: AuditRow -> bool, rows: seq<AuditRow>)
    requires Linked(selfOk, rows) && rows != []
    ensures Linked(selfOk, rows[..|rows| - 1])
  {
    var front := rows[..|rows| - 1];
    forall i | 0 < i < |front| ensures LinkAt(front, i) {
      assert LinkAt(rows, i);
    }
  }

  lemma LinkedAscends(selfOk: AuditRow -> bool, rows: seq<AuditRow>)
    requires Linked(selfOk, rows)
    ensures Ascends(rows)
    ensures forall i :: 0 <= i < |rows| ==> rows[i].seqNo == rows[0].seqNo + i
  {
    if |rows| > 1 {
      var front := rows[..|rows| - 1];
      FrontLinked(selfOk, rows);
      LinkedAscends(selfOk, front);
      assert rows[|rows| - 2] == front[|rows| - 2];
      assert LinkAt(rows, |rows| - 1);
      forall i | 0 <= i < |rows| ensures rows[i].seqNo == rows[0].seqNo + i {
        if i < |rows| - 1 { assert front[i] == rows[i]; }
      }
    }
  }

  lemma {:induction false} CheckCons(e: PyEntry, rest: seq<PyEntry>, i: nat)
    ensures CheckEntries([e] + rest, i).Good? <==> CheckEntry(e).Good? && CheckEntries(rest, i + 1).Good?
    ensures CheckEntries([e] + rest, i).Good? ==>
              CheckEntries([e] + rest, i).value == [CheckEntry(e).value] + CheckEntries(rest, i + 1).value
  {
    assert ([e] + rest)[1..] == rest;
  }

  function TextValue(s: Option<string>): Value {
    match s case None => Null case Some(t) => Str(t)
  }

  function EnvelopeMembers(seqNo: int, runId: Option<string>, actionType: Option<string>, eventType: string,
                           createdAt: Moment, payload: Value): seq<Member> {
    [Member("seq", Int(seqNo))] + ([Member("run_id", TextValue(runId))] +
    ([Member("action_type", TextValue(actionType))] + ([Member("event_type", Str(eventType))] +
    ([Member("created_at", Str(Rfc3339(createdAt)))] + [Member("payload", payload)]))))
  }

  lemma {:induction false} EnvelopeTailChecks(eventType: string, createdAt: Moment, payload: PyObject)
    ensures var checked := CheckEntries([Entry("event_type", PyStr(Clean(eventType)))] +
                             ([Entry("created_at", PyStr(Clean(Rfc3339(createdAt))))] + [Entry("payload",
                                                                                               payload)]), 3);
            && (checked.Good? <==> Check(payload).Good?)
            && (checked.Good? ==>
                  checked.value == [Member("event_type", Str(eventType))] +
                                   ([Member("created_at", Str(Rfc3339(createdAt)))] + [Member("payload",
                                                                                              Check(payload).value)]))
  {
    var e4, e5 := Entry("event_type", PyStr(Clean(eventType))), Entry("created_at", PyStr(Clean(Rfc3339(createdAt))));
    CheckLast(Entry("payload", payload));
    CheckCons(e5, [Entry("payload", payload)], 4);
    CheckCons(e4, [e5] + [Entry("payload", payload)], 3);
  }

  /** An envelope is canonical when its number is in range and its payload is canonical. */
  lemma {:induction false} EnvelopeChecks(seqNo: int, runId: Option<string>, actionType: Option<string>,
                                          eventType: string, createdAt: Moment, payload: PyObject)
    ensures var checked := Check(Envelope(seqNo, runId, actionType, eventType, createdAt, payload));
            && (checked.Good? <==> -MAX_CANONICAL_INT <= seqNo <= MAX_CANONICAL_INT && Check(payload).Good?)
            && (checked.Good? ==>
                  checked.value == Obj(EnvelopeMembers(seqNo, runId, actionType, eventType, createdAt,
                                                       Check(payload).value)))
  {
    var e1, e2, e3 := Entry("seq", PyInt(seqNo)), Entry("run_id", PyText(runId)), Entry("action_type",
                                                                                        PyText(actionType));
    var e4, e5 := Entry("event_type", PyStr(Clean(eventType))), Entry("created_at", PyStr(Clean(Rfc3339(createdAt))));
    var tail := [e4] + ([e5] + [Entry("payload", payload)]);
    EnvelopeTailChecks(eventType, createdAt, payload);
    CheckCons(e3, tail, 2);
    CheckCons(e2, [e3] + tail, 1);
    CheckCons(e1, [e2] + ([e3] + tail), 0);
    assert [e1, e2, e3, e4, e5, Entry("payload", payload)] == [e1] + ([e2] + ([e3] + tail));
  }

  lemma {:induction false} CheckLast(e: PyEntry)
    ensures CheckEntries([e], 5).Good? <==> CheckEntry(e).Good?
    ensures CheckEntries([e], 5).Good? ==> CheckEntries([e], 5).value == [CheckEntry(e).value]
  {
    CheckCons(e, [], 5);
    assert [e] + [] == [e];
  }

  lemma GenesisIsCanonical()
    ensures Check(GENESIS_ENVELOPE).Good?
  {
    EnvelopeChecks(0, None, None, "genesis", GENESIS_TIME, GENESIS_PAYLOAD);
    GenesisPayloadIsCanonical();
  }

  lemma GenesisPayloadIsCanonical()
    ensures Check(GENESIS_PAYLOAD).Good?
  {
    CheckAcceptsPermitted(GENESIS_PAYLOAD);
  }

  lemma GenesisHashes(hash: Hash)
    ensures RowHash(hash, ZERO_HASH, GENESIS_ENVELOPE) == Good(GenesisHash(hash))
  {
    GenesisIsCanonical();
    RowHashChecks(hash, ZERO_HASH, GENESIS_ENVELOPE);
  }

  lemma GenesisRowIsSound(hash: Hash)
    ensures SelfOk(hash)(GenesisRow(hash))
  {
    GenesisHashes(hash);
    assert EnvelopeOf(GenesisRow(hash)) == GENESIS_ENVELOPE;
  }

  lemma OneRowChains(hash: Hash, r: AuditRow)
    requires AnchorOk(hash, Genesis)(r) && SelfOk(hash)(r)
    ensures ChainOk(hash, Genesis, AuditTable([r], Some(HeadOf(r))))
  {
    LinkedAlone(SelfOk(hash), r);
  }

  lemma GenesisChains(hash: Hash)
    ensures ChainOk(hash, Genesis, GenesisTable(hash))
  {
    GenesisRowIsSound(hash);
    OneRowChains(hash, GenesisRow(hash));
  }

  lemma LinkedAlone(selfOk: AuditRow -> bool, r: AuditRow)
    requires selfOk(r)
    ensures Linked(selfOk, [r])
  {
  }

  lemma LinkedGrows(selfOk: AuditRow -> bool, rows: seq<AuditRow>, r: AuditRow)
    requires rows != [] && Linked(selfOk, rows) && selfOk(r) && Follows(HeadOf(rows[|rows| - 1]), r)
    ensures Linked(selfOk, rows + [r])
  {
    var all := rows + [r];
    forall i | 0 < i < |all| ensures LinkAt(all, i) {
      assert i < |rows| ==> LinkAt(rows, i);
    }
  }

  lemma NextIsFree(rows: seq<AuditRow>)
    requires rows != [] && Ascends(rows)
    ensures rows[|rows| - 1].seqNo + 1 !in SeqNos(rows)
  {
  }

  function EventEnvelope(t: AuditTable, e: AuditEvent, now: Moment): PyObject
    requires t.head.Some?
  {
    Envelope(t.head.value.seqNo + 1, e.runId, e.actionType, e.eventType,
             if e.createdAt.Some? then e.createdAt.value else now, e.payload)
  }

  lemma {:induction false} RowHashChecks(hash: Hash, prev: Digest, envelope: PyObject)
    ensures RowHash(hash, prev, envelope).Good? <==> Check(envelope).Good?
  {
  }

  predicate Says(r: AuditRow, e: AuditEvent) {
    r.eventType == e.eventType && r.runId == e.runId && r.actionType == e.actionType && r.payload == e.payload
  }

  /** Of an append that went through: the row it wrote. */
  lemma AppendedRow(hash: Hash, t: AuditTable, e: AuditEvent, now: Moment) returns (r: AuditRow)
    requires Append(hash, t, e, now).Table?
    requires t.rows != [] && t.head == Some(HeadOf(t.rows[|t.rows| - 1]))
    ensures Append(hash, t, e, now).table == AuditTable(t.rows + [r], Some(HeadOf(r)))
    ensures Follows(t.head.value, r) && Says(r, e) && SelfOk(hash)(r)
  {
    var t' := Append(hash, t, e, now).table;
    r := t'.rows[|t.rows|];
  }

  /** An append to an unbroken chain adds one row at its end and keeps it unbroken; it
      raises exactly when the new envelope is outside the canonical domain. */
  lemma AppendKeepsChain(hash: Hash, t: AuditTable, e: AuditEvent, now: Moment)
    requires ChainOk(hash, Genesis, t)
    ensures Append(hash, t, e, now).Raised? <==> |t.rows| > MAX_CANONICAL_INT || !Permitted(e.payload)
    ensures Append(hash, t, e, now).Table? ==>
              var t' := Append(hash, t, e, now).table;
              && ChainOk(hash, Genesis, t')
              && |t'.rows| == |t.rows| + 1 && t'.rows[..|t.rows|] == t.rows
              && Says(t'.rows[|t.rows|], e)
  {
    AppendRaisesExactly(hash, t, e, now);
    if Append(hash, t, e, now).Table? {
      var r := AppendedRow(hash, t, e, now);
      LinkedGrows(SelfOk(hash), t.rows, r);
    }
  }

  lemma AppendRaisesExactly(hash: Hash, t: AuditTable, e: AuditEvent, now: Moment)
    requires ChainOk(hash, Genesis, t)
    ensures Append(hash, t, e, now).Raised? <==> |t.rows| > MAX_CANONICAL_INT || !Permitted(e.payload)
  {
    LinkedAscends(SelfOk(hash), t.rows);
    NextIsFree(t.rows);
    RaisedByHash(hash, t, e, now);
    EventEnvelopeChecks(t, e, now);
  }

  lemma RaisedByHash(hash: Hash, t: AuditTable, e: AuditEvent, now: Moment)
    requires t.head.Some? && t.head.value.seqNo + 1 !in SeqNos(t.rows)
    ensures Append(hash, t, e, now).Raised? <==> Check(EventEnvelope(t, e, now)).Bad?
  {
    RowHashChecks(hash, t.head.value.rowHash, EventEnvelope(t, e, now));
  }

  lemma EventEnvelopeChecks(t: AuditTable, e: AuditEvent, now: Moment)
    requires t.head.Some?
    ensures Check(EventEnvelope(t, e, now)).Good? <==>
            -MAX_CANONICAL_INT <= t.head.value.seqNo + 1 <= MAX_CANONICAL_INT && Permitted(e.payload)
  {
    var at: Moment := if e.createdAt.Some? then e.createdAt.value else now;
    EnvelopeChecks(t.head.value.seqNo + 1, e.runId, e.actionType, e.eventType, at, e.payload);
    CheckAcceptsPermitted(e.payload);
  }
}
