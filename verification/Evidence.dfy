/** What the rows of the audit chain say about a key, read back from their payloads. */
module Evidence {
  import opened Types
  import opened Canonical
  import opened Audit
  import G = Gate
  import S = Store

  datatype Note = Note(key: Key, notice: G.Notice)

  // ----- Names -----

  function StateName(s: LedgerState): string {
    match s
    case Pending => "pending"
    case Executing => "executing"
    case Committed => "committed"
    case Aborted => "aborted"
    case Failed => "failed"
    case Unknown => "unknown"
  }

  function StateNamed(s: string): Option<LedgerState> {
    if s == "pending" then Some(Pending)
    else if s == "executing" then Some(Executing)
    else if s == "committed" then Some(Committed)
    else if s == "aborted" then Some(Aborted)
    else if s == "failed" then Some(Failed)
    else if s == "unknown" then Some(Unknown)
    else None
  }

  function StatusName(s: PauseStatus): string {
    match s
    case Proposed => "proposed"
    case Approved => "approved"
    case Rejected => "rejected"
    case RunCommitted => "committed"
    case RunAborted => "aborted"
  }

  function StatusNamed(s: string): Option<PauseStatus> {
    if s == "proposed" then Some(Proposed)
    else if s == "approved" then Some(Approved)
    else if s == "rejected" then Some(Rejected)
    else if s == "committed" then Some(RunCommitted)
    else if s == "aborted" then Some(RunAborted)
    else None
  }

  lemma NamesReadBack(s: LedgerState, p: PauseStatus)
    ensures StateNamed(StateName(s)) == Some(s) && StatusNamed(StatusName(p)) == Some(p)
  {
  }

  // ----- Reading a payload -----

  function Field(entries: seq<PyEntry>, name: string): PyObject {
    if entries == [] then PyNone
    else if entries[0].key == StrKey(Clean(name)) then entries[0].value
    else Field(entries[1..], name)
  }

  function TextOf(o: PyObject): Option<string> {
    if o.PyStr? && o.s.Clean? then Some(o.s.text) else None
  }

  function StateIn(o: PyObject): Option<LedgerState> {
    if TextOf(o).Some? then StateNamed(TextOf(o).value) else None
  }

  function StatusIn(o: PyObject): Option<PauseStatus> {
    if TextOf(o).Some? then StatusNamed(TextOf(o).value) else None
  }

  /** What a record says: an outcome, a recovery or an escalation, an edge; or nothing. */
  function Decode(eventType: string, payload: PyObject): Option<Note> {
    if !payload.PyDict? then None
    else
      var key := TextOf(Field(payload.entries, if eventType == "reconcile" then "key" else "idempotency_key"));
      var notice :=
        if eventType == "action_event" then DecodeOutcome(payload.entries)
        else if eventType == "reconcile" then Some(DecodeReconcile(payload.entries))
        else if eventType == "pause_transition" then DecodeEdge(payload.entries)
        else None;
      if key.Some? && notice.Some? then Some(Note(key.value, notice.value)) else None
  }

  function DecodeOutcome(entries: seq<PyEntry>): Option<G.Notice> {
    var state := StateIn(Field(entries, "outcome"));
    if state.Some? then Some(G.Outcome(state.value)) else None
  }

  function DecodeReconcile(entries: seq<PyEntry>): G.Notice {
    var state := StateIn(Field(entries, "to_state"));
    if state.Some? then G.Recovered(state.value) else G.Escalated
  }

  function DecodeEdge(entries: seq<PyEntry>): Option<G.Notice> {
    var to := StatusIn(Field(entries, "to_status"));
    if to.Some? then Some(G.Edge(StatusIn(Field(entries, "from_status")), to.value)) else None
  }

  function DecodeRow(r: AuditRow): Option<Note> {
    Decode(r.eventType, r.payload)
  }

  function DecodeEvent(e: AuditEvent): Option<Note> {
    Decode(e.eventType, e.payload)
  }

  function RowNotes(rows: seq<AuditRow>): seq<Option<Note>> {
    seq(|rows|, i requires 0 <= i < |rows| => DecodeRow(rows[i]))
  }

  function EventNotes(es: seq<AuditEvent>): seq<Option<Note>> {
    seq(|es|, i requires 0 <= i < |es| => DecodeEvent(es[i]))
  }

  // ----- What is said about one key -----

  function Pick(notes: seq<Option<Note>>, k: Key): seq<G.Notice> {
    if notes == [] then []
    else
      Pick(notes[..|notes| - 1], k) +
      var last := notes[|notes| - 1];
      if last.Some? && last.value.key == k then [last.value.notice] else []
  }

  lemma {:induction false} PickConcat(a: seq<Option<Note>>, b: seq<Option<Note>>, k: Key)
    ensures Pick(a + b, k) == Pick(a, k) + Pick(b, k)
    decreases |b|
  {
    if b == [] {
      assert a + b == a;
    } else {
      assert (a + b)[..|a + b| - 1] == a + b[..|b| - 1];
      PickConcat(a, b[..|b| - 1], k);
    }
  }

  /** Notes about one key. */
  function About(key: Key, notices: seq<G.Notice>): seq<Option<Note>> {
    seq(|notices|, i requires 0 <= i < |notices| => Some(Note(key, notices[i])))
  }

  lemma {:induction false} PickAbout(key: Key, notices: seq<G.Notice>, k: Key)
    ensures Pick(About(key, notices), k) == if k == key then notices else []
    decreases |notices|
  {
    if notices != [] {
      var n := |notices| - 1;
      assert About(key, notices)[..n] == About(key, notices[..n]);
      PickAbout(key, notices[..n], k);
      assert notices[..n] + [notices[n]] == notices;
    }
  }

  // ----- Writing -----

  function PlainText(s: string): PyObject {
    PyStr(Clean(s))
  }

  /** The least another process must have written to put this on the chain. */
  function EventFor(key: Key, n: G.Notice): AuditEvent {
    match n
    case Edge(from, to) =>
      AuditEvent("pause_transition", None, None,
        PyDict([Audit.Entry("idempotency_key", PlainText(key)),
                Audit.Entry("from_status", if from.Some? then PlainText(StatusName(from.value)) else PyNone),
                Audit.Entry("to_status", PlainText(StatusName(to)))]), None)
    case Outcome(state) =>
      AuditEvent("action_event", None, None,
        PyDict([Audit.Entry("idempotency_key", PlainText(key)),
                Audit.Entry("outcome", PlainText(StateName(state)))]), None)
    case Recovered(state) =>
      AuditEvent("reconcile", None, None,
        PyDict([Audit.Entry("key", PlainText(key)), Audit.Entry("to_state", PlainText(StateName(state)))]), None)
    case Escalated =>
      AuditEvent("reconcile", None, None,
                 PyDict([Audit.Entry("key", PlainText(key)), Audit.Entry("to_state", PyNone)]), None)
  }

  function EventsFor(key: Key, notices: seq<G.Notice>): seq<AuditEvent> {
    seq(|notices|, i requires 0 <= i < |notices| => EventFor(key, notices[i]))
  }

  /** A field is the first entry of its name. */
  lemma {:induction false} FieldAt(entries: seq<PyEntry>, i: nat, name: string)
    requires i < |entries| && entries[i].key == StrKey(Clean(name))
    requires forall j :: 0 <= j < i ==> entries[j].key != StrKey(Clean(name))
    ensures Field(entries, name) == entries[i].value
  {
    if i > 0 {
      assert entries[0].key != StrKey(Clean(name));
      FieldAt(entries[1..], i - 1, name);
    }
  }

  lemma EventReadsBack(key: Key, n: G.Notice)
    ensures DecodeEvent(EventFor(key, n)) == Some(Note(key, n))
  {
    var es := EventFor(key, n).payload.entries;
    match n
    case Edge(from, to) =>
      NamesReadBack(Pending, to);
      if from.Some? { NamesReadBack(Pending, from.value); }
      FieldAt(es, 1, "from_status");
      FieldAt(es, 2, "to_status");
    case Outcome(state) =>
      NamesReadBack(state, Proposed);
      FieldAt(es, 1, "outcome");
    case Recovered(state) =>
      NamesReadBack(state, Proposed);
      FieldAt(es, 1, "to_state");
    case Escalated =>
      FieldAt(es, 1, "to_state");
  }

  lemma EventsReadBack(key: Key, notices: seq<G.Notice>)
    ensures EventNotes(EventsFor(key, notices)) == About(key, notices)
  {
    forall i | 0 <= i < |notices| ensures DecodeEvent(EventFor(key, notices[i])) == Some(Note(key, notices[i])) {
      EventReadsBack(key, notices[i]);
    }
  }

  /** Such an event is always in the canonical domain. */
  lemma EventIsWritable(key: Key, n: G.Notice)
    ensures Permitted(EventFor(key, n).payload)
  {
  }

  lemma EventsAreWritable(key: Key, notices: seq<G.Notice>)
    ensures S.Writable(EventsFor(key, notices))
  {
    forall i | 0 <= i < |notices| ensures Permitted(EventFor(key, notices[i]).payload) {
      EventIsWritable(key, notices[i]);
    }
  }

  lemma OneNote(e: AuditEvent, key: Key, n: G.Notice)
    requires DecodeEvent(e) == Some(Note(key, n))
    ensures EventNotes([e]) == About(key, [n])
  {
  }

  // ----- Appending to the chain adds what the events say -----

  lemma RowAddsNote(t: AuditTable, e: AuditEvent, t': AuditTable)
    requires S.AddedRow(t, e, t')
    ensures RowNotes(t'.rows) == RowNotes(t.rows) + [DecodeEvent(e)]
  {
    var n := |t.rows|;
    forall i | 0 <= i < n ensures RowNotes(t'.rows)[i] == RowNotes(t.rows)[i] {
      assert t'.rows[i] == t'.rows[..n][i];
    }
  }

  lemma {:induction false} AppendsAddNotes(chainOk: AuditTable -> bool, append: S.Appender, t: AuditTable,
                                           es: seq<AuditEvent>, now: Moment)
    requires S.Keeps(chainOk, append) && chainOk(t) && S.AppendAll(append, t, es, now).Table?
    ensures RowNotes(S.AppendAll(append, t, es, now).table.rows) == RowNotes(t.rows) + EventNotes(es)
  {
    if es == [] {
      assert EventNotes(es) == [];
    } else {
      var n := |es| - 1;
      AppendsAddNotes(chainOk, append, t, es[..n], now);
      S.AppendAllKeeps(chainOk, append, t, es[..n], now);
      var t' := S.AppendAll(append, t, es[..n], now).table;
      RowAddsNote(t', es[n], append(t', es[n], now).table);
      assert EventNotes(es) == EventNotes(es[..n]) + [DecodeEvent(es[n])];
    }
  }
}
