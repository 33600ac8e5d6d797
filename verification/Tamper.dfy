/** Tamper evidence: the head hash of an unbroken chain pins every column of every row,
    and a full pass is a prefix pass plus a checkpoint pass. */
module Tamper {
  import opened Json
  import opened Types
  import opened Canonical
  import opened KeyOrder
  import opened Utf8
  import opened Hashing
  import opened Audit

  // ----- Timestamps -----

  lemma TwoIsInjective(a: nat, b: nat)
    requires a < 100 && b < 100 && Two(a) == Two(b)
    ensures a == b
  {
    assert Two(a)[0] == Two(b)[0] && Two(a)[1] == Two(b)[1];
  }

  lemma {:induction false} GroupsAreInjective(p: seq<nat>, q: seq<nat>, marks: seq<string>)
    requires |p| == |marks| && |q| == |marks|
    requires forall i :: 0 <= i < |p| ==> p[i] < 100 && q[i] < 100
    requires Groups(p, marks) == Groups(q, marks)
    ensures p == q
  {
    if p != [] {
      var tp, tq := Groups(p[1..], marks[1..]), Groups(q[1..], marks[1..]);
      FirstGroup(Two(p[0]), Two(q[0]), marks[0], tp, tq);
      TwoIsInjective(p[0], q[0]);
      GroupsAreInjective(p[1..], q[1..], marks[1..]);
      assert p == [p[0]] + p[1..] && q == [q[0]] + q[1..];
    }
  }

  lemma FirstGroup(a: string, b: string, mark: string, s: string, t: string)
    requires |a| == |b| && a + mark + s == b + mark + t
    ensures a == b && s == t
  {
    assert (a + mark + s)[..|a|] == a && (b + mark + t)[..|a|] == b;
    assert (a + mark + s)[|a| + |mark|..] == s && (b + mark + t)[|a| + |mark|..] == t;
  }

  lemma Rfc3339IsInjective(a: Moment, b: Moment)
    requires Rfc3339(a) == Rfc3339(b)
    ensures a == b
  {
    GroupsAreInjective(Pairs(a), Pairs(b), MARKS);
    SamePairs(a, b);
  }

  lemma SameMicros(a: nat, b: nat)
    requires a / 10000 == b / 10000 && a / 100 % 100 == b / 100 % 100 && a % 100 == b % 100
    ensures a == b
  {
    assert a / 10000 == (a / 100) / 100 && b / 10000 == (b / 100) / 100;
    assert a / 100 == 100 * (a / 10000) + a / 100 % 100 && b / 100 == 100 * (b / 10000) + b / 100 % 100;
  }

  lemma SamePairs(a: Moment, b: Moment)
    requires Pairs(a) == Pairs(b)
    ensures a == b
  {
    var p, q := Pairs(a), Pairs(b);
    assert p[0] == q[0] && p[1] == q[1] && p[2] == q[2] && p[3] == q[3] && p[4] == q[4];
    assert p[5] == q[5] && p[6] == q[6] && p[7] == q[7] && p[8] == q[8] && p[9] == q[9];
    SameMicros(a.micro, b.micro);
  }

  // ----- One row -----

  /** The hashed columns agree, payloads up to the order of their keys. */
  ghost predicate SameColumns(a: AuditRow, b: AuditRow) {
    && a.seqNo == b.seqNo && a.runId == b.runId && a.actionType == b.actionType
    && a.eventType == b.eventType && a.createdAt == b.createdAt
    && Check(a.payload).Good? && Check(b.payload).Good?
    && Same(Check(a.payload).value, Check(b.payload).value)
    && a.prevHash == b.prevHash && a.rowHash == b.rowHash
  }

  /** No dictionary of the payload repeats a key. */
  ghost predicate ProperPayload(r: AuditRow) {
    Check(r.payload).Good? ==> DistinctKeys(Check(r.payload).value)
  }

  /** The two rows exhibit a collision of the hash: different inputs, one digest. */
  ghost predicate Collide(hash: Hash, a: AuditRow, b: AuditRow) {
    var p, q := Preimage(a.prevHash, EnvelopeOf(a)), Preimage(b.prevHash, EnvelopeOf(b));
    p.Good? && q.Good? && p.value != q.value && hash(p.value) == hash(q.value)
  }

  function MembersOf(r: AuditRow): seq<Member>
    requires Check(r.payload).Good?
  {
    EnvelopeMembers(r.seqNo, r.runId, r.actionType, r.eventType, r.createdAt, Check(r.payload).value)
  }

  lemma MembersAt(r: AuditRow)
    requires Check(r.payload).Good?
    ensures var ms := MembersOf(r);
            && |ms| == 6
            && ms[0] == Member("seq", Int(r.seqNo)) && ms[1] == Member("run_id", TextValue(r.runId))
            && ms[2] == Member("action_type", TextValue(r.actionType))
            && ms[3] == Member("event_type", Str(r.eventType))
            && ms[4] == Member("created_at", Str(Rfc3339(r.createdAt)))
            && ms[5] == Member("payload", Check(r.payload).value)
  {
  }

  lemma NamesDiffer(ms: seq<Member>)
    requires |ms| == 6 && ms[0].name == "seq" && ms[1].name == "run_id" && ms[2].name == "action_type"
    requires ms[3].name == "event_type" && ms[4].name == "created_at" && ms[5].name == "payload"
    ensures Distinct(ms)
  {
    assert ms[3].name[0] == 'e' && ms[4].name[0] == 'c';
    assert |ms[0].name| == 3 && |ms[1].name| == 6 && |ms[2].name| == 11;
    assert |ms[3].name| == 10 && |ms[4].name| == 10 && |ms[5].name| == 7;
  }

  lemma MembersAreDistinct(r: AuditRow)
    requires Check(r.payload).Good? && ProperPayload(r)
    ensures Distinct(MembersOf(r)) && DistinctKeys(Obj(MembersOf(r)))
  {
    MembersAt(r);
    NamesDiffer(MembersOf(r));
    var ms := MembersOf(r);
    forall i | 0 <= i < |ms| ensures DistinctMember(ms[i]) {
    }
  }

  /** In objects with the same distinct names in the same places, matching is by place. */
  lemma MatchedByPlace(a: seq<Member>, b: seq<Member>, i: nat)
    requires |a| == |b| && Distinct(a) && Distinct(b) && i < |a|
    requires forall k :: 0 <= k < |a| ==> a[k].name == b[k].name
    requires Same(Obj(a), Obj(b))
    ensures Same(a[i].value, b[i].value)
  {
    assert FoundIn(a[i], b);
    var j :| 0 <= j < |b| && SameMember(a[i], b[j]);
    assert b[j].name == b[i].name;
  }

  lemma SameValues(a: AuditRow, b: AuditRow)
    requires Check(a.payload).Good? && ProperPayload(a) && Check(b.payload).Good? && ProperPayload(b)
    requires Same(Obj(MembersOf(a)), Obj(MembersOf(b)))
    ensures a.seqNo == b.seqNo && a.runId == b.runId && a.actionType == b.actionType
    ensures a.eventType == b.eventType && a.createdAt == b.createdAt
    ensures Same(Check(a.payload).value, Check(b.payload).value)
  {
    var ma, mb := MembersOf(a), MembersOf(b);
    MembersAreDistinct(a);
    MembersAreDistinct(b);
    MembersAt(a);
    MembersAt(b);
    SamePlaces(ma, mb);
    if Rfc3339(a.createdAt) == Rfc3339(b.createdAt) { Rfc3339IsInjective(a.createdAt, b.createdAt); }
  }

  lemma SamePlaces(a: seq<Member>, b: seq<Member>)
    requires |a| == 6 && |b| == 6 && Distinct(a) && Distinct(b)
    requires forall k :: 0 <= k < |a| ==> a[k].name == b[k].name
    requires Same(Obj(a), Obj(b))
    ensures Same(a[0].value, b[0].value) && Same(a[1].value, b[1].value) && Same(a[2].value, b[2].value)
    ensures Same(a[3].value, b[3].value) && Same(a[4].value, b[4].value) && Same(a[5].value, b[5].value)
  {
    MatchedByPlace(a, b, 0);
    MatchedByPlace(a, b, 1);
    MatchedByPlace(a, b, 2);
    MatchedByPlace(a, b, 3);
    MatchedByPlace(a, b, 4);
    MatchedByPlace(a, b, 5);
  }

  lemma SplitAtDigest(p: Digest, q: Digest, a: Bytes, b: Bytes)
    requires p + a == q + b
    ensures p == q && a == b
  {
    assert (p + a)[..32] == p && (q + b)[..32] == q;
    assert (p + a)[32..] == a && (q + b)[32..] == b;
  }

  lemma RowChecked(hash: Hash, r: AuditRow)
    requires SelfOk(hash)(r)
    ensures Check(EnvelopeOf(r)).Good? && Check(r.payload).Good?
    ensures Check(EnvelopeOf(r)).value == Obj(MembersOf(r))
    ensures Preimage(r.prevHash, EnvelopeOf(r)) == Good(r.prevHash + Encode(Canon(Obj(MembersOf(r)))))
  {
    RowHashChecks(hash, r.prevHash, EnvelopeOf(r));
    EnvelopeChecks(r.seqNo, r.runId, r.actionType, r.eventType, r.createdAt, r.payload);
  }

  /** Rows with one hash agree in every hashed column, or show the collision. */
  lemma RowHashPinsColumns(hash: Hash, a: AuditRow, b: AuditRow)
    requires SelfOk(hash)(a) && SelfOk(hash)(b) && ProperPayload(a) && ProperPayload(b)
    requires a.rowHash == b.rowHash
    ensures SameColumns(a, b) || Collide(hash, a, b)
  {
    RowChecked(hash, a);
    RowChecked(hash, b);
    if !Collide(hash, a, b) {
      var ta, tb := Canon(Obj(MembersOf(a))), Canon(Obj(MembersOf(b)));
      SplitAtDigest(a.prevHash, b.prevHash, Encode(ta), Encode(tb));
      EncodeIsInjective(ta, tb);
      MembersAreDistinct(a);
      MembersAreDistinct(b);
      CanonDecidesSame(Obj(MembersOf(a)), Obj(MembersOf(b)));
      SameValues(a, b);
    }
  }

  // ----- Two tables -----

  ghost predicate AllPairs<T>(same: (T, T) -> bool, a: seq<T>, b: seq<T>) {
    |a| == |b| && forall i :: 0 <= i < |a| ==> same(a[i], b[i])
  }

  ghost predicate SomePair<T>(bad: (T, T) -> bool, a: seq<T>, b: seq<T>) {
    exists i, j :: 0 <= i < |a| && 0 <= j < |b| && bad(a[i], b[j])
  }

  ghost function Colliding(hash: Hash): (AuditRow, AuditRow) -> bool {
    (a: AuditRow, b: AuditRow) => Collide(hash, a, b)
  }

  ghost predicate SameTables(a: seq<AuditRow>, b: seq<AuditRow>) {
    AllPairs(SameColumns, a, b)
  }

  ghost predicate SomeCollide(hash: Hash, a: seq<AuditRow>, b: seq<AuditRow>) {
    SomePair(Colliding(hash), a, b)
  }

  ghost predicate Proper(rows: seq<AuditRow>) {
    forall i :: 0 <= i < |rows| ==> ProperPayload(rows[i])
  }

  ghost predicate Anchored(sound: AuditRow -> bool, rows: seq<AuditRow>) {
    rows != [] && rows[0].seqNo == 0 && Linked(sound, rows)
  }

  lemma AnchoredEnds(sound: AuditRow -> bool, rows: seq<AuditRow>)
    requires Anchored(sound, rows)
    ensures sound(rows[|rows| - 1]) && rows[|rows| - 1].seqNo == |rows| - 1
  {
    LinkedAscends(sound, rows);
  }

  lemma FrontLinks(sound: AuditRow -> bool, rows: seq<AuditRow>)
    requires Anchored(sound, rows) && |rows| > 1
    ensures Anchored(sound, rows[..|rows| - 1])
    ensures rows[|rows| - 1].prevHash == rows[|rows| - 2].rowHash
  {
    FrontLinked(sound, rows);
    assert LinkAt(rows, |rows| - 1);
  }

  lemma FrontsAgree<T>(same: (T, T) -> bool, bad: (T, T) -> bool, a: seq<T>, b: seq<T>)
    requires |a| > 1 && |b| > 1
    requires AllPairs(same, a[..|a| - 1], b[..|b| - 1]) || SomePair(bad, a[..|a| - 1], b[..|b| - 1])
    requires same(a[|a| - 1], b[|b| - 1])
    ensures AllPairs(same, a, b) || SomePair(bad, a, b)
  {
    var fa, fb := a[..|a| - 1], b[..|b| - 1];
    if SomePair(bad, fa, fb) {
      var i, j :| 0 <= i < |fa| && 0 <= j < |fb| && bad(fa[i], fb[j]);
      assert bad(a[i], b[j]);
    } else {
      forall i | 0 <= i < |a| ensures same(a[i], b[i]) {
        if i < |a| - 1 { assert same(fa[i], fb[i]); }
      }
    }
  }

  lemma LastPair<T>(same: (T, T) -> bool, bad: (T, T) -> bool, a: seq<T>, b: seq<T>)
    requires a != [] && b != []
    requires bad(a[|a| - 1], b[|b| - 1]) || (|a| == 1 && |b| == 1 && same(a[0], b[0]))
    ensures AllPairs(same, a, b) || SomePair(bad, a, b)
  {
  }

  /** Sound rows with one hash are bad together, or the same, place and link included. */
  ghost predicate Pins(sound: AuditRow -> bool, same: (AuditRow, AuditRow) -> bool,
                       bad: (AuditRow, AuditRow) -> bool) {
    forall a, b {:trigger bad(a, b)} :: sound(a) && sound(b) && a.rowHash == b.rowHash && !bad(a, b) ==>
      same(a, b) && a.seqNo == b.seqNo && a.prevHash == b.prevHash
  }

  lemma LastHashPinsRows(sound: AuditRow -> bool, same: (AuditRow, AuditRow) -> bool,
                         bad: (AuditRow, AuditRow) -> bool, a: seq<AuditRow>, b: seq<AuditRow>)
    requires Pins(sound, same, bad) && Anchored(sound, a) && Anchored(sound, b)
    requires a[|a| - 1].rowHash == b[|b| - 1].rowHash
    ensures AllPairs(same, a, b) || SomePair(bad, a, b)
  {
    AnchoredEnds(sound, a);
    AnchoredEnds(sound, b);
    if !bad(a[|a| - 1], b[|b| - 1]) && |a| > 1 {
      FrontLinks(sound, a);
      FrontLinks(sound, b);
      LastHashPinsRows(sound, same, bad, a[..|a| - 1], b[..|b| - 1]);
      FrontsAgree(same, bad, a, b);
    } else {
      LastPair(same, bad, a, b);
    }
  }

  /** A row that hashes to what it says, with a payload such as Python can hold. */
  ghost function Sound(hash: Hash): AuditRow -> bool {
    (r: AuditRow) => SelfOk(hash)(r) && ProperPayload(r)
  }

  lemma HashPins(hash: Hash)
    ensures Pins(Sound(hash), SameColumns, Colliding(hash))
  {
    forall a, b | Sound(hash)(a) && Sound(hash)(b) && a.rowHash == b.rowHash && !Colliding(hash)(a, b)
      ensures SameColumns(a, b) && a.seqNo == b.seqNo && a.prevHash == b.prevHash
    {
      RowHashPinsColumns(hash, a, b);
    }
  }

  lemma ChainIsAnchored(hash: Hash, t: AuditTable)
    requires ChainOk(hash, Genesis, t) && Proper(t.rows)
    ensures Anchored(Sound(hash), t.rows)
  {
  }

  /** Two tables that pass from genesis with one head hash agree on every hashed column of
      every row, or two of their rows exhibit a collision of the hash. */
  lemma HeadHashPinsTable(hash: Hash, t: AuditTable, u: AuditTable)
    requires ChainOk(hash, Genesis, t) && ChainOk(hash, Genesis, u)
    requires t.head.value.rowHash == u.head.value.rowHash
    requires Proper(t.rows) && Proper(u.rows)
    ensures SameTables(t.rows, u.rows) || SomeCollide(hash, t.rows, u.rows)
  {
    HashPins(hash);
    ChainIsAnchored(hash, t);
    ChainIsAnchored(hash, u);
    LastHashPinsRows(Sound(hash), SameColumns, Colliding(hash), t.rows, u.rows);
  }

  // ----- Checkpoints -----

  /** The rows at or above a sequence number, as `iter_audit` streams them. */
  function Above(rows: seq<AuditRow>, start: int): seq<AuditRow> {
    if rows == [] then []
    else (if rows[0].seqNo >= start then [rows[0]] else []) + Above(rows[1..], start)
  }

  function UpTo(t: AuditTable, n: nat): AuditTable
    requires n < |t.rows|
  {
    AuditTable(t.rows[..n + 1], Some(HeadOf(t.rows[n])))
  }

  function From(t: AuditTable, start: int): AuditTable {
    AuditTable(Above(t.rows, start), t.head)
  }

  lemma {:induction false} AboveIsSuffix(rows: seq<AuditRow>, n: nat)
    requires Ascends(rows) && n < |rows|
    ensures Above(rows, rows[n].seqNo) == rows[n..]
  {
    if n == 0 {
      AllAbove(rows, rows[0].seqNo);
    } else {
      assert rows[0].seqNo < rows[n].seqNo;
      AboveIsSuffix(rows[1..], n - 1);
    }
  }

  lemma {:induction false} AllAbove(rows: seq<AuditRow>, start: int)
    requires forall i :: 0 <= i < |rows| ==> rows[i].seqNo >= start
    ensures Above(rows, start) == rows
  {
    if rows != [] {
      AllAbove(rows[1..], start);
      assert [rows[0]] + rows[1..] == rows;
    }
  }

  lemma LinksSplit(selfOk: AuditRow -> bool, rows: seq<AuditRow>, n: nat)
    requires n < |rows|
    ensures Linked(selfOk, rows) <==> Linked(selfOk, rows[..n + 1]) && Linked(selfOk, rows[n..])
  {
    var low, high := rows[..n + 1], rows[n..];
    if Linked(selfOk, low) && Linked(selfOk, high) { LinksJoin(selfOk, rows, n); }
    if Linked(selfOk, rows) {
      forall i | 0 < i < |low| ensures LinkAt(low, i) {
        assert LinkAt(rows, i);
      }
      forall i | 0 < i < |high| ensures LinkAt(high, i) {
        assert LinkAt(rows, n + i);
      }
    }
  }

  lemma LinksJoin(selfOk: AuditRow -> bool, rows: seq<AuditRow>, n: nat)
    requires n < |rows| && Linked(selfOk, rows[..n + 1]) && Linked(selfOk, rows[n..])
    ensures Linked(selfOk, rows)
  {
    var low, high := rows[..n + 1], rows[n..];
    forall i | 0 <= i < |rows| ensures selfOk(rows[i]) {
      if i <= n { assert low[i] == rows[i]; } else { assert high[i - n] == rows[i]; }
    }
    forall i | 0 < i < |rows| ensures LinkAt(rows, i) {
      if i <= n { assert LinkAt(low, i); } else { assert LinkAt(high, i - n); }
    }
  }

  /** An unbroken chain, with what its first row is held against left open. */
  ghost predicate Chained(selfOk: AuditRow -> bool, anchored: bool, t: AuditTable) {
    t.rows != [] && anchored && Linked(selfOk, t.rows) && t.head == Some(HeadOf(t.rows[|t.rows| - 1]))
  }

  lemma ChainOkIsChained(hash: Hash, anchor: Anchor, t: AuditTable)
    requires t.rows != []
    ensures ChainOk(hash, anchor, t) <==> Chained(SelfOk(hash), AnchorOk(hash, anchor)(t.rows[0]), t)
  {
  }

  lemma ChainedSplits(selfOk: AuditRow -> bool, anchored: bool, t: AuditTable, n: nat)
    requires Ascends(t.rows) && n < |t.rows|
    ensures From(t, t.rows[n].seqNo).rows == t.rows[n..]
    ensures Chained(selfOk, anchored, t) <==>
            Chained(selfOk, anchored, UpTo(t, n)) && Chained(selfOk, true, From(t, t.rows[n].seqNo))
  {
    AboveIsSuffix(t.rows, n);
    LinksSplit(selfOk, t.rows, n);
    assert t.rows[n..][|t.rows| - n - 1] == t.rows[|t.rows| - 1];
  }

  /** A full pass accepts exactly when, at any row, the pass up to that row and the
      checkpoint pass from that row's number and hash both accept. */
  lemma FullIsPrefixAndCheckpoint(hash: Hash, t: AuditTable, n: nat)
    requires Ascends(t.rows) && n < |t.rows| && t.rows[n].seqNo >= 0
    ensures ChainOk(hash, Genesis, t) <==>
            && ChainOk(hash, Genesis, UpTo(t, n))
            && ChainOk(hash, Checkpoint(t.rows[n].seqNo, t.rows[n].rowHash), From(t, t.rows[n].seqNo))
  {
    var checkpoint := Checkpoint(t.rows[n].seqNo, t.rows[n].rowHash);
    ChainedSplits(SelfOk(hash), AnchorOk(hash, Genesis)(t.rows[0]), t, n);
    ChainOkIsChained(hash, Genesis, t);
    ChainOkIsChained(hash, Genesis, UpTo(t, n));
    ChainOkIsChained(hash, checkpoint, From(t, t.rows[n].seqNo));
    assert AnchorOk(hash, checkpoint)(t.rows[n]);
  }
}
