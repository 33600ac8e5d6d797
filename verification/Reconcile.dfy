/** The reconciler's pass over every stale row. */
module Reconcile {
  import opened Json
  import opened Types
  import opened Audit
  import opened Effects
  import opened Reports
  import P = Protocol
  import G = Gate
  import S = Store
  import opened History
  import opened Moves
  import opened World
  import opened Recovery

  datatype SweepEnd = Finished | SweepRaised | WindowRefused

  lemma {:induction false} ToldStays(gp: Rules, h: Log, h': Log, k: Key, outcome: Outcome)
    requires h <= h' && Told(outcome, At(gp, h, k))
    ensures Told(outcome, At(gp, h', k))
  {
    GoesOn(gp, h, h', k);
  }

  lemma {:induction false} ReadStays(gp: Rules, me: P.Actor, key: Key, calm: bool, h: Log, h': Log, k: Key,
                                     record: CommitRecord)
    requires Works(me, key, calm, h, h') && k != key && HasRead(me, At(gp, h, k), record)
    ensures HasRead(me, At(gp, h', k), record)
  {
    WorksElsewhere(me, key, calm, h, h', k);
    StillRead(gp, h, h', k, me, record);
  }

  /** One action for each of the first rows, each by the table and true of its row. */
  ghost predicate Reported(gp: Rules, h: Log, records: seq<CommitRecord>, actions: seq<ReconcileAction>,
                           onAbsent: OnAbsent, registry: Registry) {
    && |actions| <= |records|
    && forall j :: 0 <= j < |actions| ==>
         Explained(actions[j], records[j], onAbsent, registry) && Told(actions[j].outcome, At(gp, h, records[j].key))
  }

  /** Everything reported so far is true, and every row still to come is as it was read. */
  ghost predicate Swept(gp: Rules, h: Log, me: P.Actor, records: seq<CommitRecord>,
                        actions: seq<ReconcileAction>, onAbsent: OnAbsent, registry: Registry) {
    && Reported(gp, h, records, actions, onAbsent, registry)
    && (forall j :: |actions| <= j < |records| ==> HasRead(me, At(gp, h, records[j].key), records[j]))
  }

  lemma {:induction false} SweptMore(gp: Rules, me: P.Actor, calm: bool, h: Log, h': Log,
                                     records: seq<CommitRecord>, actions: seq<ReconcileAction>,
                                     action: ReconcileAction, onAbsent: OnAbsent, registry: Registry,
                                     f: Findings)
    requires Swept(gp, h, me, records, actions, onAbsent, registry) && |actions| < |records|
    requires S.EachOnce(S.KeyOfRow, records)
    requires Works(me, records[|actions|].key, calm, h, h')
    requires Accounts(action, records[|actions|], onAbsent, registry, f)
    requires Told(action.outcome, At(gp, h', records[|actions|].key))
    ensures Swept(gp, h', me, records, actions + [action], onAbsent, registry)
  {
    var i := |actions|;
    forall j | 0 <= j < i ensures Told(actions[j].outcome, At(gp, h', records[j].key)) {
      ToldStays(gp, h, h', records[j].key, actions[j].outcome);
    }
    forall j | i < j < |records| ensures HasRead(me, At(gp, h', records[j].key), records[j]) {
      assert S.KeyOfRow(records[i]) != S.KeyOfRow(records[j]);
      ReadStays(gp, me, records[i].key, calm, h, h', records[j].key, records[j]);
    }
  }

  /** In calm a pass touches the rows it scanned and nothing else, and it settles every
      scanned row whose action this process knows. */
  ghost predicate CalmlySwept(ledger0: map<Key, CommitRecord>, ledger: map<Key, CommitRecord>,
                              records: seq<CommitRecord>, n: nat, registry: Registry)
    requires n <= |records|
  {
    && (forall k {:trigger Lookup(ledger, k)} :: (forall j :: 0 <= j < n ==> records[j].key != k) ==>
          Lookup(ledger, k) == Lookup(ledger0, k))
    && (forall j :: 0 <= j < n && records[j].actionType in registry ==>
          records[j].key in ledger && ledger[records[j].key].state.Terminal())
  }

  lemma {:induction false} CalmTables(gp: Rules, me: P.Actor, key: Key, h: Log, h': Log,
                                      ledger: map<Key, CommitRecord>, paused: map<Key, PausedRun>, now: Time,
                                      ledger': map<Key, CommitRecord>, paused': map<Key, PausedRun>, now': Time)
    requires Works(me, key, true, h, h') && At(gp, h', key).run == At(gp, h, key).run
    requires Mirrors(gp, h, ledger, paused, now) && Mirrors(gp, h', ledger', paused', now')
    ensures now <= now' && paused' == paused
    ensures forall k :: k != key ==> Lookup(ledger', k) == Lookup(ledger, k)
  {
    ClockRuns(h, h');
    forall k ensures Lookup(paused', k) == Lookup(paused, k) && (k != key ==> Lookup(ledger', k) == Lookup(ledger, k)) {
      assert MirrorsKey(At(gp, h, k), Lookup(ledger, k), Lookup(paused, k));
      assert MirrorsKey(At(gp, h', k), Lookup(ledger', k), Lookup(paused', k));
      if k != key { CalmElsewhere(gp, me, key, h, h', k); }
    }
    SameMaps(paused, paused');
  }

  lemma SameMaps<V>(a: map<Key, V>, b: map<Key, V>)
    requires forall k :: Lookup(a, k) == Lookup(b, k)
    ensures a == b
  {
    forall k ensures k in a <==> k in b {
      assert Lookup(a, k) == Lookup(b, k);
    }
    forall k | k in a ensures a[k] == b[k] {
      assert Lookup(a, k) == Lookup(b, k);
    }
  }

  /** The invariant of a pass in calm. */
  ghost predicate CalmPass(w: World, ledger0: map<Key, CommitRecord>, paused0: map<Key, PausedRun>,
                           records: seq<CommitRecord>, n: nat, registry: Registry, olderThan: int, cutoff: Time)
    requires n <= |records|
    reads w, w.store
  {
    w.calm && w.gp.commit.steady ==>
      && w.store.paused == paused0 && cutoff <= w.store.now - olderThan
      && CalmlySwept(ledger0, w.store.ledger, records, n, registry)
  }

  /** One more row of a pass. */
  method SweepRow(w: World, me: P.Actor, records: seq<CommitRecord>, i: nat, olderThan: int, onAbsent: OnAbsent,
                  registry: Registry, report: ReconcileReport, ghost ledger0: map<Key, CommitRecord>,
                  ghost paused0: map<Key, PausedRun>, ghost cutoff: Time)
    returns (raised: bool)
    requires w.Valid() && report.Tallied() && w.gp.commit.window <= olderThan && Declares(w, registry)
    requires i < |records| && |report.actions| == i
    requires Swept(w.gp, w.history, me, records, report.actions, onAbsent, registry)
    requires S.Selects(ledger0, S.WantStale(cutoff), S.StampOf, S.KeyOfRow, records)
    requires CalmPass(w, ledger0, paused0, records, i, registry, olderThan, cutoff)
    modifies w, w.store, report
    ensures w.Valid() && report.Tallied() && old(w.history) <= w.history && w.Grew(old(w.Rows()), 1)
    ensures raised ==> report.actions == old(report.actions) && w.Jammed(records[i].key)
    ensures raised && w.calm && w.gp.commit.steady ==> CannotRecord(w, records[i].attempts + 1)
    ensures !raised ==>
              |report.actions| == i + 1 && Swept(w.gp, w.history, me, records, report.actions, onAbsent, registry)
    ensures !raised ==> CalmPass(w, ledger0, paused0, records, i + 1, registry, olderThan, cutoff)
  {
    ghost var h, before := w.history, report.actions;
    ghost var ledger, paused, now := w.store.ledger, w.store.paused, w.store.now;
    assert records[i] in records;
    w.Open();
    assert MirrorsKey(w.At(records[i].key), Lookup(ledger, records[i].key), Lookup(paused, records[i].key));
    if w.calm && w.gp.commit.steady { ScannedIsRecoverable(w, me, ledger0, records, i, registry, cutoff); }
    ghost var action;
    var f;
    raised, action, f := ReconcileRow(w, me, records[i], h, olderThan, onAbsent, registry, report);
    if !raised {
      SweptMore(w.gp, me, w.calm, h, w.history, records, before, action, onAbsent, registry, f);
      if w.calm && w.gp.commit.steady {
        CalmRowDone(w, me, records, i, registry, h, ledger, paused, now, action, ledger0, cutoff);
      }
    }
  }

  lemma ScannedIsRecoverable(w: World, me: P.Actor, ledger0: map<Key, CommitRecord>, records: seq<CommitRecord>,
                             i: nat, registry: Registry, cutoff: Time)
    requires w.Valid() && w.gp.commit.steady && Declares(w, registry)
    requires i < |records| && CalmlySwept(ledger0, w.store.ledger, records, i, registry)
    requires S.Selects(ledger0, S.WantStale(cutoff), S.StampOf, S.KeyOfRow, records)
    ensures Row(w.At(records[i].key)) == Some(records[i])
    ensures records[i].actionType in registry ==> Recoverable(w.At(records[i].key), records[i], registry, cutoff)
  {
    StillAsScanned(ledger0, w.store.ledger, records, i, registry, cutoff);
    w.Open();
    assert MirrorsKey(w.At(records[i].key), Lookup(w.store.ledger, records[i].key),
                      Lookup(w.store.paused, records[i].key));
    if records[i].actionType in registry { RegisteredAsClaimed(w, records[i], registry); }
  }

  lemma StillAsScanned(ledger0: map<Key, CommitRecord>, ledger: map<Key, CommitRecord>,
                       records: seq<CommitRecord>, i: nat, registry: Registry, cutoff: Time)
    requires i < |records| && CalmlySwept(ledger0, ledger, records, i, registry)
    requires S.Selects(ledger0, S.WantStale(cutoff), S.StampOf, S.KeyOfRow, records)
    ensures Lookup(ledger, records[i].key) == Some(records[i]) && S.Stale(records[i], cutoff)
  {
    assert records[i] in records;
    forall j | 0 <= j < i ensures records[j].key != records[i].key {
      assert S.KeyOfRow(records[j]) != S.KeyOfRow(records[i]);
    }
    assert S.KeyOfRow(records[i]) == records[i].key;
    assert Lookup(ledger, records[i].key) == Lookup(ledger0, records[i].key);
  }

  lemma {:induction false} CalmRowDone(w: World, me: P.Actor, records: seq<CommitRecord>, i: nat,
                                       registry: Registry, h: Log, ledger: map<Key, CommitRecord>,
                                       paused: map<Key, PausedRun>, now: Time, action: ReconcileAction,
                                       ledger0: map<Key, CommitRecord>, cutoff: Time)
    requires w.Valid() && i < |records| && w.calm && Works(me, records[i].key, true, h, w.history)
    requires S.EachOnce(S.KeyOfRow, records)
    requires Mirrors(w.gp, h, ledger, paused, now) && CalmlySwept(ledger0, ledger, records, i, registry)
    requires if records[i].actionType in registry
             then Settles(action.outcome).Some? && w.At(records[i].key).run == At(w.gp, h, records[i].key).run
             else w.history == h
    requires Told(action.outcome, w.At(records[i].key))
    ensures w.store.paused == paused && now <= w.store.now
    ensures CalmlySwept(ledger0, w.store.ledger, records, i + 1, registry)
  {
    w.Open();
    CalmTables(w.gp, me, records[i].key, h, w.history, ledger, paused, now, w.store.ledger, w.store.paused,
               w.store.now);
    assert MirrorsKey(w.At(records[i].key), Lookup(w.store.ledger, records[i].key),
                      Lookup(w.store.paused, records[i].key));
    forall j | 0 <= j < i && records[j].actionType in registry
      ensures records[j].key in w.store.ledger && w.store.ledger[records[j].key].state.Terminal()
    {
      assert S.KeyOfRow(records[j]) != S.KeyOfRow(records[i]);
      assert Lookup(w.store.ledger, records[j].key) == Lookup(ledger, records[j].key);
    }
  }

  /** A pass can go no further: the recovery of this row cannot be recorded. */
  ghost predicate Obstructed(w: World, records: seq<CommitRecord>, i: nat)
    reads w, w.store
  {
    && i < |records| && w.Jammed(records[i].key)
    && (w.calm && w.gp.commit.steady ==> CannotRecord(w, records[i].attempts + 1))
  }

  /** The rows of a pass, at the moment `scan` it read them. */
  ghost predicate ScannedAt(w: World, from: Log, scan: Snapshot, cutoff: Time, records: seq<CommitRecord>)
    reads w
  {
    && TakenBetween(w.gp, from, scan, w.history)
    && S.Selects(scan.ledger, S.WantStale(cutoff), S.StampOf, S.KeyOfRow, records)
  }

  /** The scan, as the state it leaves a pass to begin with. */
  method Scan(w: World, me: P.Actor, olderThan: int, onAbsent: OnAbsent, registry: Registry)
    returns (records: seq<CommitRecord>, ghost scan: Snapshot)
    requires w.Valid()
    modifies w, w.store
    ensures w.Valid() && scan == w.Now() && w.Grew(old(w.Rows()), 0) && old(w.store.now) <= w.store.now
    ensures ScannedAt(w, old(w.history), scan, old(w.store.now) - olderThan, records)
    ensures Swept(w.gp, w.history, me, records, [], onAbsent, registry)
    ensures w.calm ==> scan.ledger == old(w.store.ledger) && scan.paused == old(w.store.paused)
  {
    records := w.StaleInflight(me, olderThan);
    scan := w.Now();
    w.Open();
    forall j | 0 <= j < |records| ensures HasRead(me, w.At(records[j].key), records[j]) {
      assert records[j] in records;
    }
  }

  /** One pass over every row that was stale when it scanned, oldest first. The report holds
      one action for each row in scan order, its counts tally them, and what it says of a row
      is true when it ends. It stops early only at a row whose recovery cannot be recorded.
      In calm it settles every scanned row it knows and touches nothing else. */
  method Reconcile(w: World, me: P.Actor, olderThan: int, onAbsent: OnAbsent, executeTimeout: Option<int>,
                   registry: Registry)
    returns (end: SweepEnd, report: ReconcileReport, ghost records: seq<CommitRecord>, ghost scan: Snapshot)
    requires w.Valid() && w.gp.commit.window <= olderThan && Declares(w, registry)
    modifies w, w.store
    ensures w.Valid() && fresh(report) && report.Tallied() && w.Grew(old(w.Rows()), |records|)
    ensures end.WindowRefused? <==> !WindowOk(olderThan, executeTimeout)
    ensures end.WindowRefused? ==> w.history == old(w.history)
    ensures !end.WindowRefused? ==> ScannedAt(w, old(w.history), scan, old(w.store.now) - olderThan, records)
    ensures Reported(w.gp, w.history, records, report.actions, onAbsent, registry)
    ensures end.Finished? ==> |report.actions| == |records|
    ensures end.SweepRaised? ==> Obstructed(w, records, |report.actions|)
    ensures w.calm && !end.WindowRefused? ==> scan.ledger == old(w.store.ledger)
    ensures w.calm && w.gp.commit.steady && end.Finished? ==>
              && w.store.paused == old(w.store.paused) && old(w.store.now) <= w.store.now
              && CalmlySwept(scan.ledger, w.store.ledger, records, |records|, registry)
  {
    report := new Report<ReconcileAction, Outcome>((a: ReconcileAction) => a.outcome);
    records, scan := [], w.Now();
    if !WindowOk(olderThan, executeTimeout) {
      return WindowRefused, report, records, scan;
    }
    var scanned;
    scanned, scan := Scan(w, me, olderThan, onAbsent, registry);
    records := scanned;
    end := SweepAll(w, me, scanned, olderThan, onAbsent, registry, report, scan, old(w.store.now) - olderThan);
  }

  method SweepAll(w: World, me: P.Actor, records: seq<CommitRecord>, olderThan: int, onAbsent: OnAbsent,
                  registry: Registry, report: ReconcileReport, ghost scan: Snapshot, ghost cutoff: Time)
    returns (end: SweepEnd)
    requires w.Valid() && report.Tallied() && w.gp.commit.window <= olderThan && Declares(w, registry)
    requires report.actions == [] && Swept(w.gp, w.history, me, records, [], onAbsent, registry)
    requires S.Selects(scan.ledger, S.WantStale(cutoff), S.StampOf, S.KeyOfRow, records)
    requires CalmPass(w, scan.ledger, scan.paused, records, 0, registry, olderThan, cutoff)
    modifies w, w.store, report
    ensures w.Valid() && report.Tallied() && old(w.history) <= w.history && w.Grew(old(w.Rows()), |records|)
    ensures Reported(w.gp, w.history, records, report.actions, onAbsent, registry)
    ensures if end.Finished? then |report.actions| == |records|
            else end.SweepRaised? && Obstructed(w, records, |report.actions|)
    ensures end.Finished? ==> CalmPass(w, scan.ledger, scan.paused, records, |records|, registry, olderThan, cutoff)
  {
    for i := 0 to |records|
      invariant w.Valid() && old(w.history) <= w.history && report.Tallied()
      invariant |report.actions| == i && Swept(w.gp, w.history, me, records, report.actions, onAbsent, registry)
      invariant CalmPass(w, scan.ledger, scan.paused, records, i, registry, olderThan, cutoff)
      invariant w.Grew(old(w.Rows()), i)
    {
      ghost var h, before := w.history, report.actions;
      var raised := SweepRow(w, me, records, i, olderThan, onAbsent, registry, report, scan.ledger, scan.paused,
                             cutoff);
      if raised {
        SweptStays(w.gp, h, w.history, records, before, onAbsent, registry);
        return SweepRaised;
      }
    }
    end := Finished;
  }

  lemma SweptStays(gp: Rules, h: Log, h': Log, records: seq<CommitRecord>, actions: seq<ReconcileAction>,
                   onAbsent: OnAbsent, registry: Registry)
    requires Reported(gp, h, records, actions, onAbsent, registry) && h <= h'
    ensures Reported(gp, h', records, actions, onAbsent, registry)
  {
    forall j | 0 <= j < |actions| ensures Told(actions[j].outcome, At(gp, h', records[j].key)) {
      ToldStays(gp, h, h', records[j].key, actions[j].outcome);
    }
  }
}
