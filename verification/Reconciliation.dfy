/**
 Reconciling can confirm an admission whose authorization already lapsed. Its
 bytes then count again without having been measured, so capacity safety is
 kept exactly when the pool still has room for what comes back.
 */
module Reconciliation {
  import opened Options
  import opened Sums
  import opened Tables
  import opened Transactions
  import opened Soundness
  import opened CapacitySafety
  import opened LedgerRuns
  import opened MovieScenario

  /** What reconciling `id` adds to its pool, computable before the call. */
  ghost function Returning(db: Database, e: PoolEvidence, now: int, id: PermitId): nat
    requires id in db.permits
  {
    var p := db.permits[id];
    var committed := Committed(db, e, p.pool, now, p.infohash);
    if p.state != Authorized || p.expires > now || p.infohash in e.remaining || p.budget <= committed ||
       (OfPermit(id) in db.episodeImports && db.episodeImports[OfPermit(id)] == Complete)
    then 0 else p.budget - committed
  }

  lemma ReturningCounts(db: Database, now: int, id: PermitId, after: Database, q: Permit)
    requires Sound(db) && id in db.permits && after == db.(permits := db.permits[id := q])
    requires SameIdentity(db.permits[id], q) && q.state == Confirmed && db.permits[id].Live()
    requires db.Active(q.reservation)
    ensures forall k, pool | k != id :: after.Counted(k, pool, now) == db.Counted(k, pool, now)
    ensures after.Counted(id, q.pool, now) ==
            !(OfPermit(id) in db.episodeImports && db.episodeImports[OfPermit(id)] == Complete)
    ensures db.permits[id].state != Authorized || db.permits[id].expires > now ==>
              after.Counted(id, q.pool, now) == db.Counted(id, q.pool, now)
    ensures db.permits[id].state == Authorized && db.permits[id].expires <= now ==> !db.Counted(id, q.pool, now)
  {
    RowOf(db, id);
  }

  /** A lapsed, unreported admission `id` of `db` that `after` confirms in place as `q`. */
  ghost predicate Wakes(db: Database, now: int, id: PermitId, after: Database, q: Permit, e: PoolEvidence) {
    && id in db.permits && after == db.(permits := db.permits[id := q])
    && SameIdentity(db.permits[id], q) && q.state == Confirmed && db.permits[id].Live() && db.Active(q.reservation)
    && db.permits[id].state == Authorized && db.permits[id].expires <= now && q.infohash !in e.remaining
    && after.Counted(id, q.pool, now)
  }

  ghost function Committed(db: Database, e: PoolEvidence, pool: PoolId, now: int, h: InfoHash): nat {
    var commitments := Commitments(db, e, pool, now);
    if h in commitments then commitments[h] else 0
  }

  lemma WokenCommitment(db: Database, now: int, id: PermitId, after: Database, q: Permit, e: PoolEvidence)
    requires Sound(db) && Wakes(db, now, id, after, q, e)
    ensures q.infohash in Commitments(after, e, q.pool, now)
    ensures var committed := Committed(db, e, q.pool, now, q.infohash);
      Commitments(after, e, q.pool, now)[q.infohash] == if q.budget > committed then q.budget else committed
  {
    hide Sound, CommittedHashes;
    ReturningCounts(db, now, id, after, q);
    var h := q.infohash;
    CountedIsCommitted(after, e, q.pool, now, id);
    var top := LargestRow(after, e, q.pool, now, h);
    if top != id {
      assert db.Counted(top, q.pool, now);
      CountedIsCommitted(db, e, q.pool, now, top);
    }
    if h in Commitments(db, e, q.pool, now) {
      var prior := LargestRow(db, e, q.pool, now, h);
      assert after.Counted(prior, q.pool, now);
      CountedIsCommitted(after, e, q.pool, now, prior);
    }
  }

  lemma ReturningCommitments(db: Database, now: int, id: PermitId, after: Database, q: Permit, e: PoolEvidence)
    requires Sound(db) && Wakes(db, now, id, after, q, e)
    ensures var committed := Committed(db, e, q.pool, now, q.infohash);
      Commitments(after, e, q.pool, now) ==
      Commitments(db, e, q.pool, now)[q.infohash := if q.budget > committed then q.budget else committed]
  {
    hide Sound, Commitments;
    ReturningCounts(db, now, id, after, q);
    WokenCommitment(db, now, id, after, q, e);
    var m, n := Commitments(after, e, q.pool, now), Commitments(db, e, q.pool, now);
    forall k | k in m && k != q.infohash ensures k in n && m[k] <= n[k] {
      CommitmentWithin(db, now, after, now, e, q.pool, {id}, k);
    }
    forall k | k in n && k != q.infohash ensures k in m && n[k] <= m[k] {
      CommitmentWithin(after, now, db, now, e, q.pool, {id}, k);
    }
  }

  /** Exactly how much a committed reconciliation adds to the pool of its permit. */
  lemma ReconcileAdds(db: Database, now: int, id: PermitId, e: PoolEvidence)
    requires Sound(db) && Reconcile(db, id).Ok?
    ensures id in db.permits
    ensures PendingBytes(Reconcile(db, id).value, e, db.permits[id].pool, now) ==
            PendingBytes(db, e, db.permits[id].pool, now) + Returning(db, e, now, id)
  {
    hide Sound, Reconcile, Commitments, RowSound;
    var q := ReconcileStep(db, id);
    var after, pool := db.(permits := db.permits[id := q]), q.pool;
    ReturningCounts(db, now, id, after, q);
    if Wakes(db, now, id, after, q, e) {
      var committed := Committed(db, e, pool, now, q.infohash);
      ReturningCommitments(db, now, id, after, q, e);
      SumUpdate(Commitments(db, e, pool, now), q.infohash, if q.budget > committed then q.budget else committed);
    } else {
      ReturningNothing(db, now, id, after, q, e);
    }
  }

  lemma ReturningNothing(db: Database, now: int, id: PermitId, after: Database, q: Permit, e: PoolEvidence)
    requires Sound(db) && id in db.permits && after == db.(permits := db.permits[id := q])
    requires SameIdentity(db.permits[id], q) && q.state == Confirmed && db.permits[id].Live()
    requires db.Active(q.reservation)
    requires !after.Counted(id, q.pool, now) || db.permits[id].state != Authorized || db.permits[id].expires > now ||
             q.infohash in e.remaining
    ensures PendingBytes(after, e, q.pool, now) == PendingBytes(db, e, q.pool, now)
  {
    hide Sound;
    ReturningCounts(db, now, id, after, q);
    if after.Counted(id, q.pool, now) == db.Counted(id, q.pool, now) {
      PendingNeverRises(db, now, after, now, e, q.pool, {});
      PendingNeverRises(after, now, db, now, e, q.pool, {});
    } else {
      assert CountedWithin(db, now, after, now, {id});
      PendingRisesByOne(db, now, after, now, e, q.pool, id);
      PendingNeverRises(after, now, db, now, e, q.pool, {});
    }
  }

  /** Reconciling keeps the pool within its free bytes if and only if what comes back still fits. */
  lemma ReconcileIsSafeExactlyWhenItFits(db: Database, now: int, id: PermitId, capacity: Capacity)
    requires Sound(db) && CapacitySafe(db, capacity, now) && Reconcile(db, id).Ok?
    ensures id in db.permits
    ensures CapacitySafe(Reconcile(db, id).value, capacity, now) <==>
      (db.permits[id].pool in capacity ==>
         var e := capacity[db.permits[id].pool];
         PendingBytes(db, e, db.permits[id].pool, now) + Returning(db, e, now, id) <= e.free)
  {
    hide Sound, Reconcile, PendingBytes, Returning;
    var q := ReconcileStep(db, id);
    OtherPoolsFit(db, now, id, q, capacity);
    if q.pool in capacity {
      ReconcileAdds(db, now, id, capacity[q.pool]);
    }
  }

  lemma OtherPoolsFit(db: Database, now: int, id: PermitId, q: Permit, capacity: Capacity)
    requires Sound(db) && CapacitySafe(db, capacity, now) && id in db.permits && SameIdentity(db.permits[id], q)
    requires q.Live() && db.permits[id].Live() && q.parent == db.permits[id].parent
    ensures var after := db.(permits := db.permits[id := q]);
      forall pool | pool in capacity && pool != q.pool ::
        PendingBytes(after, capacity[pool], pool, now) <= capacity[pool].free
  {
    hide Sound, PendingBytes, CountedWithin;
    SoundParts(db);
    var after := db.(permits := db.permits[id := q]);
    QuieterCountsWithin(db, after, now, {id});
    forall pool | pool in capacity && pool != q.pool
      ensures PendingBytes(after, capacity[pool], pool, now) <= capacity[pool].free
    {
      PendingNeverRises(db, now, after, now, capacity[pool], pool, {id});
    }
  }

  // ---- It can fail ----

  /** A movie's source is issued, dispatched and stopped, and replaced; the replacement is never dispatched. */
  const LAPSING := OPENING + [Replacing(0, 1)]

  /** Three bytes are free, and the queue reports nothing. */
  const FULL_DISK: Capacity := map[Ssd := PoolEvidence(1, 3, map[], 0, {})]

  lemma LapsingLeavesAdmission() returns (charge: nat)
    ensures Run(EMPTY, LAPSING) ==
            Ledger(map[0 := Source(0, Superseded, None, None), 1 := Source(1, Authorized, None, None)], map[], charge)
  {
    Opened();
    hide Run;
    var rows := ReplacementRan(OPENED, map[], 10, 0, None, 1);
    charge := Sum(LiveBudgets(rows, 0));
    RunsJoin(EMPTY, OPENING, [Replacing(0, 1)]);
    assert rows == map[0 := Source(0, Superseded, None, None), 1 := Source(1, Authorized, None, None)];
  }

  lemma LapsedLedgerFits(db: Database, now: int)
    requires now >= 0 && forall id | id in db.permits && db.permits[id].Live() ::
               db.permits[id].state == Authorized && db.permits[id].expires == 0
    requires db.handovers == map[]
    ensures CountedRows(db, Ssd, now) == {} && Commitments(db, FULL_DISK[Ssd], Ssd, now) == map[]
    ensures CapacitySafe(db, FULL_DISK, now)
  {
    assert CountedRows(db, Ssd, now) == {};
  }

  /** With three bytes free, reconciling brings ten lapsed ones back, in a ledger reached from an empty database. */
  lemma ReconcileCanExceedFreeBytes(now: int)
    requires now >= 0
    ensures var db := Run(EMPTY, LAPSING);
      && Sound(db) && CapacitySafe(db, FULL_DISK, now) && Reconcile(db, 1).Ok?
      && !CapacitySafe(Reconcile(db, 1).value, FULL_DISK, now)
  {
    var db := Run(EMPTY, LAPSING);
    ReachableLedgersAreReliable(LAPSING);
    var _ := LapsingLeavesAdmission();
    hide Run, Sound, CapacitySafe;
    LapsedLedgerFits(db, now);
    assert db.permits[0].state == Superseded;
    assert SlotHasSuperseded(db, 0, WholeItem);
    assert Committed(db, FULL_DISK[Ssd], Ssd, now, 2) == 0;
    ReconcileIsSafeExactlyWhenItFits(db, now, 1, FULL_DISK);
  }
}
