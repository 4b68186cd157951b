/** How often a slot can be given a new source. */
module SourceBounds {
  import opened Tables
  import opened Transactions
  import opened Soundness
  import opened LedgerRuns
  import opened Evolution

  function SlotRows(db: Database, r: ReservationId, scope: Scope): set<PermitId> {
    set id | id in db.permits && db.permits[id].reservation == r && db.permits[id].scope == scope
  }

  function SlotHashes(db: Database, r: ReservationId, scope: Scope): set<InfoHash> {
    set id | id in SlotRows(db, r, scope) :: db.permits[id].infohash
  }

  lemma {:induction false} DistinctHashesCount(db: Database, ids: set<PermitId>, hashes: set<InfoHash>)
    requires forall id | id in ids :: id in db.permits && db.permits[id].infohash in hashes
    requires forall a, b | a in ids && b in ids && a != b :: db.permits[a].infohash != db.permits[b].infohash
    ensures |ids| <= |hashes|
    decreases ids
  {
    if ids != {} {
      var id :| id in ids;
      DistinctHashesCount(db, ids - {id}, hashes - {db.permits[id].infohash});
    }
  }

  /** A slot of an active reservation never holds more rows than there are candidate torrents. */
  lemma SlotHoldsEachSourceOnce(db: Database, r: ReservationId, scope: Scope, candidates: set<InfoHash>)
    requires Sound(db) && db.Active(r) && SlotHashes(db, r, scope) <= candidates
    ensures |SlotRows(db, r, scope)| <= |candidates|
  {
    hide Sound;
    SoundParts(db);
    DistinctHashesCount(db, SlotRows(db, r, scope), candidates);
  }

  // ---- Counting over runs ----

  /** Sources that entered the slot during the run. */
  ghost function Admitted(db: Database, steps: seq<Step>, r: ReservationId, scope: Scope): nat
    decreases |steps|
  {
    if steps == [] then 0
    else
      var next := After(db, steps[0].now, steps[0].transaction);
      |SlotRows(next, r, scope) - SlotRows(db, r, scope)| + Admitted(next, steps[1..], r, scope)
  }

  /** Admissions of the slot deleted during the run, all of them before any dispatch. */
  ghost function Withdrawn(db: Database, steps: seq<Step>, r: ReservationId, scope: Scope): nat
    decreases |steps|
  {
    if steps == [] then 0
    else
      var next := After(db, steps[0].now, steps[0].transaction);
      |SlotRows(db, r, scope) - SlotRows(next, r, scope)| + Withdrawn(next, steps[1..], r, scope)
  }

  lemma ExchangeCount(before: set<PermitId>, after: set<PermitId>)
    ensures |after| + |before - after| == |before| + |after - before|
  {
    assert before == (before - after) + (before * after);
    assert after == (after - before) + (before * after);
    assert |before| == |before - after| + |before * after|;
    assert |after| == |after - before| + |before * after|;
  }

  lemma {:induction false} AdmissionsBalance(db: Database, steps: seq<Step>, r: ReservationId, scope: Scope)
    ensures |SlotRows(db, r, scope)| + Admitted(db, steps, r, scope) ==
            |SlotRows(Run(db, steps), r, scope)| + Withdrawn(db, steps, r, scope)
    decreases |steps|
  {
    if steps != [] {
      hide SlotRows, After;
      var next := After(db, steps[0].now, steps[0].transaction);
      ExchangeCount(SlotRows(db, r, scope), SlotRows(next, r, scope));
      AdmissionsBalance(next, steps[1..], r, scope);
    }
  }

  /**
   With finitely many candidate torrents a slot runs out of sources: in any run
   that leaves the reservation active, admissions outnumber withdrawals by no
   more than the candidates the slot had not yet tried.
   */
  lemma AdmissionsAreBounded(db: Database, steps: seq<Step>, r: ReservationId, scope: Scope, candidates: set<InfoHash>)
    requires Sound(db) && Run(db, steps).Active(r) && SlotHashes(Run(db, steps), r, scope) <= candidates
    ensures |SlotRows(db, r, scope)| + Admitted(db, steps, r, scope) <= |candidates| + Withdrawn(db, steps, r, scope)
  {
    hide Sound, SlotRows, SlotHashes, Admitted, Withdrawn;
    RunKeepsSound(db, steps);
    AdmissionsBalance(db, steps, r, scope);
    SlotHoldsEachSourceOnce(Run(db, steps), r, scope, candidates);
  }

  lemma {:induction false} RunKeepsSound(db: Database, steps: seq<Step>)
    requires Sound(db)
    ensures Sound(Run(db, steps))
    decreases |steps|
  {
    if steps != [] {
      hide Sound, After;
      TransactionKeepsSound(db, steps[0].now, steps[0].transaction);
      RunKeepsSound(After(db, steps[0].now, steps[0].transaction), steps[1..]);
    }
  }

  /** A torrent once dispatched for a slot is never admitted to it again while the reservation stays active. */
  lemma SourcesAreNeverRetried(db: Database, steps: seq<Step>, tried: PermitId, later: PermitId)
    requires Sound(db) && tried in db.permits && db.permits[tried].state != Authorized
    requires var after := Run(db, steps);
      && later in after.permits && after.permits[later].SameSlot(db.permits[tried])
      && after.Active(db.permits[tried].reservation)
    ensures later == tried || Run(db, steps).permits[later].infohash != db.permits[tried].infohash
  {
    RunKeepsSound(db, steps);
    RunNeverStepsBack(db, steps, tried);
    hide Sound, Run;
    SoundParts(Run(db, steps));
  }
}
