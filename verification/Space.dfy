/**
 What room on a pool means, said of rows and measured bytes alone: whichever
 unreported sources are fetched to their full budgets, each torrent once, they
 fit beside what the queue still fetches and what was pending anyway.
 */
module PoolSpace {
  import opened Sums
  import opened Tables
  import opened Transactions
  import opened CapacitySafety

  /** The row's bytes are still to come to the pool. */
  ghost predicate Owes(db: Database, now: int, pool: PoolId, id: PermitId) {
    && id in db.permits
    && var p := db.permits[id];
    && p.pool == pool && p.budget > 0
    && p.reservation in db.reservations
    && db.reservations[p.reservation].state in {Reserved, Downloading, WaitingEpisodes}
    && (p.state in {Dispatching, Unknown, Confirmed} || (p.state == Authorized && now < p.expires) ||
        (p.state in {Superseded, ProbeRejected, Revoked} &&
         exists c :: c in db.handovers && db.handovers[c] == Handover(id, true)))
    && (OfPermit(id) in db.episodeImports ==> db.episodeImports[OfPermit(id)] != Complete)
  }

  /** Sources the queue does not report, no two of them of one torrent. */
  ghost predicate Unreported(db: Database, now: int, e: PoolEvidence, pool: PoolId, ids: set<PermitId>) {
    && (forall id | id in ids :: Owes(db, now, pool, id) && db.permits[id].infohash !in e.remaining)
    && (forall a, b | a in ids && b in ids && a != b :: db.permits[a].infohash != db.permits[b].infohash)
  }

  ghost function BudgetsOf(db: Database, ids: set<PermitId>): map<PermitId, nat> {
    map id | id in ids && id in db.permits :: db.permits[id].budget
  }

  /** Within `free`, the budget fits beside all that may still come. */
  ghost predicate RoomWithin(db: Database, now: int, e: PoolEvidence, pool: PoolId, budget: nat, free: nat) {
    forall ids | Unreported(db, now, e, pool, ids) ::
      budget + e.otherPending + Sum(e.remaining) + Sum(BudgetsOf(db, ids)) <= free
  }

  /** The pool is measured, its disk is still the measured one and could be placed on, and both leave room. */
  ghost predicate Roomy(db: Database, now: int, capacity: Capacity, disks: Disks, budget: nat, pool: PoolId) {
    && pool in capacity && pool in disks && disks[pool].filesystem == capacity[pool].filesystem && disks[pool].placed
    && RoomWithin(db, now, capacity[pool], pool, budget, capacity[pool].free)
    && RoomWithin(db, now, capacity[pool], pool, budget, disks[pool].free)
  }

  ghost predicate OwesFor(db: Database, now: int, pool: PoolId, id: PermitId, h: InfoHash, budget: nat) {
    Owes(db, now, pool, id) && db.permits[id].infohash == h && db.permits[id].budget == budget
  }

  // ---- Pending bytes are the heaviest such choice ----

  lemma OwingIsCounted(db: Database, now: int, pool: PoolId, id: PermitId)
    ensures Owes(db, now, pool, id) <==> db.Counted(id, pool, now)
  {
    forall c | c in db.handovers && db.handovers[c].parent == id && db.handovers[c].pending
      ensures db.handovers[c] == Handover(id, true) { }
  }

  /** Commitments that cover the reported torrents and the chosen sources weigh at least as much. */
  lemma {:induction false} ChoiceWeighsAtMost(db: Database, remaining: map<InfoHash, nat>, ids: set<PermitId>,
                                              all: map<InfoHash, nat>)
    requires forall h | h in remaining :: h in all && all[h] == remaining[h]
    requires forall id | id in ids :: id in db.permits && var p := db.permits[id];
               p.infohash !in remaining && p.infohash in all && p.budget <= all[p.infohash]
    requires forall a, b | a in ids && b in ids && a != b :: db.permits[a].infohash != db.permits[b].infohash
    ensures Sum(remaining) + Sum(BudgetsOf(db, ids)) <= Sum(all)
    decreases ids
  {
    if ids == {} {
      SumMonotone(remaining, all);
    } else {
      var id :| id in ids;
      var h := db.permits[id].infohash;
      ChoiceWeighsAtMost(db, remaining, ids - {id}, all - {h});
      assert BudgetsOf(db, ids) - {id} == BudgetsOf(db, ids - {id});
      SumTakeOut(BudgetsOf(db, ids), id);
      SumTakeOut(all, h);
    }
  }

  /** Every commitment the queue does not report is the budget of some row. */
  ghost predicate Owned(db: Database, now: int, e: PoolEvidence, pool: PoolId, all: map<InfoHash, nat>) {
    forall h | h in all && h !in e.remaining :: exists id :: OwesFor(db, now, pool, id, h, all[h])
  }

  lemma OwnedStays(db: Database, now: int, e: PoolEvidence, pool: PoolId, all: map<InfoHash, nat>, h: InfoHash)
    requires Owned(db, now, e, pool, all)
    ensures Owned(db, now, e, pool, all - {h})
  {
    hide OwesFor;
    forall k | k in all - {h} && k !in e.remaining ensures exists id :: OwesFor(db, now, pool, id, k, (all - {h})[k]) {
      assert (all - {h})[k] == all[k];
    }
  }

  lemma ChoiceGrows(db: Database, now: int, e: PoolEvidence, pool: PoolId, ids: set<PermitId>, id: PermitId,
                    h: InfoHash, budget: nat)
    requires Unreported(db, now, e, pool, ids) && OwesFor(db, now, pool, id, h, budget) && h !in e.remaining
    requires forall k | k in ids :: db.permits[k].infohash != h
    ensures Unreported(db, now, e, pool, ids + {id}) && id in db.permits && db.permits[id].infohash == h
    ensures Sum(BudgetsOf(db, ids + {id})) == Sum(BudgetsOf(db, ids)) + budget
  {
    OwesRow(db, now, pool, id, h, budget);
    assert BudgetsOf(db, ids + {id}) - {id} == BudgetsOf(db, ids);
    SumTakeOut(BudgetsOf(db, ids + {id}), id);
  }

  /** Some choice of sources weighs exactly as much. */
  lemma {:induction false} ChoiceWeighs(db: Database, now: int, e: PoolEvidence, pool: PoolId, all: map<InfoHash, nat>)
    returns (ids: set<PermitId>)
    requires Owned(db, now, e, pool, all)
    requires forall h | h in e.remaining :: h in all && all[h] == e.remaining[h]
    ensures Unreported(db, now, e, pool, ids) && forall id | id in ids :: db.permits[id].infohash in all
    ensures Sum(e.remaining) + Sum(BudgetsOf(db, ids)) == Sum(all)
    decreases all.Keys
  {
    hide Owes, OwesFor;
    if all.Keys == e.remaining.Keys {
      ids := {};
      assert all == e.remaining && BudgetsOf(db, ids) == map[];
    } else {
      var h :| h in all && h !in e.remaining;
      var id :| OwesFor(db, now, pool, id, h, all[h]);
      hide BudgetsOf;
      OwnedStays(db, now, e, pool, all, h);
      hide Owned;
      var rest := ChoiceWeighs(db, now, e, pool, all - {h});
      ChoiceGrows(db, now, e, pool, rest, id, h, all[h]);
      hide Unreported;
      ids := rest + {id};
      SumTakeOut(all, h);
    }
  }

  lemma OwesRow(db: Database, now: int, pool: PoolId, id: PermitId, h: InfoHash, budget: nat)
    requires OwesFor(db, now, pool, id, h, budget)
    ensures Owes(db, now, pool, id) && id in db.permits
    ensures db.permits[id].infohash == h && db.permits[id].budget == budget
  {
  }

  lemma ChoicesArePending(db: Database, now: int, e: PoolEvidence, pool: PoolId, ids: set<PermitId>)
    requires Unreported(db, now, e, pool, ids)
    ensures e.otherPending + Sum(e.remaining) + Sum(BudgetsOf(db, ids)) <= PendingBytes(db, e, pool, now)
  {
    var all := Commitments(db, e, pool, now);
    forall id | id in ids
      ensures id in db.permits && var h := db.permits[id].infohash; h in all && db.permits[id].budget <= all[h]
    {
      OwingIsCounted(db, now, pool, id);
      CountedIsCommitted(db, e, pool, now, id);
    }
    hide Owes;
    ChoiceWeighsAtMost(db, e.remaining, ids, all);
  }

  lemma PendingIsAChoice(db: Database, now: int, e: PoolEvidence, pool: PoolId) returns (ids: set<PermitId>)
    ensures Unreported(db, now, e, pool, ids)
    ensures e.otherPending + Sum(e.remaining) + Sum(BudgetsOf(db, ids)) == PendingBytes(db, e, pool, now)
  {
    var all := Commitments(db, e, pool, now);
    forall h | h in all && h !in e.remaining
      ensures exists id :: OwesFor(db, now, pool, id, h, all[h])
    {
      var top := LargestRow(db, e, pool, now, h);
      OwingIsCounted(db, now, pool, top);
      assert OwesFor(db, now, pool, top, h, all[h]);
    }
    assert Owned(db, now, e, pool, all);
    hide Owes, OwesFor, Owned, CountedRows, CountedBudgets;
    ids := ChoiceWeighs(db, now, e, pool, all);
  }

  lemma RoomIsExact(db: Database, now: int, e: PoolEvidence, pool: PoolId, budget: nat, free: nat)
    ensures RoomWithin(db, now, e, pool, budget, free) <==> budget + PendingBytes(db, e, pool, now) <= free
  {
    hide Unreported, PendingBytes, BudgetsOf;
    var heaviest := PendingIsAChoice(db, now, e, pool);
    forall ids | Unreported(db, now, e, pool, ids)
      ensures e.otherPending + Sum(e.remaining) + Sum(BudgetsOf(db, ids)) <= PendingBytes(db, e, pool, now)
    {
      ChoicesArePending(db, now, e, pool, ids);
    }
  }

  // ---- The chosen pool ----

  /** The ssd is chosen when it is roomy, else the hdd when it is, and otherwise admission waits for space. */
  lemma PoolIsChosenExactly(db: Database, now: int, capacity: Capacity, disks: Disks, budget: nat)
    ensures var chosen := SelectPool(db, now, capacity, disks, budget);
      && (chosen == Ok(Ssd) <==> Roomy(db, now, capacity, disks, budget, Ssd))
      && (chosen == Ok(Hdd) <==> !Roomy(db, now, capacity, disks, budget, Ssd) &&
                                 Roomy(db, now, capacity, disks, budget, Hdd))
      && (chosen == Refused(WaitingSpace) <==> !Roomy(db, now, capacity, disks, budget, Ssd) &&
                                                !Roomy(db, now, capacity, disks, budget, Hdd))
  {
    hide RoomWithin, PendingBytes;
    forall pool | pool in capacity && pool in disks
      ensures Roomy(db, now, capacity, disks, budget, pool) <==> PoolFits(db, now, capacity, disks, budget, pool)
    {
      RoomIsExact(db, now, capacity[pool], pool, budget, capacity[pool].free);
      RoomIsExact(db, now, capacity[pool], pool, budget, disks[pool].free);
    }
    assert Roomy(db, now, capacity, disks, budget, Ssd) <==> PoolFits(db, now, capacity, disks, budget, Ssd);
    assert Roomy(db, now, capacity, disks, budget, Hdd) <==> PoolFits(db, now, capacity, disks, budget, Hdd);
  }

  // ---- What a caller can add up ----

  /** An admission with room leaves room for each unreported source as well, whatever the others are. */
  lemma RoomBesideRow(db: Database, now: int, e: PoolEvidence, pool: PoolId, budget: nat, free: nat, id: PermitId)
    requires RoomWithin(db, now, e, pool, budget, free)
    requires Owes(db, now, pool, id) && db.permits[id].infohash !in e.remaining
    ensures budget + e.otherPending + Sum(e.remaining) + db.permits[id].budget <= free
  {
    assert Unreported(db, now, e, pool, {id});
    assert BudgetsOf(db, {id}) == map[id := db.permits[id].budget];
    SumInsert(map[], id, db.permits[id].budget);
    assert map[][id := db.permits[id].budget] == BudgetsOf(db, {id});
  }

  /** On a pool with no unreported source the sum of three numbers decides. */
  lemma RoomWithoutRows(db: Database, now: int, e: PoolEvidence, pool: PoolId, budget: nat, free: nat)
    requires forall id | Owes(db, now, pool, id) :: db.permits[id].infohash in e.remaining
    ensures RoomWithin(db, now, e, pool, budget, free) <==> budget + e.otherPending + Sum(e.remaining) <= free
  {
    hide Owes;
    assert Unreported(db, now, e, pool, {});
    assert BudgetsOf(db, {}) == map[];
    forall ids | Unreported(db, now, e, pool, ids) ensures ids == {} {
      assert forall id | id in ids :: Owes(db, now, pool, id);
    }
  }
}
