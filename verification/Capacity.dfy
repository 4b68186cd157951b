/**
 Disk capacity: against fixed evidence and an advancing clock, no transaction
 makes a pool's pending bytes exceed what was measured free.
 */
module CapacitySafety {
  import opened Sums
  import opened Tables
  import opened Transactions
  import opened Soundness
  import opened Budgets

  /** Every measured pool still has room for all that was promised on it. */
  ghost predicate CapacitySafe(db: Database, capacity: Capacity, now: int) {
    forall pool | pool in capacity :: PendingBytes(db, capacity[pool], pool, now) <= capacity[pool].free
  }

  // ---- How the per-torrent fold moves with the counted rows ----

  /** Outside `except`, every row counted later was already counted, for the same torrent and bytes. */
  ghost predicate CountedWithin(db: Database, now: int, after: Database, later: int, except: set<PermitId>) {
    forall id, pool | after.Counted(id, pool, later) && id !in except ::
      db.Counted(id, pool, now) && db.permits[id].infohash == after.permits[id].infohash &&
      db.permits[id].budget == after.permits[id].budget
  }

  /** A torrent none of the exempt rows counts for is committed at most what it was. */
  lemma CommitmentWithin(db: Database, now: int, after: Database, later: int, e: PoolEvidence, pool: PoolId,
                         except: set<PermitId>, h: InfoHash)
    requires CountedWithin(db, now, after, later, except)
    requires forall id | id in except && after.Counted(id, pool, later) :: after.permits[id].infohash != h
    requires h in Commitments(after, e, pool, later)
    ensures h in Commitments(db, e, pool, now)
    ensures Commitments(after, e, pool, later)[h] <= Commitments(db, e, pool, now)[h]
  {
    if h !in e.remaining {
      var top := LargestRow(after, e, pool, later, h);
      assert db.Counted(top, pool, now);
      CountedIsCommitted(db, e, pool, now, top);
    }
  }

  lemma PendingNeverRises(db: Database, now: int, after: Database, later: int, e: PoolEvidence, pool: PoolId,
                          except: set<PermitId>)
    requires CountedWithin(db, now, after, later, except)
    requires forall id | id in except :: !after.Counted(id, pool, later)
    ensures PendingBytes(after, e, pool, later) <= PendingBytes(db, e, pool, now)
  {
    hide Commitments, CountedWithin;
    var m, n := Commitments(after, e, pool, later), Commitments(db, e, pool, now);
    forall h | h in m ensures h in n && m[h] <= n[h] {
      CommitmentWithin(db, now, after, later, e, pool, except, h);
    }
    SumMonotone(m, n);
  }

  /** The torrent of the one new row rises by at most that row's budget, and not if the queue reports it. */
  lemma CommitmentRises(db: Database, now: int, after: Database, later: int, e: PoolEvidence, pool: PoolId,
                        id: PermitId)
    requires CountedWithin(db, now, after, later, {id}) && id in after.permits
    requires after.permits[id].infohash in Commitments(after, e, pool, later)
    ensures var h := after.permits[id].infohash; var n := Commitments(db, e, pool, now);
      Commitments(after, e, pool, later)[h] <=
        (if h in n then n[h] else 0) + (if h in e.remaining then 0 else after.permits[id].budget)
  {
    var h := after.permits[id].infohash;
    if h !in e.remaining {
      var top := LargestRow(after, e, pool, later, h);
      if top != id {
        assert db.Counted(top, pool, now);
        CountedIsCommitted(db, e, pool, now, top);
      }
    }
  }

  /** The row an unreported torrent's commitment comes from. */
  lemma LargestRow(db: Database, e: PoolEvidence, pool: PoolId, now: int, h: InfoHash) returns (top: PermitId)
    requires h in Commitments(db, e, pool, now) && h !in e.remaining
    ensures db.Counted(top, pool, now) && db.permits[top].infohash == h
    ensures db.permits[top].budget == Commitments(db, e, pool, now)[h]
  {
    var budgets := CountedBudgets(db, pool, now, h);
    var id :| id in CountedRows(db, pool, now) && db.permits[id].infohash == h;
    assert db.permits[id].budget in budgets;
    top :| top in CountedRows(db, pool, now) && db.permits[top].infohash == h &&
      db.permits[top].budget == Largest(budgets);
  }

  lemma CountedIsCommitted(db: Database, e: PoolEvidence, pool: PoolId, now: int, id: PermitId)
    requires db.Counted(id, pool, now)
    ensures var h := db.permits[id].infohash;
      && h in Commitments(db, e, pool, now)
      && (h !in e.remaining ==> db.permits[id].budget <= Commitments(db, e, pool, now)[h])
  {
    var h := db.permits[id].infohash;
    assert id in CountedRows(db, pool, now);
    assert db.permits[id].budget in CountedBudgets(db, pool, now, h);
  }

  /** One more counted row costs at most its own budget, and nothing if the queue already reports its torrent. */
  lemma PendingRisesByOne(db: Database, now: int, after: Database, later: int, e: PoolEvidence, pool: PoolId,
                          id: PermitId)
    requires CountedWithin(db, now, after, later, {id}) && id in after.permits
    ensures PendingBytes(after, e, pool, later) <= PendingBytes(db, e, pool, now) +
              (if after.permits[id].infohash in e.remaining then 0 else after.permits[id].budget)
  {
    hide Commitments, CountedWithin;
    var m, n := Commitments(after, e, pool, later), Commitments(db, e, pool, now);
    var at := after.permits[id].infohash;
    var rise := if at in e.remaining then 0 else after.permits[id].budget;
    forall h | h in m && h != at ensures h in n && m[h] <= n[h] {
      CommitmentWithin(db, now, after, later, e, pool, {id}, h);
    }
    if at in m {
      CommitmentRises(db, now, after, later, e, pool, id);
    }
    SumRise(m, n, at, rise);
  }

  lemma WithinKeepsSafe(db: Database, now: int, after: Database, later: int, capacity: Capacity)
    requires CapacitySafe(db, capacity, now) && CountedWithin(db, now, after, later, {})
    ensures CapacitySafe(after, capacity, later)
  {
    forall pool | pool in capacity ensures PendingBytes(after, capacity[pool], pool, later) <= capacity[pool].free {
      PendingNeverRises(db, now, after, later, capacity[pool], pool, {});
    }
  }

  /** The clock alone only lets unused admissions lapse. */
  lemma WaitingKeepsSafe(db: Database, now: int, later: int, capacity: Capacity)
    requires CapacitySafe(db, capacity, now) && now <= later
    ensures CapacitySafe(db, capacity, later)
  {
    WithinKeepsSafe(db, now, db, later, capacity);
  }

  // ---- Rows that count for no more than before ----

  /** A row changed in place that cannot count unless it counted. */
  predicate NoLouder(p: Permit, q: Permit, now: int) {
    && SameIdentity(p, q)
    && (q.Live() ==> p.Live())
    && (q.state == Authorized ==> p.state == Authorized)
    && (q.Live() && (q.state != Authorized || q.expires > now) ==> p.state != Authorized || p.expires > now)
  }

  ghost predicate ImportsStayComplete(db: Database, after: Database) {
    forall k | k in db.episodeImports && db.episodeImports[k] == Complete ::
      k in after.episodeImports && after.episodeImports[k] == Complete
  }

  /** Outside `except`: rows only get quieter, reservations only close, and only confirmed rows start handing over. */
  ghost predicate Quieter(db: Database, after: Database, now: int, except: set<PermitId>) {
    && (forall id | id in after.permits && id !in except ::
          id in db.permits && NoLouder(db.permits[id], after.permits[id], now))
    && (forall id | after.HandingOver(id) && id in db.permits ::
          db.HandingOver(id) || db.permits[id].state == Confirmed)
    && (forall id | id in db.permits && after.Active(db.permits[id].reservation) ::
          db.Active(db.permits[id].reservation))
    && ImportsStayComplete(db, after)
  }

  lemma QuieterCountsWithin(db: Database, after: Database, now: int, except: set<PermitId>)
    requires HandoversSound(db) && Quieter(db, after, now, except)
    ensures CountedWithin(db, now, after, now, except)
  {
    forall id, pool | after.Counted(id, pool, now) && id !in except
      ensures db.Counted(id, pool, now)
    {
      assert NoLouder(db.permits[id], after.permits[id], now);
      if db.HandingOver(id) {
        var c :| c in db.handovers && db.handovers[c].pending && db.handovers[c].parent == id;
        assert HandoverSound(db, c, db.handovers[c]);
      }
    }
  }

  lemma QuieterKeepsSafe(db: Database, after: Database, now: int, capacity: Capacity)
    requires HandoversSound(db) && CapacitySafe(db, capacity, now) && Quieter(db, after, now, {})
    ensures CapacitySafe(after, capacity, now)
  {
    hide Quieter, CapacitySafe, CountedWithin;
    QuieterCountsWithin(db, after, now, {});
    WithinKeepsSafe(db, now, after, now, capacity);
  }

  /** A row admitted to one pool after the pool was found to have room for it. */
  lemma AdmissionKeepsSafe(db: Database, after: Database, now: int, capacity: Capacity, id: PermitId)
    requires HandoversSound(db) && CapacitySafe(db, capacity, now) && Quieter(db, after, now, {id})
    requires id in after.permits && HasRoom(db, now, capacity, after.permits[id])
    ensures CapacitySafe(after, capacity, now)
  {
    hide Quieter;
    QuieterCountsWithin(db, after, now, {id});
    forall pool | pool in capacity ensures PendingBytes(after, capacity[pool], pool, now) <= capacity[pool].free {
      if pool == after.permits[id].pool {
        PendingRisesByOne(db, now, after, now, capacity[pool], pool, id);
      } else {
        PendingNeverRises(db, now, after, now, capacity[pool], pool, {id});
      }
    }
  }

  // ---- Each transaction ----

  lemma ChargingStaysQuiet(db: Database, mid: Database, now: int, except: set<PermitId>, r: ReservationId, charge: nat)
    requires Quieter(db, mid, now, except)
    ensures Quieter(db, WithBudget(mid, r, charge), now, except)
  {
    Charged(mid, r, charge);
  }

  lemma EntryIsQuiet(db: Database, now: int, id: PermitId, row: Permit)
    requires id !in db.permits
    ensures Quieter(db, db.(permits := db.permits[id := row]), now, {id})
  {
  }

  lemma IssueKeepsSafe(db: Database, now: int, a: IssueRequest)
    requires Sound(db) && CapacitySafe(db, a.capacity, now) && Issue(db, now, a).Ok?
    ensures CapacitySafe(Issue(db, now, a).value, a.capacity, now)
  {
    hide Sound, Issue, CapacitySafe, Quieter, HasRoom;
    var row, charge := IssueSteps(db, now, a);
    var mid := db.(permits := db.permits[a.id := row]);
    EntryIsQuiet(db, now, a.id, row);
    ChargingStaysQuiet(db, mid, now, {a.id}, a.reservation, charge);
    Charged(mid, a.reservation, charge);
    SoundParts(db);
    AdmissionKeepsSafe(db, WithBudget(mid, a.reservation, charge), now, a.capacity, a.id);
  }

  lemma IssueProbeKeepsSafe(db: Database, now: int, a: SourceRequest)
    requires Sound(db) && CapacitySafe(db, a.capacity, now) && IssueProbe(db, now, a).Ok?
    ensures CapacitySafe(IssueProbe(db, now, a).value, a.capacity, now)
  {
    hide Sound, IssueProbe, CapacitySafe, Quieter, HasRoom;
    var row, r, charge := IssueProbeSteps(db, now, a);
    var mid := db.(permits := db.permits[a.id := row]);
    EntryIsQuiet(db, now, a.id, row);
    ChargingStaysQuiet(db, mid, now, {a.id}, r, charge);
    Charged(mid, r, charge);
    SoundParts(db);
    AdmissionKeepsSafe(db, WithBudget(mid, r, charge), now, a.capacity, a.id);
  }

  lemma ReplacementIsQuiet(db: Database, now: int, prior: PermitId, id: PermitId, row: Permit)
    requires prior in db.permits && db.permits[prior].state == Confirmed && id !in db.permits
    ensures var freed := WithState(db, prior, Superseded);
      Quieter(db, freed.(permits := freed.permits[id := row]), now, {id})
  {
  }

  lemma ReplaceKeepsSafe(db: Database, now: int, a: SourceRequest)
    requires Sound(db) && CapacitySafe(db, a.capacity, now) && ReplaceConfirmed(db, now, a).Ok?
    ensures CapacitySafe(ReplaceConfirmed(db, now, a).value, a.capacity, now)
  {
    hide Sound, ReplaceConfirmed, CapacitySafe, Quieter, HasRoom;
    var freed, row, r, charge := ReplaceSteps(db, now, a);
    var mid := freed.(permits := freed.permits[a.id := row]);
    ReplacementIsQuiet(db, now, a.prior, a.id, row);
    ChargingStaysQuiet(db, mid, now, {a.id}, r, charge);
    Charged(mid, r, charge);
    SoundParts(db);
    AdmissionKeepsSafe(db, WithBudget(mid, r, charge), now, a.capacity, a.id);
  }

  lemma RenewSteps(db: Database, now: int, id: PermitId, capacity: Capacity, expires: int, placed: bool)
    returns (p: Permit, e: PoolEvidence)
    requires Renew(db, now, id, capacity, expires, placed).Ok?
    ensures id in db.permits && p == db.permits[id] && p.state == Authorized && p.pool in capacity
    ensures e == capacity[p.pool]
    ensures PendingBytes(db, e, p.pool, now) +
            (if p.expires <= now && p.infohash !in e.remaining then p.budget else 0) <= e.free
    ensures Renew(db, now, id, capacity, expires, placed).value ==
            db.(permits := db.permits[id := p.(expires := expires)])
  {
    hide PendingBytes;
    p := db.permits[id];
    e := capacity[p.pool];
  }

  /** Renewing a lapsed replacement adds it back only where its bytes were just found free. */
  lemma RenewKeepsSafe(db: Database, now: int, id: PermitId, capacity: Capacity, expires: int, placed: bool)
    requires Sound(db) && CapacitySafe(db, capacity, now) && Renew(db, now, id, capacity, expires, placed).Ok?
    ensures CapacitySafe(Renew(db, now, id, capacity, expires, placed).value, capacity, now)
  {
    hide Sound, Quieter, Renew, PendingBytes, CountedWithin;
    SoundParts(db);
    var p, e := RenewSteps(db, now, id, capacity, expires, placed);
    var after := db.(permits := db.permits[id := p.(expires := expires)]);
    RenewalIsQuiet(db, now, id, expires);
    if p.expires > now {
      QuieterKeepsSafe(db, after, now, capacity);
    } else {
      QuieterCountsWithin(db, after, now, {id});
      forall pool | pool in capacity ensures PendingBytes(after, capacity[pool], pool, now) <= capacity[pool].free {
        if pool == p.pool {
          PendingRisesByOne(db, now, after, now, e, pool, id);
        } else {
          PendingNeverRises(db, now, after, now, capacity[pool], pool, {id});
        }
      }
    }
  }

  lemma RenewalIsQuiet(db: Database, now: int, id: PermitId, expires: int)
    requires id in db.permits && db.permits[id].state == Authorized
    ensures var after := db.(permits := db.permits[id := db.permits[id].(expires := expires)]);
      Quieter(db, after, now, {id}) && (db.permits[id].expires > now ==> Quieter(db, after, now, {}))
  {
  }

  lemma BindingIsQuiet(db: Database, now: int, ids: seq<PermitId>, bindings: map<PermitId, map<Scope, seq<string>>>)
    ensures Quieter(db, db.(permits := SupersedeAll(db.permits, ids), bindings := bindings), now, {})
  {
  }

  lemma BindKeepsSafe(db: Database, now: int, a: BindRequest, capacity: Capacity)
    requires Sound(db) && CapacitySafe(db, capacity, now) && BindSeasonPack(db, now, a).Ok?
    ensures CapacitySafe(BindSeasonPack(db, now, a).value, capacity, now)
  {
    hide *;
    var retired, bound, r, charge := BindSteps(db, now, a);
    SoundParts(db);
    BindingIsQuiet(db, now, a.replaced, bound.bindings);
    ChargingStaysQuiet(db, bound, now, {}, r, charge);
    QuieterKeepsSafe(db, bound, now, capacity);
    QuieterKeepsSafe(db, WithBudget(bound, r, charge), now, capacity);
  }

  lemma PromotionIsQuiet(db: Database, now: int, id: PermitId, parent: PermitId)
    requires id in db.permits && parent in db.permits && db.permits[parent].state == Confirmed && id !in db.handovers
    ensures Quieter(db, Promoted(WithState(db, parent, Superseded), id, parent), now, {})
  {
  }

  lemma PromoteKeepsSafe(db: Database, now: int, id: PermitId, capacity: Capacity)
    requires Sound(db) && CapacitySafe(db, capacity, now) && PromoteProbe(db, id).Ok?
    ensures CapacitySafe(PromoteProbe(db, id).value, capacity, now)
  {
    hide Sound, PromoteProbe, CapacitySafe, Quieter, Promotable;
    var freed, parent, r, charge := PromoteSteps(db, id);
    SoundParts(db);
    PromotionIsQuiet(db, now, id, parent);
    ChargingStaysQuiet(db, Promoted(freed, id, parent), now, {}, r, charge);
    QuieterKeepsSafe(db, PromoteProbe(db, id).value, now, capacity);
  }

  /** Promotion moves no byte: the parent keeps counting until its handover completes. */
  lemma PromotionLeavesPending(db: Database, now: int, id: PermitId, e: PoolEvidence, pool: PoolId)
    requires Sound(db) && PromoteProbe(db, id).Ok?
    ensures PendingBytes(PromoteProbe(db, id).value, e, pool, now) == PendingBytes(db, e, pool, now)
  {
    hide *;
    var freed, parent, r, charge := PromoteSteps(db, id);
    var mid := Promoted(freed, id, parent);
    var after := WithBudget(mid, r, charge);
    SoundParts(db);
    PromotionIsQuiet(db, now, id, parent);
    ChargingStaysQuiet(db, mid, now, {}, r, charge);
    QuieterCountsWithin(db, after, now, {});
    PendingNeverRises(db, now, after, now, e, pool, {});
    Charged(mid, r, charge);
    PromotionStillCounts(db, now, id, parent, after);
    PendingNeverRises(after, now, db, now, e, pool, {});
  }

  lemma PromotionStillCounts(db: Database, now: int, id: PermitId, parent: PermitId, after: Database)
    requires id in db.permits && parent in db.permits && db.permits[parent].state == Confirmed && id !in db.handovers
    requires db.permits[id].state == Confirmed && id != parent
    requires var mid := Promoted(WithState(db, parent, Superseded), id, parent);
      && after.permits == mid.permits && after.handovers == mid.handovers && after.episodeImports == mid.episodeImports
      && (forall r :: after.Active(r) == mid.Active(r))
    ensures CountedWithin(after, now, db, now, {})
  {
    assert after.handovers[id] == Handover(parent, true);
    forall k, pool | db.Counted(k, pool, now) ensures after.Counted(k, pool, now) {
      forall c | c in db.handovers ensures after.handovers[c] == db.handovers[c] { }
    }
  }

  lemma RejectionIsQuiet(db: Database, now: int, id: PermitId)
    requires id in db.permits
    ensures Quieter(db, WithState(db, id, ProbeRejected), now, {})
  {
  }

  lemma RejectKeepsSafe(db: Database, now: int, id: PermitId, capacity: Capacity)
    requires Sound(db) && CapacitySafe(db, capacity, now) && RejectProbe(db, id).Ok?
    ensures CapacitySafe(RejectProbe(db, id).value, capacity, now)
  {
    hide Sound, CapacitySafe, Quieter;
    SoundParts(db);
    var mid := WithState(db, id, ProbeRejected);
    var r := db.permits[id].reservation;
    RejectionIsQuiet(db, now, id);
    ChargingStaysQuiet(db, mid, now, {}, r, mid.HeldBytes(r));
    QuieterKeepsSafe(db, WithBudget(mid, r, mid.HeldBytes(r)), now, capacity);
  }

  lemma ClosingIsQuiet(db: Database, now: int, handovers: map<PermitId, Handover>)
    requires PendingParents(handovers) <= PendingParents(db.handovers)
    ensures Quieter(db, db.(handovers := handovers), now, {})
  {
  }

  lemma CompleteHandoverKeepsSafe(db: Database, now: int, id: PermitId, capacity: Capacity)
    requires Sound(db) && CapacitySafe(db, capacity, now)
    ensures CapacitySafe(CompleteHandover(db, id).value, capacity, now)
  {
    hide Sound, CapacitySafe, Quieter;
    SoundParts(db);
    if id in db.permits {
      var r := db.permits[id].reservation;
      var done := if id in db.handovers
        then db.(handovers := db.handovers[id := db.handovers[id].(pending := false)]) else db;
      assert done == db.(handovers := done.handovers);
      ClosingIsQuiet(db, now, done.handovers);
      ChargingStaysQuiet(db, done, now, {}, r, done.HeldBytes(r));
      QuieterKeepsSafe(db, WithBudget(done, r, done.HeldBytes(r)), now, capacity);
    }
  }

  lemma DeletingKeepsSafe(db: Database, now: int, mid: Database, ids: set<PermitId>, r: ReservationId,
                          capacity: Capacity)
    requires Sound(db) && CapacitySafe(db, capacity, now) && mid.permits == db.permits - ids
    requires mid.reservations == db.reservations && mid.handovers == db.handovers
    requires mid.episodeImports == db.episodeImports
    ensures CapacitySafe(WithBudget(mid, r, mid.LiveBytes(r)), capacity, now)
  {
    hide Sound, CapacitySafe;
    SoundParts(db);
    assert Quieter(db, mid, now, {});
    hide Quieter;
    ChargingStaysQuiet(db, mid, now, {}, r, mid.LiveBytes(r));
    QuieterKeepsSafe(db, WithBudget(mid, r, mid.LiveBytes(r)), now, capacity);
  }

  /** One row moves on without counting for more. */
  lemma ChangedRowKeepsSafe(db: Database, now: int, id: PermitId, q: Permit, capacity: Capacity)
    requires Sound(db) && CapacitySafe(db, capacity, now) && id in db.permits && NoLouder(db.permits[id], q, now)
    ensures CapacitySafe(db.(permits := db.permits[id := q]), capacity, now)
  {
    hide Sound, CapacitySafe;
    SoundParts(db);
    QuieterKeepsSafe(db, db.(permits := db.permits[id := q]), now, capacity);
  }

  /** The sources stay, reservations only close, imports only complete. */
  lemma QuietKeepsSafe(db: Database, now: int, after: Database, capacity: Capacity)
    requires Sound(db) && CapacitySafe(db, capacity, now) && SameSources(db, after)
    requires ReservationsSettle(db, after) && ImportsStayComplete(db, after)
    ensures CapacitySafe(after, capacity, now)
  {
    hide Sound, CapacitySafe;
    SoundParts(db);
    forall id | id in db.permits ensures db.permits[id].reservation in db.reservations {
      RowOf(db, id);
    }
    QuieterKeepsSafe(db, after, now, capacity);
  }

  lemma RevokingIsQuiet(db: Database, now: int, r: ReservationId, after: Database)
    requires after.permits == RevokeAuthorized(db.permits, r) || after.permits == db.permits
    requires after.handovers == db.handovers && after.episodeImports == db.episodeImports
    requires forall k | after.Active(k) :: db.Active(k)
    ensures Quieter(db, after, now, {})
  {
  }

  lemma RevokeSteps(db: Database, r: ReservationId) returns (after: Database)
    requires CancelUnstarted(db, r).Ok?
    ensures after == CancelUnstarted(db, r).value
    ensures after.permits == RevokeAuthorized(db.permits, r) || after.permits == db.permits
    ensures after.handovers == db.handovers && after.episodeImports == db.episodeImports
    ensures forall k | after.Active(k) :: db.Active(k)
  {
    hide DownloadStarted, RevokeAuthorized;
    after := CancelUnstarted(db, r).value;
  }

  lemma RevokingKeepsSafe(db: Database, now: int, r: ReservationId, capacity: Capacity)
    requires Sound(db) && CapacitySafe(db, capacity, now) && CancelUnstarted(db, r).Ok?
    ensures CapacitySafe(CancelUnstarted(db, r).value, capacity, now)
  {
    hide *;
    var after := RevokeSteps(db, r);
    SoundParts(db);
    RevokingIsQuiet(db, now, r, after);
    QuieterKeepsSafe(db, after, now, capacity);
  }
}
