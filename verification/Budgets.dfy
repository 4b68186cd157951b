/**
 Budget conservation: what a reservation is charged lies between its live
 permits and those permits plus the parents of handovers still pending.
 */
module Budgets {
  import opened Sums
  import opened Tables
  import opened Transactions
  import opened Soundness

  ghost predicate BudgetExact(db: Database, r: ReservationId)
    requires r in db.reservations
  {
    db.LiveBytes(r) <= db.reservations[r].budget <= db.HeldBytes(r)
  }

  ghost predicate BudgetsExact(db: Database) {
    forall r | db.Active(r) :: BudgetExact(db, r)
  }

  lemma LiveWithinHeld(db: Database, r: ReservationId)
    ensures db.LiveBytes(r) <= db.HeldBytes(r)
  {
    SumMonotone(LiveBudgets(db.permits, r), HeldBudgets(db.permits, PendingParents(db.handovers), r));
  }

  /** With no handover pending in the reservation the budget is the live total itself. */
  lemma BudgetWithoutHandover(db: Database, r: ReservationId)
    requires BudgetsExact(db) && db.Active(r)
    requires forall id | id in PendingParents(db.handovers) && id in db.permits :: db.permits[id].reservation != r
    ensures db.reservations[r].budget == db.LiveBytes(r)
  {
    assert HeldBudgets(db.permits, PendingParents(db.handovers), r) == LiveBudgets(db.permits, r);
    assert BudgetExact(db, r);
  }

  // ---- What a transaction on one reservation leaves alone ----

  ghost predicate RowsOutside(permits: map<PermitId, Permit>, after: map<PermitId, Permit>, r: ReservationId) {
    && (forall id | id in permits && permits[id].reservation != r :: id in after && after[id] == permits[id])
    && (forall id | id in after && after[id].reservation != r :: id in permits && permits[id] == after[id])
  }

  ghost predicate ParentsOutside(permits: map<PermitId, Permit>, parents: set<PermitId>, after: set<PermitId>,
                                 r: ReservationId)
  {
    forall id | id in permits && permits[id].reservation != r :: id in parents <==> id in after
  }

  ghost predicate TouchesOnly(db: Database, after: Database, r: ReservationId) {
    && after.reservations == db.reservations
    && RowsOutside(db.permits, after.permits, r)
    && ParentsOutside(db.permits, PendingParents(db.handovers), PendingParents(after.handovers), r)
  }

  lemma OutsideKeepsTotals(db: Database, after: Database, r: ReservationId, k: ReservationId)
    requires TouchesOnly(db, after, r) && k != r
    ensures after.LiveBytes(k) == db.LiveBytes(k) && after.HeldBytes(k) == db.HeldBytes(k)
  {
    assert LiveBudgets(after.permits, k) == LiveBudgets(db.permits, k);
    assert HeldBudgets(after.permits, PendingParents(after.handovers), k) ==
           HeldBudgets(db.permits, PendingParents(db.handovers), k);
  }

  lemma Charged(mid: Database, r: ReservationId, charge: nat)
    ensures var after := WithBudget(mid, r, charge);
      && after.permits == mid.permits && after.handovers == mid.handovers && after.episodeImports == mid.episodeImports
      && (forall k :: after.Active(k) == mid.Active(k))
      && (forall k | mid.Active(k) ::
            after.reservations[k].budget == if k == r then charge else mid.reservations[k].budget)
  {
  }

  lemma ChargingKeepsBudgets(db: Database, mid: Database, r: ReservationId, charge: nat)
    requires BudgetsExact(db) && TouchesOnly(db, mid, r)
    requires charge == mid.LiveBytes(r) || charge == mid.HeldBytes(r)
    ensures BudgetsExact(WithBudget(mid, r, charge))
  {
    hide LiveBudgets, HeldBudgets, PendingParents, RowsOutside, ParentsOutside, WithBudget;
    Charged(mid, r, charge);
    var after := WithBudget(mid, r, charge);
    forall k | after.Active(k) ensures BudgetExact(after, k) {
      if k == r {
        LiveWithinHeld(mid, r);
      } else {
        assert db.Active(k) && BudgetExact(db, k);
        OutsideKeepsTotals(db, mid, r, k);
      }
    }
  }

  /** The same rows stay alive with the same handovers, and charges stay. */
  ghost predicate SameLiveRows(db: Database, after: Database) {
    && after.permits.Keys == db.permits.Keys
    && (forall id | id in db.permits :: SameLife(db.permits[id], after.permits[id]))
    && after.handovers == db.handovers
  }

  predicate SameLife(p: Permit, q: Permit) {
    q.Live() == p.Live() && q.reservation == p.reservation && q.budget == p.budget
  }

  ghost predicate SameCharges(db: Database, after: Database) {
    forall r | after.Active(r) :: db.Active(r) && after.reservations[r].budget == db.reservations[r].budget
  }

  lemma SameLiveRowsKeepBudgets(db: Database, after: Database)
    requires BudgetsExact(db) && SameLiveRows(db, after) && SameCharges(db, after)
    ensures BudgetsExact(after)
  {
    forall r | after.Active(r) ensures BudgetExact(after, r) {
      assert BudgetExact(db, r);
      assert LiveBudgets(after.permits, r) == LiveBudgets(db.permits, r);
      assert HeldBudgets(after.permits, PendingParents(after.handovers), r) ==
             HeldBudgets(db.permits, PendingParents(db.handovers), r);
    }
  }

  // ---- Each transaction ----

  lemma EntryTouchesOnly(db: Database, id: PermitId, row: Permit)
    requires id !in db.permits
    ensures TouchesOnly(db, db.(permits := db.permits[id := row]), row.reservation)
    ensures row.Live() ==> db.(permits := db.permits[id := row]).LiveBytes(row.reservation) ==
                           row.budget + db.LiveBytes(row.reservation)
  {
    var after := db.(permits := db.permits[id := row]);
    var r := row.reservation;
    assert ParentsOutside(db.permits, PendingParents(db.handovers), PendingParents(after.handovers), r);
    if row.Live() {
      assert LiveBudgets(after.permits, r) == LiveBudgets(db.permits, r)[id := row.budget];
      SumInsert(LiveBudgets(db.permits, r), id, row.budget);
    }
  }

  lemma IssueKeepsBudgets(db: Database, now: int, a: IssueRequest)
    requires Sound(db) && BudgetsExact(db) && Issue(db, now, a).Ok?
    ensures BudgetsExact(Issue(db, now, a).value)
  {
    hide Sound, Issue, BudgetsExact, TouchesOnly, RowSound;
    var row, charge := IssueSteps(db, now, a);
    EntryTouchesOnly(db, a.id, row);
    ChargingKeepsBudgets(db, db.(permits := db.permits[a.id := row]), a.reservation, charge);
  }

  lemma IssueProbeKeepsBudgets(db: Database, now: int, a: SourceRequest)
    requires Sound(db) && BudgetsExact(db) && IssueProbe(db, now, a).Ok?
    ensures BudgetsExact(IssueProbe(db, now, a).value)
  {
    hide Sound, IssueProbe, BudgetsExact, TouchesOnly, RowSound;
    var row, r, charge := IssueProbeSteps(db, now, a);
    EntryTouchesOnly(db, a.id, row);
    ChargingKeepsBudgets(db, db.(permits := db.permits[a.id := row]), r, charge);
  }

  /** Changing rows of one reservation only. */
  lemma RowsTouchOnly(db: Database, after: Database, r: ReservationId)
    requires after.reservations == db.reservations && after.handovers == db.handovers
    requires RowsOutside(db.permits, after.permits, r)
    ensures TouchesOnly(db, after, r)
  {
  }

  lemma ReplaceKeepsBudgets(db: Database, now: int, a: SourceRequest)
    requires Sound(db) && BudgetsExact(db) && ReplaceConfirmed(db, now, a).Ok?
    ensures BudgetsExact(ReplaceConfirmed(db, now, a).value)
  {
    hide Sound, ReplaceConfirmed, BudgetsExact, TouchesOnly, RowSound;
    var freed, row, r, charge := ReplaceSteps(db, now, a);
    var mid := freed.(permits := freed.permits[a.id := row]);
    RowsTouchOnly(db, mid, r);
    ChargingKeepsBudgets(db, mid, r, charge);
  }

  lemma BoundRowsOutside(db: Database, a: BindRequest)
    requires a.id in db.permits && AllReplacedFit(db, a, a.replaced).Pass?
    ensures RowsOutside(db.permits, SupersedeAll(db.permits, a.replaced), db.permits[a.id].reservation)
  {
    hide ReplacedFits;
    forall id | id in db.permits && db.permits[id].reservation != db.permits[a.id].reservation
      ensures id !in a.replaced
    {
      if id in a.replaced {
        ReplacedAreConfirmed(db, a, a.replaced, id);
      }
    }
  }

  lemma BindKeepsBudgets(db: Database, now: int, a: BindRequest)
    requires BudgetsExact(db) && BindSeasonPack(db, now, a).Ok?
    ensures BudgetsExact(BindSeasonPack(db, now, a).value)
  {
    hide BindSeasonPack, BudgetsExact, TouchesOnly, ServesSome, AllReplacedFit, RowsOutside;
    var retired, bound, r, charge := BindSteps(db, now, a);
    if a.replaced == [] {
      SameLiveRowsKeepBudgets(db, bound);
    } else {
      BoundRowsOutside(db, a);
      RowsTouchOnly(db, bound, r);
      ChargingKeepsBudgets(db, bound, r, charge);
    }
  }

  lemma PromotionTouchesOnly(db: Database, freed: Database, id: PermitId, parent: PermitId)
    requires id in db.permits && parent in db.permits && freed == WithState(db, parent, Superseded)
    requires db.permits[id].reservation == db.permits[parent].reservation && id !in db.handovers
    ensures TouchesOnly(db, Promoted(freed, id, parent), db.permits[id].reservation)
  {
    var mid := Promoted(freed, id, parent);
    assert PendingParents(mid.handovers) == PendingParents(db.handovers) + {parent} by {
      assert mid.handovers[id] == Handover(parent, true);
      forall c | c in db.handovers ensures mid.handovers[c] == db.handovers[c] { }
    }
  }

  lemma PromoteKeepsBudgets(db: Database, id: PermitId)
    requires Sound(db) && BudgetsExact(db) && PromoteProbe(db, id).Ok?
    ensures BudgetsExact(PromoteProbe(db, id).value)
  {
    hide Sound, PromoteProbe, Promotable, BudgetsExact, TouchesOnly;
    var freed, parent, r, charge := PromoteSteps(db, id);
    PromotionTouchesOnly(db, freed, id, parent);
    ChargingKeepsBudgets(db, Promoted(freed, id, parent), r, charge);
  }

  lemma RejectKeepsBudgets(db: Database, id: PermitId)
    requires BudgetsExact(db) && RejectProbe(db, id).Ok?
    ensures BudgetsExact(RejectProbe(db, id).value)
  {
    hide BudgetsExact, TouchesOnly;
    var r := db.permits[id].reservation;
    var mid := WithState(db, id, ProbeRejected);
    RowsTouchOnly(db, mid, r);
    ChargingKeepsBudgets(db, mid, r, mid.HeldBytes(r));
  }

  lemma ClosingTouchesOnly(db: Database, c: PermitId)
    requires HandoversSound(db) && c in db.handovers
    ensures c in db.permits
    ensures TouchesOnly(db, db.(handovers := db.handovers[c := db.handovers[c].(pending := false)]),
                        db.permits[c].reservation)
  {
    var done := db.(handovers := db.handovers[c := db.handovers[c].(pending := false)]);
    assert HandoverSound(db, c, db.handovers[c]);
    forall id | id in db.permits && db.permits[id].reservation != db.permits[c].reservation
      ensures id in PendingParents(db.handovers) <==> id in PendingParents(done.handovers)
    {
      forall k | k in db.handovers && k != c ensures done.handovers[k] == db.handovers[k] { }
    }
  }

  lemma CompleteHandoverKeepsBudgets(db: Database, id: PermitId)
    requires Sound(db) && BudgetsExact(db)
    ensures BudgetsExact(CompleteHandover(db, id).value)
  {
    hide Sound, BudgetsExact, TouchesOnly, HandoversSound;
    SoundParts(db);
    if id in db.permits {
      var r := db.permits[id].reservation;
      var done := if id in db.handovers
        then db.(handovers := db.handovers[id := db.handovers[id].(pending := false)]) else db;
      if id in db.handovers { ClosingTouchesOnly(db, id); } else { RowsTouchOnly(db, done, r); }
      ChargingKeepsBudgets(db, done, r, done.HeldBytes(r));
    }
  }

  lemma DeletingKeepsBudgets(db: Database, mid: Database, ids: set<PermitId>, r: ReservationId)
    requires BudgetsExact(db) && mid.permits == db.permits - ids
    requires mid.reservations == db.reservations && mid.handovers == db.handovers
    requires forall id | id in ids && id in db.permits :: db.permits[id].reservation == r
    ensures BudgetsExact(WithBudget(mid, r, mid.LiveBytes(r)))
  {
    hide BudgetsExact, TouchesOnly;
    RowsTouchOnly(db, mid, r);
    ChargingKeepsBudgets(db, mid, r, mid.LiveBytes(r));
  }

  lemma CancelKeepsBudgets(db: Database, id: PermitId)
    requires BudgetsExact(db) && CancelAuthorized(db, id).Ok?
    ensures BudgetsExact(CancelAuthorized(db, id).value)
  {
    hide BudgetsExact;
    DeletingKeepsBudgets(db, db.(permits := db.permits - {id}, bindings := db.bindings - {id}), {id},
      db.permits[id].reservation);
  }

  lemma RetireKeepsBudgets(db: Database, now: int, r: ReservationId, scope: Scope)
    requires BudgetsExact(db)
    ensures BudgetsExact(RetireExpired(db, now, r, scope).value)
  {
    hide BudgetsExact;
    var expired := ExpiredRows(db, r, scope, now);
    DeletingKeepsBudgets(db, db.(permits := db.permits - expired), expired, r);
  }

  lemma NormalizeKeepsBudgets(db: Database)
    ensures BudgetsExact(NormalizeBudgets(db).value)
  {
    var after := NormalizeBudgets(db).value;
    forall r | after.Active(r) ensures BudgetExact(after, r) {
      LiveWithinHeld(after, r);
    }
  }

  lemma ReserveKeepsBudgets(db: Database, id: ReservationId, request: RequestId, media: MediaKey)
    requires BudgetsExact(db) && Reserve(db, id, request, media).Ok?
    ensures BudgetsExact(Reserve(db, id, request, media).value)
  {
    var after := Reserve(db, id, request, media).value;
    forall r | after.Active(r) ensures BudgetExact(after, r) {
      if r == id {
        assert LiveBudgets(db.permits, r) == map[];
        LiveWithinHeld(after, r);
      } else {
        assert db.Active(r) && BudgetExact(db, r);
      }
    }
  }

  /** Transactions that leave every row alive or dead as it was, and every active charge. */
  lemma QuietKeepsBudgets(db: Database, after: Database)
    requires BudgetsExact(db) && after.permits == db.permits && after.handovers == db.handovers
    requires SameCharges(db, after)
    ensures BudgetsExact(after)
  {
    SameLiveRowsKeepBudgets(db, after);
  }

  lemma RevokingStaysInside(permits: map<PermitId, Permit>, r: ReservationId)
    ensures RowsOutside(permits, RevokeAuthorized(permits, r), r)
  {
  }

  /** Cancelling an unstarted reservation revokes only its own rows, and it is no longer active. */
  lemma RevokingKeepsBudgets(db: Database, r: ReservationId)
    requires BudgetsExact(db) && CancelUnstarted(db, r).Ok?
    ensures BudgetsExact(CancelUnstarted(db, r).value)
  {
    hide DownloadStarted, RevokeAuthorized;
    var after := CancelUnstarted(db, r).value;
    if DownloadStarted(db, r) {
      QuietKeepsBudgets(db, after);
    } else {
      RevokingStaysInside(db.permits, r);
      var mid := db.(permits := RevokeAuthorized(db.permits, r));
      RowsTouchOnly(db, mid, r);
      hide TouchesOnly, LiveBudgets, HeldBudgets, PendingParents, RowsOutside;
      forall k | after.Active(k) ensures BudgetExact(after, k) {
        assert db.Active(k) && BudgetExact(db, k);
        OutsideKeepsTotals(db, mid, r, k);
      }
    }
  }

  lemma ChangedRowKeepsBudgets(db: Database, id: PermitId, q: Permit)
    requires BudgetsExact(db) && id in db.permits && SameLife(db.permits[id], q)
    ensures BudgetsExact(db.(permits := db.permits[id := q]))
  {
    SameLiveRowsKeepBudgets(db, db.(permits := db.permits[id := q]));
  }
}
