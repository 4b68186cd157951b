/** What ends a permit, a handover or a reservation leaves behind, said of the tables alone. */
module Endings {
  import opened Options
  import opened Sums
  import opened Tables
  import opened Transactions
  import opened AdmissionChecks

  lemma RejectWrites(db: Database, id: PermitId)
    ensures RejectProbe(db, id) == Refused(ProbeRequired) <==> id !in db.permits || db.permits[id].parent == None
    ensures RejectProbe(db, id).Ok? ==>
      && id in db.permits
      && var p, after := db.permits[id], RejectProbe(db, id).value;
      && after.permits == db.permits[id := p.(state := ProbeRejected)]
      && Recharged(db, after, p.reservation, Sum(AdmissionChecks.HeldBytes(after, p.reservation)))
  {
    hide HeldBudgets, AdmissionChecks.HeldBytes, Recharged, WithBudget;
    if RejectProbe(db, id).Ok? {
      var r, rejected := db.permits[id].reservation, WithState(db, id, ProbeRejected);
      ChargesAre(rejected, r);
      ChargingKeepsBytes(rejected, r, rejected.HeldBytes(r));
      RowsChargedBeside(db, rejected, RejectProbe(db, id).value, r, rejected.HeldBytes(r));
    }
  }

  lemma RowsChargedBeside(db: Database, mid: Database, after: Database, r: ReservationId, charge: nat)
    requires Recharged(mid, after, r, charge) && mid == db.(permits := mid.permits)
    ensures Recharged(db, after, r, charge)
  {
  }

  /** The candidate's handover is closed, and the reservation pays for what it then still holds. */
  lemma CompleteHandoverWrites(db: Database, id: PermitId)
    ensures CompleteHandover(db, id).Ok?
    ensures var after := CompleteHandover(db, id).value;
      && (id !in db.permits ==> after == db)
      && (id in db.permits ==>
            && after.permits == db.permits
            && after.handovers == (if id !in db.handovers then db.handovers
                                   else db.handovers[id := Handover(db.handovers[id].parent, false)])
            && var r := db.permits[id].reservation;
               Recharged(db.(handovers := after.handovers), after, r, Sum(AdmissionChecks.HeldBytes(after, r))))
  {
    hide HeldBudgets, AdmissionChecks.HeldBytes, WithBudget;
    if id in db.permits {
      var r := db.permits[id].reservation;
      var done := if id in db.handovers
        then db.(handovers := db.handovers[id := Handover(db.handovers[id].parent, false)]) else db;
      assert CompleteHandover(db, id) == Ok(WithBudget(done, r, done.HeldBytes(r)));
      ChargesAre(done, r);
      ChargingKeepsBytes(done, r, done.HeldBytes(r));
    }
  }

  /** Only an undispatched permit goes, with its bindings, and the rest of the reservation is charged. */
  lemma CancelWrites(db: Database, id: PermitId)
    ensures CancelAuthorized(db, id) == Refused(NotAuthorized) <==>
            id !in db.permits || db.permits[id].state != Authorized
    ensures CancelAuthorized(db, id).Ok? ==>
      && id in db.permits
      && var r, after := db.permits[id].reservation, CancelAuthorized(db, id).value;
      && after.permits.Keys == db.permits.Keys - {id} && after.bindings.Keys == db.bindings.Keys - {id}
      && (forall k | k in after.permits :: after.permits[k] == db.permits[k])
      && (forall k | k in after.bindings :: after.bindings[k] == db.bindings[k])
      && Recharged(db.(bindings := after.bindings), after, r, Sum(RunningBytes(after, r)))
  {
    hide LiveBudgets, RunningBytes, Recharged, WithBudget;
    if CancelAuthorized(db, id).Ok? {
      var r := db.permits[id].reservation;
      var removed := db.(permits := db.permits - {id}, bindings := db.bindings - {id});
      ChargesAre(removed, r);
      ChargingKeepsBytes(removed, r, removed.LiveBytes(r));
      BindingsKept(removed, CancelAuthorized(db, id).value, r, removed.LiveBytes(r));
      RowsChargedBeside(db.(bindings := removed.bindings), removed, CancelAuthorized(db, id).value, r,
                        removed.LiveBytes(r));
    }
  }

  lemma BindingsKept(db: Database, after: Database, r: ReservationId, charge: nat)
    requires Recharged(db, after, r, charge)
    ensures after.bindings == db.bindings
  {
  }

  /** An undispatched permit of the slot whose time is over. */
  predicate Lapsed(db: Database, id: PermitId, r: ReservationId, scope: Scope, now: int) {
    id in db.permits && InSlot(db.permits[id], r, scope) && db.permits[id].state == Authorized &&
    db.permits[id].expires <= now
  }

  /** The lapsed rows of the slot go, no other, and only then is the reservation charged anew. */
  lemma RetireWrites(db: Database, now: int, r: ReservationId, scope: Scope)
    ensures RetireExpired(db, now, r, scope).Ok?
    ensures var after := RetireExpired(db, now, r, scope).value;
      && after.permits == (map id | id in db.permits && !Lapsed(db, id, r, scope, now) :: db.permits[id])
      && ((forall id :: !Lapsed(db, id, r, scope, now)) ==> after == db)
      && ((exists id :: Lapsed(db, id, r, scope, now)) ==> Recharged(db, after, r, Sum(RunningBytes(after, r))))
  {
    hide LiveBudgets, RunningBytes, Recharged, WithBudget;
    var gone := ExpiredRows(db, r, scope, now);
    forall id ensures id in gone <==> Lapsed(db, id, r, scope, now) { }
    hide Lapsed;
    assert db.permits - gone == map id | id in db.permits && !Lapsed(db, id, r, scope, now) :: db.permits[id];
    if gone != {} {
      var removed := db.(permits := db.permits - gone);
      ChargesAre(removed, r);
      ChargingKeepsBytes(removed, r, removed.LiveBytes(r));
      RowsChargedBeside(db, removed, RetireExpired(db, now, r, scope).value, r, removed.LiveBytes(r));
    }
  }

  /** Every open reservation is charged with exactly what runs for it, and nothing else changes. */
  lemma NormalizeWrites(db: Database)
    ensures NormalizeBudgets(db).Ok?
    ensures var after := NormalizeBudgets(db).value;
      && after == db.(reservations := after.reservations) && after.reservations.Keys == db.reservations.Keys
      && (forall r | r in db.reservations ::
            after.reservations[r] == if Open(db, r) then db.reservations[r].(budget := Sum(RunningBytes(db, r)))
                                     else db.reservations[r])
  {
    hide LiveBudgets, RunningBytes;
    forall r ensures db.LiveBytes(r) == Sum(RunningBytes(db, r)) { ChargesAre(db, r); }
  }

  /** Deleting a season closes each request for it at first, and at the end each reservation, freeing its bytes. */
  lemma SeasonWrites(db: Database, media: MediaKey)
    ensures CloseSeasonRequests(db, media).Ok? && ReleaseSeason(db, media).Ok?
    ensures var closed := CloseSeasonRequests(db, media).value;
      && closed == db.(requests := closed.requests) && closed.requests.Keys == db.requests.Keys
      && (forall r | r in db.reservations && db.reservations[r].media == media &&
                     db.reservations[r].request in db.requests ::
            closed.requests[db.reservations[r].request] == CancelledRequest)
      && (forall q | q in db.requests && closed.requests[q] != db.requests[q] ::
            exists r :: r in db.reservations && db.reservations[r].media == media && db.reservations[r].request == q)
    ensures var released := ReleaseSeason(db, media).value;
      && released == db.(reservations := released.reservations)
      && released.reservations.Keys == db.reservations.Keys
      && (forall r | r in db.reservations ::
            released.reservations[r] ==
            if db.reservations[r].media == media then db.reservations[r].(state := CancelledReservation, budget := 0)
            else db.reservations[r])
  {
  }

  /** Import, reservation and request are over together, as far as there are such rows, and nothing else changes. */
  lemma MovieEnds(db: Database, r: ReservationId)
    ensures CompleteMovie(db, r).Ok?
    ensures var after := CompleteMovie(db, r).value;
      && after == db.(movieImports := after.movieImports, reservations := after.reservations,
                      requests := after.requests)
      && after.movieImports == (if r in db.movieImports then db.movieImports[r := Complete] else db.movieImports)
      && after.reservations == (if r !in db.reservations then db.reservations
                                else db.reservations[r := db.reservations[r].(state := Imported)])
      && after.requests ==
         (if r !in db.reservations || db.reservations[r].request !in db.requests then db.requests
          else db.requests[db.reservations[r].request := Available])
  {
  }

  /** A dispatch stores its reply or its uncertainty once; a rank is two components or more; a deletion is kept. */
  lemma RowsWritten(db: Database, id: PermitId, reply: Reply, rank: seq<int>, media: MediaKey)
    ensures id in db.permits && db.permits[id].state == Dispatching ==>
      && Record(db, id, reply) ==
         Ok(db.(permits := db.permits[id := db.permits[id].(state := Confirmed, reply := Some(reply))]))
      && MarkUnknown(db, id) == Ok(db.(permits := db.permits[id := db.permits[id].(state := Unknown)]))
    ensures !(id in db.permits && db.permits[id].state == Dispatching) ==>
      && MarkUnknown(db, id) == Ok(db)
      && Record(db, id, reply) ==
         (if id in db.permits && db.permits[id].state == Confirmed && db.permits[id].reply != None then Ok(db)
          else Refused(PermitStateChanged))
    ensures SetQuality(db, id, rank) ==
      if |rank| <= 1 then Refused(InvalidRequest)
      else if id !in db.permits then Ok(db)
      else Ok(db.(permits := db.permits[id := db.permits[id].(quality := Some(rank))]))
    ensures Tombstone(db, media) == Ok(db.(tombstones := db.tombstones + {media}))
  {
  }
}
