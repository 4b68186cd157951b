/** `ReservationRepository`, and the check before a season pack is purged, as objects over the shared tables. */
module Repository {
  import opened Sums
  import opened Tables
  import opened Transactions
  import opened Registry
  import PackPurge

  class ReservationRepository {
    const store: Store

    constructor (store: Store)
      ensures this.store == store
    {
      this.store := store;
    }

    /** Sets every active reservation's bytes to those of its live permits, one row after the other. */
    method NormalizeVerifiedBudgets()
      modifies store
      ensures Commits(old(store.tables), store.tables, NormalizeBudgets(old(store.tables)), Pass)
    {
      hide LiveBudgets;
      var db := store.tables;
      var rest := db.reservations.Keys;
      while rest != {}
        invariant rest <= db.reservations.Keys
        invariant store.tables == db.(reservations := store.tables.reservations)
        invariant store.tables.reservations.Keys == db.reservations.Keys
        invariant forall r | r in rest :: store.tables.reservations[r] == db.reservations[r]
        invariant forall r | r in db.reservations && r !in rest ::
          store.tables.reservations[r] == Normalized(db, r)
        decreases rest
      {
        var r :| r in rest;
        if db.reservations[r].Active() {
          var live := Total(LiveBudgets(db.permits, r));
          store.tables := store.tables.(
            reservations := store.tables.reservations[r := store.tables.reservations[r].(budget := live)]);
        }
        rest := rest - {r};
      }
      assert store.tables.reservations == NormalizeBudgets(db).value.reservations;
    }

    method CancelUnstarted(r: ReservationId) returns (outcome: Check)
      modifies store
      ensures Commits(old(store.tables), store.tables, Transactions.CancelUnstarted(old(store.tables), r), outcome)
    {
      hide RevokeAuthorized;
      var db := store.tables;
      if r !in db.reservations {
        return Fail(NotFound);
      }
      var reservation := db.reservations[r];
      if reservation.state == CancelledReservation {
        return Fail(AlreadyCancelled);
      }
      if reservation.state != Reserved && reservation.state != Downloading {
        return Fail(NotCancellable);
      }
      if DownloadStarted(db, r) {
        store.tables := db.(requests := db.requests[reservation.request := CancelRequested]);
        return Pass;
      }
      store.tables := db.(permits := RevokeAuthorized(db.permits, r));
      store.tables := store.tables.(reservations := db.reservations[r := reservation.(state := CancelledReservation)]);
      store.tables := store.tables.(requests := db.requests[reservation.request := CancelledRequest]);
      outcome := Pass;
    }

    /** SELECT EXISTS over the union of both import tables. */
    method ImportPending(copy: bool) returns (pending: bool)
      ensures pending == ImportPendingNow(store.tables, copy)
    {
      var db := store.tables;
      var movies := set r | r in db.movieImports && db.movieImports[r] != Complete &&
        (copy || db.movieImports[r] != Submitted);
      var episodes := set k | k in db.episodeImports && db.episodeImports[k] != Complete &&
        (copy || db.episodeImports[k] != Submitted);
      assert forall r :: r in movies <==> r in db.movieImports && Blocks(db.movieImports[r], copy);
      assert forall k :: k in episodes <==> k in db.episodeImports && Blocks(db.episodeImports[k], copy);
      pending := movies != {} || episodes != {};
    }

    method ClaimMovieImport(r: ReservationId, copy: bool) returns (outcome: Check)
      modifies store
      ensures Commits(old(store.tables), store.tables, ClaimMovie(old(store.tables), r, copy), outcome)
    {
      hide ImportPendingNow;
      var db := store.tables;
      if r !in db.reservations || db.reservations[r].state !in {Reserved, Downloading} {
        return Fail(ReservationRequired);
      }
      var pending := ImportPending(copy);
      if pending {
        return Fail(Refusal.ImportPending);
      }
      if r in db.movieImports {
        return Fail(ImportClaimed);
      }
      store.tables := db.(movieImports := db.movieImports[r := if copy then SendingCopy else Sending]);
      outcome := Pass;
    }

    method ClaimEpisodeImport(k: ImportKey, copy: bool) returns (outcome: Check)
      modifies store
      ensures Commits(old(store.tables), store.tables, ClaimEpisode(old(store.tables), k, copy), outcome)
    {
      hide ImportPendingNow;
      var db := store.tables;
      var pending := ImportPending(copy);
      if pending {
        return Fail(Refusal.ImportPending);
      }
      if k in db.episodeImports {
        return Fail(ImportClaimed);
      }
      store.tables := db.(episodeImports := db.episodeImports[k := if copy then SendingCopy else Sending]);
      outcome := Pass;
    }

    method CompleteMovieImport(r: ReservationId)
      modifies store
      ensures Commits(old(store.tables), store.tables, CompleteMovie(old(store.tables), r), Pass)
      ensures store.tables.movieImports.Keys == old(store.tables.movieImports).Keys && !store.tables.Active(r)
      ensures forall copy | r in store.tables.movieImports :: !Blocks(store.tables.movieImports[r], copy)
      ensures forall k | k in store.tables.movieImports && k != r ::
                store.tables.movieImports[k] == old(store.tables.movieImports)[k]
    {
      var db := store.tables;
      if r in db.movieImports {
        store.tables := store.tables.(movieImports := db.movieImports[r := Complete]);
      }
      if r in db.reservations {
        var reservation := db.reservations[r];
        store.tables := store.tables.(reservations := db.reservations[r := reservation.(state := Imported)]);
        if reservation.request in db.requests {
          store.tables := store.tables.(requests := db.requests[reservation.request := Available]);
        }
      }
    }

    /** Every scope the season pack serves, one after the other, has its tombstone. */
    method SeasonPackFullyDeleted(id: PermitId, tmdb: nat, season: nat, placed: bool, named: bool)
      returns (deleted: bool)
      ensures deleted == PackPurge.FullyDeleted(store.tables, id, tmdb, season, placed, named)
    {
      hide BindingsFit, HashLiveElsewhere;
      var db := store.tables;
      if id !in db.permits || db.permits[id].state != Confirmed || db.permits[id].reservation !in db.reservations ||
         db.reservations[db.permits[id].reservation].media != SeasonMedia(tmdb, season) || tmdb == 0 || season == 0 {
        return false;
      }
      var pack := db.permits[id];
      if pack.scope != Pack(season) || pack.budget == 0 || id !in db.bindings ||
         !BindingsFit(pack, db.bindings[id], placed, named) || HashLiveElsewhere(db, pack.infohash, {id}) {
        return false;
      }
      var rest := db.bindings[id].Keys;
      while rest != {}
        invariant rest <= db.bindings[id].Keys
        invariant forall scope | scope in db.bindings[id] && scope !in rest ::
                    EpisodeMedia(tmdb, scope) in db.tombstones
        decreases rest
      {
        var scope :| scope in rest;
        if EpisodeMedia(tmdb, scope) !in db.tombstones {
          return false;
        }
        rest := rest - {scope};
      }
      deleted := true;
    }
  }

  ghost function Normalized(db: Database, r: ReservationId): Reservation
    requires r in db.reservations
  {
    if db.reservations[r].Active() then db.reservations[r].(budget := db.LiveBytes(r)) else db.reservations[r]
  }
}
