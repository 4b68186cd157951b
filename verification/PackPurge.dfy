/** `season_pack_fully_deleted`, and what it guarantees when the season pack torrent is purged a moment later. */
module PackPurge {
  import opened Tables
  import opened Transactions
  import opened Soundness
  import opened LedgerRuns
  import opened Evolution
  import opened ImportRuns
  import opened SourceBounds

  /** `_pack_deletion_parent`: the confirmed pack of this season, fit to be deleted through. */
  ghost predicate PackDeletable(db: Database, id: PermitId, tmdb: nat, season: nat, placed: bool, named: bool) {
    && id in db.permits && db.permits[id].state == Confirmed
    && db.permits[id].reservation in db.reservations
    && db.reservations[db.permits[id].reservation].media == SeasonMedia(tmdb, season) && tmdb > 0 && season > 0
    && db.permits[id].scope == Pack(season)
    && db.permits[id].budget > 0
    && id in db.bindings && BindingsFit(db.permits[id], db.bindings[id], placed, named)
    && !HashLiveElsewhere(db, db.permits[id].infohash, {id})
  }

  ghost predicate AllTombstoned(db: Database, id: PermitId, tmdb: nat)
    requires id in db.bindings
  {
    forall scope | scope in db.bindings[id] :: EpisodeMedia(tmdb, scope) in db.tombstones
  }

  ghost predicate FullyDeleted(db: Database, id: PermitId, tmdb: nat, season: nat, placed: bool, named: bool) {
    PackDeletable(db, id, tmdb, season, placed, named) && AllTombstoned(db, id, tmdb)
  }

  lemma {:induction false} BoundStays(db: Database, steps: seq<Step>, id: PermitId)
    requires Sound(db) && id in db.permits && db.permits[id].state != Authorized
    requires id in db.bindings && db.bindings[id] != map[]
    ensures id in Run(db, steps).bindings && Run(db, steps).bindings[id] == db.bindings[id]
    ensures db.tombstones <= Run(db, steps).tombstones
    decreases |steps|
  {
    if steps != [] {
      hide Sound, After;
      var next := After(db, steps[0].now, steps[0].transaction);
      TransactionRemembers(db, steps[0].now, steps[0].transaction);
      TransactionEvolves(db, steps[0].now, steps[0].transaction);
      TransactionKeepsSound(db, steps[0].now, steps[0].transaction);
      assert RowEvolves(db.permits[id], next.permits[id]);
      BoundStays(next, steps[1..], id);
    }
  }

  /**
   However long after the last check the purge comes, and whatever is committed in between, every
   episode the season pack serves has been tombstoned, and it serves no other than those checked.
   */
  lemma PurgedPackIsFullyTombstoned(db: Database, steps: seq<Step>, id: PermitId, tmdb: nat, season: nat, placed: bool,
                                    named: bool)
    requires Sound(db) && FullyDeleted(db, id, tmdb, season, placed, named)
    ensures var after := Run(db, steps);
      && id in after.bindings && after.bindings[id] == db.bindings[id] && after.bindings[id] != map[]
      && AllTombstoned(after, id, tmdb)
  {
    hide Sound, Run;
    BoundStays(db, steps, id);
  }

  lemma CheckPassesWhenTombstoned(db: Database, id: PermitId, tmdb: nat, season: nat, placed: bool, named: bool,
                                  scope: Scope)
    requires FullyDeleted(db, id, tmdb, season, placed, named) && scope in db.bindings[id]
    ensures EpisodeMedia(tmdb, scope) in db.tombstones
  {
  }

  /**
   A season pack that at some point of a run serves an episode is not given up at any point of the
   run, before or after, unless that episode's tombstone is written by the end.
   */
  lemma SharedPackIsRetained(db: Database, steps: seq<Step>, j: nat, k: nat, id: PermitId, tmdb: nat, season: nat,
                             placed: bool, named: bool, scope: Scope)
    requires Sound(db) && j <= |steps| && k <= |steps|
    requires var served := Run(db, steps[..j]);
      && id in served.permits && served.permits[id].state != Authorized
      && id in served.bindings && scope in served.bindings[id]
    requires EpisodeMedia(tmdb, scope) !in Run(db, steps).tombstones
    ensures !FullyDeleted(Run(db, steps[..k]), id, tmdb, season, placed, named)
  {
    var served, checked := Run(db, steps[..j]), Run(db, steps[..k]);
    RunKeepsSound(db, steps[..j]);
    RunKeepsSound(db, steps[..k]);
    RunSplits(db, steps, k);
    hide Run, Sound, FullyDeleted, ReservationsKept;
    RunRemembers(checked, steps[k..]);
    if FullyDeleted(checked, id, tmdb, season, placed, named) {
      if j <= k {
        RunGoesOn(db, steps, j, k);
        BoundStays(served, steps[j..k], id);
        CheckPassesWhenTombstoned(checked, id, tmdb, season, placed, named, scope);
      } else {
        CheckedPackIsBound(checked, id, tmdb, season, placed, named);
        RunGoesOn(db, steps, k, j);
        BoundStays(checked, steps[k..j], id);
        CheckPassesWhenTombstoned(checked, id, tmdb, season, placed, named, scope);
      }
      assert false;
    }
  }

  lemma CheckedPackIsBound(db: Database, id: PermitId, tmdb: nat, season: nat, placed: bool, named: bool)
    requires FullyDeleted(db, id, tmdb, season, placed, named)
    ensures id in db.permits && db.permits[id].state == Confirmed && id in db.bindings && db.bindings[id] != map[]
  {
  }

  lemma RunGoesOn(db: Database, steps: seq<Step>, i: nat, j: nat)
    requires i <= j <= |steps|
    ensures Run(db, steps[..j]) == Run(Run(db, steps[..i]), steps[i..j])
  {
    assert steps[..j][..i] == steps[..i] && steps[..j][i..] == steps[i..j];
    hide Run;
    RunSplits(db, steps[..j], i);
  }
}
