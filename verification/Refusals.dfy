/** What a deletion, a cancellation or an import refuses from then on, however the run goes on. */
module LastingRefusals {
  import opened Tables
  import opened Transactions
  import opened Soundness
  import opened LedgerRuns
  import opened Evolution
  import opened ImportRuns

  // ---- Deleted titles ----

  /** Does the tombstone concern this slot: the title itself, the episode, or an episode of the season pack? */
  predicate Buries(key: MediaKey, media: MediaKey, scope: Scope) {
    key == media ||
    (&& media.SeasonMedia? && key.EpisodeMedia? && key.tmdb == media.tmdb && key.scope.Episode?
     && (key.scope == scope || (scope.Pack? && key.scope.season == media.season)))
  }

  lemma BuriedIsRefused(db: Database, key: MediaKey, id: PermitId, now: int, a: Payload, placed: bool, named: bool)
    requires key in db.tombstones && id in db.permits && db.permits[id].reservation in db.reservations
    requires db.permits[id].parent.Some? || db.permits[id].scope.Pack?
    requires Buries(key, db.reservations[db.permits[id].reservation].media, db.permits[id].scope)
    ensures BeginOutcome(db, now, id, a, placed, named).Refused?
  {
    var p := db.permits[id];
    var media := db.reservations[p.reservation].media;
    hide ValidatePayload, BindingsFit;
    if p.scope.Pack? && key != media {
      assert EpisodeMedia(media.tmdb, Episode(media.season, key.scope.number)) in db.tombstones;
    }
  }

  /** Whatever is committed after a deletion, no probe and no season pack of the title is dispatched again. */
  lemma TombstonedCannotStart(db: Database, key: MediaKey, steps: seq<Step>, id: PermitId, now: int, a: Payload,
                              placed: bool, named: bool)
    requires var later := Run(Tombstone(db, key).value, steps);
      && id in later.permits && later.permits[id].reservation in db.reservations
      && (later.permits[id].parent.Some? || later.permits[id].scope.Pack?)
      && Buries(key, db.reservations[later.permits[id].reservation].media, later.permits[id].scope)
    ensures BeginOutcome(Run(Tombstone(db, key).value, steps), now, id, a, placed, named).Refused?
  {
    hide Run, BeginOutcome, Buries;
    RunRemembers(Tombstone(db, key).value, steps);
    BuriedIsRefused(Run(Tombstone(db, key).value, steps), key, id, now, a, placed, named);
  }

  /** Nor is the title ever reserved again. */
  lemma TombstonedIsNeverReserved(db: Database, key: MediaKey, steps: seq<Step>, r: ReservationId, request: RequestId)
    ensures Reserve(Run(Tombstone(db, key).value, steps), r, request, key) == Refused(MediaDeleted)
  {
    hide Run, ReservationsKept;
    RunRemembers(Tombstone(db, key).value, steps);
  }

  // ---- Cancelled requests ----

  /** A request has at most one reservation. */
  ghost predicate RequestsDistinct(db: Database) {
    forall a, b | a in db.reservations && b in db.reservations && a != b ::
      db.reservations[a].request != db.reservations[b].request
  }

  /** The reservation is over, or its request was cancelled. */
  predicate Closed(db: Database, r: ReservationId) {
    && r in db.reservations
    && (!db.Active(r) || db.reservations[r].request !in db.requests ||
        db.requests[db.reservations[r].request] == CancelRequested ||
        db.requests[db.reservations[r].request] == CancelledRequest)
  }

  lemma ClosedIsRequired(db: Database, r: ReservationId, scope: Scope)
    ensures RequireReservation(db, r, scope) == Fail(ReservationRequired) <==> r !in db.reservations || Closed(db, r)
  {
    hide EpisodeTombstoned;
  }

  ghost predicate StaysClosed(db: Database, after: Database) {
    && (RequestsDistinct(db) ==> RequestsDistinct(after))
    && (forall r | RequestsDistinct(db) && Closed(db, r) :: Closed(after, r))
  }

  lemma SameRequestsStayClosed(db: Database, after: Database)
    requires after.requests == db.requests && after.reservations.Keys == db.reservations.Keys
    requires ReservationsKept(db, after)
    ensures StaysClosed(db, after)
  {
  }

  lemma ReservingStaysClosed(db: Database, id: ReservationId, request: RequestId, media: MediaKey)
    requires Reserve(db, id, request, media).Ok?
    ensures StaysClosed(db, Reserve(db, id, request, media).value)
  {
    var after := Reserve(db, id, request, media).value;
    assert forall r | r in db.reservations :: after.reservations[r] == db.reservations[r];
    assert forall r | r in db.reservations :: db.reservations[r].request != request;
  }

  lemma CompletionStaysClosed(db: Database, r: ReservationId)
    ensures StaysClosed(db, CompleteMovie(db, r).value)
  {
  }

  lemma CancellingStaysClosed(db: Database, r: ReservationId)
    requires CancelUnstarted(db, r).Ok?
    ensures StaysClosed(db, CancelUnstarted(db, r).value) && Closed(CancelUnstarted(db, r).value, r)
  {
    hide DownloadStarted, RevokeAuthorized;
  }

  lemma ClosingStaysClosed(db: Database, media: MediaKey)
    ensures StaysClosed(db, CloseSeasonRequests(db, media).value)
  {
  }

  lemma TransactionStaysClosed(db: Database, now: int, t: Transaction)
    ensures StaysClosed(db, After(db, now, t))
  {
    hide Remembers, StaysClosed, OnlyCharged, Apply;
    TransactionRemembers(db, now, t);
    if Apply(db, now, t).Refused? {
      SameRequestsStayClosed(db, db);
    } else if OnPermits(t) {
      PermitStepOnlyCharges(db, now, t);
      ChargedStaysClosed(db, Apply(db, now, t).value);
    } else {
      AroundStaysClosed(db, now, t);
    }
  }

  lemma ChargedStaysClosed(db: Database, after: Database)
    requires OnlyCharged(db, after)
    ensures StaysClosed(db, after)
  {
    hide StaysClosed, ReservationsKept, BoundSame;
    SameRequestsStayClosed(db, after);
  }

  lemma AroundStaysClosed(db: Database, now: int, t: Transaction)
    requires !OnPermits(t) && Apply(db, now, t).Ok?
    ensures StaysClosed(db, Apply(db, now, t).value)
  {
    hide StaysClosed, ImportPendingNow, Reserve, CancelUnstarted, CloseSeasonRequests, CompleteMovie;
    if t.DoReserve? {
      ReservingStaysClosed(db, t.r, t.request, t.media);
    } else if t.DoCancelUnstarted? {
      CancellingStaysClosed(db, t.r);
    } else if t.DoCloseRequests? {
      ClosingStaysClosed(db, t.media);
    } else if t.DoCompleteMovie? {
      CompletionStaysClosed(db, t.r);
    } else {
      SameRequestsStayClosed(db, Apply(db, now, t).value);
    }
  }

  lemma {:induction false} RunStaysClosed(db: Database, steps: seq<Step>)
    ensures StaysClosed(db, Run(db, steps))
    decreases |steps|
  {
    if steps != [] {
      hide After, Closed;
      TransactionStaysClosed(db, steps[0].now, steps[0].transaction);
      RunStaysClosed(After(db, steps[0].now, steps[0].transaction), steps[1..]);
    }
  }

  /** In every reachable ledger a request has at most one reservation. */
  lemma ReachableRequestsAreDistinct(steps: seq<Step>)
    ensures RequestsDistinct(Run(EMPTY, steps))
  {
    hide Run;
    RunStaysClosed(EMPTY, steps);
    assert RequestsDistinct(EMPTY);
  }

  /** Whatever is committed after a cancellation, nothing of the reservation passes a guarded start again. */
  lemma CancelledCannotStart(db: Database, r: ReservationId, steps: seq<Step>, scope: Scope)
    requires RequestsDistinct(db) && CancelUnstarted(db, r).Ok?
    ensures RequireReservation(Run(CancelUnstarted(db, r).value, steps), r, scope) == Fail(ReservationRequired)
  {
    hide Run, Closed, RequestsDistinct, RequireReservation, CancelUnstarted;
    var cancelled := CancelUnstarted(db, r).value;
    CancellingStaysClosed(db, r);
    RunStaysClosed(cancelled, steps);
    ClosedIsRequired(Run(cancelled, steps), r, scope);
  }

  /** And if no download of it had started, none ever will: no permit it had is dispatched. */
  lemma UnstartedNeverStarts(db: Database, r: ReservationId, steps: seq<Step>, id: PermitId, now: int, a: Payload,
                             placed: bool, named: bool)
    requires Sound(db) && CancelUnstarted(db, r).Ok? && !DownloadStarted(db, r)
    requires id in db.permits && db.permits[id].reservation == r
    ensures BeginOutcome(Run(CancelUnstarted(db, r).value, steps), now, id, a, placed, named).Refused?
  {
    RevokedAndClosed(db, r);
    RevokingKeepsSound(db, r);
    hide *;
    RevokedStaysRefused(CancelUnstarted(db, r).value, steps, id, now, a, placed, named);
  }

  lemma RevokedStaysRefused(db: Database, steps: seq<Step>, id: PermitId, now: int, a: Payload, placed: bool,
                            named: bool)
    requires Sound(db) && id in db.permits && db.permits[id].state == Revoked
    ensures BeginOutcome(Run(db, steps), now, id, a, placed, named).Refused?
  {
    hide Run, Sound, BeginOutcome, SameIdentity;
    RunNeverStepsBack(db, steps, id);
    DeadIsRefused(Run(db, steps), now, id, a, placed, named);
  }

  /** Nor is it issued another one. */
  lemma UnstartedIsNeverIssued(db: Database, r: ReservationId, steps: seq<Step>, now: int, a: IssueRequest)
    requires CancelUnstarted(db, r).Ok? && !DownloadStarted(db, r) && a.reservation == r
    ensures Issue(Run(CancelUnstarted(db, r).value, steps), now, a).Refused?
  {
    RevokedAndClosed(db, r);
    hide Run, CancelUnstarted, Issue;
    RunRemembers(CancelUnstarted(db, r).value, steps);
    InactiveIsRefused(Run(CancelUnstarted(db, r).value, steps), now, a);
  }

  lemma RevokedAndClosed(db: Database, r: ReservationId)
    requires CancelUnstarted(db, r).Ok? && !DownloadStarted(db, r)
    ensures var after := CancelUnstarted(db, r).value;
      && r in after.reservations && !after.Active(r)
      && (forall id | id in db.permits && db.permits[id].reservation == r ::
            id in after.permits && after.permits[id].state == Revoked)
  {
  }

  lemma DeadIsRefused(db: Database, now: int, id: PermitId, a: Payload, placed: bool, named: bool)
    requires id in db.permits && Rank(db.permits[id].state) == 4
    ensures BeginOutcome(db, now, id, a, placed, named).Refused?
  {
    hide ValidatePayload, RequireReservation, RequirePack;
  }

  lemma InactiveIsRefused(db: Database, now: int, a: IssueRequest)
    requires !db.Active(a.reservation)
    ensures Issue(db, now, a).Refused?
  {
    hide SelectPool, SlotHasPrimary, SlotHasSuperseded, SlotIsBound, LiveBudgets, WithBudget;
  }

  // ---- Imports of both tables ----

  function ImportRank(s: ImportState): nat {
    match s
    case Sending => 0
    case SendingCopy => 0
    case Submitted => 1
    case SubmittedCopy => 1
    case Complete => 2
  }

  /** Does the transaction record or complete this import? */
  predicate Advances(t: Transaction, i: Import) {
    match i
    case MovieImport(r) => (t.DoRecordMovie? || t.DoCompleteMovie?) && t.r == r
    case EpisodeImport(k) => (t.DoRecordEpisode? || t.DoCompleteEpisode?) && t.key == k
  }

  predicate Copying(s: ImportState) {
    s.SendingCopy? || s.SubmittedCopy?
  }

  /** From sending to submitted to complete, as a copy or a hardlink throughout. */
  predicate Moves(s: ImportState, t: ImportState) {
    ImportRank(s) <= ImportRank(t) && (t == Complete || Copying(s) == Copying(t))
  }

  /** The import is still there, and where it was unless the transaction advanced it. */
  ghost predicate ImportKept(db: Database, after: Database, i: Import, advances: bool) {
    && In(db, i) && In(after, i)
    && Moves(StateOf(db, i), StateOf(after, i)) && (advances || StateOf(after, i) == StateOf(db, i))
  }

  lemma SameImportsAreKept(db: Database, after: Database, i: Import)
    requires In(db, i) && after.movieImports == db.movieImports && after.episodeImports == db.episodeImports
    ensures ImportKept(db, after, i, false)
  {
  }

  lemma MovieStepKeepsImport(db: Database, r: ReservationId, copy: bool, i: Import)
    requires In(db, i)
    ensures ClaimMovie(db, r, copy).Ok? ==> ImportKept(db, ClaimMovie(db, r, copy).value, i, false)
    ensures ImportKept(db, RecordMovie(db, r).value, i, i == MovieImport(r))
    ensures ImportKept(db, CompleteMovie(db, r).value, i, i == MovieImport(r))
  {
    hide ImportPendingNow;
  }

  lemma EpisodeStepKeepsImport(db: Database, k: ImportKey, copy: bool, i: Import)
    requires In(db, i)
    ensures ClaimEpisode(db, k, copy).Ok? ==> ImportKept(db, ClaimEpisode(db, k, copy).value, i, false)
    ensures ImportKept(db, RecordEpisode(db, k).value, i, i == EpisodeImport(k))
    ensures ImportKept(db, CompleteEpisode(db, k).value, i, i == EpisodeImport(k))
  {
    hide ImportPendingNow;
  }

  lemma TransactionKeepsImport(db: Database, now: int, t: Transaction, i: Import)
    requires In(db, i)
    ensures ImportKept(db, After(db, now, t), i, Advances(t, i))
  {
    hide Apply, ImportKept, In, ReservationsKept, BoundSame;
    if Apply(db, now, t).Refused? {
      SameImportsAreKept(db, db, i);
    } else if OnPermits(t) {
      PermitStepOnlyCharges(db, now, t);
      SameImportsAreKept(db, Apply(db, now, t).value, i);
    } else {
      AroundKeepsImport(db, now, t, i);
    }
    KeptAnyway(db, After(db, now, t), i, Advances(t, i));
  }

  lemma KeptAnyway(db: Database, after: Database, i: Import, advances: bool)
    requires ImportKept(db, after, i, false) || ImportKept(db, after, i, advances)
    ensures ImportKept(db, after, i, advances)
  {
  }

  lemma ReservationStepKeepsImport(db: Database, now: int, t: Transaction, i: Import)
    requires t.DoReserve? || t.DoCancelUnstarted? || t.DoTombstone? || t.DoCloseRequests? || t.DoRelease?
    requires In(db, i) && Apply(db, now, t).Ok?
    ensures ImportKept(db, Apply(db, now, t).value, i, false)
  {
    hide ImportKept, In, DownloadStarted, RevokeAuthorized;
    SameImportsAreKept(db, Apply(db, now, t).value, i);
  }

  lemma AroundKeepsImport(db: Database, now: int, t: Transaction, i: Import)
    requires In(db, i) && !OnPermits(t) && Apply(db, now, t).Ok?
    ensures ImportKept(db, Apply(db, now, t).value, i, false) ||
            ImportKept(db, Apply(db, now, t).value, i, Advances(t, i))
  {
    hide ImportKept, In, ClaimMovie, RecordMovie, CompleteMovie, ClaimEpisode, RecordEpisode, CompleteEpisode,
      Reserve, CancelUnstarted, Tombstone, CloseSeasonRequests, ReleaseSeason;
    match t
    case DoClaimMovie(r, copy) => MovieStepKeepsImport(db, r, copy, i);
    case DoRecordMovie(r) => MovieStepKeepsImport(db, r, false, i);
    case DoCompleteMovie(r) => MovieStepKeepsImport(db, r, false, i);
    case DoClaimEpisode(k, copy) => EpisodeStepKeepsImport(db, k, copy, i);
    case DoRecordEpisode(k) => EpisodeStepKeepsImport(db, k, false, i);
    case DoCompleteEpisode(k) => EpisodeStepKeepsImport(db, k, false, i);
    case _ => ReservationStepKeepsImport(db, now, t, i);
  }

  /** Does no step record or complete this import? */
  predicate LeavesAlone(steps: seq<Step>, i: Import) {
    forall s | s in steps :: !Advances(s.transaction, i)
  }

  lemma {:induction false} RunKeepsImport(db: Database, steps: seq<Step>, i: Import)
    requires In(db, i)
    ensures In(Run(db, steps), i) && Moves(StateOf(db, i), StateOf(Run(db, steps), i))
    ensures LeavesAlone(steps, i) ==> StateOf(Run(db, steps), i) == StateOf(db, i)
    decreases |steps|
  {
    if steps != [] {
      hide After, Advances;
      TransactionKeepsImport(db, steps[0].now, steps[0].transaction, i);
      RunKeepsImport(After(db, steps[0].now, steps[0].transaction), steps[1..], i);
    }
  }

  /** Some row of either table stands in the way exactly when an import is unfinished and of a blocking kind. */
  lemma PendingIsAnImport(db: Database, copy: bool)
    ensures ImportPendingNow(db, copy) <==> exists i :: In(db, i) && Blocks(StateOf(db, i), copy)
  {
    if ImportPendingNow(db, copy) {
      if r :| r in db.movieImports && Blocks(db.movieImports[r], copy) {
        assert In(db, MovieImport(r));
      } else {
        var k :| k in db.episodeImports && Blocks(db.episodeImports[k], copy);
        assert In(db, EpisodeImport(k));
      }
    }
  }

  function ImportOf(t: Transaction): Import
    requires t.DoClaimMovie? || t.DoClaimEpisode?
  {
    if t.DoClaimMovie? then MovieImport(t.r) else EpisodeImport(t.key)
  }

  lemma ClaimedState(db: Database, now: int, t: Transaction)
    requires (t.DoClaimMovie? || t.DoClaimEpisode?) && Apply(db, now, t).Ok?
    ensures In(After(db, now, t), ImportOf(t)) && StateOf(After(db, now, t), ImportOf(t)) == ClaimState(t.copy)
  {
    hide ImportPendingNow;
  }

  lemma PendingIsRefused(db: Database, now: int, t: Transaction)
    requires (t.DoClaimMovie? || t.DoClaimEpisode?) && ImportPendingNow(db, t.copy)
    ensures Apply(db, now, t).Refused?
  {
    hide ImportPendingNow;
  }

  /**
   From the claim of an import, in either table, until the import is recorded or completed, every
   claim is refused; and until it is completed, every copy claim, and every claim if it copies.
   */
  lemma ClaimBlocks(db: Database, now: int, t: Transaction, steps: seq<Step>, at: int, again: Transaction)
    requires (t.DoClaimMovie? || t.DoClaimEpisode?) && Apply(db, now, t).Ok?
    requires again.DoClaimMovie? || again.DoClaimEpisode?
    requires var later := Run(After(db, now, t), steps);
      && In(later, ImportOf(t))
      && (LeavesAlone(steps, ImportOf(t)) || (StateOf(later, ImportOf(t)) != Complete && (again.copy || t.copy)))
    ensures Apply(Run(After(db, now, t), steps), at, again).Refused?
  {
    var i, later := ImportOf(t), Run(After(db, now, t), steps);
    ClaimedState(db, now, t);
    RunKeepsImport(After(db, now, t), steps, i);
    hide Apply, After, Run, ImportPendingNow;
    PendingIsAnImport(later, again.copy);
    PendingIsRefused(later, at, again);
  }

  /** Once complete, an import of either table never stands in the way again. */
  lemma CompletedImportBlocksNothing(db: Database, i: Import, steps: seq<Step>, copy: bool)
    requires In(db, i) && StateOf(db, i) == Complete
    ensures In(Run(db, steps), i) && !Blocks(StateOf(Run(db, steps), i), copy)
  {
    hide Run;
    RunKeepsImport(db, steps, i);
  }
}
