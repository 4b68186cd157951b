/** Import claims over both tables, and the tombstones, bindings and reservations that outlive every transaction. */
module ImportRuns {
  import opened Options
  import opened Tables
  import opened Transactions
  import opened Soundness
  import opened LedgerRuns
  import opened SourceBounds

  /** Reservations keep their request and media, and none revives. */
  ghost predicate ReservationsKept(db: Database, after: Database) {
    forall r | r in db.reservations ::
      && r in after.reservations && after.reservations[r].request == db.reservations[r].request
      && after.reservations[r].media == db.reservations[r].media && (after.Active(r) ==> db.Active(r))
  }

  /** What a permit past authorized has bound stays bound. */
  ghost predicate BoundSame(db: Database, after: Database) {
    forall id |
      id in db.permits && db.permits[id].state != Authorized && id in db.bindings && db.bindings[id] != map[] ::
      id in after.bindings && after.bindings[id] == db.bindings[id]
  }

  /** Only permits, bindings and handovers differ, and what reservations are charged. */
  ghost predicate OnlyCharged(db: Database, after: Database) {
    && after.movieImports == db.movieImports && after.episodeImports == db.episodeImports
    && after.tombstones == db.tombstones && after.requests == db.requests
    && after.reservations.Keys == db.reservations.Keys && ReservationsKept(db, after) && BoundSame(db, after)
  }

  /** Imports, tombstones and bindings in use are never forgotten, and no reservation revives. */
  ghost predicate Remembers(db: Database, after: Database) {
    && db.movieImports.Keys <= after.movieImports.Keys && db.episodeImports.Keys <= after.episodeImports.Keys
    && db.tombstones <= after.tombstones && ReservationsKept(db, after) && BoundSame(db, after)
  }

  lemma ChargingRemembers(db: Database, after: Database)
    requires OnlyCharged(db, after)
    ensures Remembers(db, after)
  {
    hide ReservationsKept, BoundSame;
  }

  // ---- Transactions on permits ----

  /** Both databases hold the same reservations, requests, tombstones and imports. */
  predicate SameAround(db: Database, mid: Database) {
    && mid.reservations == db.reservations && mid.requests == db.requests && mid.tombstones == db.tombstones
    && mid.movieImports == db.movieImports && mid.episodeImports == db.episodeImports
  }

  lemma OnlyRowsChange(db: Database, mid: Database)
    requires SameAround(db, mid) && BoundSame(db, mid)
    ensures OnlyCharged(db, mid)
  {
    hide BoundSame;
  }

  lemma ChargeChanges(db: Database, mid: Database, r: ReservationId, charge: nat)
    requires SameAround(db, mid) && BoundSame(db, mid)
    ensures OnlyCharged(db, WithBudget(mid, r, charge))
  {
    var after := WithBudget(mid, r, charge);
    assert after.reservations.Keys == db.reservations.Keys;
    assert BoundSame(db, after);
    hide BoundSame;
  }

  lemma IssueOnlyCharges(db: Database, now: int, a: IssueRequest)
    requires Issue(db, now, a).Ok?
    ensures OnlyCharged(db, Issue(db, now, a).value)
  {
    hide Issue, SelectPool, OnlyCharged, WithBudget;
    var row := IssueChecks(db, now, a);
    var added := db.(permits := db.permits[a.id := row]);
    ChargeChanges(db, added, a.reservation, a.budget + db.LiveBytes(a.reservation));
  }

  lemma ProbeOnlyCharges(db: Database, now: int, a: SourceRequest)
    requires IssueProbe(db, now, a).Ok?
    ensures OnlyCharged(db, IssueProbe(db, now, a).value)
  {
    hide IssueProbe, SelectPool, OnlyCharged, WithBudget;
    var row := ProbeChecks(db, now, a);
    var added := db.(permits := db.permits[a.id := row]);
    ChargeChanges(db, added, row.reservation, added.HeldBytes(row.reservation));
  }

  lemma ReplaceOnlyCharges(db: Database, now: int, a: SourceRequest)
    requires ReplaceConfirmed(db, now, a).Ok?
    ensures OnlyCharged(db, ReplaceConfirmed(db, now, a).value)
  {
    hide ReplaceConfirmed, SelectPool, OnlyCharged, WithBudget;
    var freed, row := ReplaceChecks(db, now, a);
    var added := freed.(permits := freed.permits[a.id := row]);
    ChargeChanges(db, added, row.reservation, added.LiveBytes(row.reservation));
  }

  lemma BindOnlyCharges(db: Database, now: int, a: BindRequest)
    requires BindSeasonPack(db, now, a).Ok?
    ensures OnlyCharged(db, BindSeasonPack(db, now, a).value)
  {
    hide HashLiveElsewhere, HeldBudgets, ReplacementsFit, BindingsFit, PackOfSeason, ServesSome, SupersedeAll,
      OnlyCharged, WithBudget;
    var bound := db.(permits := SupersedeAll(db.permits, a.replaced), bindings := db.bindings[a.id := a.episodes]);
    OnlyRowsChange(db, bound);
    ChargeChanges(db, bound, db.permits[a.id].reservation, bound.HeldBytes(db.permits[a.id].reservation));
  }

  lemma PromoteOnlyCharges(db: Database, id: PermitId)
    requires PromoteProbe(db, id).Ok?
    ensures OnlyCharged(db, PromoteProbe(db, id).value)
  {
    hide SlotHasPrimary, RequireReservation, HeldBudgets, OnlyCharged, WithBudget;
    var p := db.permits[id];
    var stepped := WithState(db, p.parent.value, Superseded)
      .(handovers := db.handovers[id := Handover(p.parent.value, true)]);
    var promoted := stepped.(permits := stepped.permits[id := p.(parent := None)]);
    ChargeChanges(db, promoted, p.reservation, promoted.HeldBytes(p.reservation));
  }

  lemma EndingOnlyCharges(db: Database, id: PermitId)
    ensures RejectProbe(db, id).Ok? ==> OnlyCharged(db, RejectProbe(db, id).value)
    ensures OnlyCharged(db, CompleteHandover(db, id).value)
  {
    hide HeldBudgets, OnlyCharged, WithBudget;
    OnlyRowsChange(db, db);
    if id in db.permits {
      var r, rejected := db.permits[id].reservation, WithState(db, id, ProbeRejected);
      ChargeChanges(db, rejected, r, rejected.HeldBytes(r));
      var done := if id in db.handovers
        then db.(handovers := db.handovers[id := db.handovers[id].(pending := false)]) else db;
      ChargeChanges(db, done, r, done.HeldBytes(r));
    }
  }

  lemma DispatchOnlyCharges(db: Database, now: int, t: Transaction)
    requires (t.DoRenew? || t.DoBegin?) && Apply(db, now, t).Ok?
    ensures OnlyCharged(db, Apply(db, now, t).value)
  {
    hide RequireReservation, SupersededHashes, AllPaused, RequirePack, ValidatePayload, PendingBytes, OnlyCharged;
    OnlyRowsChange(db, Apply(db, now, t).value);
  }

  lemma ReplyOnlyCharges(db: Database, id: PermitId, reply: Reply)
    ensures Record(db, id, reply).Ok? ==> OnlyCharged(db, Record(db, id, reply).value)
    ensures OnlyCharged(db, MarkUnknown(db, id).value)
  {
    hide OnlyCharged;
    if Record(db, id, reply).Ok? {
      OnlyRowsChange(db, Record(db, id, reply).value);
    }
    OnlyRowsChange(db, MarkUnknown(db, id).value);
  }

  lemma ReconcileOnlyCharges(db: Database, id: PermitId)
    requires Reconcile(db, id).Ok?
    ensures OnlyCharged(db, Reconcile(db, id).value)
  {
    hide SlotHasSuperseded, IdentityFits, OnlyCharged;
    OnlyRowsChange(db, Reconcile(db, id).value);
  }

  lemma RankingOnlyCharges(db: Database, id: PermitId, rank: seq<int>)
    requires SetQuality(db, id, rank).Ok?
    ensures OnlyCharged(db, SetQuality(db, id, rank).value)
  {
    hide OnlyCharged;
    OnlyRowsChange(db, SetQuality(db, id, rank).value);
  }

  lemma ReleaseOnlyCharges(db: Database, now: int, t: Transaction)
    requires (t.DoCancel? || t.DoRetire?) && Apply(db, now, t).Ok?
    ensures OnlyCharged(db, Apply(db, now, t).value)
  {
    hide LiveBudgets, OnlyCharged, WithBudget;
    OnlyRowsChange(db, db);
    if t.DoCancel? {
      var removed := db.(permits := db.permits - {t.id}, bindings := db.bindings - {t.id});
      ChargeChanges(db, removed, db.permits[t.id].reservation, removed.LiveBytes(db.permits[t.id].reservation));
    } else {
      var removed := db.(permits := db.permits - ExpiredRows(db, t.r, t.scope, now));
      ChargeChanges(db, removed, t.r, removed.LiveBytes(t.r));
    }
  }

  /** Transactions on permits, and the normalization of budgets. */
  predicate OnPermits(t: Transaction) {
    t.DoIssue? || t.DoIssueProbe? || t.DoReplace? || t.DoBind? || t.DoPromote? || t.DoReject? ||
    t.DoCompleteHandover? || t.DoCancel? || t.DoRetire? || t.DoNormalize? || t.RowStep()
  }

  lemma PermitStepOnlyCharges(db: Database, now: int, t: Transaction)
    requires OnPermits(t) && Apply(db, now, t).Ok?
    ensures OnlyCharged(db, Apply(db, now, t).value)
  {
    hide Issue, IssueProbe, ReplaceConfirmed, Renew, BindSeasonPack, PromoteProbe, RejectProbe, CompleteHandover,
      CancelAuthorized, RetireExpired, Begin, Record, MarkUnknown, Reconcile, SetQuality, NormalizeBudgets, OnlyCharged;
    match t
    case DoIssue(a) => IssueOnlyCharges(db, now, a);
    case DoIssueProbe(a) => ProbeOnlyCharges(db, now, a);
    case DoReplace(a) => ReplaceOnlyCharges(db, now, a);
    case DoBind(a) => BindOnlyCharges(db, now, a);
    case DoPromote(id) => PromoteOnlyCharges(db, id);
    case DoReject(id) => EndingOnlyCharges(db, id);
    case DoCompleteHandover(id) => EndingOnlyCharges(db, id);
    case DoRecord(id, reply) => ReplyOnlyCharges(db, id, reply);
    case DoMarkUnknown(id) => ReplyOnlyCharges(db, id, OtherReply(""));
    case DoReconcile(id) => ReconcileOnlyCharges(db, id);
    case DoSetQuality(id, rank) => RankingOnlyCharges(db, id, rank);
    case DoNormalize => NormalizingOnlyCharges(db);
    case DoRenew(_, _, _, _) => DispatchOnlyCharges(db, now, t);
    case DoBegin(_, _, _, _) => DispatchOnlyCharges(db, now, t);
    case DoCancel(_) => ReleaseOnlyCharges(db, now, t);
    case DoRetire(_, _) => ReleaseOnlyCharges(db, now, t);
  }

  lemma NormalizingOnlyCharges(db: Database)
    ensures OnlyCharged(db, NormalizeBudgets(db).value)
  {
    hide LiveBudgets;
  }

  // ---- Every transaction ----

  lemma ImportsGrow(db: Database, after: Database)
    requires after.reservations == db.reservations && after.tombstones == db.tombstones && after.bindings == db.bindings
    requires db.movieImports.Keys <= after.movieImports.Keys && db.episodeImports.Keys <= after.episodeImports.Keys
    ensures Remembers(db, after)
  {
  }

  lemma MovieImportRemembers(db: Database, r: ReservationId, copy: bool)
    ensures ClaimMovie(db, r, copy).Ok? ==> Remembers(db, ClaimMovie(db, r, copy).value)
    ensures Remembers(db, RecordMovie(db, r).value)
  {
    hide ImportPendingNow, Remembers;
    if ClaimMovie(db, r, copy).Ok? {
      ImportsGrow(db, ClaimMovie(db, r, copy).value);
    }
    ImportsGrow(db, RecordMovie(db, r).value);
  }

  lemma EpisodeClaimRemembers(db: Database, k: ImportKey, copy: bool)
    requires ClaimEpisode(db, k, copy).Ok?
    ensures Remembers(db, ClaimEpisode(db, k, copy).value)
  {
    hide ImportPendingNow, Remembers;
    ImportsGrow(db, ClaimEpisode(db, k, copy).value);
  }

  lemma EpisodeImportRemembers(db: Database, k: ImportKey)
    ensures Remembers(db, RecordEpisode(db, k).value) && Remembers(db, CompleteEpisode(db, k).value)
  {
    hide Remembers;
    ImportsGrow(db, db);
    if k in db.episodeImports {
      ImportsGrow(db, db.(episodeImports := db.episodeImports[k := SubmittedState(db.episodeImports[k])]));
      ImportsGrow(db, db.(episodeImports := db.episodeImports[k := Complete]));
    }
  }

  lemma CompletionRemembers(db: Database, r: ReservationId)
    ensures Remembers(db, CompleteMovie(db, r).value)
  {
  }

  lemma ReserveRemembers(db: Database, id: ReservationId, request: RequestId, media: MediaKey)
    requires Reserve(db, id, request, media).Ok?
    ensures Remembers(db, Reserve(db, id, request, media).value)
  {
  }

  lemma CancelRemembers(db: Database, r: ReservationId)
    requires CancelUnstarted(db, r).Ok?
    ensures Remembers(db, CancelUnstarted(db, r).value)
  {
    hide DownloadStarted, RevokeAuthorized;
  }

  lemma DeletionRemembers(db: Database, media: MediaKey)
    ensures Remembers(db, Tombstone(db, media).value) && Remembers(db, CloseSeasonRequests(db, media).value)
  {
  }

  lemma SeasonReleaseRemembers(db: Database, media: MediaKey)
    ensures Remembers(db, ReleaseSeason(db, media).value)
  {
  }

  lemma AroundStepRemembers(db: Database, now: int, t: Transaction)
    requires !OnPermits(t) && Apply(db, now, t).Ok?
    ensures Remembers(db, Apply(db, now, t).value)
  {
    hide Remembers, Reserve, CancelUnstarted, Tombstone, CloseSeasonRequests, ReleaseSeason, ClaimMovie, RecordMovie,
      CompleteMovie, ClaimEpisode, RecordEpisode, CompleteEpisode;
    match t
    case DoReserve(r, q, m) => ReserveRemembers(db, r, q, m);
    case DoCancelUnstarted(r) => CancelRemembers(db, r);
    case DoTombstone(m) => DeletionRemembers(db, m);
    case DoCloseRequests(m) => DeletionRemembers(db, m);
    case DoRelease(m) => SeasonReleaseRemembers(db, m);
    case DoCompleteMovie(r) => CompletionRemembers(db, r);
    case DoClaimMovie(r, copy) => MovieImportRemembers(db, r, copy);
    case DoRecordMovie(r) => MovieImportRemembers(db, r, false);
    case DoClaimEpisode(k, copy) => EpisodeClaimRemembers(db, k, copy);
    case DoRecordEpisode(k) => EpisodeImportRemembers(db, k);
    case DoCompleteEpisode(k) => EpisodeImportRemembers(db, k);
  }

  lemma TransactionRemembers(db: Database, now: int, t: Transaction)
    ensures Remembers(db, After(db, now, t))
  {
    hide OnlyCharged, Remembers, Apply;
    if Apply(db, now, t).Refused? {
      ImportsGrow(db, db);
    } else if OnPermits(t) {
      PermitStepOnlyCharges(db, now, t);
      ChargingRemembers(db, Apply(db, now, t).value);
    } else {
      AroundStepRemembers(db, now, t);
    }
  }

  /** Over any run imports and tombstones stay, and reservations keep their media and do not revive. */
  lemma {:induction false} RunRemembers(db: Database, steps: seq<Step>)
    ensures db.movieImports.Keys <= Run(db, steps).movieImports.Keys
    ensures db.episodeImports.Keys <= Run(db, steps).episodeImports.Keys
    ensures db.tombstones <= Run(db, steps).tombstones && ReservationsKept(db, Run(db, steps))
    decreases |steps|
  {
    if steps != [] {
      hide After, BoundSame;
      TransactionRemembers(db, steps[0].now, steps[0].transaction);
      RunRemembers(After(db, steps[0].now, steps[0].transaction), steps[1..]);
    }
  }

  /** Does the transaction claim the import that `other` claims? */
  predicate SameClaim(t: Transaction, other: Transaction) {
    || (t.DoClaimMovie? && other.DoClaimMovie? && t.r == other.r)
    || (t.DoClaimEpisode? && other.DoClaimEpisode? && t.key == other.key)
  }

  /** Is the import that the transaction claims already in its table? */
  predicate Claimed(db: Database, t: Transaction) {
    (t.DoClaimMovie? && t.r in db.movieImports) || (t.DoClaimEpisode? && t.key in db.episodeImports)
  }

  lemma ClaimIsStored(db: Database, now: int, t: Transaction)
    requires (t.DoClaimMovie? || t.DoClaimEpisode?) && Apply(db, now, t).Ok?
    ensures Claimed(After(db, now, t), t)
  {
    hide ImportPendingNow;
  }

  lemma ClaimedIsRefused(db: Database, now: int, t: Transaction)
    requires Claimed(db, t)
    ensures Apply(db, now, t).Refused?
  {
    hide ImportPendingNow;
  }

  /** However a run goes on, an import is claimed once, so its command is posted at most once. */
  lemma ImportIsClaimedOnce(db: Database, first: Step, steps: seq<Step>, again: Step)
    requires SameClaim(first.transaction, again.transaction)
    requires Apply(db, first.now, first.transaction).Ok?
    ensures Apply(Run(After(db, first.now, first.transaction), steps), again.now, again.transaction).Refused?
  {
    hide Run, After, Apply, ReservationsKept;
    ClaimIsStored(db, first.now, first.transaction);
    RunRemembers(After(db, first.now, first.transaction), steps);
    ClaimedIsRefused(Run(After(db, first.now, first.transaction), steps), again.now, again.transaction);
  }

  /** A row of either import table. */
  datatype Import = MovieImport(r: ReservationId) | EpisodeImport(key: ImportKey)

  predicate In(db: Database, i: Import) {
    match i
    case MovieImport(r) => r in db.movieImports
    case EpisodeImport(k) => k in db.episodeImports
  }

  function StateOf(db: Database, i: Import): ImportState
    requires In(db, i)
  {
    match i
    case MovieImport(r) => db.movieImports[r]
    case EpisodeImport(k) => db.episodeImports[k]
  }

  predicate Unfinished(db: Database, i: Import) {
    In(db, i) && StateOf(db, i) != Complete
  }

  /**
   In every reachable ledger, over both tables: an unfinished copy import is the only
   unfinished import, and at most one unfinished import is not an accepted hardlink.
   */
  lemma ImportsExclude(db: Database, steps: seq<Step>, i: Import, j: Import)
    requires Sound(db) && i != j
    requires Unfinished(Run(db, steps), i) && Unfinished(Run(db, steps), j)
    ensures StateOf(Run(db, steps), i) !in {SendingCopy, SubmittedCopy}
    ensures StateOf(Run(db, steps), i) == Submitted || StateOf(Run(db, steps), j) == Submitted
  {
    RunKeepsSound(db, steps);
    hide Sound, Run;
    SoundParts(Run(db, steps));
    var after := Run(db, steps);
    assert i.EpisodeImport? && j.MovieImport? ==> Compatible(StateOf(after, j), StateOf(after, i));
  }
}
