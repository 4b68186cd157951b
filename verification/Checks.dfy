/**
 What an admission is refused for and what a committed one writes, said of the
 tables, the request and the evidence alone, in the order in which the checks
 are made.
 */
module AdmissionChecks {
  import opened Options
  import opened Sums
  import opened Tables
  import opened Transactions
  import opened Soundness
  import opened PoolSpace

  /** The transaction commits when nothing stands in its way, and otherwise answers what does. */
  ghost predicate Answers<T>(obstacle: Option<Refusal>, outcome: Result<T>) {
    match obstacle
    case None => outcome.Ok?
    case Some(why) => outcome == Refused(why)
  }

  // ---- Words ----

  predicate Running(p: Permit) {
    p.state == Authorized || p.state == Dispatching || p.state == Unknown || p.state == Confirmed
  }

  predicate Open(db: Database, r: ReservationId) {
    r in db.reservations && db.reservations[r].state in {Reserved, Downloading, WaitingEpisodes}
  }

  predicate InSlot(p: Permit, r: ReservationId, scope: Scope) {
    p.reservation == r && p.scope == scope
  }

  /** Some pool's queue shows the torrent paused. */
  predicate Paused(capacity: Capacity, h: InfoHash) {
    exists pool :: pool in capacity && h in capacity[pool].paused
  }

  /** Neither of two leading components is lower, of ranks that have both. */
  predicate AtLeast(rank: Option<seq<int>>, current: Option<seq<int>>) {
    match (rank, current)
    case (Some(a), Some(b)) => |a| >= 2 && |b| >= 2 && b[0] <= a[0] && b[1] <= a[1]
    case _ => false
  }

  predicate ImportBegun(db: Database, r: ReservationId, id: PermitId) {
    r in db.movieImports || OfPermit(id) in db.episodeImports
  }

  predicate Mentioned(db: Database, id: PermitId) {
    id in db.permits || id in db.bindings || id in db.handovers || OfPermit(id) in db.episodeImports ||
    exists c :: c in db.handovers && db.handovers[c].parent == id
  }

  /** A source of the slot was replaced before. */
  predicate Replaced(db: Database, r: ReservationId, scope: Scope) {
    exists id :: id in db.permits && InSlot(db.permits[id], r, scope) && db.permits[id].state == Superseded
  }

  /** The slot has a running source of its own, probes and `except` aside. */
  predicate Taken(db: Database, r: ReservationId, scope: Scope, except: set<PermitId>) {
    exists id :: id in db.permits && id !in except && InSlot(db.permits[id], r, scope) && Running(db.permits[id]) &&
      db.permits[id].parent == None
  }

  /** A running season pack serves the scope. */
  predicate BoundByPack(db: Database, r: ReservationId, scope: Scope) {
    exists id :: id in db.permits && db.permits[id].reservation == r && Running(db.permits[id]) && id in db.bindings &&
      scope in db.bindings[id]
  }

  predicate Probed(db: Database, id: PermitId) {
    exists n :: n in db.permits && db.permits[n].parent == Some(id) && Running(db.permits[n])
  }

  /** The torrent has a row of the reservation, or a running one anywhere. */
  predicate Tried(db: Database, r: ReservationId, h: InfoHash) {
    exists id :: id in db.permits && db.permits[id].infohash == h &&
      (db.permits[id].reservation == r || Running(db.permits[id]))
  }

  predicate RunsElsewhere(db: Database, h: InfoHash, except: set<PermitId>) {
    exists id :: id in db.permits && id !in except && db.permits[id].infohash == h && Running(db.permits[id])
  }

  /** The torrent had its turn in the slot. */
  predicate HadTurn(db: Database, r: ReservationId, scope: Scope, h: InfoHash) {
    exists id :: id in db.permits && InSlot(db.permits[id], r, scope) && db.permits[id].infohash == h
  }

  /** Every source the slot had before is paused. */
  predicate HistoryPaused(db: Database, r: ReservationId, scope: Scope, capacity: Capacity) {
    forall id | id in db.permits && InSlot(db.permits[id], r, scope) && db.permits[id].state == Superseded ::
      Paused(capacity, db.permits[id].infohash)
  }

  /** Movies come from Radarr and seasons from Sonarr. */
  predicate RightOwner(p: Permit, media: MediaKey) {
    match p.scope
    case WholeItem => p.category == Radarr && media.MovieMedia?
    case _ => p.category == Sonarr && media.SeasonMedia?
  }

  /** The media itself is deleted, or the episode the scope names. */
  predicate Buried(db: Database, media: MediaKey, scope: Scope) {
    media in db.tombstones ||
    match (media, scope)
    case (SeasonMedia(tmdb, _), Episode(_, _)) => EpisodeMedia(tmdb, scope) in db.tombstones
    case _ => false
  }

  /** Why nothing may start in the slot any more. */
  function Closure(db: Database, r: ReservationId, scope: Scope): Option<Refusal> {
    if !Open(db, r) then Some(ReservationRequired)
    else
      var request, media := db.reservations[r].request, db.reservations[r].media;
      if request !in db.requests || db.requests[request] == CancelRequested || db.requests[request] == CancelledRequest
      then Some(ReservationRequired)
      else if Buried(db, media, scope) then Some(MediaTombstoned)
      else None
  }

  predicate NoRepeats<T(==)>(items: seq<T>) {
    forall i, j | 0 <= i < |items| && 0 <= j < |items| :: items[i] != items[j] || i == j
  }

  predicate WellSpelled(files: seq<string>) {
    |files| >= 1 && "" !in files && NoRepeats(files)
  }

  // ---- Each word is what the checks ask ----

  lemma ClosureIsRequired(db: Database, r: ReservationId, scope: Scope)
    ensures RequireReservation(db, r, scope) ==
            match Closure(db, r, scope) { case None => Pass case Some(why) => Fail(why) }
  {
  }

  lemma WordsFit(db: Database, r: ReservationId, id: PermitId, h: InfoHash, capacity: Capacity)
    ensures db.Active(r) <==> Open(db, r)
    ensures db.Fresh(id) <==> !Mentioned(db, id)
    ensures h in AllPaused(capacity) <==> Paused(capacity, h)
  {
  }

  lemma ComponentsFit(a: Option<seq<int>>, b: Option<seq<int>>)
    ensures AtLeast(a, b) <==> a.Some? && b.Some? && NotWorse(a.value, b.value)
  {
  }

  lemma SpellingFits(files: seq<string>)
    ensures FilesWellFormed(files) <==> WellSpelled(files)
  {
  }

  // ---- Charges ----

  /** The bytes of each running permit of the reservation. */
  ghost function RunningBytes(db: Database, r: ReservationId): map<PermitId, nat> {
    map id | id in db.permits && db.permits[id].reservation == r && Running(db.permits[id]) :: db.permits[id].budget
  }

  ghost predicate Waiting(db: Database, id: PermitId) {
    exists c :: c in db.handovers && db.handovers[c].pending && db.handovers[c].parent == id
  }

  /** The same, with the sources a pending handover still holds. */
  ghost function HeldBytes(db: Database, r: ReservationId): map<PermitId, nat> {
    map id | id in db.permits && db.permits[id].reservation == r && (Running(db.permits[id]) || Waiting(db, id)) ::
      db.permits[id].budget
  }

  lemma ChargesAre(db: Database, r: ReservationId)
    ensures db.LiveBytes(r) == Sum(RunningBytes(db, r)) && db.HeldBytes(r) == Sum(HeldBytes(db, r))
  {
    assert LiveBudgets(db.permits, r) == RunningBytes(db, r);
    forall id ensures id in PendingParents(db.handovers) <==> Waiting(db, id) { }
    assert HeldBudgets(db.permits, PendingParents(db.handovers), r) == HeldBytes(db, r);
  }

  /** Only permits and the charge of one reservation differ. */
  ghost predicate Recharged(db: Database, after: Database, r: ReservationId, charge: nat) {
    && after == db.(permits := after.permits, reservations := after.reservations)
    && after.reservations.Keys == db.reservations.Keys
    && (forall k | k in db.reservations ::
          after.reservations[k] == if k == r then db.reservations[k].(budget := charge) else db.reservations[k])
  }

  lemma SameRowsSameBytes(db: Database, after: Database, r: ReservationId)
    requires after.permits == db.permits && after.handovers == db.handovers
    ensures RunningBytes(after, r) == RunningBytes(db, r) && HeldBytes(after, r) == HeldBytes(db, r)
  {
    forall id ensures Waiting(after, id) == Waiting(db, id) { }
  }

  lemma ChargingKeepsBytes(db: Database, r: ReservationId, charge: nat)
    ensures var after := WithBudget(db, r, charge);
      && Recharged(db, after, r, charge) && after.permits == db.permits
      && RunningBytes(after, r) == RunningBytes(db, r) && HeldBytes(after, r) == HeldBytes(db, r)
  {
    hide RunningBytes, HeldBytes;
    SameRowsSameBytes(db, WithBudget(db, r, charge), r);
  }

  /** The ssd when it is roomy, and otherwise the hdd. */
  ghost function Chosen(db: Database, now: int, capacity: Capacity, disks: Disks, budget: nat): PoolId {
    if Roomy(db, now, capacity, disks, budget, Ssd) then Ssd else Hdd
  }

  ghost predicate NoRoom(db: Database, now: int, capacity: Capacity, disks: Disks, budget: nat) {
    !Roomy(db, now, capacity, disks, budget, Ssd) && !Roomy(db, now, capacity, disks, budget, Hdd)
  }

  lemma ChoiceFits(db: Database, now: int, capacity: Capacity, disks: Disks, budget: nat)
    ensures var chosen := SelectPool(db, now, capacity, disks, budget);
      chosen == if NoRoom(db, now, capacity, disks, budget) then Refused(WaitingSpace)
                else Ok(Chosen(db, now, capacity, disks, budget))
    ensures !NoRoom(db, now, capacity, disks, budget) ==> Chosen(db, now, capacity, disks, budget) in disks
  {
    PoolIsChosenExactly(db, now, capacity, disks, budget);
  }

  // ---- `issue` ----

  ghost function IssueObstacle(db: Database, now: int, a: IssueRequest): Option<Refusal> {
    if a.budget < 1 then Some(InvalidRequest)
    else if !Open(db, a.reservation) then Some(ReservationRequired)
    else if a.scope != WholeItem && (a.scope == OtherScope("") || a.category != Sonarr ||
                                     !db.reservations[a.reservation].media.SeasonMedia?)
    then Some(InvalidEpisodePermit)
    else if NoRoom(db, now, a.capacity, a.disks, a.budget) then Some(WaitingSpace)
    else if Replaced(db, a.reservation, a.scope) then Some(ReplacementLimit)
    else if a.scope != WholeItem && BoundByPack(db, a.reservation, a.scope) then Some(EpisodeAlreadyPermitted)
    else if Mentioned(db, a.id) then Some(IdentifierTaken)
    else if Taken(db, a.reservation, a.scope, {}) then Some(SlotTaken)
    else None
  }

  lemma IssueAnswers(db: Database, now: int, a: IssueRequest)
    ensures Answers(IssueObstacle(db, now, a), Issue(db, now, a))
  {
    hide SelectPool, NoRoom, Chosen, LiveBudgets, WithBudget;
    WordsFit(db, a.reservation, a.id, a.infohash, a.capacity);
    ChoiceFits(db, now, a.capacity, a.disks, a.budget);
  }

  /** One authorized row was added, on the chosen pool, and its reservation is charged with it. */
  lemma IssueWrites(db: Database, now: int, a: IssueRequest)
    requires Issue(db, now, a).Ok?
    ensures var pool := Chosen(db, now, a.capacity, a.disks, a.budget);
      && pool in a.disks && a.id !in db.permits
      && Issue(db, now, a).value.permits == db.permits[a.id := Permit(
           a.infohash, a.digest, a.category, a.reservation, a.scope, a.files, a.budget, a.expires, Authorized, None,
           None, None, pool, a.disks[pool].filesystem)]
      && Recharged(db, Issue(db, now, a).value, a.reservation, a.budget + Sum(RunningBytes(db, a.reservation)))
  {
    hide Issue, SelectPool, NoRoom, Chosen, LiveBudgets, RunningBytes, SlotHasPrimary, SlotIsBound;
    var row := IssueChecks(db, now, a);
    ChoiceFits(db, now, a.capacity, a.disks, a.budget);
    ChargesAre(db, a.reservation);
    ChargingKeepsBytes(db.(permits := db.permits[a.id := row]), a.reservation, a.budget + db.LiveBytes(a.reservation));
  }

  // ---- `issue_probe` ----

  predicate WellAsked(a: SourceRequest, now: int) {
    WellSpelled(a.files) && a.budget >= 1 && now < a.expires
  }

  ghost function ProbeObstacle(db: Database, now: int, a: SourceRequest): Option<Refusal> {
    if !WellAsked(a, now) then Some(InvalidRequest)
    else if a.prior !in db.permits || db.permits[a.prior].state != Confirmed || db.permits[a.prior].parent != None
    then Some(ConfirmedSourceRequired)
    else
      var prior := db.permits[a.prior];
      if Closure(db, prior.reservation, prior.scope).Some? then Closure(db, prior.reservation, prior.scope)
      else if prior.quality == None then Some(SourceQualityUnknown)
      else if a.prior in db.handovers && db.handovers[a.prior].pending then Some(HandoverPending)
      else if Probed(db, a.prior) then Some(ProbeAlreadyActive)
      else if ImportBegun(db, prior.reservation, a.prior) then Some(ImportStarted)
      else if Tried(db, prior.reservation, a.infohash) then Some(SourceAlreadyTried)
      else if exists f :: f in a.files && f in prior.files then Some(SourcePathsOverlap)
      else if !AtLeast(a.quality, prior.quality) then Some(QualityDowngrade)
      else if NoRoom(db, now, a.capacity, a.disks, a.budget) then Some(WaitingSpace)
      else if Mentioned(db, a.id) then Some(IdentifierTaken)
      else None
  }

  lemma ProbeAnswers(db: Database, now: int, a: SourceRequest)
    ensures Answers(ProbeObstacle(db, now, a), IssueProbe(db, now, a))
  {
    hide SelectPool, NoRoom, Chosen, HeldBudgets, WithBudget, Closure, RequireReservation, NotWorse, AtLeast,
      FilesWellFormed, WellSpelled;
    SpellingFits(a.files);
    if a.prior in db.permits {
      var prior := db.permits[a.prior];
      WordsFit(db, prior.reservation, a.id, a.infohash, a.capacity);
      ClosureIsRequired(db, prior.reservation, prior.scope);
      ComponentsFit(a.quality, prior.quality);
    }
    ChoiceFits(db, now, a.capacity, a.disks, a.budget);
  }

  lemma ProbeWrites(db: Database, now: int, a: SourceRequest)
    requires IssueProbe(db, now, a).Ok?
    ensures var pool := Chosen(db, now, a.capacity, a.disks, a.budget);
      && pool in a.disks && a.id !in db.permits && a.prior in db.permits
      && var prior, after := db.permits[a.prior], IssueProbe(db, now, a).value;
      && after.permits == db.permits[a.id := Permit(
           a.infohash, Some(a.digest), prior.category, prior.reservation, prior.scope, a.files, a.budget, a.expires,
           Authorized, None, Some(a.prior), a.quality, pool, a.disks[pool].filesystem)]
      && Recharged(db, after, prior.reservation, Sum(HeldBytes(after, prior.reservation)))
  {
    hide IssueProbe, SelectPool, NoRoom, Chosen, HeldBudgets, HeldBytes, HasLiveProbe, SourceTried;
    var row := ProbeChecks(db, now, a);
    ChoiceFits(db, now, a.capacity, a.disks, a.budget);
    var added := db.(permits := db.permits[a.id := row]);
    ChargesAre(added, row.reservation);
    ChargingKeepsBytes(added, row.reservation, added.HeldBytes(row.reservation));
  }

  // ---- `replace_confirmed` ----

  ghost function ReplaceObstacle(db: Database, now: int, a: SourceRequest): Option<Refusal> {
    if !WellAsked(a, now) then Some(InvalidRequest)
    else if a.prior !in db.permits || db.permits[a.prior].state != Confirmed then Some(ConfirmedSourceRequired)
    else
      var prior := db.permits[a.prior];
      if !Paused(a.capacity, prior.infohash) || !HistoryPaused(db, prior.reservation, prior.scope, a.capacity)
      then Some(SourceNotStopped)
      else if !Open(db, prior.reservation) then Some(ReservationRequired)
      else if !RightOwner(prior, db.reservations[prior.reservation].media) then Some(SourceIdentityChanged)
      else if ImportBegun(db, prior.reservation, a.prior) then Some(ImportStarted)
      else if HadTurn(db, prior.reservation, prior.scope, a.infohash) then Some(PriorSource)
      else if RunsElsewhere(db, a.infohash, {}) then Some(SourceAlreadyAdmitted)
      else if NoRoom(db, now, a.capacity, a.disks, a.budget) then Some(WaitingSpace)
      else if Mentioned(db, a.id) then Some(IdentifierTaken)
      else if Taken(db, prior.reservation, prior.scope, {a.prior}) then Some(SlotTaken)
      else None
  }

  lemma HistoryFits(db: Database, r: ReservationId, scope: Scope, capacity: Capacity)
    ensures SupersededHashes(db, r, scope) <= AllPaused(capacity) <==> HistoryPaused(db, r, scope, capacity)
    ensures SupersededHashes(db, r, scope) != {} <==> Replaced(db, r, scope)
  {
    var hashes := SupersededHashes(db, r, scope);
    forall id | id in db.permits && InSlot(db.permits[id], r, scope) && db.permits[id].state == Superseded
      ensures db.permits[id].infohash in hashes { }
    forall h ensures h in AllPaused(capacity) <==> Paused(capacity, h) { }
    hide Paused, AllPaused;
    if HistoryPaused(db, r, scope, capacity) {
      forall h | h in hashes ensures h in AllPaused(capacity) { }
    }
  }

  lemma FreedSlot(db: Database, prior: PermitId, id: PermitId)
    requires prior in db.permits && db.permits[prior].state == Confirmed
    ensures var freed, p := WithState(db, prior, Superseded), db.permits[prior];
      && (freed.Fresh(id) <==> !Mentioned(db, id))
      && (SlotHasPrimary(freed, p.reservation, p.scope) <==> Taken(db, p.reservation, p.scope, {prior}))
  {
    var freed := WithState(db, prior, Superseded);
    forall k | k in db.permits && k != prior ensures freed.permits[k] == db.permits[k] { }
  }

  lemma ReplaceAnswers(db: Database, now: int, a: SourceRequest)
    ensures Answers(ReplaceObstacle(db, now, a), ReplaceConfirmed(db, now, a))
  {
    hide SelectPool, NoRoom, Chosen, LiveBudgets, WithBudget, SupersededHashes, AllPaused, HistoryPaused, Paused,
      SlotHasPrimary, Taken, Mentioned, FilesWellFormed, WellSpelled;
    SpellingFits(a.files);
    if a.prior in db.permits && db.permits[a.prior].state == Confirmed {
      var prior := db.permits[a.prior];
      WordsFit(db, prior.reservation, a.id, prior.infohash, a.capacity);
      HistoryFits(db, prior.reservation, prior.scope, a.capacity);
      FreedSlot(db, a.prior, a.id);
    }
    ChoiceFits(db, now, a.capacity, a.disks, a.budget);
  }

  lemma ReplaceWrites(db: Database, now: int, a: SourceRequest)
    requires ReplaceConfirmed(db, now, a).Ok?
    ensures var pool := Chosen(db, now, a.capacity, a.disks, a.budget);
      && pool in a.disks && a.id !in db.permits && a.prior in db.permits
      && var prior, after := db.permits[a.prior], ReplaceConfirmed(db, now, a).value;
      && after.permits == db.permits[a.prior := prior.(state := Superseded)][a.id := Permit(
           a.infohash, Some(a.digest), prior.category, prior.reservation, prior.scope, a.files, a.budget, a.expires,
           Authorized, None, None, None, pool, a.disks[pool].filesystem)]
      && Recharged(db, after, prior.reservation, Sum(RunningBytes(after, prior.reservation)))
  {
    hide ReplaceConfirmed, SelectPool, NoRoom, Chosen, LiveBudgets, RunningBytes, SlotHasPrimary, SlotHoldsHash;
    var freed, row := ReplaceChecks(db, now, a);
    ChoiceFits(db, now, a.capacity, a.disks, a.budget);
    var added := freed.(permits := freed.permits[a.id := row]);
    ChargesAre(added, row.reservation);
    ChargingKeepsBytes(added, row.reservation, added.LiveBytes(row.reservation));
  }

  // ---- `renew_replacement_authorized` ----

  ghost function RenewObstacle(db: Database, now: int, id: PermitId, capacity: Capacity, expires: int, placed: bool)
    : Option<Refusal>
  {
    if expires <= now then Some(InvalidRequest)
    else if id !in db.permits || db.permits[id].state != Authorized || db.permits[id].budget < 1
    then Some(AuthorizedReplacementRequired)
    else
      var p := db.permits[id];
      if !Replaced(db, p.reservation, p.scope) || !HistoryPaused(db, p.reservation, p.scope, capacity)
      then Some(SourceNotStopped)
      else if !Open(db, p.reservation) then Some(ReservationRequired)
      else if p.pool !in capacity then Some(PoolUnavailable)
      else
        var e := capacity[p.pool];
        var again := if p.expires <= now && p.infohash !in e.remaining then p.budget else 0;
        if !RoomWithin(db, now, e, p.pool, again, e.free) then Some(WaitingSpace)
        else if !placed then Some(PlacementUnavailable)
        else None
  }

  lemma RenewAnswers(db: Database, now: int, id: PermitId, capacity: Capacity, expires: int, placed: bool)
    ensures Answers(RenewObstacle(db, now, id, capacity, expires, placed),
                    Renew(db, now, id, capacity, expires, placed))
  {
    hide PendingBytes, RoomWithin, SupersededHashes, AllPaused, Replaced, HistoryPaused;
    if id in db.permits {
      var p := db.permits[id];
      HistoryFits(db, p.reservation, p.scope, capacity);
      if p.pool in capacity {
        var e := capacity[p.pool];
        RoomIsExact(db, now, e, p.pool, 0, e.free);
        RoomIsExact(db, now, e, p.pool, p.budget, e.free);
      }
    }
  }

  lemma RenewWrites(db: Database, now: int, id: PermitId, capacity: Capacity, expires: int, placed: bool)
    requires Renew(db, now, id, capacity, expires, placed).Ok?
    ensures id in db.permits
    ensures Renew(db, now, id, capacity, expires, placed).value ==
            db.(permits := db.permits[id := db.permits[id].(expires := expires)])
  {
    hide PendingBytes, SupersededHashes, AllPaused;
  }

  // ---- What follows for a caller ----

  /** A pool that took a budget had it free, on both measures, beside what was pending and each unreported source. */
  ghost predicate Fitted(db: Database, now: int, capacity: Capacity, disks: Disks, budget: nat, pool: PoolId) {
    && pool in capacity && pool in disks && disks[pool].filesystem == capacity[pool].filesystem && disks[pool].placed
    && var e, free := capacity[pool], Min(capacity[pool].free, disks[pool].free);
    && budget + e.otherPending + Sum(e.remaining) <= free
    && (forall id | Owes(db, now, pool, id) && db.permits[id].infohash !in e.remaining ::
          budget + e.otherPending + Sum(e.remaining) + db.permits[id].budget <= free)
  }

  lemma RoomyIsFitted(db: Database, now: int, capacity: Capacity, disks: Disks, budget: nat, pool: PoolId)
    requires Roomy(db, now, capacity, disks, budget, pool)
    ensures Fitted(db, now, capacity, disks, budget, pool)
  {
    hide RoomWithin, BudgetsOf;
    var e := capacity[pool];
    NothingChosen(db, now, e, pool, budget, capacity[pool].free);
    NothingChosen(db, now, e, pool, budget, disks[pool].free);
    forall id | Owes(db, now, pool, id) && db.permits[id].infohash !in e.remaining
      ensures budget + e.otherPending + Sum(e.remaining) + db.permits[id].budget <= capacity[pool].free
      ensures budget + e.otherPending + Sum(e.remaining) + db.permits[id].budget <= disks[pool].free
    {
      RoomBesideRow(db, now, e, pool, budget, capacity[pool].free, id);
      RoomBesideRow(db, now, e, pool, budget, disks[pool].free, id);
    }
  }

  lemma NothingChosen(db: Database, now: int, e: PoolEvidence, pool: PoolId, budget: nat, free: nat)
    requires RoomWithin(db, now, e, pool, budget, free)
    ensures budget + e.otherPending + Sum(e.remaining) <= free
  {
    assert Unreported(db, now, e, pool, {});
    assert BudgetsOf(db, {}) == map[];
  }

  /** Whatever admitted the row, its pool had its bytes free. */
  lemma AdmittedBytesWereFree(db: Database, now: int, a: IssueRequest, b: SourceRequest)
    ensures var done := Issue(db, now, a);
      done.Ok? ==> a.id in done.value.permits &&
                   Fitted(db, now, a.capacity, a.disks, a.budget, done.value.permits[a.id].pool)
    ensures var done := IssueProbe(db, now, b);
      done.Ok? ==> b.id in done.value.permits &&
                   Fitted(db, now, b.capacity, b.disks, b.budget, done.value.permits[b.id].pool)
    ensures var done := ReplaceConfirmed(db, now, b);
      done.Ok? ==> b.id in done.value.permits &&
                   Fitted(db, now, b.capacity, b.disks, b.budget, done.value.permits[b.id].pool)
  {
    hide Issue, IssueProbe, ReplaceConfirmed, Fitted, Recharged, Roomy;
    if Issue(db, now, a).Ok? {
      IssueAnswers(db, now, a);
      IssueWrites(db, now, a);
      RoomyIsFitted(db, now, a.capacity, a.disks, a.budget, Chosen(db, now, a.capacity, a.disks, a.budget));
    }
    if IssueProbe(db, now, b).Ok? {
      ProbeAnswers(db, now, b);
      ProbeWrites(db, now, b);
      RoomyIsFitted(db, now, b.capacity, b.disks, b.budget, Chosen(db, now, b.capacity, b.disks, b.budget));
    }
    if ReplaceConfirmed(db, now, b).Ok? {
      ReplaceAnswers(db, now, b);
      ReplaceWrites(db, now, b);
      RoomyIsFitted(db, now, b.capacity, b.disks, b.budget, Chosen(db, now, b.capacity, b.disks, b.budget));
    }
  }

  /** Every source that may still come to the pool is in its queue. */
  ghost predicate AllReported(db: Database, now: int, capacity: Capacity, pool: PoolId) {
    pool in capacity ==> forall id | Owes(db, now, pool, id) :: db.permits[id].infohash in capacity[pool].remaining
  }

  /** Three numbers fit on a measured, unchanged and placed disk. */
  ghost predicate PlainFit(capacity: Capacity, disks: Disks, budget: nat, pool: PoolId) {
    && pool in capacity && pool in disks && disks[pool].filesystem == capacity[pool].filesystem && disks[pool].placed
    && budget + capacity[pool].otherPending + Sum(capacity[pool].remaining) <= capacity[pool].free
    && budget + capacity[pool].otherPending + Sum(capacity[pool].remaining) <= disks[pool].free
  }

  lemma PlainRoom(db: Database, now: int, capacity: Capacity, disks: Disks, budget: nat, pool: PoolId)
    requires AllReported(db, now, capacity, pool)
    ensures Roomy(db, now, capacity, disks, budget, pool) <==> PlainFit(capacity, disks, budget, pool)
  {
    hide Owes, RoomWithin;
    if pool in capacity && pool in disks {
      RoomWithoutRows(db, now, capacity[pool], pool, budget, capacity[pool].free);
      RoomWithoutRows(db, now, capacity[pool], pool, budget, disks[pool].free);
    }
  }

  /** Where all sources are reported, a request stopped by nothing earlier waits exactly when neither disk fits. */
  lemma SpaceIsTheReasonExactly(db: Database, now: int, a: IssueRequest)
    requires AllReported(db, now, a.capacity, Ssd) && AllReported(db, now, a.capacity, Hdd)
    requires a.budget >= 1 && Open(db, a.reservation)
    requires a.scope == WholeItem || (a.scope != OtherScope("") && a.category == Sonarr &&
                                      db.reservations[a.reservation].media.SeasonMedia?)
    ensures Issue(db, now, a) == Refused(WaitingSpace) <==>
      !PlainFit(a.capacity, a.disks, a.budget, Ssd) && !PlainFit(a.capacity, a.disks, a.budget, Hdd)
    ensures var done := Issue(db, now, a);
      done.Ok? ==> a.id in done.value.permits &&
                   (done.value.permits[a.id].pool == Ssd <==> PlainFit(a.capacity, a.disks, a.budget, Ssd))
  {
    hide Issue, Roomy, PlainFit, AllReported, Recharged, Replaced, BoundByPack, Mentioned, Taken;
    IssueAnswers(db, now, a);
    PlainRoom(db, now, a.capacity, a.disks, a.budget, Ssd);
    PlainRoom(db, now, a.capacity, a.disks, a.budget, Hdd);
    if Issue(db, now, a).Ok? { IssueWrites(db, now, a); }
  }

  /** A source is replaced only once it and every earlier source of its slot are paused. */
  lemma ReplacedSourcesArePaused(db: Database, now: int, a: SourceRequest)
    requires ReplaceConfirmed(db, now, a).Ok?
    ensures a.prior in db.permits && Paused(a.capacity, db.permits[a.prior].infohash)
    ensures forall id | id in db.permits && db.permits[id].state == Superseded &&
        InSlot(db.permits[id], db.permits[a.prior].reservation, db.permits[a.prior].scope) ::
      Paused(a.capacity, db.permits[id].infohash)
  {
    hide ReplaceConfirmed, Paused, NoRoom, WellAsked;
    ReplaceAnswers(db, now, a);
  }

  /** One that is not paused stops a replacement that was asked for correctly. */
  lemma RunningSourceIsNotReplaced(db: Database, now: int, a: SourceRequest, id: PermitId)
    requires WellAsked(a, now) && a.prior in db.permits && db.permits[a.prior].state == Confirmed
    requires id in db.permits && !Paused(a.capacity, db.permits[id].infohash)
    requires id == a.prior || (db.permits[id].state == Superseded &&
               InSlot(db.permits[id], db.permits[a.prior].reservation, db.permits[a.prior].scope))
    ensures ReplaceConfirmed(db, now, a) == Refused(SourceNotStopped)
  {
    hide ReplaceConfirmed, Paused, NoRoom, WellAsked;
    ReplaceAnswers(db, now, a);
  }

  /** The same holds of the sources a renewed replacement took over from, of which there is one. */
  lemma RenewedSourcesArePaused(db: Database, now: int, id: PermitId, capacity: Capacity, expires: int, placed: bool)
    requires id in db.permits && db.permits[id].state == Authorized && db.permits[id].budget >= 1 && now < expires
    ensures var p := db.permits[id];
      Renew(db, now, id, capacity, expires, placed) == Refused(SourceNotStopped) <==>
        !Replaced(db, p.reservation, p.scope) ||
        exists k :: k in db.permits && InSlot(db.permits[k], p.reservation, p.scope) &&
                    db.permits[k].state == Superseded && !Paused(capacity, db.permits[k].infohash)
  {
    hide Renew, Paused, RoomWithin, Replaced;
    RenewAnswers(db, now, id, capacity, expires, placed);
  }

  /** Of two ranked sources a probe is at least as good in both leading components, and a worse one is no probe. */
  lemma ProbeIsNoDowngrade(db: Database, now: int, a: SourceRequest)
    requires a.prior in db.permits && db.permits[a.prior].quality.Some? && a.quality.Some?
    requires |db.permits[a.prior].quality.value| >= 2 && |a.quality.value| >= 2
    ensures var current, rank := db.permits[a.prior].quality.value, a.quality.value;
      && (IssueProbe(db, now, a).Ok? ==> current[0] <= rank[0] && current[1] <= rank[1])
      && (IssueProbe(db, now, a) == Refused(QualityDowngrade) ==> rank[0] < current[0] || rank[1] < current[1])
      && ((rank[0] < current[0] || rank[1] < current[1]) &&
          ProbeObstacle(db, now, a.(quality := Some(current))).None? ==>
            IssueProbe(db, now, a) == Refused(QualityDowngrade))
  {
    hide IssueProbe, NoRoom, Probed, Tried, ImportBegun, WellSpelled, Mentioned;
    ProbeAnswers(db, now, a);
  }
}
