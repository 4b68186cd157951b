/**
 What each `BEGIN IMMEDIATE ... commit` does to the tables, as one atomic step.
 A refused transaction names the check that raised; it leaves no trace.
 */
module Transactions {
  import opened Options
  import opened Tables

  datatype Refusal =
    | InvalidRequest | PermitRequired | ReservationRequired | MediaTombstoned | InvalidEpisodePermit
    | WaitingSpace | PoolUnavailable | PlacementUnavailable | ReplacementLimit | EpisodeAlreadyPermitted
    | IdentifierTaken | SlotTaken | ConfirmedSourceRequired | SourceQualityUnknown | HandoverPending
    | ProbeAlreadyActive | ImportStarted | SourceAlreadyTried | SourcePathsOverlap | QualityDowngrade
    | SourceNotStopped | SourceIdentityChanged | PriorSource | SourceAlreadyAdmitted
    | AuthorizedReplacementRequired | InvalidBindings | PackOfAnotherSeason | BindingsFixed | PackAlreadyBound
    | UnusedPackRequired | ConfirmedEpisodeSourceRequired | QualityRegression | SourceCapacityUnavailable
    | PausedIncompleteRequired | SourceProtected | SourceTransitionPending | HistoricalSourceNotStopped
    | TorrentAlreadyPermitted | ConfirmedProbeRequired | PrimarySourceChanged | HandoverExists | ProbeRequired
    | NotAuthorized | PermitExpired | PayloadMismatch | MetadataMissing | MetadataMismatch
    | PackIdentityChanged | PackBindingsRequired | PermitStateChanged | ReconcilableSourceRequired
    | ReplacementPermitRequired | ActiveSourceReservationRequired | ConfirmedResultMismatch
    | NotFound | AlreadyCancelled | NotCancellable | MediaDeleted | AlreadyReserved | ImportPending | ImportClaimed

  datatype Result<+T> = Ok(value: T) | Refused(why: Refusal) {
    predicate IsFailure() { Refused? }
    function PropagateFailure<U>(): Result<U> requires Refused? { Refused(why) }
    function Extract(): T requires Ok? { value }
  }

  datatype Check = Pass | Fail(why: Refusal) {
    predicate IsFailure() { Fail? }
    function PropagateFailure<U>(): Result<U> requires Fail? { Refused(why) }
  }

  function Need(condition: bool, why: Refusal): Check {
    if condition then Pass else Fail(why)
  }

  // ---- Shared pieces ----

  function WithState(db: Database, id: PermitId, s: State): Database
    requires id in db.permits
  {
    db.(permits := db.permits[id := db.permits[id].(state := s)])
  }

  function WithBudget(db: Database, r: ReservationId, budget: nat): Database {
    if r in db.reservations then
      db.(reservations := db.reservations[r := db.reservations[r].(budget := budget)])
    else db
  }

  predicate SlotHasSuperseded(db: Database, r: ReservationId, scope: Scope) {
    exists id :: id in db.permits && db.permits[id].reservation == r && db.permits[id].scope == scope &&
      db.permits[id].state == Superseded
  }

  predicate SlotHasPrimary(db: Database, r: ReservationId, scope: Scope) {
    exists id :: id in db.permits && db.permits[id].reservation == r && db.permits[id].scope == scope &&
      db.permits[id].Primary()
  }

  /** Does a live season pack of the reservation bind the scope? */
  predicate SlotIsBound(db: Database, r: ReservationId, scope: Scope) {
    exists id :: id in db.permits && db.permits[id].reservation == r && db.ServesByBinding(id, scope)
  }

  predicate HasLiveProbe(db: Database, id: PermitId) {
    exists n :: n in db.permits && db.permits[n].parent == Some(id) && db.permits[n].Live()
  }

  predicate HashLiveElsewhere(db: Database, h: InfoHash, except: set<PermitId>) {
    exists id :: id in db.permits && id !in except && db.permits[id].infohash == h && db.permits[id].Live()
  }

  /** Has the torrent a row of the reservation, or a live row anywhere? */
  predicate SourceTried(db: Database, r: ReservationId, h: InfoHash) {
    exists id :: id in db.permits && db.permits[id].infohash == h &&
      (db.permits[id].reservation == r || db.permits[id].Live())
  }

  predicate SlotHoldsHash(db: Database, slot: Permit, h: InfoHash) {
    exists id :: id in db.permits && db.permits[id].SameSlot(slot) && db.permits[id].infohash == h
  }

  predicate FilesWellFormed(files: seq<string>) {
    && files != []
    && (forall i, j :: 0 <= i < j < |files| ==> files[i] != files[j])
    && (forall i :: 0 <= i < |files| ==> files[i] != "")
  }

  /** Neither of the two leading quality components gets worse. */
  predicate NotWorse(candidate: seq<int>, current: seq<int>) {
    |candidate| >= 2 && |current| >= 2 && candidate[0] >= current[0] && candidate[1] >= current[1]
  }

  predicate RankBelow(a: seq<int>, b: seq<int>) {
    if b == [] then false
    else if a == [] then true
    else a[0] < b[0] || (a[0] == b[0] && RankBelow(a[1..], b[1..]))
  }

  /** `_require_probe_reservation` for a source of the given reservation and scope. */
  predicate EpisodeTombstoned(db: Database, media: MediaKey, scope: Scope) {
    media.SeasonMedia? && scope.Episode? && EpisodeMedia(media.tmdb, scope) in db.tombstones
  }

  function RequireReservation(db: Database, r: ReservationId, scope: Scope): Check {
    if !db.Active(r) || db.reservations[r].request !in db.requests ||
       db.requests[db.reservations[r].request] in {CancelRequested, CancelledRequest}
    then Fail(ReservationRequired)
    else Need(
      db.reservations[r].media !in db.tombstones && !EpisodeTombstoned(db, db.reservations[r].media, scope),
      MediaTombstoned)
  }

  /** The Arr that owns the source and the kind of media it was reserved for agree. */
  predicate IdentityFits(p: Permit, media: MediaKey) {
    if p.scope == WholeItem then p.category == Radarr && media.MovieMedia?
    else p.category == Sonarr && media.SeasonMedia?
  }

  // ---- Choosing a pool ----

  /** What the worker sees of a pool's disk; `placed` tells whether its directory could be prepared. */
  datatype Sample = Sample(filesystem: FilesystemId, free: nat, placed: bool)

  type Disks = map<PoolId, Sample>

  function Min(a: int, b: int): int { if a < b then a else b }

  ghost predicate PoolFits(db: Database, now: int, capacity: Capacity, disks: Disks, budget: nat, pool: PoolId) {
    && pool in capacity && pool in disks
    && disks[pool].filesystem == capacity[pool].filesystem
    && budget + PendingBytes(db, capacity[pool], pool, now) <= Min(capacity[pool].free, disks[pool].free)
    && disks[pool].placed
  }

  ghost function SelectPool(db: Database, now: int, capacity: Capacity, disks: Disks, budget: nat): Result<PoolId> {
    if PoolFits(db, now, capacity, disks, budget, Ssd) then Ok(Ssd)
    else if PoolFits(db, now, capacity, disks, budget, Hdd) then Ok(Hdd)
    else Refused(WaitingSpace)
  }

  function AllPaused(capacity: Capacity): set<InfoHash> {
    set pool, h | pool in capacity && h in capacity[pool].paused :: h
  }

  function SupersededHashes(db: Database, r: ReservationId, scope: Scope): set<InfoHash> {
    set id | id in db.permits && db.permits[id].reservation == r && db.permits[id].scope == scope &&
      db.permits[id].state == Superseded :: db.permits[id].infohash
  }

  // ---- Admission ----

  datatype IssueRequest = IssueRequest(
    id: PermitId, infohash: InfoHash, digest: Option<Digest>, category: Category, reservation: ReservationId,
    scope: Scope, files: seq<string>, budget: nat, expires: int, capacity: Capacity, disks: Disks)

  function IssuedRow(a: IssueRequest, pool: PoolId): Permit
    requires pool in a.disks
  {
    Permit(a.infohash, a.digest, a.category, a.reservation, a.scope, a.files, a.budget, a.expires,
      Authorized, None, None, None, pool, a.disks[pool].filesystem)
  }

  ghost function Issue(db: Database, now: int, a: IssueRequest): Result<Database> {
    if a.budget == 0 then Refused(InvalidRequest) else
    :- Need(db.Active(a.reservation), ReservationRequired);
    :- Need(a.scope == WholeItem || (a.scope != OtherScope("") && a.category == Sonarr &&
              db.reservations[a.reservation].media.SeasonMedia?), InvalidEpisodePermit);
    var pool :- SelectPool(db, now, a.capacity, a.disks, a.budget);
    :- Need(!SlotHasSuperseded(db, a.reservation, a.scope), ReplacementLimit);
    :- Need(a.scope == WholeItem || !SlotIsBound(db, a.reservation, a.scope), EpisodeAlreadyPermitted);
    :- Need(db.Fresh(a.id), IdentifierTaken);
    :- Need(!SlotHasPrimary(db, a.reservation, a.scope), SlotTaken);
    var added := db.(permits := db.permits[a.id := IssuedRow(a, pool)]);
    Ok(WithBudget(added, a.reservation, a.budget + db.LiveBytes(a.reservation)))
  }

  datatype SourceRequest = SourceRequest(
    prior: PermitId, id: PermitId, infohash: InfoHash, digest: Digest, files: seq<string>, budget: nat,
    expires: int, quality: Option<seq<int>>, capacity: Capacity, disks: Disks)
  {
    predicate WellFormed(now: int) {
      FilesWellFormed(files) && budget > 0 && expires > now
    }
  }

  function SourceRow(prior: Permit, a: SourceRequest, pool: PoolId, parent: Option<PermitId>): Permit
    requires pool in a.disks
  {
    prior.(infohash := a.infohash, digest := Some(a.digest), files := a.files, budget := a.budget,
      expires := a.expires, state := Authorized, reply := None, parent := parent,
      quality := if parent.Some? then a.quality else None,
      pool := pool, filesystem := a.disks[pool].filesystem)
  }

  ghost function IssueProbe(db: Database, now: int, a: SourceRequest): Result<Database> {
    if !a.WellFormed(now) then Refused(InvalidRequest) else
    :- Need(a.prior in db.permits && db.permits[a.prior].state == Confirmed && db.permits[a.prior].parent.None?,
        ConfirmedSourceRequired);
    var prior := db.permits[a.prior];
    :- RequireReservation(db, prior.reservation, prior.scope);
    :- Need(prior.quality.Some?, SourceQualityUnknown);
    :- Need(!(a.prior in db.handovers && db.handovers[a.prior].pending), HandoverPending);
    :- Need(!HasLiveProbe(db, a.prior), ProbeAlreadyActive);
    :- Need(prior.reservation !in db.movieImports && OfPermit(a.prior) !in db.episodeImports, ImportStarted);
    :- Need(!SourceTried(db, prior.reservation, a.infohash), SourceAlreadyTried);
    :- Need(!(exists f :: f in a.files && f in prior.files), SourcePathsOverlap);
    :- Need(a.quality.Some? && NotWorse(a.quality.value, prior.quality.value), QualityDowngrade);
    var pool :- SelectPool(db, now, a.capacity, a.disks, a.budget);
    :- Need(db.Fresh(a.id), IdentifierTaken);
    var added := db.(permits := db.permits[a.id := SourceRow(prior, a, pool, Some(a.prior))]);
    Ok(WithBudget(added, prior.reservation, added.HeldBytes(prior.reservation)))
  }

  ghost function ReplaceConfirmed(db: Database, now: int, a: SourceRequest): Result<Database> {
    if !a.WellFormed(now) then Refused(InvalidRequest) else
    :- Need(a.prior in db.permits && db.permits[a.prior].state == Confirmed, ConfirmedSourceRequired);
    var prior := db.permits[a.prior];
    :- Need({prior.infohash} + SupersededHashes(db, prior.reservation, prior.scope) <= AllPaused(a.capacity),
        SourceNotStopped);
    :- Need(db.Active(prior.reservation), ReservationRequired);
    :- Need(IdentityFits(prior, db.reservations[prior.reservation].media), SourceIdentityChanged);
    :- Need(prior.reservation !in db.movieImports && OfPermit(a.prior) !in db.episodeImports, ImportStarted);
    :- Need(!SlotHoldsHash(db, prior, a.infohash), PriorSource);
    :- Need(!HashLiveElsewhere(db, a.infohash, {}), SourceAlreadyAdmitted);
    var pool :- SelectPool(db, now, a.capacity, a.disks, a.budget);
    var freed := WithState(db, a.prior, Superseded);
    :- Need(freed.Fresh(a.id), IdentifierTaken);
    :- Need(!SlotHasPrimary(freed, prior.reservation, prior.scope), SlotTaken);
    var added := freed.(permits := freed.permits[a.id := SourceRow(prior, a, pool, None)]);
    Ok(WithBudget(added, prior.reservation, added.LiveBytes(prior.reservation)))
  }

  ghost function Renew(db: Database, now: int, id: PermitId, capacity: Capacity, expires: int, placed: bool)
    : Result<Database>
  {
    if expires <= now then Refused(InvalidRequest) else
    :- Need(id in db.permits && db.permits[id].state == Authorized && db.permits[id].budget > 0,
        AuthorizedReplacementRequired);
    var p := db.permits[id];
    var stopped := SupersededHashes(db, p.reservation, p.scope);
    :- Need(stopped != {} && stopped <= AllPaused(capacity), SourceNotStopped);
    :- Need(db.Active(p.reservation), ReservationRequired);
    :- Need(p.pool in capacity, PoolUnavailable);
    var e := capacity[p.pool];
    var again := if p.expires <= now && p.infohash !in e.remaining then p.budget else 0;
    :- Need(PendingBytes(db, e, p.pool, now) + again <= e.free, WaitingSpace);
    :- Need(placed, PlacementUnavailable);
    Ok(db.(permits := db.permits[id := p.(expires := expires)]))
  }

  // ---- Season packs ----

  /** `named` and `placed` carry the outcome of the file-name patterns and of the placement inspection. */
  datatype BindRequest = BindRequest(
    id: PermitId, episodes: map<Scope, seq<string>>, replaced: seq<PermitId>, capacity: Capacity,
    placed: set<PermitId>, named: bool, protected: set<InfoHash>, undecided: set<PermitId>)

  predicate EpisodeFits(p: Permit, scope: Scope, files: seq<string>) {
    && p.scope.Pack? && scope.Episode? && scope.season == p.scope.season && scope.number > 0
    && files != []
    && (forall i, j :: 0 <= i < j < |files| ==> files[i] != files[j])
    && (forall f :: f in files ==> f in p.files)
  }

  predicate BindingsFit(p: Permit, episodes: map<Scope, seq<string>>, placed: bool, named: bool) {
    && p.scope.Pack? && p.category == Sonarr && p.parent.None? && p.digest.Some? && placed && p.Live()
    && episodes != map[]
    && (forall s :: s in episodes ==> EpisodeFits(p, s, episodes[s]))
    && named
  }

  predicate PackOfSeason(p: Permit, media: MediaKey) {
    media.SeasonMedia? && media.tmdb > 0 && media.season > 0 && p.scope == Pack(media.season)
  }

  function ReplacedFits(db: Database, a: BindRequest, t: PermitId): Check
    requires a.id in db.permits
  {
    var pack := db.permits[a.id];
    if !(t in db.permits && db.permits[t].state == Confirmed && db.permits[t].parent.None? &&
         db.permits[t].reservation == pack.reservation && db.permits[t].scope in a.episodes &&
         db.permits[t].category == Sonarr && db.permits[t].infohash != pack.infohash && t in a.placed &&
         (t in db.bindings ==> db.bindings[t] == map[]))
    then Fail(ConfirmedEpisodeSourceRequired)
    else
      var prior := db.permits[t];
      if prior.quality.Some? && !(pack.quality.Some? && !RankBelow(pack.quality.value, prior.quality.value) &&
                                NotWorse(pack.quality.value, prior.quality.value))
      then Fail(QualityRegression)
      else if RequireReservation(db, prior.reservation, prior.scope).Fail?
      then RequireReservation(db, prior.reservation, prior.scope)
      else if prior.pool !in a.capacity then Fail(SourceCapacityUnavailable)
      else if !(prior.infohash in a.capacity[prior.pool].paused && prior.infohash in a.capacity[prior.pool].remaining &&
                a.capacity[prior.pool].remaining[prior.infohash] > 0)
      then Fail(PausedIncompleteRequired)
      else if a.capacity[prior.pool].filesystem != prior.filesystem then Fail(SourceCapacityUnavailable)
      else if OfPermit(t) in db.episodeImports then Fail(ImportStarted)
      else if prior.infohash in a.protected then Fail(SourceProtected)
      else Need(
        !HasLiveProbe(db, t) && !db.HandingOver(t) && !(t in db.handovers && db.handovers[t].pending) &&
        t !in a.undecided, SourceTransitionPending)
  }

  ghost function AllReplacedFit(db: Database, a: BindRequest, tokens: seq<PermitId>): Check
    requires a.id in db.permits
  {
    if tokens == [] then Pass
    else if ReplacedFits(db, a, tokens[0]).Fail? then ReplacedFits(db, a, tokens[0])
    else AllReplacedFit(db, a, tokens[1..])
  }

  predicate ServesSome(db: Database, id: PermitId, r: ReservationId, episodes: map<Scope, seq<string>>) {
    && id in db.permits && db.permits[id].reservation == r
    && (db.permits[id].scope in episodes ||
        (id in db.bindings && exists s :: s in db.bindings[id] && s in episodes))
  }

  /** The queue shows the torrent stopped, or shows it has nothing left to fetch. */
  predicate ProvedStopped(p: Permit, capacity: Capacity) {
    && p.pool in capacity && capacity[p.pool].filesystem == p.filesystem
    && (p.infohash in capacity[p.pool].paused ||
        (p.infohash in capacity[p.pool].remaining && capacity[p.pool].remaining[p.infohash] == 0))
  }

  ghost predicate HistoryStopped(db: Database, a: BindRequest, r: ReservationId) {
    forall id :: ServesSome(db, id, r, a.episodes) && db.permits[id].state in {Superseded, ProbeRejected}
      ==> ProvedStopped(db.permits[id], a.capacity)
  }

  ghost function ReplacementsFit(db: Database, now: int, a: BindRequest): Check
    requires a.id in db.permits
  {
    var pack := db.permits[a.id];
    if !(pack.state == Authorized && pack.expires > now && pack.reply.None? && pack.budget > 0)
    then Fail(UnusedPackRequired)
    else if RequireReservation(db, pack.reservation, pack.scope).Fail?
    then RequireReservation(db, pack.reservation, pack.scope)
    else if exists s :: s in a.episodes && EpisodeTombstoned(db, db.reservations[pack.reservation].media, s)
    then Fail(MediaTombstoned)
    else if AllReplacedFit(db, a, a.replaced).Fail? then AllReplacedFit(db, a, a.replaced)
    else if !HistoryStopped(db, a, pack.reservation) then Fail(HistoricalSourceNotStopped)
    else if !(pack.pool in a.capacity && a.capacity[pack.pool].filesystem == pack.filesystem)
    then Fail(PoolUnavailable)
    else Need(PendingBytes(db, a.capacity[pack.pool], pack.pool, now) <= a.capacity[pack.pool].free, WaitingSpace)
  }

  function SupersedeAll(permits: map<PermitId, Permit>, ids: seq<PermitId>): map<PermitId, Permit> {
    map id | id in permits ::
      if id in ids && permits[id].state == Confirmed then permits[id].(state := Superseded) else permits[id]
  }

  ghost function BindSeasonPack(db: Database, now: int, a: BindRequest): Result<Database> {
    if exists i, j :: 0 <= i < j < |a.replaced| && a.replaced[i] == a.replaced[j] then Refused(InvalidRequest) else
    :- Need(a.id in db.permits, PermitRequired);
    var pack := db.permits[a.id];
    :- Need(BindingsFit(pack, a.episodes, a.id in a.placed, a.named), InvalidBindings);
    :- Need(db.Active(pack.reservation), ReservationRequired);
    :- Need(PackOfSeason(pack, db.reservations[pack.reservation].media), PackOfAnotherSeason);
    var previous := if a.id in db.bindings then db.bindings[a.id] else map[];
    :- Need(previous == map[] || previous == a.episodes, BindingsFixed);
    :- Need(a.replaced == [] || previous == map[], PackAlreadyBound);
    :- if a.replaced == [] then Pass else ReplacementsFit(db, now, a);
    :- Need(forall o :: o != a.id && ServesSome(db, o, pack.reservation, a.episodes) &&
              db.permits[o].Live() ==> o in a.replaced,
        EpisodeAlreadyPermitted);
    :- Need(!HashLiveElsewhere(db, pack.infohash, {a.id}), TorrentAlreadyPermitted);
    var bound := db.(permits := SupersedeAll(db.permits, a.replaced), bindings := db.bindings[a.id := a.episodes]);
    Ok(if a.replaced == [] then bound
       else WithBudget(bound, pack.reservation, bound.HeldBytes(pack.reservation)))
  }

  // ---- Probes and handovers ----

  ghost function PromoteProbe(db: Database, id: PermitId): Result<Database> {
    if !(id in db.permits && db.permits[id].state == Confirmed && db.permits[id].parent.Some?)
    then Refused(ConfirmedProbeRequired) else
    var p := db.permits[id];
    var parent := p.parent.value;
    :- RequireReservation(db, p.reservation, p.scope);
    :- Need(p.reservation !in db.movieImports && OfPermit(parent) !in db.episodeImports, ImportStarted);
    :- Need(parent in db.permits && db.permits[parent].state == Confirmed && db.permits[parent].parent.None?,
        PrimarySourceChanged);
    :- Need(id !in db.handovers, HandoverExists);
    var stepped := WithState(db, parent, Superseded)
      .(handovers := db.handovers[id := Handover(parent, true)]);
    :- Need(!SlotHasPrimary(stepped, p.reservation, p.scope), SlotTaken);
    var promoted := stepped.(permits := stepped.permits[id := p.(parent := None)]);
    Ok(WithBudget(promoted, p.reservation, promoted.HeldBytes(p.reservation)))
  }

  ghost function RejectProbe(db: Database, id: PermitId): Result<Database> {
    if !(id in db.permits && db.permits[id].parent.Some?) then Refused(ProbeRequired) else
    var rejected := WithState(db, id, ProbeRejected);
    Ok(WithBudget(rejected, db.permits[id].reservation, rejected.HeldBytes(db.permits[id].reservation)))
  }

  ghost function CompleteHandover(db: Database, id: PermitId): Result<Database> {
    if id !in db.permits then Ok(db)
    else
      var done := if id in db.handovers
        then db.(handovers := db.handovers[id := db.handovers[id].(pending := false)]) else db;
      Ok(WithBudget(done, db.permits[id].reservation, done.HeldBytes(db.permits[id].reservation)))
  }

  // ---- Releasing unused admissions ----

  ghost function CancelAuthorized(db: Database, id: PermitId): Result<Database> {
    if !(id in db.permits && db.permits[id].state == Authorized) then Refused(NotAuthorized) else
    var removed := db.(permits := db.permits - {id}, bindings := db.bindings - {id});
    Ok(WithBudget(removed, db.permits[id].reservation, removed.LiveBytes(db.permits[id].reservation)))
  }

  function ExpiredRows(db: Database, r: ReservationId, scope: Scope, now: int): set<PermitId> {
    set id | id in db.permits && db.permits[id].reservation == r && db.permits[id].scope == scope &&
      db.permits[id].state == Authorized && db.permits[id].expires <= now
  }

  ghost function RetireExpired(db: Database, now: int, r: ReservationId, scope: Scope): Result<Database> {
    var expired := ExpiredRows(db, r, scope, now);
    if expired == {} then Ok(db)
    else
      var removed := db.(permits := db.permits - expired);
      Ok(WithBudget(removed, r, removed.LiveBytes(r)))
  }

  // ---- Dispatch ----

  datatype Payload = Payload(infohash: InfoHash, destination: PermitId, digest: Option<Digest>)

  function ValidatePayload(p: Permit, id: PermitId, now: int, a: Payload): Check {
    if now >= p.expires then Fail(PermitExpired)
    else if p.infohash != a.infohash || a.destination != id then Fail(PayloadMismatch)
    else if a.digest.Some? && p.digest.None? then Fail(MetadataMissing)
    else Need(p.digest.None? || p.digest == a.digest, MetadataMismatch)
  }

  ghost function RequirePack(db: Database, id: PermitId, p: Permit, placed: bool, named: bool): Check {
    if RequireReservation(db, p.reservation, p.scope).Fail? then RequireReservation(db, p.reservation, p.scope)
    else
      var media := db.reservations[p.reservation].media;
      if !(PackOfSeason(p, media) && p.category == Sonarr) then Fail(PackIdentityChanged)
      else if !(id in db.bindings && db.bindings[id] != map[]) then Fail(PackBindingsRequired)
      else if !BindingsFit(p, db.bindings[id], placed, named) then Fail(InvalidBindings)
      else Need(!(exists n: nat :: EpisodeMedia(media.tmdb, Episode(media.season, n)) in db.tombstones),
        MediaTombstoned)
  }

  /** The checks `authorize` makes for a probe or a pack, before dispatching and again around the effect. */
  ghost function Guard(db: Database, id: PermitId, p: Permit, placed: bool, named: bool): Check {
    if p.scope.Pack? then RequirePack(db, id, p, placed, named)
    else if p.parent.Some? then RequireReservation(db, p.reservation, p.scope)
    else Pass
  }

  /** None starts a dispatch; a reply is what an earlier one stored. */
  ghost function BeginOutcome(db: Database, now: int, id: PermitId, a: Payload, placed: bool, named: bool)
    : Result<Option<Reply>>
  {
    if id !in db.permits then Refused(PermitRequired) else
    var p := db.permits[id];
    :- ValidatePayload(p, id, now, a);
    :- if p.parent.Some? then RequireReservation(db, p.reservation, p.scope) else Pass;
    :- if p.scope.Pack? then RequirePack(db, id, p, placed, named) else Pass;
    if p.state == Confirmed && p.reply.Some? then Ok(p.reply)
    else if p.state != Authorized then Refused(NotAuthorized)
    else Ok(None)
  }

  ghost function Begin(db: Database, now: int, id: PermitId, a: Payload, placed: bool, named: bool): Result<Database> {
    var outcome :- BeginOutcome(db, now, id, a, placed, named);
    if outcome.Some? || id !in db.permits then Ok(db) else Ok(WithState(db, id, Dispatching))
  }

  function Record(db: Database, id: PermitId, reply: Reply): Result<Database> {
    if id in db.permits && db.permits[id].state == Dispatching then
      Ok(db.(permits := db.permits[id := db.permits[id].(state := Confirmed, reply := Some(reply))]))
    else if id in db.permits && db.permits[id].state == Confirmed && db.permits[id].reply.Some? then Ok(db)
    else Refused(PermitStateChanged)
  }

  function MarkUnknown(db: Database, id: PermitId): Result<Database> {
    if id in db.permits && db.permits[id].state == Dispatching then Ok(WithState(db, id, Unknown)) else Ok(db)
  }

  ghost function Reconcile(db: Database, id: PermitId): Result<Database> {
    if !(id in db.permits && db.permits[id].Live()) then Refused(ReconcilableSourceRequired) else
    var p := db.permits[id];
    :- Need(!(p.state == Authorized && p.parent.None?) || SlotHasSuperseded(db, p.reservation, p.scope),
        ReplacementPermitRequired);
    :- Need(db.Active(p.reservation) && IdentityFits(p, db.reservations[p.reservation].media),
        ActiveSourceReservationRequired);
    if p.state == Confirmed then
      :- Need(p.reply == Some(Accepted(p.infohash)), ConfirmedResultMismatch);
      Ok(db)
    else
      Ok(db.(permits := db.permits[id := p.(state := Confirmed, reply := Some(Accepted(p.infohash)))]))
  }

  function SetQuality(db: Database, id: PermitId, rank: seq<int>): Result<Database> {
    if |rank| < 2 then Refused(InvalidRequest)
    else if id in db.permits then Ok(db.(permits := db.permits[id := db.permits[id].(quality := Some(rank))]))
    else Ok(db)
  }

  // ---- Reservations, cancellation and tombstones ----

  ghost function Reserve(db: Database, id: ReservationId, request: RequestId, media: MediaKey): Result<Database> {
    if media in db.tombstones then Refused(MediaDeleted) else
    :- Need(!(exists r :: r in db.reservations &&
              (db.reservations[r].request == request || db.reservations[r].media == media)), AlreadyReserved);
    :- Need(id !in db.reservations && (forall p :: p in db.permits ==> db.permits[p].reservation != id),
        IdentifierTaken);
    Ok(db.(requests := db.requests[request := ReservedRequest],
           reservations := db.reservations[id := Reservation(request, media, Reserved, 0)]))
  }

  ghost function NormalizeBudgets(db: Database): Result<Database> {
    Ok(db.(reservations := map r | r in db.reservations ::
      if db.reservations[r].Active() then db.reservations[r].(budget := db.LiveBytes(r)) else db.reservations[r]))
  }

  predicate DownloadStarted(db: Database, r: ReservationId) {
    exists id :: id in db.permits && db.permits[id].reservation == r && db.permits[id].state !in {Authorized, Revoked}
  }

  function RevokeAuthorized(permits: map<PermitId, Permit>, r: ReservationId): map<PermitId, Permit> {
    map id | id in permits ::
      if permits[id].reservation == r && permits[id].state == Authorized then permits[id].(state := Revoked)
      else permits[id]
  }

  ghost function CancelUnstarted(db: Database, r: ReservationId): Result<Database> {
    if r !in db.reservations then Refused(NotFound) else
    var reservation := db.reservations[r];
    :- Need(reservation.state != CancelledReservation, AlreadyCancelled);
    :- Need(reservation.state in {Reserved, Downloading}, NotCancellable);
    if DownloadStarted(db, r) then
      Ok(db.(requests := db.requests[reservation.request := CancelRequested]))
    else
      Ok(db.(permits := RevokeAuthorized(db.permits, r),
             reservations := db.reservations[r := reservation.(state := CancelledReservation)],
             requests := db.requests[reservation.request := CancelledRequest]))
  }

  function Tombstone(db: Database, key: MediaKey): Result<Database> {
    Ok(db.(tombstones := db.tombstones + {key}))
  }

  /** Season deletion first closes the request and keeps the bytes, and at the end releases the reservation. */
  function CloseSeasonRequests(db: Database, media: MediaKey): Result<Database> {
    Ok(db.(requests := map q | q in db.requests ::
      if exists r :: r in db.reservations && db.reservations[r].media == media && db.reservations[r].request == q
      then CancelledRequest else db.requests[q]))
  }

  function ReleaseSeason(db: Database, media: MediaKey): Result<Database> {
    Ok(db.(reservations := map r | r in db.reservations ::
      if db.reservations[r].media == media
      then db.reservations[r].(state := CancelledReservation, budget := 0) else db.reservations[r]))
  }

  // ---- Imports ----

  /** A copy import waits for every unfinished import; a hardlink import may overlap submitted ones. */
  predicate Blocks(s: ImportState, copy: bool) {
    s != Complete && (copy || s != Submitted)
  }

  predicate ImportPendingNow(db: Database, copy: bool) {
    (exists r :: r in db.movieImports && Blocks(db.movieImports[r], copy)) ||
    (exists k :: k in db.episodeImports && Blocks(db.episodeImports[k], copy))
  }

  function ClaimState(copy: bool): ImportState { if copy then SendingCopy else Sending }

  function SubmittedState(s: ImportState): ImportState { if s == SendingCopy then SubmittedCopy else Submitted }

  function ClaimMovie(db: Database, r: ReservationId, copy: bool): Result<Database> {
    if !(r in db.reservations && db.reservations[r].state in {Reserved, Downloading})
    then Refused(ReservationRequired) else
    :- Need(!ImportPendingNow(db, copy), ImportPending);
    :- Need(r !in db.movieImports, ImportClaimed);
    Ok(db.(movieImports := db.movieImports[r := ClaimState(copy)]))
  }

  function RecordMovie(db: Database, r: ReservationId): Result<Database> {
    if r in db.movieImports && db.movieImports[r] in {Sending, SendingCopy}
    then Ok(db.(movieImports := db.movieImports[r := SubmittedState(db.movieImports[r])]))
    else Ok(db)
  }

  function CompleteMovie(db: Database, r: ReservationId): Result<Database> {
    var imports := if r in db.movieImports then db.movieImports[r := Complete] else db.movieImports;
    if r in db.reservations then
      var reservation := db.reservations[r];
      Ok(db.(movieImports := imports,
             reservations := db.reservations[r := reservation.(state := Imported)],
             requests := if reservation.request in db.requests then db.requests[reservation.request := Available]
                         else db.requests))
    else Ok(db.(movieImports := imports))
  }

  function ClaimEpisode(db: Database, k: ImportKey, copy: bool): Result<Database> {
    if ImportPendingNow(db, copy) then Refused(ImportPending) else
    :- Need(k !in db.episodeImports, ImportClaimed);
    Ok(db.(episodeImports := db.episodeImports[k := ClaimState(copy)]))
  }

  function RecordEpisode(db: Database, k: ImportKey): Result<Database> {
    if k in db.episodeImports && db.episodeImports[k] in {Sending, SendingCopy}
    then Ok(db.(episodeImports := db.episodeImports[k := SubmittedState(db.episodeImports[k])]))
    else Ok(db)
  }

  function CompleteEpisode(db: Database, k: ImportKey): Result<Database> {
    if k in db.episodeImports && db.episodeImports[k] in {Submitted, SubmittedCopy}
    then Ok(db.(episodeImports := db.episodeImports[k := Complete]))
    else Ok(db)
  }

  // ---- Any transaction ----

  datatype Transaction =
    | DoIssue(issue: IssueRequest)
    | DoIssueProbe(source: SourceRequest)
    | DoReplace(source: SourceRequest)
    | DoRenew(id: PermitId, capacity: Capacity, expires: int, placed: bool)
    | DoBind(bind: BindRequest)
    | DoPromote(id: PermitId)
    | DoReject(id: PermitId)
    | DoCompleteHandover(id: PermitId)
    | DoCancel(id: PermitId)
    | DoRetire(r: ReservationId, scope: Scope)
    | DoBegin(id: PermitId, payload: Payload, placed: bool, named: bool)
    | DoRecord(id: PermitId, reply: Reply)
    | DoMarkUnknown(id: PermitId)
    | DoReconcile(id: PermitId)
    | DoSetQuality(id: PermitId, rank: seq<int>)
    | DoReserve(r: ReservationId, request: RequestId, media: MediaKey)
    | DoNormalize
    | DoCancelUnstarted(r: ReservationId)
    | DoTombstone(media: MediaKey)
    | DoCloseRequests(media: MediaKey)
    | DoRelease(media: MediaKey)
    | DoClaimMovie(r: ReservationId, copy: bool)
    | DoRecordMovie(r: ReservationId)
    | DoCompleteMovie(r: ReservationId)
    | DoClaimEpisode(key: ImportKey, copy: bool)
    | DoRecordEpisode(key: ImportKey)
    | DoCompleteEpisode(key: ImportKey)
  {
    /** Does the transaction change at most the one permit it names, in place? */
    predicate RowStep() {
      DoRenew? || DoBegin? || DoRecord? || DoMarkUnknown? || DoReconcile? || DoSetQuality?
    }
  }

  ghost function Apply(db: Database, now: int, t: Transaction): Result<Database> {
    match t
    case DoIssue(a) => Issue(db, now, a)
    case DoIssueProbe(a) => IssueProbe(db, now, a)
    case DoReplace(a) => ReplaceConfirmed(db, now, a)
    case DoRenew(id, c, e, p) => Renew(db, now, id, c, e, p)
    case DoBind(a) => BindSeasonPack(db, now, a)
    case DoPromote(id) => PromoteProbe(db, id)
    case DoReject(id) => RejectProbe(db, id)
    case DoCompleteHandover(id) => CompleteHandover(db, id)
    case DoCancel(id) => CancelAuthorized(db, id)
    case DoRetire(r, s) => RetireExpired(db, now, r, s)
    case DoBegin(id, a, p, n) => Begin(db, now, id, a, p, n)
    case DoRecord(id, reply) => Record(db, id, reply)
    case DoMarkUnknown(id) => MarkUnknown(db, id)
    case DoReconcile(id) => Reconcile(db, id)
    case DoSetQuality(id, q) => SetQuality(db, id, q)
    case DoReserve(r, q, m) => Reserve(db, r, q, m)
    case DoNormalize => NormalizeBudgets(db)
    case DoCancelUnstarted(r) => CancelUnstarted(db, r)
    case DoTombstone(m) => Tombstone(db, m)
    case DoCloseRequests(m) => CloseSeasonRequests(db, m)
    case DoRelease(m) => ReleaseSeason(db, m)
    case DoClaimMovie(r, c) => ClaimMovie(db, r, c)
    case DoRecordMovie(r) => RecordMovie(db, r)
    case DoCompleteMovie(r) => CompleteMovie(db, r)
    case DoClaimEpisode(k, c) => ClaimEpisode(db, k, c)
    case DoRecordEpisode(k) => RecordEpisode(db, k)
    case DoCompleteEpisode(k) => CompleteEpisode(db, k)
  }

  /** The tables afterwards: a refused transaction changes nothing. */
  ghost function After(db: Database, now: int, t: Transaction): Database {
    match Apply(db, now, t)
    case Ok(done) => done
    case Refused(_) => db
  }
}
