/**
 What a season pack must satisfy to take over episodes, said of rows, files,
 ranks and evidence alone.
 */
module PackChecks {
  import opened Options
  import opened Orders
  import opened Sums
  import opened Tables
  import opened Transactions
  import opened PoolSpace
  import opened AdmissionChecks
  import PackPurge

  // ---- Words ----

  /** A pack row, undivided and still running, with files for each episode of its own season. */
  predicate Divides(p: Permit, episodes: map<Scope, seq<string>>, placed: bool, named: bool) {
    && p.scope.Pack? && p.category == Sonarr && p.parent == None && p.digest != None && Running(p) && placed && named
    && (exists scope :: scope in episodes)
    && (forall scope | scope in episodes ::
          && scope.Episode? && scope.season == p.scope.season && scope.number >= 1
          && |episodes[scope]| >= 1 && NoRepeats(episodes[scope])
          && (forall i :: 0 <= i < |episodes[scope]| ==> episodes[scope][i] in p.files))
  }

  /** The media is a season with real numbers, and the scope is its pack. */
  predicate IsSeasonsPack(scope: Scope, media: MediaKey) {
    match (scope, media)
    case (Pack(packed), SeasonMedia(tmdb, season)) => packed == season && tmdb >= 1 && season >= 1
    case _ => false
  }

  /** The rank is no lower, and neither of its leading components is. */
  predicate NoRegression(rank: Option<seq<int>>, current: seq<int>) {
    rank.Some? && !Lower(rank.value, current) && AtLeast(rank, Some(current))
  }

  /** The row serves one of the episodes, by its own scope or a binding. */
  predicate Serves(db: Database, id: PermitId, r: ReservationId, episodes: map<Scope, seq<string>>) {
    && id in db.permits && db.permits[id].reservation == r
    && exists scope :: scope in episodes &&
         (db.permits[id].scope == scope || (id in db.bindings && scope in db.bindings[id]))
  }

  /** In the queue of the row's own pool, on the row's own disk, the torrent is paused or has nothing left. */
  predicate Quiet(p: Permit, capacity: Capacity) {
    && p.pool in capacity && capacity[p.pool].filesystem == p.filesystem
    && var e := capacity[p.pool];
    && (p.infohash in e.paused || (p.infohash in e.remaining && e.remaining[p.infohash] == 0))
  }

  /** Paused with something left to fetch. */
  predicate PausedIncomplete(h: InfoHash, e: PoolEvidence) {
    h in e.paused && h in e.remaining && e.remaining[h] >= 1
  }

  /** In the middle of a probe or of a handover, on either side. */
  ghost predicate InTransition(db: Database, a: BindRequest, t: PermitId) {
    || Probed(db, t) || Waiting(db, t) || t in a.undecided
    || (t in db.handovers && db.handovers[t].pending)
  }

  // ---- One replaced source ----

  predicate EpisodeSource(db: Database, a: BindRequest, t: PermitId)
    requires a.id in db.permits
  {
    && t in db.permits && t in a.placed
    && db.permits[t].state == Confirmed && db.permits[t].parent == None && db.permits[t].category == Sonarr
    && db.permits[t].reservation == db.permits[a.id].reservation
    && db.permits[t].infohash != db.permits[a.id].infohash
    && (exists scope :: scope in a.episodes && db.permits[t].scope == scope)
    && !(t in db.bindings && exists scope :: scope in db.bindings[t])
  }

  ghost function SourceObstacle(db: Database, a: BindRequest, t: PermitId): Option<Refusal>
    requires a.id in db.permits
  {
    if !EpisodeSource(db, a, t) then Some(ConfirmedEpisodeSourceRequired)
    else
      var p, pack := db.permits[t], db.permits[a.id];
      if p.quality.Some? && !NoRegression(pack.quality, p.quality.value) then Some(QualityRegression)
      else if Closure(db, p.reservation, p.scope).Some? then Closure(db, p.reservation, p.scope)
      else if p.pool !in a.capacity then Some(SourceCapacityUnavailable)
      else if !PausedIncomplete(p.infohash, a.capacity[p.pool]) then Some(PausedIncompleteRequired)
      else if a.capacity[p.pool].filesystem != p.filesystem then Some(SourceCapacityUnavailable)
      else if OfPermit(t) in db.episodeImports then Some(ImportStarted)
      else if p.infohash in a.protected then Some(SourceProtected)
      else if InTransition(db, a, t) then Some(SourceTransitionPending)
      else None
  }

  function AsCheck(obstacle: Option<Refusal>): Check {
    match obstacle
    case None => Pass
    case Some(why) => Fail(why)
  }

  lemma {:induction false} LowerIsBelow(a: seq<int>, b: seq<int>)
    ensures RankBelow(a, b) <==> Lower(a, b)
  {
    hide Lower;
    LowerUnfolds(a, b);
    if a != [] && b != [] { LowerIsBelow(a[1..], b[1..]); }
  }

  lemma DivisionFits(p: Permit, episodes: map<Scope, seq<string>>, placed: bool, named: bool)
    ensures BindingsFit(p, episodes, placed, named) <==> Divides(p, episodes, placed, named)
  {
    forall scope | scope in episodes && p.scope.Pack?
      ensures EpisodeFits(p, scope, episodes[scope]) <==>
              && scope.Episode? && scope.season == p.scope.season && scope.number >= 1
              && |episodes[scope]| >= 1 && NoRepeats(episodes[scope])
              && (forall i :: 0 <= i < |episodes[scope]| ==> episodes[scope][i] in p.files)
    {
      FilesFit(p, scope, episodes[scope]);
    }
    hide EpisodeFits, NoRepeats;
  }

  lemma FilesFit(p: Permit, scope: Scope, files: seq<string>)
    requires p.scope.Pack?
    ensures EpisodeFits(p, scope, files) <==>
            && scope.Episode? && scope.season == p.scope.season && scope.number >= 1
            && |files| >= 1 && NoRepeats(files)
            && (forall i :: 0 <= i < |files| ==> files[i] in p.files)
  {
  }

  lemma SeasonFits(p: Permit, media: MediaKey)
    ensures PackOfSeason(p, media) <==> IsSeasonsPack(p.scope, media)
  {
  }

  lemma ServingFits(db: Database, id: PermitId, r: ReservationId, a: BindRequest)
    ensures ServesSome(db, id, r, a.episodes) <==> Serves(db, id, r, a.episodes)
    ensures id in db.permits ==> (ProvedStopped(db.permits[id], a.capacity) <==> Quiet(db.permits[id], a.capacity))
  {
  }

  lemma RankFits(rank: Option<seq<int>>, current: seq<int>)
    ensures NoRegression(rank, current) <==>
            rank.Some? && !RankBelow(rank.value, current) && NotWorse(rank.value, current)
  {
    if rank.Some? { LowerIsBelow(rank.value, current); }
  }

  lemma TransitionFits(db: Database, a: BindRequest, t: PermitId)
    ensures InTransition(db, a, t) <==>
            HasLiveProbe(db, t) || db.HandingOver(t) || t in a.undecided ||
            (t in db.handovers && db.handovers[t].pending)
  {
  }

  lemma SourceFits(db: Database, a: BindRequest, t: PermitId)
    requires a.id in db.permits
    ensures ReplacedFits(db, a, t) == AsCheck(SourceObstacle(db, a, t))
  {
    hide RequireReservation, Closure, NoRegression, RankBelow, NotWorse, InTransition, HasLiveProbe, PendingParents;
    TransitionFits(db, a, t);
    if t in db.permits {
      var p := db.permits[t];
      if p.quality.Some? { RankFits(db.permits[a.id].quality, p.quality.value); }
      ClosureIsRequired(db, p.reservation, p.scope);
    }
  }

  // ---- All of them ----

  /** The first of the replaced sources that is refused. */
  ghost predicate RefusedFirst(db: Database, a: BindRequest, i: nat)
    requires a.id in db.permits
  {
    i < |a.replaced| && SourceObstacle(db, a, a.replaced[i]).Some?
    && forall j :: 0 <= j < i ==> SourceObstacle(db, a, a.replaced[j]).None?
  }

  lemma {:induction false} SourcesFit(db: Database, a: BindRequest, from: nat)
    requires a.id in db.permits && from <= |a.replaced|
    requires forall j :: 0 <= j < from ==> SourceObstacle(db, a, a.replaced[j]).None?
    ensures var check := AllReplacedFit(db, a, a.replaced[from..]);
      && (check.Pass? <==> forall j :: 0 <= j < |a.replaced| ==> SourceObstacle(db, a, a.replaced[j]).None?)
      && (check.Fail? ==>
            exists i: nat :: RefusedFirst(db, a, i) && SourceObstacle(db, a, a.replaced[i]) == Some(check.why))
    decreases |a.replaced| - from
  {
    hide SourceObstacle, ReplacedFits;
    if from < |a.replaced| {
      SourceFits(db, a, a.replaced[from]);
      assert a.replaced[from..][0] == a.replaced[from] && a.replaced[from..][1..] == a.replaced[from + 1..];
      if SourceObstacle(db, a, a.replaced[from]).None? {
        SourcesFit(db, a, from + 1);
      } else {
        assert RefusedFirst(db, a, from);
      }
    }
  }

  ghost function FirstObstacle(db: Database, a: BindRequest): Option<Refusal>
    requires a.id in db.permits
  {
    if exists i: nat :: RefusedFirst(db, a, i) then
      var i: nat :| RefusedFirst(db, a, i);
      SourceObstacle(db, a, a.replaced[i])
    else None
  }

  lemma FirstIsAnswered(db: Database, a: BindRequest)
    requires a.id in db.permits
    ensures AllReplacedFit(db, a, a.replaced) == AsCheck(FirstObstacle(db, a))
    ensures FirstObstacle(db, a).None? <==>
            forall j :: 0 <= j < |a.replaced| ==> SourceObstacle(db, a, a.replaced[j]).None?
  {
    hide SourceObstacle, AllReplacedFit;
    SourcesFit(db, a, 0);
    assert a.replaced[0..] == a.replaced;
    forall i: nat, j: nat | RefusedFirst(db, a, i) && RefusedFirst(db, a, j) ensures i == j { }
  }

  /** A source that served one of the episodes before is not known to be stopped. */
  ghost predicate HistoryUnsettled(db: Database, a: BindRequest, r: ReservationId) {
    exists id :: Serves(db, id, r, a.episodes) &&
      (db.permits[id].state == Superseded || db.permits[id].state == ProbeRejected) &&
      !Quiet(db.permits[id], a.capacity)
  }

  ghost function ReplacingObstacle(db: Database, now: int, a: BindRequest): Option<Refusal>
    requires a.id in db.permits
  {
    var pack := db.permits[a.id];
    if !(pack.state == Authorized && now < pack.expires && pack.reply == None && pack.budget >= 1)
    then Some(UnusedPackRequired)
    else if Closure(db, pack.reservation, pack.scope).Some? then Closure(db, pack.reservation, pack.scope)
    else if exists scope :: scope in a.episodes && Buried(db, db.reservations[pack.reservation].media, scope)
    then Some(MediaTombstoned)
    else if FirstObstacle(db, a).Some? then FirstObstacle(db, a)
    else if HistoryUnsettled(db, a, pack.reservation) then Some(HistoricalSourceNotStopped)
    else if pack.pool !in a.capacity || a.capacity[pack.pool].filesystem != pack.filesystem then Some(PoolUnavailable)
    else if !RoomWithin(db, now, a.capacity[pack.pool], pack.pool, 0, a.capacity[pack.pool].free)
    then Some(WaitingSpace)
    else None
  }

  lemma HistoryIsAnswered(db: Database, a: BindRequest, r: ReservationId)
    ensures HistoryStopped(db, a, r) <==> !HistoryUnsettled(db, a, r)
  {
    hide ServesSome, Serves, ProvedStopped, Quiet;
    forall id ensures ServesSome(db, id, r, a.episodes) <==> Serves(db, id, r, a.episodes)
              ensures id in db.permits ==>
                (ProvedStopped(db.permits[id], a.capacity) <==> Quiet(db.permits[id], a.capacity))
    {
      ServingFits(db, id, r, a);
    }
    forall id | ServesSome(db, id, r, a.episodes) ensures id in db.permits { ServingIsRow(db, id, r, a); }
  }

  lemma ServingIsRow(db: Database, id: PermitId, r: ReservationId, a: BindRequest)
    requires ServesSome(db, id, r, a.episodes) || Serves(db, id, r, a.episodes)
    ensures id in db.permits
  {
  }

  lemma BurialFits(db: Database, r: ReservationId, scope: Scope, a: BindRequest)
    requires Closure(db, r, scope).None?
    ensures r in db.reservations
    ensures var media := db.reservations[r].media;
      (exists s :: s in a.episodes && EpisodeTombstoned(db, media, s)) <==>
      (exists s :: s in a.episodes && Buried(db, media, s))
  {
    var media := db.reservations[r].media;
    forall s ensures EpisodeTombstoned(db, media, s) <==> Buried(db, media, s) { }
  }

  lemma ReplacingIsAnswered(db: Database, now: int, a: BindRequest)
    requires a.id in db.permits
    ensures ReplacementsFit(db, now, a) == AsCheck(ReplacingObstacle(db, now, a))
  {
    hide RequireReservation, Closure, Buried, EpisodeTombstoned, FirstObstacle, AllReplacedFit, HistoryUnsettled,
      HistoryStopped, RoomWithin, PendingBytes;
    var pack := db.permits[a.id];
    ClosureIsRequired(db, pack.reservation, pack.scope);
    if Closure(db, pack.reservation, pack.scope).None? { BurialFits(db, pack.reservation, pack.scope, a); }
    FirstIsAnswered(db, a);
    HistoryIsAnswered(db, a, pack.reservation);
    if pack.pool in a.capacity {
      RoomIsExact(db, now, a.capacity[pack.pool], pack.pool, 0, a.capacity[pack.pool].free);
    }
  }

  // ---- `bind_season_pack` ----

  predicate Divided(db: Database, id: PermitId) {
    id in db.bindings && exists scope :: scope in db.bindings[id]
  }

  /** Another running source serves one of the episodes and is not to be replaced. */
  ghost predicate StillServed(db: Database, a: BindRequest, r: ReservationId) {
    exists id :: id != a.id && id !in a.replaced && Serves(db, id, r, a.episodes) && Running(db.permits[id])
  }

  ghost function BindObstacle(db: Database, now: int, a: BindRequest): Option<Refusal> {
    if !NoRepeats(a.replaced) then Some(InvalidRequest)
    else if a.id !in db.permits then Some(PermitRequired)
    else
      var pack := db.permits[a.id];
      if !Divides(pack, a.episodes, a.id in a.placed, a.named) then Some(InvalidBindings)
      else if !Open(db, pack.reservation) then Some(ReservationRequired)
      else if !IsSeasonsPack(pack.scope, db.reservations[pack.reservation].media) then Some(PackOfAnotherSeason)
      else if Divided(db, a.id) && db.bindings[a.id] != a.episodes then Some(BindingsFixed)
      else if a.replaced != [] && Divided(db, a.id) then Some(PackAlreadyBound)
      else if a.replaced != [] && ReplacingObstacle(db, now, a).Some? then ReplacingObstacle(db, now, a)
      else if StillServed(db, a, pack.reservation) then Some(EpisodeAlreadyPermitted)
      else if RunsElsewhere(db, pack.infohash, {a.id}) then Some(TorrentAlreadyPermitted)
      else None
  }

  lemma ServedFits(db: Database, a: BindRequest, r: ReservationId)
    ensures (forall o :: o != a.id && ServesSome(db, o, r, a.episodes) && db.permits[o].Live() ==> o in a.replaced) <==>
            !StillServed(db, a, r)
  {
    hide ServesSome, Serves;
    forall id ensures ServesSome(db, id, r, a.episodes) <==> Serves(db, id, r, a.episodes)
              ensures ServesSome(db, id, r, a.episodes) ==> id in db.permits
    {
      ServingFits(db, id, r, a);
      if ServesSome(db, id, r, a.episodes) { ServingIsRow(db, id, r, a); }
    }
  }

  lemma RepeatsFit(tokens: seq<PermitId>)
    ensures (exists i, j :: 0 <= i < j < |tokens| && tokens[i] == tokens[j]) <==> !NoRepeats(tokens)
  {
  }

  lemma BindAnswers(db: Database, now: int, a: BindRequest)
    ensures Answers(BindObstacle(db, now, a), BindSeasonPack(db, now, a))
  {
    hide NoRepeats, BindingsFit, Divides, PackOfSeason, IsSeasonsPack, ReplacementsFit, ReplacingObstacle, ServesSome,
      StillServed, HeldBudgets, SupersedeAll, WithBudget;
    RepeatsFit(a.replaced);
    if a.id in db.permits {
      var pack := db.permits[a.id];
      DivisionFits(pack, a.episodes, a.id in a.placed, a.named);
      if Open(db, pack.reservation) { SeasonFits(pack, db.reservations[pack.reservation].media); }
      ReplacingIsAnswered(db, now, a);
      ServedFits(db, a, pack.reservation);
    }
  }

  /** The episodes are bound, each replaced source is history, and what the reservation then holds is charged. */
  lemma BindWrites(db: Database, now: int, a: BindRequest)
    requires BindSeasonPack(db, now, a).Ok?
    ensures a.id in db.permits
    ensures var after := BindSeasonPack(db, now, a).value;
      && after.bindings == db.bindings[a.id := a.episodes] && after.permits.Keys == db.permits.Keys
      && (forall id | id in db.permits :: after.permits[id] ==
            if id in a.replaced && db.permits[id].state == Confirmed then db.permits[id].(state := Superseded)
            else db.permits[id])
      && (a.replaced == [] ==> after == db.(permits := after.permits, bindings := after.bindings))
      && var r := db.permits[a.id].reservation;
      && (a.replaced != [] ==>
            Recharged(db.(bindings := after.bindings), after, r, Sum(AdmissionChecks.HeldBytes(after, r))))
  {
    hide BindingsFit, PackOfSeason, ReplacementsFit, ServesSome, HashLiveElsewhere, HeldBudgets,
      AdmissionChecks.HeldBytes, Recharged, SupersedeAll, WithBudget;
    var r := db.permits[a.id].reservation;
    var bound := db.(permits := SupersedeAll(db.permits, a.replaced), bindings := db.bindings[a.id := a.episodes]);
    assert BindSeasonPack(db, now, a).value ==
           if a.replaced == [] then bound else WithBudget(bound, r, bound.HeldBytes(r));
    hide BindSeasonPack;
    SupersededOnly(db.permits, a.replaced);
    ChargesAre(bound, r);
    ChargingKeepsBytes(bound, r, bound.HeldBytes(r));
    ChargedBeside(db, bound, WithBudget(bound, r, bound.HeldBytes(r)), r, bound.HeldBytes(r));
  }

  lemma ChargedBeside(db: Database, bound: Database, after: Database, r: ReservationId, charge: nat)
    requires Recharged(bound, after, r, charge) && bound == db.(permits := bound.permits, bindings := bound.bindings)
    ensures Recharged(db.(bindings := after.bindings), after, r, charge) && after.bindings == bound.bindings
  {
  }

  lemma SupersededOnly(permits: map<PermitId, Permit>, ids: seq<PermitId>)
    ensures SupersedeAll(permits, ids).Keys == permits.Keys
    ensures forall id | id in permits ::
      SupersedeAll(permits, ids)[id] ==
      if id in ids && permits[id].state == Confirmed then permits[id].(state := Superseded) else permits[id]
  {
  }

  // ---- What follows for the replaced sources ----

  lemma AcceptedSource(db: Database, now: int, a: BindRequest, t: PermitId)
    requires BindSeasonPack(db, now, a).Ok? && t in a.replaced
    ensures a.id in db.permits && SourceObstacle(db, a, t).None?
    ensures !HistoryUnsettled(db, a, db.permits[a.id].reservation)
  {
    hide BindSeasonPack, NoRepeats, Divides, IsSeasonsPack, SourceObstacle, HistoryUnsettled, FirstObstacle, Closure,
      Buried, RoomWithin, StillServed, RunsElsewhere;
    BindAnswers(db, now, a);
    FirstIsAnswered(db, a);
    var i :| 0 <= i < |a.replaced| && a.replaced[i] == t;
  }

  /**
   Every replaced source was the confirmed primary of one bound episode of the
   same reservation, paused with bytes left to fetch, untouched by imports,
   probes, handovers and protection, and ranked no better.
   */
  lemma ReplacedEpisodesWereStopped(db: Database, now: int, a: BindRequest, t: PermitId)
    requires BindSeasonPack(db, now, a).Ok? && t in a.replaced
    ensures a.id in db.permits && t in db.permits
    ensures var pack, p := db.permits[a.id], db.permits[t];
      && p.state == Confirmed && p.parent == None && p.category == Sonarr
      && p.reservation == pack.reservation && p.scope in a.episodes && p.infohash != pack.infohash
      && p.pool in a.capacity && a.capacity[p.pool].filesystem == p.filesystem
      && p.infohash in a.capacity[p.pool].paused
      && p.infohash in a.capacity[p.pool].remaining && a.capacity[p.pool].remaining[p.infohash] > 0
      && OfPermit(t) !in db.episodeImports && p.infohash !in a.protected && t !in a.undecided
      && (forall n | n in db.permits && db.permits[n].parent == Some(t) :: !Running(db.permits[n]))
      && (forall c | c in db.handovers && db.handovers[c].pending :: c != t && db.handovers[c].parent != t)
      && (p.quality.Some? ==>
            && pack.quality.Some? && |p.quality.value| >= 2 && |pack.quality.value| >= 2
            && p.quality.value[0] <= pack.quality.value[0] && p.quality.value[1] <= pack.quality.value[1])
  {
    hide BindSeasonPack, HistoryUnsettled, Closure, Lower;
    AcceptedSource(db, now, a, t);
  }

  /** Every source that served a bound episode and was given up before is paused or has nothing left to fetch. */
  lemma FormerSourcesAreStopped(db: Database, now: int, a: BindRequest, id: PermitId, scope: Scope)
    requires BindSeasonPack(db, now, a).Ok? && a.replaced != []
    requires a.id in db.permits && id in db.permits && db.permits[id].reservation == db.permits[a.id].reservation
    requires db.permits[id].state in {Superseded, ProbeRejected} && scope in a.episodes
    requires db.permits[id].scope == scope || (id in db.bindings && scope in db.bindings[id])
    ensures var p := db.permits[id];
      && p.pool in a.capacity && a.capacity[p.pool].filesystem == p.filesystem
      && (p.infohash in a.capacity[p.pool].paused ||
          (p.infohash in a.capacity[p.pool].remaining && a.capacity[p.pool].remaining[p.infohash] == 0))
  {
    hide BindSeasonPack, SourceObstacle;
    AcceptedSource(db, now, a, a.replaced[0]);
    assert Serves(db, id, db.permits[a.id].reservation, a.episodes);
  }

  /** The same request, where the queue of one pool no longer shows a torrent paused. */
  function Unpaused(a: BindRequest, pool: PoolId, h: InfoHash): BindRequest
    requires pool in a.capacity
  {
    a.(capacity := a.capacity[pool := a.capacity[pool].(paused := a.capacity[pool].paused - {h})])
  }

  /** Once its torrent is not shown paused, a replaced source stops the binding that was acceptable before. */
  lemma RunningEpisodeIsNotReplaced(db: Database, now: int, a: BindRequest, t: PermitId)
    requires BindSeasonPack(db, now, a).Ok? && t in a.replaced
    ensures a.id in db.permits && t in db.permits && db.permits[t].pool in a.capacity
    ensures BindSeasonPack(db, now, Unpaused(a, db.permits[t].pool, db.permits[t].infohash)) ==
            Refused(PausedIncompleteRequired)
  {
    hide BindSeasonPack, NoRepeats, Divides, IsSeasonsPack, SourceObstacle, HistoryUnsettled, FirstObstacle, Closure,
      Buried, RoomWithin, StillServed, RunsElsewhere, RefusedFirst;
    ReplacedEpisodesWereStopped(db, now, a, t);
    var b := Unpaused(a, db.permits[t].pool, db.permits[t].infohash);
    BindAnswers(db, now, a);
    BindAnswers(db, now, b);
    UnpausedIsRefused(db, now, a, t);
  }

  lemma UnpausedSource(db: Database, a: BindRequest, b: BindRequest, t: PermitId, pool: PoolId, h: InfoHash)
    requires a.id in db.permits && pool in a.capacity && b == Unpaused(a, pool, h)
    requires SourceObstacle(db, a, t).None? && t in db.permits
    ensures SourceObstacle(db, b, t) ==
            if db.permits[t].pool == pool && db.permits[t].infohash == h then Some(PausedIncompleteRequired) else None
  {
    hide Closure, NoRegression, Probed, Waiting;
  }

  lemma UnpausedIsRefused(db: Database, now: int, a: BindRequest, t: PermitId)
    requires BindSeasonPack(db, now, a).Ok? && t in a.replaced
    requires a.id in db.permits && t in db.permits && db.permits[t].pool in a.capacity
    ensures FirstObstacle(db, Unpaused(a, db.permits[t].pool, db.permits[t].infohash)) == Some(PausedIncompleteRequired)
  {
    hide BindSeasonPack, SourceObstacle, HistoryUnsettled, Unpaused;
    var pool, h := db.permits[t].pool, db.permits[t].infohash;
    var b := Unpaused(a, pool, h);
    assert b.id == a.id && b.replaced == a.replaced by { UnpausedElsewhere(a, pool, h); }
    forall i | 0 <= i < |b.replaced|
      ensures SourceObstacle(db, b, b.replaced[i]) in {None, Some(PausedIncompleteRequired)}
      ensures b.replaced[i] == t ==> SourceObstacle(db, b, b.replaced[i]).Some?
    {
      ReplacedEpisodesWereStopped(db, now, a, a.replaced[i]);
      AcceptedSource(db, now, a, a.replaced[i]);
      UnpausedSource(db, a, b, a.replaced[i], pool, h);
    }
    FirstIsAnswered(db, b);
  }

  lemma UnpausedElsewhere(a: BindRequest, pool: PoolId, h: InfoHash)
    requires pool in a.capacity
    ensures Unpaused(a, pool, h).id == a.id && Unpaused(a, pool, h).replaced == a.replaced
  {
  }

  // ---- `season_pack_fully_deleted` ----

  /** A pack may go with its season when it runs alone on its torrent and each episode it serves is deleted. */
  lemma PackIsGivenUpExactly(db: Database, id: PermitId, tmdb: nat, season: nat, placed: bool, named: bool)
    ensures PackPurge.FullyDeleted(db, id, tmdb, season, placed, named) <==>
      && id in db.permits && id in db.bindings
      && var pack := db.permits[id];
      && pack.state == Confirmed && pack.scope == Pack(season) && pack.budget >= 1
      && pack.reservation in db.reservations && db.reservations[pack.reservation].media == SeasonMedia(tmdb, season)
      && tmdb >= 1 && season >= 1
      && Divides(pack, db.bindings[id], placed, named) && !RunsElsewhere(db, pack.infohash, {id})
      && forall scope | scope in db.bindings[id] :: EpisodeMedia(tmdb, scope) in db.tombstones
  {
    hide BindingsFit, Divides;
    if id in db.permits && id in db.bindings { DivisionFits(db.permits[id], db.bindings[id], placed, named); }
  }
}
