/**
 `PermitRegistry` and the probe permits it mixes in, as an object over the
 shared tables. Statements take effect one by one; a refusal after some of them
 rolls the tables back to where the transaction began.
 */
module Registry {
  import opened Options
  import opened Sums
  import opened Tables
  import opened Transactions
  import opened Soundness
  import LedgerRuns
  import TransactionEffects

  /** The database file. */
  class Store {
    var tables: Database

    constructor (tables: Database)
      ensures this.tables == tables
    {
      this.tables := tables;
    }
  }

  /** The transaction either commits what the specification says, or raises and leaves no trace. */
  ghost predicate Commits(before: Database, after: Database, spec: Result<Database>, outcome: Check) {
    match spec
    case Ok(done) => outcome == Pass && after == done
    case Refused(why) => outcome == Fail(why) && after == before
  }

  class PermitRegistry {
    const store: Store

    constructor (store: Store)
      ensures this.store == store
    {
      this.store := store;
    }

    /** SELECT SUM(budget_bytes) over the live permits of a reservation. */
    method LiveTotal(r: ReservationId) returns (total: nat)
      ensures total == store.tables.LiveBytes(r)
    {
      total := Total(LiveBudgets(store.tables.permits, r));
    }

    /** The same, together with the parents of pending handovers. */
    method HeldTotal(r: ReservationId) returns (total: nat)
      ensures total == store.tables.HeldBytes(r)
    {
      total := Total(HeldBudgets(store.tables.permits, PendingParents(store.tables.handovers), r));
    }

    /** UPDATE reservations SET budget_bytes. */
    method SetBudget(r: ReservationId, budget: nat)
      modifies store
      ensures store.tables == WithBudget(old(store.tables), r, budget)
    {
      if r in store.tables.reservations {
        var reservation := store.tables.reservations[r];
        store.tables := store.tables.(reservations := store.tables.reservations[r := reservation.(budget := budget)]);
      }
    }

    // ---- `_pending_bytes` and `_select_pool` ----

    method PendingBytes(e: PoolEvidence, pool: PoolId, now: int) returns (pending: nat)
      ensures pending == Tables.PendingBytes(store.tables, e, pool, now)
    {
      var db := store.tables;
      hide FoldedOver, CountedRows, Commitments, Largest, Least, Greatest;
      var rows := CountedRows(db, pool, now);
      FoldOverNone(db, e, rows);
      var byHash: map<InfoHash, nat>, rest := e.remaining, rows;
      while rest != {}
        invariant rest <= rows && FoldedOver(db, e, rows - rest, byHash)
        decreases rest
      {
        ghost var done := rows - rest;
        var id :| id in rest;
        TakenOne(rows, rest, id);
        var h, budget := db.permits[id].infohash, db.permits[id].budget;
        var share := Least(budget, if h in e.remaining then e.remaining[h] else budget);
        var raised: map<InfoHash, nat> := byHash[h := Greatest(if h in byHash then byHash[h] else 0, share)];
        FoldOne(db, e, done, byHash, id, raised);
        byHash, rest := raised, rest - {id};
      }
      assert rows - rest == rows;
      FoldIsCommitments(db, e, pool, now, byHash);
      var total := Total(byHash);
      pending := e.otherPending + total;
    }

    method SelectPool(now: int, capacity: Capacity, disks: Disks, budget: nat) returns (r: Result<PoolId>)
      requires budget > 0
      ensures r == Transactions.SelectPool(store.tables, now, capacity, disks, budget)
      ensures r.Ok? ==> r.value in disks
    {
      hide Tables.PendingBytes;
      var pools := [Ssd, Hdd];
      for i := 0 to |pools|
        invariant forall k | 0 <= k < i :: !PoolFits(store.tables, now, capacity, disks, budget, pools[k])
      {
        var pool := pools[i];
        if pool in capacity && pool in disks && disks[pool].filesystem == capacity[pool].filesystem {
          var free := Min(capacity[pool].free, disks[pool].free);
          var pending := PendingBytes(capacity[pool], pool, now);
          var room := if free > pending then free - pending else 0;
          if budget <= room && disks[pool].placed {
            assert i == 1 ==> !PoolFits(store.tables, now, capacity, disks, budget, pools[0]);
            return Ok(pool);
          }
        }
      }
      assert !PoolFits(store.tables, now, capacity, disks, budget, pools[0]);
      assert !PoolFits(store.tables, now, capacity, disks, budget, pools[1]);
      r := Refused(WaitingSpace);
    }

    // ---- Admission ----

    method Issue(a: IssueRequest, now: int) returns (outcome: Check)
      modifies store
      ensures Commits(old(store.tables), store.tables, Transactions.Issue(old(store.tables), now, a), outcome)
    {
      hide Tables.PendingBytes, LiveBudgets, PoolFits;
      if a.budget == 0 {
        return Fail(InvalidRequest);
      }
      var before := store.tables;
      if !before.Active(a.reservation) {
        return Fail(ReservationRequired);
      }
      if a.scope != WholeItem && (a.scope == OtherScope("") || a.category != Sonarr ||
         !before.reservations[a.reservation].media.SeasonMedia?) {
        return Fail(InvalidEpisodePermit);
      }
      var pool := SelectPool(now, a.capacity, a.disks, a.budget);
      if pool.Refused? {
        return Fail(pool.why);
      }
      var live := LiveTotal(a.reservation);
      SetBudget(a.reservation, a.budget + live);
      if SlotHasSuperseded(store.tables, a.reservation, a.scope) {
        store.tables := before;
        return Fail(ReplacementLimit);
      }
      var permits := store.tables.permits;
      var packs := set id | id in permits && permits[id].reservation == a.reservation;
      assert forall id | before.ServesByBinding(id, a.scope) && before.permits[id].reservation == a.reservation ::
        id in packs && store.tables.ServesByBinding(id, a.scope);
      if a.scope != WholeItem && exists id :: id in packs && store.tables.ServesByBinding(id, a.scope) {
        store.tables := before;
        return Fail(EpisodeAlreadyPermitted);
      }
      // The INSERT fails on a key already used, and on the unique index over live primaries.
      if !store.tables.Fresh(a.id) {
        store.tables := before;
        return Fail(IdentifierTaken);
      }
      if SlotHasPrimary(store.tables, a.reservation, a.scope) {
        store.tables := before;
        return Fail(SlotTaken);
      }
      store.tables := store.tables.(permits := permits[a.id := IssuedRow(a, pool.value)]);
      outcome := Pass;
    }

    method IssueProbe(a: SourceRequest, now: int) returns (outcome: Check)
      modifies store
      ensures Commits(old(store.tables), store.tables, Transactions.IssueProbe(old(store.tables), now, a), outcome)
    {
      hide Tables.PendingBytes, HeldBudgets, PoolFits, RequireReservation, NotWorse;
      if !a.WellFormed(now) {
        return Fail(InvalidRequest);
      }
      var db := store.tables;
      if a.prior !in db.permits || db.permits[a.prior].state != Confirmed || db.permits[a.prior].parent.Some? {
        return Fail(ConfirmedSourceRequired);
      }
      var prior := db.permits[a.prior];
      var required := RequireReservation(db, prior.reservation, prior.scope);
      if required.Fail? {
        return required;
      }
      if prior.quality.None? {
        return Fail(SourceQualityUnknown);
      }
      if a.prior in db.handovers && db.handovers[a.prior].pending {
        return Fail(HandoverPending);
      }
      if exists n :: n in db.permits && db.permits[n].parent == Some(a.prior) && db.permits[n].Live() {
        return Fail(ProbeAlreadyActive);
      }
      if prior.reservation in db.movieImports || OfPermit(a.prior) in db.episodeImports {
        return Fail(ImportStarted);
      }
      var sameHash := set id | id in db.permits && db.permits[id].infohash == a.infohash;
      if exists id :: id in sameHash && (db.permits[id].reservation == prior.reservation || db.permits[id].Live()) {
        return Fail(SourceAlreadyTried);
      }
      if exists f :: f in a.files && f in prior.files {
        return Fail(SourcePathsOverlap);
      }
      if a.quality.None? || !NotWorse(a.quality.value, prior.quality.value) {
        return Fail(QualityDowngrade);
      }
      var pool := SelectPool(now, a.capacity, a.disks, a.budget);
      if pool.Refused? {
        return Fail(pool.why);
      }
      if !db.Fresh(a.id) {
        return Fail(IdentifierTaken);
      }
      store.tables := db.(permits := db.permits[a.id := SourceRow(prior, a, pool.value, Some(a.prior))]);
      var held := HeldTotal(prior.reservation);
      SetBudget(prior.reservation, held);
      outcome := Pass;
    }

    method ReplaceConfirmed(a: SourceRequest, now: int) returns (outcome: Check)
      modifies store
      ensures Commits(old(store.tables), store.tables,
                      Transactions.ReplaceConfirmed(old(store.tables), now, a), outcome)
    {
      hide Tables.PendingBytes, LiveBudgets, PoolFits, IdentityFits;
      if !a.WellFormed(now) {
        return Fail(InvalidRequest);
      }
      var before := store.tables;
      if a.prior !in before.permits || before.permits[a.prior].state != Confirmed {
        return Fail(ConfirmedSourceRequired);
      }
      var prior := before.permits[a.prior];
      var stopped := {prior.infohash} + SupersededHashes(before, prior.reservation, prior.scope);
      if !(stopped <= AllPaused(a.capacity)) {
        return Fail(SourceNotStopped);
      }
      if !before.Active(prior.reservation) {
        return Fail(ReservationRequired);
      }
      if !IdentityFits(prior, before.reservations[prior.reservation].media) {
        return Fail(SourceIdentityChanged);
      }
      if prior.reservation in before.movieImports || OfPermit(a.prior) in before.episodeImports {
        return Fail(ImportStarted);
      }
      var sameSlot := set id | id in before.permits && before.permits[id].SameSlot(prior);
      if exists id :: id in sameSlot && before.permits[id].infohash == a.infohash {
        return Fail(PriorSource);
      }
      if HashLiveElsewhere(before, a.infohash, {}) {
        return Fail(SourceAlreadyAdmitted);
      }
      var pool := SelectPool(now, a.capacity, a.disks, a.budget);
      if pool.Refused? {
        return Fail(pool.why);
      }
      store.tables := before.(permits := before.permits[a.prior := prior.(state := Superseded)]);
      if !store.tables.Fresh(a.id) {
        store.tables := before;
        return Fail(IdentifierTaken);
      }
      if SlotHasPrimary(store.tables, prior.reservation, prior.scope) {
        store.tables := before;
        return Fail(SlotTaken);
      }
      store.tables := store.tables.(permits := store.tables.permits[a.id := SourceRow(prior, a, pool.value, None)]);
      var live := LiveTotal(prior.reservation);
      SetBudget(prior.reservation, live);
      outcome := Pass;
    }

    method Renew(id: PermitId, capacity: Capacity, expires: int, placed: bool, now: int) returns (outcome: Check)
      modifies store
      ensures Commits(old(store.tables), store.tables,
                      Transactions.Renew(old(store.tables), now, id, capacity, expires, placed), outcome)
      ensures outcome.Pass? ==>
        && id in store.tables.permits && store.tables.permits[id].state == Authorized
        && forall later, a ::
             ValidatePayload(store.tables.permits[id], id, later, a) == Fail(PermitExpired) <==> later >= expires
    {
      hide Tables.PendingBytes, ValidatePayload;
      if expires <= now {
        return Fail(InvalidRequest);
      }
      var db := store.tables;
      if id !in db.permits || db.permits[id].state != Authorized || db.permits[id].budget == 0 {
        return Fail(AuthorizedReplacementRequired);
      }
      var p := db.permits[id];
      var stopped := SupersededHashes(db, p.reservation, p.scope);
      if stopped == {} || !(stopped <= AllPaused(capacity)) {
        return Fail(SourceNotStopped);
      }
      if !db.Active(p.reservation) {
        return Fail(ReservationRequired);
      }
      if p.pool !in capacity {
        return Fail(PoolUnavailable);
      }
      var e := capacity[p.pool];
      var pending := PendingBytes(e, p.pool, now);
      if p.expires <= now && p.infohash !in e.remaining {
        pending := pending + p.budget;
      }
      if pending > e.free {
        return Fail(WaitingSpace);
      }
      if !placed {
        return Fail(PlacementUnavailable);
      }
      store.tables := db.(permits := db.permits[id := p.(expires := expires)]);
      forall later, a
        ensures ValidatePayload(store.tables.permits[id], id, later, a) == Fail(PermitExpired) <==> later >= expires
      {
        TransactionEffects.RenewalStaysValid(db, now, id, capacity, expires, placed, later, a);
      }
      outcome := Pass;
    }

    // ---- Season packs ----

    method RequirePack(id: PermitId, p: Permit, placed: bool, named: bool) returns (check: Check)
      ensures check == Transactions.RequirePack(store.tables, id, p, placed, named)
    {
      hide BindingsFit, RequireReservation, PackOfSeason;
      var db := store.tables;
      var required := RequireReservation(db, p.reservation, p.scope);
      if required.Fail? {
        return required;
      }
      ReservationIsThere(db, p.reservation, p.scope);
      var media := db.reservations[p.reservation].media;
      if !PackOfSeason(p, media) || p.category != Sonarr {
        return Fail(PackIdentityChanged);
      }
      if id !in db.bindings || db.bindings[id] == map[] {
        return Fail(PackBindingsRequired);
      }
      if !BindingsFit(p, db.bindings[id], placed, named) {
        return Fail(InvalidBindings);
      }
      PackHasSeason(p, media);
      var gone := set k | k in db.tombstones && k.EpisodeMedia? && k.tmdb == media.tmdb && k.scope.Episode? &&
        k.scope.season == media.season;
      if gone != {} {
        ghost var k :| k in gone;
        assert EpisodeMedia(media.tmdb, Episode(media.season, k.scope.number)) == k;
        return Fail(MediaTombstoned);
      }
      assert forall n: nat :: EpisodeMedia(media.tmdb, Episode(media.season, n)) !in gone;
      check := Pass;
    }

    /** `_validate_pack_replacements`, up to the check of the sources that served the episodes before. */
    method ValidateReplaced(a: BindRequest) returns (check: Check)
      requires a.id in store.tables.permits
      ensures check == AllReplacedFit(store.tables, a, a.replaced)
    {
      hide ReplacedFits;
      for i := 0 to |a.replaced|
        invariant AllReplacedFit(store.tables, a, a.replaced) == AllReplacedFit(store.tables, a, a.replaced[i..])
      {
        assert a.replaced[i..][0] == a.replaced[i] && a.replaced[i..][1..] == a.replaced[i + 1..];
        var fits := ReplacedFits(store.tables, a, a.replaced[i]);
        if fits.Fail? {
          return fits;
        }
      }
      check := Pass;
    }

    /** Every source that once served one of the episodes is proved stopped. */
    method HistoryIsStopped(a: BindRequest, r: ReservationId) returns (stopped: bool)
      ensures stopped == HistoryStopped(store.tables, a, r)
    {
      hide ServesSome, ProvedStopped;
      var db := store.tables;
      var history := set id | id in db.permits && ServesSome(db, id, r, a.episodes) &&
        db.permits[id].state in {Superseded, ProbeRejected};
      var rest := history;
      ServersAreRows(db, r, a.episodes);
      while rest != {}
        invariant rest <= history
        invariant forall id | id in history - rest :: ProvedStopped(db.permits[id], a.capacity)
        decreases rest
      {
        var id :| id in rest;
        if !ProvedStopped(db.permits[id], a.capacity) {
          return false;
        }
        rest := rest - {id};
      }
      stopped := true;
    }

    method ValidateReplacements(a: BindRequest, now: int) returns (check: Check)
      requires a.id in store.tables.permits
      ensures check == ReplacementsFit(store.tables, now, a)
    {
      hide Tables.PendingBytes, RequireReservation, AllReplacedFit, HistoryStopped, EpisodeTombstoned;
      var db := store.tables;
      var pack := db.permits[a.id];
      if pack.state != Authorized || pack.expires <= now || pack.reply.Some? || pack.budget == 0 {
        return Fail(UnusedPackRequired);
      }
      var required := RequireReservation(db, pack.reservation, pack.scope);
      if required.Fail? {
        return required;
      }
      ReservationIsThere(db, pack.reservation, pack.scope);
      var media := db.reservations[pack.reservation].media;
      if exists s :: s in a.episodes && EpisodeTombstoned(db, media, s) {
        return Fail(MediaTombstoned);
      }
      var fits := ValidateReplaced(a);
      if fits.Fail? {
        return fits;
      }
      var stopped := HistoryIsStopped(a, pack.reservation);
      if !stopped {
        return Fail(HistoricalSourceNotStopped);
      }
      if pack.pool !in a.capacity || a.capacity[pack.pool].filesystem != pack.filesystem {
        return Fail(PoolUnavailable);
      }
      var pending := PendingBytes(a.capacity[pack.pool], pack.pool, now);
      check := Need(pending <= a.capacity[pack.pool].free, WaitingSpace);
    }

    method BindSeasonPack(a: BindRequest, now: int) returns (outcome: Check)
      modifies store
      ensures Commits(old(store.tables), store.tables, Transactions.BindSeasonPack(old(store.tables), now, a), outcome)
    {
      hide BindingsFit, PackOfSeason, HeldBudgets, ReplacementsFit, ServesSome, HashLiveElsewhere, SupersedeAll;
      if exists i, j :: 0 <= i < j < |a.replaced| && a.replaced[i] == a.replaced[j] {
        return Fail(InvalidRequest);
      }
      var db := store.tables;
      if a.id !in db.permits {
        return Fail(PermitRequired);
      }
      var pack := db.permits[a.id];
      if !BindingsFit(pack, a.episodes, a.id in a.placed, a.named) {
        return Fail(InvalidBindings);
      }
      if !db.Active(pack.reservation) {
        return Fail(ReservationRequired);
      }
      if !PackOfSeason(pack, db.reservations[pack.reservation].media) {
        return Fail(PackOfAnotherSeason);
      }
      var previous := if a.id in db.bindings then db.bindings[a.id] else map[];
      if previous != map[] && previous != a.episodes {
        return Fail(BindingsFixed);
      }
      if a.replaced != [] {
        if previous != map[] {
          return Fail(PackAlreadyBound);
        }
        var fits := ValidateReplacements(a, now);
        if fits.Fail? {
          return fits;
        }
      }
      ServersAreRows(db, pack.reservation, a.episodes);
      var others := set o | o in db.permits && o != a.id && ServesSome(db, o, pack.reservation, a.episodes) &&
        db.permits[o].Live();
      if exists o :: o in others && o !in a.replaced {
        return Fail(EpisodeAlreadyPermitted);
      }
      if HashLiveElsewhere(db, pack.infohash, {a.id}) {
        return Fail(TorrentAlreadyPermitted);
      }
      SupersedeNone(db.permits);
      for i := 0 to |a.replaced|
        invariant store.tables == db.(permits := SupersedeAll(db.permits, a.replaced[..i]))
      {
        var source := a.replaced[i];
        SupersedeNext(db.permits, a.replaced, i);
        if source in store.tables.permits && store.tables.permits[source].state == Confirmed {
          store.tables := store.tables.(
            permits := store.tables.permits[source := store.tables.permits[source].(state := Superseded)]);
        }
      }
      assert a.replaced[..|a.replaced|] == a.replaced;
      store.tables := store.tables.(bindings := db.bindings[a.id := a.episodes]);
      if a.replaced != [] {
        var held := HeldTotal(pack.reservation);
        SetBudget(pack.reservation, held);
      }
      outcome := Pass;
    }

    // ---- Lookups ----

    /** The live source of a slot: its own primary permit, or the season pack that serves it; and there is no other. */
    method GetForReservation(r: ReservationId, scope: Scope) returns (found: Option<PermitId>)
      requires Sound(store.tables)
      ensures found.Some? ==> store.tables.Covers(found.value, r, scope)
      ensures found.Some? ==> forall id | store.tables.Covers(id, r, scope) :: id == found.value
      ensures found.None? ==> forall id :: !store.tables.Covers(id, r, scope)
    {
      var db := store.tables;
      forall a, b | db.Covers(a, r, scope) && db.Covers(b, r, scope) ensures a == b {
        LedgerRuns.CoverIsUnique(db, a, b, r, scope);
      }
      hide Sound;
      var own := set id | id in db.permits && db.permits[id].reservation == r && db.permits[id].scope == scope &&
        db.permits[id].Primary();
      if own != {} {
        var id :| id in own;
        assert db.Covers(id, r, scope);
        return Some(id);
      }
      var packs := set id | id in db.permits && id in db.bindings && scope in db.bindings[id] &&
        db.permits[id].reservation == r && db.permits[id].Primary();
      if packs != {} {
        var id :| id in packs;
        assert db.Covers(id, r, scope);
        return Some(id);
      }
      assert forall id | db.Covers(id, r, scope) :: id in own || id in packs;
      found := None;
    }

    // ---- Dispatch ----

    /** What `authorize` does before the effect: None tells the caller to run it. */
    method BeginAuthorize(id: PermitId, a: Payload, placed: bool, named: bool, now: int)
      returns (r: Result<Option<Reply>>)
      modifies store
      ensures r == BeginOutcome(old(store.tables), now, id, a, placed, named)
      ensures Commits(old(store.tables), store.tables, Begin(old(store.tables), now, id, a, placed, named),
                      if r.Ok? then Pass else Fail(r.why))
    {
      hide RequireReservation, Transactions.RequirePack, ValidatePayload;
      var db := store.tables;
      if id !in db.permits {
        return Refused(PermitRequired);
      }
      var p := db.permits[id];
      var valid := ValidatePayload(p, id, now, a);
      if valid.Fail? {
        return Refused(valid.why);
      }
      if p.parent.Some? {
        var required := RequireReservation(db, p.reservation, p.scope);
        if required.Fail? {
          return Refused(required.why);
        }
      }
      if p.scope.Pack? {
        var required := RequirePack(id, p, placed, named);
        if required.Fail? {
          return Refused(required.why);
        }
      }
      if p.reply.Some? && p.state == Confirmed {
        return Ok(p.reply);
      }
      if p.state != Authorized {
        return Refused(NotAuthorized);
      }
      store.tables := db.(permits := db.permits[id := p.(state := Dispatching)]);
      r := Ok(None);
    }

    method RecordReply(id: PermitId, reply: Reply) returns (r: Result<Reply>)
      modifies store
      ensures Commits(old(store.tables), store.tables, Record(old(store.tables), id, reply),
                      if r.Ok? then Pass else Fail(r.why))
      ensures r.Ok? ==> id in store.tables.permits && store.tables.permits[id].reply == Some(r.value)
    {
      var db := store.tables;
      if id in db.permits && db.permits[id].state == Dispatching {
        store.tables := db.(permits := db.permits[id := db.permits[id].(state := Confirmed, reply := Some(reply))]);
        return Ok(reply);
      }
      if id in db.permits && db.permits[id].state == Confirmed && db.permits[id].reply.Some? {
        return Ok(db.permits[id].reply.value);
      }
      r := Refused(PermitStateChanged);
    }

    method MarkUnknown(id: PermitId)
      modifies store
      ensures Commits(old(store.tables), store.tables, Transactions.MarkUnknown(old(store.tables), id), Pass)
      ensures id in store.tables.permits ==> store.tables.permits[id].state != Dispatching
      ensures store.tables.permits.Keys == old(store.tables.permits).Keys
      ensures forall k | k in store.tables.permits && k != id :: store.tables.permits[k] == old(store.tables.permits)[k]
    {
      var db := store.tables;
      if id in db.permits && db.permits[id].state == Dispatching {
        store.tables := db.(permits := db.permits[id := db.permits[id].(state := Unknown)]);
      }
    }

    method ConfirmReconciled(id: PermitId) returns (outcome: Check)
      modifies store
      ensures Commits(old(store.tables), store.tables, Reconcile(old(store.tables), id), outcome)
    {
      hide IdentityFits, SlotHasSuperseded;
      var db := store.tables;
      if id !in db.permits || !db.permits[id].Live() {
        return Fail(ReconcilableSourceRequired);
      }
      var p := db.permits[id];
      if p.state == Authorized && p.parent.None? && !SlotHasSuperseded(db, p.reservation, p.scope) {
        return Fail(ReplacementPermitRequired);
      }
      if !db.Active(p.reservation) || !IdentityFits(p, db.reservations[p.reservation].media) {
        return Fail(ActiveSourceReservationRequired);
      }
      if p.state == Confirmed {
        return if p.reply == Some(Accepted(p.infohash)) then Pass else Fail(ConfirmedResultMismatch);
      }
      store.tables := db.(permits := db.permits[id := p.(state := Confirmed, reply := Some(Accepted(p.infohash)))]);
      outcome := Pass;
    }

    // ---- Probes and handovers ----

    method PromoteProbe(id: PermitId) returns (outcome: Check)
      modifies store
      ensures Commits(old(store.tables), store.tables, Transactions.PromoteProbe(old(store.tables), id), outcome)
    {
      hide HeldBudgets, RequireReservation;
      var before := store.tables;
      if id !in before.permits || before.permits[id].state != Confirmed || before.permits[id].parent.None? {
        return Fail(ConfirmedProbeRequired);
      }
      var p := before.permits[id];
      var parent := p.parent.value;
      var required := RequireReservation(before, p.reservation, p.scope);
      if required.Fail? {
        return required;
      }
      if p.reservation in before.movieImports || OfPermit(parent) in before.episodeImports {
        return Fail(ImportStarted);
      }
      if parent !in before.permits || before.permits[parent].state != Confirmed || before.permits[parent].parent.Some? {
        return Fail(PrimarySourceChanged);
      }
      store.tables := before.(permits := before.permits[parent := before.permits[parent].(state := Superseded)]);
      if id in before.handovers {
        store.tables := before;
        return Fail(HandoverExists);
      }
      store.tables := store.tables.(handovers := store.tables.handovers[id := Handover(parent, true)]);
      // Clearing the parent makes the row a primary, which the unique index may refuse.
      if SlotHasPrimary(store.tables, p.reservation, p.scope) {
        store.tables := before;
        return Fail(SlotTaken);
      }
      store.tables := store.tables.(permits := store.tables.permits[id := p.(parent := None)]);
      var held := HeldTotal(p.reservation);
      SetBudget(p.reservation, held);
      outcome := Pass;
    }

    method RejectProbe(id: PermitId) returns (outcome: Check)
      modifies store
      ensures Commits(old(store.tables), store.tables, Transactions.RejectProbe(old(store.tables), id), outcome)
      ensures outcome.Pass? <==> id in old(store.tables.permits) && old(store.tables.permits)[id].parent.Some?
      ensures outcome.Pass? ==>
        && id in store.tables.permits && !store.tables.permits[id].Live()
        && TransactionEffects.Elsewhere(old(store.tables), store.tables, {id},
                                        old(store.tables.permits)[id].reservation)
      ensures outcome.Pass? && Sound(old(store.tables)) && old(store.tables.permits)[id].Live() ==>
                !HasLiveProbe(store.tables, old(store.tables.permits)[id].parent.value)
    {
      hide HeldBudgets, Sound, HasLiveProbe;
      var db := store.tables;
      if id !in db.permits || db.permits[id].parent.None? {
        return Fail(ProbeRequired);
      }
      store.tables := db.(permits := db.permits[id := db.permits[id].(state := ProbeRejected)]);
      var held := HeldTotal(db.permits[id].reservation);
      SetBudget(db.permits[id].reservation, held);
      if Sound(db) {
        TransactionEffects.RejectionFreesParent(db, id);
      }
      outcome := Pass;
    }

    method CompleteHandover(id: PermitId)
      modifies store
      ensures Commits(old(store.tables), store.tables, Transactions.CompleteHandover(old(store.tables), id), Pass)
      ensures store.tables.permits == old(store.tables.permits)
      ensures id in store.tables.permits && id in store.tables.handovers ==> !store.tables.handovers[id].pending
      ensures forall c | c in old(store.tables.handovers) && c != id ::
                c in store.tables.handovers && store.tables.handovers[c] == old(store.tables.handovers)[c]
      ensures Sound(old(store.tables)) && id in old(store.tables.handovers) ==>
        var parent := old(store.tables.handovers)[id].parent;
        (forall c | c in old(store.tables.handovers) && old(store.tables.handovers)[c].parent == parent :: c == id) ==>
          !store.tables.HandingOver(parent)
    {
      hide HeldBudgets, Sound, PendingParents;
      var db := store.tables;
      if Sound(db) && id in db.handovers {
        TransactionEffects.CompletionReleasesParent(db, id);
      }
      if id !in db.permits {
        return;
      }
      if id in db.handovers {
        store.tables := db.(handovers := db.handovers[id := db.handovers[id].(pending := false)]);
      }
      var held := HeldTotal(db.permits[id].reservation);
      SetBudget(db.permits[id].reservation, held);
    }

    // ---- Releasing unused admissions ----

    method CancelAuthorized(id: PermitId) returns (outcome: Check)
      modifies store
      ensures Commits(old(store.tables), store.tables, Transactions.CancelAuthorized(old(store.tables), id), outcome)
      ensures outcome.Pass? <==> id in old(store.tables.permits) && old(store.tables.permits)[id].state == Authorized
      ensures outcome.Pass? ==>
        && id !in store.tables.permits && id !in store.tables.bindings
        && TransactionEffects.Elsewhere(old(store.tables), store.tables, {id},
                                        old(store.tables.permits)[id].reservation)
    {
      hide LiveBudgets;
      var db := store.tables;
      if id !in db.permits || db.permits[id].state != Authorized {
        return Fail(NotAuthorized);
      }
      store.tables := db.(permits := db.permits - {id});
      store.tables := store.tables.(bindings := db.bindings - {id});
      var live := LiveTotal(db.permits[id].reservation);
      SetBudget(db.permits[id].reservation, live);
      outcome := Pass;
    }

    method RetireExpired(r: ReservationId, scope: Scope, now: int) returns (retired: nat)
      modifies store
      ensures Commits(old(store.tables), store.tables,
                      Transactions.RetireExpired(old(store.tables), now, r, scope), Pass)
      ensures retired == |ExpiredRows(old(store.tables), r, scope, now)|
      ensures ExpiredRows(store.tables, r, scope, now) == {}
      ensures TransactionEffects.Elsewhere(old(store.tables), store.tables,
                                           ExpiredRows(old(store.tables), r, scope, now), r)
    {
      hide LiveBudgets;
      var db := store.tables;
      var expired := set id | id in db.permits && db.permits[id].reservation == r && db.permits[id].scope == scope &&
        db.permits[id].state == Authorized && db.permits[id].expires <= now;
      assert expired == ExpiredRows(db, r, scope, now);
      retired := |expired|;
      if expired != {} {
        store.tables := db.(permits := db.permits - expired);
        var live := LiveTotal(r);
        SetBudget(r, live);
      }
      TransactionEffects.RetirementLeavesNoneLapsed(db, now, r, scope);
    }
  }

  lemma ReservationIsThere(db: Database, r: ReservationId, scope: Scope)
    requires RequireReservation(db, r, scope) == Pass
    ensures db.Active(r) && r in db.reservations
  {
  }

  lemma PackHasSeason(p: Permit, media: MediaKey)
    requires PackOfSeason(p, media)
    ensures media.SeasonMedia?
  {
  }

  lemma ServersAreRows(db: Database, r: ReservationId, episodes: map<Scope, seq<string>>)
    ensures forall id | ServesSome(db, id, r, episodes) :: id in db.permits
  {
  }

  lemma SupersedeNone(permits: map<PermitId, Permit>)
    ensures SupersedeAll(permits, []) == permits
  {
  }

  lemma SupersedeNext(permits: map<PermitId, Permit>, ids: seq<PermitId>, i: nat)
    requires i < |ids|
    ensures var now, next := SupersedeAll(permits, ids[..i]), SupersedeAll(permits, ids[..i + 1]);
      next == if ids[i] in now && now[ids[i]].state == Confirmed
              then now[ids[i] := now[ids[i]].(state := Superseded)] else now
  {
    assert ids[..i + 1] == ids[..i] + [ids[i]];
  }

  function Least(a: nat, b: nat): nat { if a < b then a else b }

  function Greatest(a: nat, b: nat): nat { if a < b then b else a }

  ghost function BudgetsOf(db: Database, done: set<PermitId>, h: InfoHash): set<nat>
    requires done <= db.permits.Keys
  {
    set id | id in done && db.permits[id].infohash == h :: db.permits[id].budget
  }

  ghost function HashesOf(db: Database, done: set<PermitId>): set<InfoHash>
    requires done <= db.permits.Keys
  {
    set id | id in done :: db.permits[id].infohash
  }

  /** `byHash` after the rows in `done`: the queue's own numbers, or the largest budget of a hash it does not report. */
  ghost predicate FoldedOver(db: Database, e: PoolEvidence, done: set<PermitId>, byHash: map<InfoHash, nat>) {
    && done <= db.permits.Keys
    && byHash.Keys == e.remaining.Keys + HashesOf(db, done)
    && (forall h | h in byHash ::
          byHash[h] == if h in e.remaining then e.remaining[h] else Largest(BudgetsOf(db, done, h)))
  }

  lemma LargestWith(s: set<nat>, x: nat)
    ensures Largest(s + {x}) == Greatest(Largest(s), x)
  {
  }

  lemma HashesWith(db: Database, done: set<PermitId>, id: PermitId)
    requires done <= db.permits.Keys && id in db.permits
    ensures HashesOf(db, done + {id}) == HashesOf(db, done) + {db.permits[id].infohash}
    ensures db.permits[id].infohash !in HashesOf(db, done) ==> BudgetsOf(db, done, db.permits[id].infohash) == {}
  {
  }

  lemma LargestAfter(db: Database, done: set<PermitId>, id: PermitId, h: InfoHash)
    requires done <= db.permits.Keys && id in db.permits
    ensures Largest(BudgetsOf(db, done + {id}, h)) ==
      if h == db.permits[id].infohash then Greatest(Largest(BudgetsOf(db, done, h)), db.permits[id].budget)
      else Largest(BudgetsOf(db, done, h))
  {
    if h == db.permits[id].infohash {
      assert BudgetsOf(db, done + {id}, h) == BudgetsOf(db, done, h) + {db.permits[id].budget};
      LargestWith(BudgetsOf(db, done, h), db.permits[id].budget);
    } else {
      assert BudgetsOf(db, done + {id}, h) == BudgetsOf(db, done, h);
    }
  }

  lemma FoldOverNone(db: Database, e: PoolEvidence, rows: set<PermitId>)
    ensures FoldedOver(db, e, rows - rows, e.remaining)
  {
    assert rows - rows == {};
  }

  lemma TakenOne(rows: set<PermitId>, rest: set<PermitId>, id: PermitId)
    requires id in rest && rest <= rows
    ensures rows - (rest - {id}) == rows - rest + {id}
  {
  }

  lemma FoldOne(db: Database, e: PoolEvidence, done: set<PermitId>, byHash: map<InfoHash, nat>, id: PermitId,
                after: map<InfoHash, nat>)
    requires FoldedOver(db, e, done, byHash) && id in db.permits
    requires var h, budget := db.permits[id].infohash, db.permits[id].budget;
      && after.Keys == byHash.Keys + {h}
      && (forall k | k in byHash && k != h :: after[k] == byHash[k])
      && after[h] == Greatest(if h in byHash then byHash[h] else 0,
                              Least(budget, if h in e.remaining then e.remaining[h] else budget))
    ensures FoldedOver(db, e, done + {id}, after)
  {
    hide BudgetsOf, HashesOf, Largest;
    var h := db.permits[id].infohash;
    HashesWith(db, done, id);
    NoneIsLargest();
    assert after.Keys == e.remaining.Keys + HashesOf(db, done + {id});
    forall k | k in after
      ensures after[k] == if k in e.remaining then e.remaining[k] else Largest(BudgetsOf(db, done + {id}, k))
    {
      LargestAfter(db, done, id, k);
    }
  }

  lemma NoneIsLargest()
    ensures Largest({}) == 0
  {
  }

  /** The fold over the counted rows, in whatever order, is the closed form. */
  lemma FoldIsCommitments(db: Database, e: PoolEvidence, pool: PoolId, now: int, byHash: map<InfoHash, nat>)
    requires FoldedOver(db, e, CountedRows(db, pool, now), byHash)
    ensures byHash == Commitments(db, e, pool, now)
  {
    hide Largest;
    forall h | h in byHash ensures BudgetsOf(db, CountedRows(db, pool, now), h) == CountedBudgets(db, pool, now, h) { }
  }
}
