/**
 What dispatching, promoting, reconciling and cancelling are refused for, and
 what a reservation and an import may claim, said of the tables alone.
 */
module StartChecks {
  import opened Options
  import opened Sums
  import opened Tables
  import opened Transactions
  import opened AdmissionChecks
  import opened PackChecks

  // ---- `authorize` ----

  /** The dispatch is of another torrent, to another place, or of other metadata than was permitted. */
  function Mismatch(p: Permit, id: PermitId, a: Payload): Option<Refusal> {
    if a.infohash != p.infohash || a.destination != id then Some(PayloadMismatch)
    else if a.digest == p.digest then None
    else if p.digest == None then Some(MetadataMissing)
    else Some(MetadataMismatch)
  }

  /** Some episode of the season is deleted, whether the season pack serves it or not. */
  ghost predicate SeasonTouched(db: Database, media: MediaKey) {
    match media
    case SeasonMedia(tmdb, season) => exists n: nat :: EpisodeMedia(tmdb, Episode(season, n)) in db.tombstones
    case _ => false
  }

  ghost function PackObstacle(db: Database, id: PermitId, p: Permit, placed: bool, named: bool): Option<Refusal> {
    if Closure(db, p.reservation, p.scope).Some? then Closure(db, p.reservation, p.scope)
    else
      var media := db.reservations[p.reservation].media;
      if !IsSeasonsPack(p.scope, media) || p.category != Sonarr then Some(PackIdentityChanged)
      else if !Divided(db, id) then Some(PackBindingsRequired)
      else if !Divides(p, db.bindings[id], placed, named) then Some(InvalidBindings)
      else if SeasonTouched(db, media) then Some(MediaTombstoned)
      else None
  }

  /** What stands between a permit and its effect, or the answer it stored. */
  ghost function StartObstacle(db: Database, now: int, id: PermitId, a: Payload, placed: bool, named: bool)
    : Option<Refusal>
  {
    if id !in db.permits then Some(PermitRequired)
    else
      var p := db.permits[id];
      if p.expires <= now then Some(PermitExpired)
      else if Mismatch(p, id, a).Some? then Mismatch(p, id, a)
      else if p.parent != None && Closure(db, p.reservation, p.scope).Some? then Closure(db, p.reservation, p.scope)
      else if p.scope.Pack? && PackObstacle(db, id, p, placed, named).Some? then PackObstacle(db, id, p, placed, named)
      else if p.state == Authorized || (p.state == Confirmed && p.reply != None) then None
      else Some(NotAuthorized)
  }

  lemma PackFits(db: Database, id: PermitId, p: Permit, placed: bool, named: bool)
    ensures RequirePack(db, id, p, placed, named) == AsCheck(PackObstacle(db, id, p, placed, named))
  {
    hide RequireReservation, Closure, BindingsFit, Divides, PackOfSeason, IsSeasonsPack;
    ClosureIsRequired(db, p.reservation, p.scope);
    if Closure(db, p.reservation, p.scope).None? {
      OpenUnlessClosed(db, p.reservation, p.scope);
      SeasonFits(p, db.reservations[p.reservation].media);
      if id in db.bindings { DivisionFits(p, db.bindings[id], placed, named); }
      SeasonOf(p.scope, db.reservations[p.reservation].media);
    }
  }

  lemma OpenUnlessClosed(db: Database, r: ReservationId, scope: Scope)
    requires Closure(db, r, scope).None?
    ensures r in db.reservations && Open(db, r)
  {
  }

  lemma SeasonOf(scope: Scope, media: MediaKey)
    ensures IsSeasonsPack(scope, media) ==> media.SeasonMedia?
  {
  }

  lemma StartAnswers(db: Database, now: int, id: PermitId, a: Payload, placed: bool, named: bool)
    ensures Answers(StartObstacle(db, now, id, a, placed, named), BeginOutcome(db, now, id, a, placed, named))
    ensures var outcome := BeginOutcome(db, now, id, a, placed, named);
      outcome.Ok? ==> && id in db.permits
                      && outcome.value == if db.permits[id].state == Confirmed then db.permits[id].reply else None
  {
    hide RequireReservation, Closure, RequirePack, PackObstacle;
    if id in db.permits {
      var p := db.permits[id];
      ClosureIsRequired(db, p.reservation, p.scope);
      PackFits(db, id, p, placed, named);
    }
  }

  /** What starts, or is answered again, is unexpired and for the torrent, place and metadata that were permitted. */
  lemma StartIsOfThePermit(db: Database, now: int, id: PermitId, a: Payload, placed: bool, named: bool)
    requires BeginOutcome(db, now, id, a, placed, named).Ok?
    ensures id in db.permits
    ensures var p := db.permits[id];
      now < p.expires && a.infohash == p.infohash && a.destination == id && a.digest == p.digest
  {
    hide BeginOutcome, Closure, PackObstacle;
    StartAnswers(db, now, id, a, placed, named);
  }

  /** For an authorized permit that is neither a probe nor a season pack nothing else is asked. */
  lemma PlainPermitStartsExactly(db: Database, now: int, id: PermitId, a: Payload, placed: bool, named: bool)
    requires id in db.permits && db.permits[id].state == Authorized
    requires db.permits[id].parent == None && !db.permits[id].scope.Pack?
    ensures var p := db.permits[id];
      BeginOutcome(db, now, id, a, placed, named) == Ok(None) <==>
        now < p.expires && a.infohash == p.infohash && a.destination == id && a.digest == p.digest
  {
    hide BeginOutcome, Closure, PackObstacle;
    StartAnswers(db, now, id, a, placed, named);
  }

  lemma BeginWrites(db: Database, now: int, id: PermitId, a: Payload, placed: bool, named: bool)
    requires BeginOutcome(db, now, id, a, placed, named).Ok?
    ensures id in db.permits
    ensures Begin(db, now, id, a, placed, named) ==
            Ok(if db.permits[id].state == Confirmed then db
               else db.(permits := db.permits[id := db.permits[id].(state := Dispatching)]))
  {
    hide BeginOutcome, Closure, PackObstacle;
    StartAnswers(db, now, id, a, placed, named);
  }

  // ---- `promote_probe` ----

  ghost function PromoteObstacle(db: Database, id: PermitId): Option<Refusal> {
    if id !in db.permits || db.permits[id].state != Confirmed || db.permits[id].parent == None
    then Some(ConfirmedProbeRequired)
    else
      var p, parent := db.permits[id], db.permits[id].parent.value;
      if Closure(db, p.reservation, p.scope).Some? then Closure(db, p.reservation, p.scope)
      else if ImportBegun(db, p.reservation, parent) then Some(ImportStarted)
      else if parent !in db.permits || db.permits[parent].state != Confirmed || db.permits[parent].parent != None
      then Some(PrimarySourceChanged)
      else if id in db.handovers then Some(HandoverExists)
      else if Taken(db, p.reservation, p.scope, {parent}) then Some(SlotTaken)
      else None
  }

  lemma SteppedDown(db: Database, parent: PermitId, handovers: map<PermitId, Handover>, r: ReservationId, scope: Scope)
    requires parent in db.permits
    ensures SlotHasPrimary(WithState(db, parent, Superseded).(handovers := handovers), r, scope) <==>
            Taken(db, r, scope, {parent})
  {
    var stepped := WithState(db, parent, Superseded).(handovers := handovers);
    forall k | k in db.permits && k != parent ensures stepped.permits[k] == db.permits[k] { }
  }

  lemma PromoteAnswers(db: Database, id: PermitId)
    ensures Answers(PromoteObstacle(db, id), PromoteProbe(db, id))
  {
    hide RequireReservation, Closure, SlotHasPrimary, Taken, HeldBudgets, WithBudget;
    if id in db.permits && db.permits[id].parent.Some? {
      var p, parent := db.permits[id], db.permits[id].parent.value;
      ClosureIsRequired(db, p.reservation, p.scope);
      if parent in db.permits {
        SteppedDown(db, parent, db.handovers[id := Handover(parent, true)], p.reservation, p.scope);
      }
    }
  }

  /** The parent is history, the probe is the primary, the handover is pending, and both are charged. */
  lemma PromoteWrites(db: Database, id: PermitId)
    requires PromoteProbe(db, id).Ok?
    ensures id in db.permits && db.permits[id].parent.Some? && db.permits[id].parent.value in db.permits
    ensures var p, parent, after := db.permits[id], db.permits[id].parent.value, PromoteProbe(db, id).value;
      && after.permits == db.permits[parent := db.permits[parent].(state := Superseded)][id := p.(parent := None)]
      && after.handovers == db.handovers[id := Handover(parent, true)]
      && Recharged(db.(handovers := after.handovers), after, p.reservation,
                   Sum(AdmissionChecks.HeldBytes(after, p.reservation)))
  {
    hide RequireReservation, SlotHasPrimary, HeldBudgets, AdmissionChecks.HeldBytes, Recharged, WithBudget;
    var p, parent := db.permits[id], db.permits[id].parent.value;
    var promoted := db.(
      permits := db.permits[parent := db.permits[parent].(state := Superseded)][id := p.(parent := None)],
      handovers := db.handovers[id := Handover(parent, true)]);
    assert PromoteProbe(db, id) == Ok(WithBudget(promoted, p.reservation, promoted.HeldBytes(p.reservation)));
    hide PromoteProbe;
    var charge := promoted.HeldBytes(p.reservation);
    ChargesAre(promoted, p.reservation);
    ChargingKeepsBytes(promoted, p.reservation, charge);
    ChargedAfterHandover(db, promoted, WithBudget(promoted, p.reservation, charge), p.reservation, charge);
  }

  lemma ChargedAfterHandover(db: Database, mid: Database, after: Database, r: ReservationId, charge: nat)
    requires Recharged(mid, after, r, charge) && mid == db.(permits := mid.permits, handovers := mid.handovers)
    ensures Recharged(db.(handovers := after.handovers), after, r, charge) && after.handovers == mid.handovers
  {
  }

  // ---- `confirm_reconciled_source` ----

  ghost function ReconcileObstacle(db: Database, id: PermitId): Option<Refusal> {
    if id !in db.permits || !Running(db.permits[id]) then Some(ReconcilableSourceRequired)
    else
      var p := db.permits[id];
      if p.state == Authorized && p.parent == None && !Replaced(db, p.reservation, p.scope)
      then Some(ReplacementPermitRequired)
      else if !Open(db, p.reservation) || !RightOwner(p, db.reservations[p.reservation].media)
      then Some(ActiveSourceReservationRequired)
      else if p.state == Confirmed && p.reply != Some(Accepted(p.infohash)) then Some(ConfirmedResultMismatch)
      else None
  }

  lemma ReconcileAnswers(db: Database, id: PermitId)
    ensures Answers(ReconcileObstacle(db, id), Reconcile(db, id))
    ensures Reconcile(db, id).Ok? ==>
      && id in db.permits
      && var p := db.permits[id];
      && Reconcile(db, id).value.permits ==
         db.permits[id := p.(state := Confirmed, reply := Some(Accepted(p.infohash)))]
      && Reconcile(db, id).value == db.(permits := Reconcile(db, id).value.permits)
  {
  }

  // ---- Reservations ----

  ghost function ReserveObstacle(db: Database, id: ReservationId, request: RequestId, media: MediaKey)
    : Option<Refusal>
  {
    if media in db.tombstones then Some(MediaDeleted)
    else if exists r :: r in db.reservations && db.reservations[r].request == request then Some(AlreadyReserved)
    else if exists r :: r in db.reservations && db.reservations[r].media == media then Some(AlreadyReserved)
    else if id in db.reservations || exists p :: p in db.permits && db.permits[p].reservation == id
    then Some(IdentifierTaken)
    else None
  }

  lemma ReserveAnswers(db: Database, id: ReservationId, request: RequestId, media: MediaKey)
    ensures Answers(ReserveObstacle(db, id, request, media), Reserve(db, id, request, media))
    ensures var outcome := Reserve(db, id, request, media);
      outcome.Ok? ==>
        && outcome.value == db.(reservations := outcome.value.reservations, requests := outcome.value.requests)
        && outcome.value.reservations == db.reservations[id := Reservation(request, media, Reserved, 0)]
        && outcome.value.requests == db.requests[request := ReservedRequest]
  {
  }

  predicate WasDispatched(s: State) {
    match s
    case Authorized | Revoked => false
    case Dispatching | Unknown | Confirmed | Superseded | ProbeRejected => true
  }

  /** Some permit of the reservation got further than being authorized. */
  ghost predicate Started(db: Database, r: ReservationId) {
    exists id :: id in db.permits && db.permits[id].reservation == r && WasDispatched(db.permits[id].state)
  }

  ghost function CancelObstacle(db: Database, r: ReservationId): Option<Refusal> {
    if r !in db.reservations then Some(NotFound)
    else
      match db.reservations[r].state
      case CancelledReservation => Some(AlreadyCancelled)
      case Reserved | Downloading => None
      case _ => Some(NotCancellable)
  }

  /** A started download only marks its request; otherwise no permit of the reservation stays authorized. */
  lemma CancelAnswers(db: Database, r: ReservationId)
    ensures Answers(CancelObstacle(db, r), CancelUnstarted(db, r))
    ensures var outcome := CancelUnstarted(db, r);
      outcome.Ok? ==>
        && r in db.reservations
        && var after, request := outcome.value, db.reservations[r].request;
        && after == db.(permits := after.permits, reservations := after.reservations, requests := after.requests)
        && after.requests == db.requests[request := if Started(db, r) then CancelRequested else CancelledRequest]
        && after.reservations == (if Started(db, r) then db.reservations
                                  else db.reservations[r := db.reservations[r].(state := CancelledReservation)])
        && after.permits.Keys == db.permits.Keys
        && (forall id | id in db.permits ::
              after.permits[id] == if !Started(db, r) && db.permits[id].reservation == r &&
                                      db.permits[id].state == Authorized
                                   then db.permits[id].(state := Revoked) else db.permits[id])
  {
    forall s: State ensures WasDispatched(s) <==> s !in {Authorized, Revoked} { }
    hide WasDispatched;
    assert DownloadStarted(db, r) <==> Started(db, r);
    hide DownloadStarted, Started;
  }

  // ---- Imports ----

  /** Whether an import in this state keeps one of this kind from being claimed. */
  predicate InTheWay(s: ImportState, copy: bool) {
    match s
    case Complete => false
    case Submitted => copy
    case Sending | SendingCopy | SubmittedCopy => true
  }

  ghost predicate Obstructed(db: Database, copy: bool) {
    || (exists r :: r in db.movieImports && InTheWay(db.movieImports[r], copy))
    || (exists k :: k in db.episodeImports && InTheWay(db.episodeImports[k], copy))
  }

  lemma ClaimAnswers(db: Database, r: ReservationId, k: ImportKey, copy: bool)
    ensures Answers(
      if r !in db.reservations || db.reservations[r].state !in {Reserved, Downloading} then Some(ReservationRequired)
      else if Obstructed(db, copy) then Some(ImportPending)
      else if r in db.movieImports then Some(ImportClaimed) else None, ClaimMovie(db, r, copy))
    ensures Answers(
      if Obstructed(db, copy) then Some(ImportPending)
      else if k in db.episodeImports then Some(ImportClaimed) else None, ClaimEpisode(db, k, copy))
    ensures var sent := if copy then SendingCopy else Sending;
      && (ClaimMovie(db, r, copy).Ok? ==>
            ClaimMovie(db, r, copy).value == db.(movieImports := db.movieImports[r := sent]))
      && (ClaimEpisode(db, k, copy).Ok? ==>
            ClaimEpisode(db, k, copy).value == db.(episodeImports := db.episodeImports[k := sent]))
  {
    forall s: ImportState ensures Blocks(s, copy) <==> InTheWay(s, copy) { }
    hide Blocks, InTheWay;
    assert ImportPendingNow(db, copy) <==> Obstructed(db, copy);
    hide ImportPendingNow, Obstructed;
  }

  /** One step of an import: what was sent is submitted, and what was submitted is complete. */
  function Stepped(s: ImportState): ImportState {
    match s
    case Sending => Submitted
    case SendingCopy => SubmittedCopy
    case _ => Complete
  }

  /** Recording moves what was being sent, completing what was submitted, and neither anything else. */
  lemma ImportsStep(db: Database, r: ReservationId, k: ImportKey)
    ensures RecordMovie(db, r) == Ok(
      if r in db.movieImports && db.movieImports[r] in {Sending, SendingCopy}
      then db.(movieImports := db.movieImports[r := Stepped(db.movieImports[r])]) else db)
    ensures RecordEpisode(db, k) == Ok(
      if k in db.episodeImports && db.episodeImports[k] in {Sending, SendingCopy}
      then db.(episodeImports := db.episodeImports[k := Stepped(db.episodeImports[k])]) else db)
    ensures CompleteEpisode(db, k) == Ok(
      if k in db.episodeImports && db.episodeImports[k] in {Submitted, SubmittedCopy}
      then db.(episodeImports := db.episodeImports[k := Complete]) else db)
  {
  }
}
