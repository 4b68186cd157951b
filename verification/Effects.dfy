/** What each transaction achieves for its caller, seen through lookups, later checks and totals. */
module TransactionEffects {
  import opened Options
  import opened Sums
  import opened Tables
  import opened Transactions
  import opened Soundness
  import opened LedgerRuns
  import CapacitySafety

  /** The one live source of a slot. */
  ghost predicate IsSource(db: Database, id: PermitId, r: ReservationId, scope: Scope) {
    db.Covers(id, r, scope) && forall other | db.Covers(other, r, scope) :: other == id
  }

  lemma CoveringIsSource(db: Database, id: PermitId, r: ReservationId, scope: Scope)
    requires Sound(db) && db.Covers(id, r, scope)
    ensures IsSource(db, id, r, scope)
  {
    forall other | db.Covers(other, r, scope) ensures other == id { CoverIsUnique(db, other, id, r, scope); }
  }

  /** Nothing but these permits and the charge of this reservation differs. */
  ghost predicate Elsewhere(db: Database, after: Database, ids: set<PermitId>, r: ReservationId) {
    && (forall id | id !in ids :: id in after.permits <==> id in db.permits)
    && (forall id | id !in ids && id in db.permits :: after.permits[id] == db.permits[id])
    && (forall k | k in db.reservations && k != r ::
          k in after.reservations && after.reservations[k] == db.reservations[k])
  }

  // ---- Admission ----

  lemma IssuedTables(db: Database, now: int, a: IssueRequest)
    requires Issue(db, now, a).Ok?
    ensures var after := Issue(db, now, a).value;
      && a.id !in db.permits && after.Covers(a.id, a.reservation, a.scope)
      && Elsewhere(db, after, {a.id}, a.reservation)
      && a.reservation in db.reservations && a.reservation in after.reservations
      && after.reservations[a.reservation].budget == a.budget + db.LiveBytes(a.reservation)
      && after.permits[a.id].infohash == a.infohash && after.permits[a.id].expires == a.expires
      && after.permits[a.id].files == a.files && after.permits[a.id].digest == a.digest
      && after.permits[a.id].state == Authorized && after.permits[a.id].budget == a.budget
  {
    hide SelectPool, SlotHasSuperseded, SlotHasPrimary, LiveBudgets;
  }

  /** The issued permit is the one source of its slot, its bytes are charged on top, and all else stays. */
  lemma IssueFillsSlot(db: Database, now: int, a: IssueRequest)
    requires Sound(db) && Issue(db, now, a).Ok?
    ensures var after := Issue(db, now, a).value;
      && IsSource(after, a.id, a.reservation, a.scope) && Elsewhere(db, after, {a.id}, a.reservation)
      && a.reservation in after.reservations
      && after.reservations[a.reservation].budget == a.budget + db.LiveBytes(a.reservation)
      && (forall pool | pool in a.capacity && a.id in after.permits && after.permits[a.id].pool == pool ::
            PendingBytes(db, a.capacity[pool], pool, now) + a.budget <= a.capacity[pool].free)
  {
    IssuedTables(db, now, a);
    IssueKeepsSound(db, now, a);
    var row, charge := IssueSteps(db, now, a);
    IssueRowStays(db, a, row, charge);
    hide Issue, Sound, PendingBytes, LiveBudgets;
    CoveringIsSource(Issue(db, now, a).value, a.id, a.reservation, a.scope);
  }

  lemma IssueRowStays(db: Database, a: IssueRequest, row: Permit, charge: nat)
    ensures var after := WithBudget(db.(permits := db.permits[a.id := row]), a.reservation, charge);
      a.id in after.permits && after.permits[a.id] == row
  {
  }

  /** A probe joins the slot beside its parent, which stays the slot's source. */
  lemma ProbeJoinsSlot(db: Database, now: int, a: SourceRequest)
    requires Sound(db) && IssueProbe(db, now, a).Ok?
    ensures a.prior in db.permits
    ensures var after := IssueProbe(db, now, a).value;
      var prior := db.permits[a.prior];
      && a.id !in db.permits && a.id in after.permits && after.permits[a.id].Live()
      && after.permits[a.id].parent == Some(a.prior) && after.permits[a.id].SameSlot(prior)
      && after.permits[a.id].infohash == a.infohash && after.permits[a.id].budget == a.budget
      && Elsewhere(db, after, {a.id}, prior.reservation)
      && IsSource(after, a.prior, prior.reservation, prior.scope)
  {
    ProbedTables(db, now, a);
    IssueProbeKeepsSound(db, now, a);
    hide IssueProbe, Sound;
    CoveringIsSource(IssueProbe(db, now, a).value, a.prior, db.permits[a.prior].reservation, db.permits[a.prior].scope);
  }

  lemma ProbedTables(db: Database, now: int, a: SourceRequest)
    requires IssueProbe(db, now, a).Ok?
    ensures a.prior in db.permits
    ensures var after := IssueProbe(db, now, a).value;
      var prior := db.permits[a.prior];
      && a.id !in db.permits && a.id in after.permits && after.permits[a.id].Live()
      && after.permits[a.id].parent == Some(a.prior) && after.permits[a.id].SameSlot(prior)
      && after.permits[a.id].infohash == a.infohash && after.permits[a.id].budget == a.budget
      && Elsewhere(db, after, {a.id}, prior.reservation)
      && after.Covers(a.prior, prior.reservation, prior.scope)
  {
    hide IssueProbe, SelectPool, HasLiveProbe, SourceTried, HeldBudgets;
    var row := ProbeChecks(db, now, a);
  }

  /** The new source takes the slot; the old one stays as history and covers nothing. */
  lemma ReplacementTakesSlot(db: Database, now: int, a: SourceRequest)
    requires Sound(db) && ReplaceConfirmed(db, now, a).Ok?
    ensures a.prior in db.permits
    ensures var after := ReplaceConfirmed(db, now, a).value;
      var prior := db.permits[a.prior];
      && a.prior in after.permits && after.permits[a.prior] == prior.(state := Superseded)
      && Elsewhere(db, after, {a.id, a.prior}, prior.reservation)
      && IsSource(after, a.id, prior.reservation, prior.scope)
      && after.permits[a.id].infohash == a.infohash && after.permits[a.id].budget == a.budget
  {
    ReplacedTables(db, now, a);
    ReplaceKeepsSound(db, now, a);
    hide ReplaceConfirmed, Sound;
    var prior := db.permits[a.prior];
    CoveringIsSource(ReplaceConfirmed(db, now, a).value, a.id, prior.reservation, prior.scope);
  }

  lemma ReplacedTables(db: Database, now: int, a: SourceRequest)
    requires ReplaceConfirmed(db, now, a).Ok?
    ensures a.prior in db.permits
    ensures var after := ReplaceConfirmed(db, now, a).value;
      var prior := db.permits[a.prior];
      && a.prior in after.permits && after.permits[a.prior] == prior.(state := Superseded)
      && Elsewhere(db, after, {a.id, a.prior}, prior.reservation)
      && after.Covers(a.id, prior.reservation, prior.scope)
      && after.permits[a.id].infohash == a.infohash && after.permits[a.id].budget == a.budget
  {
    hide SelectPool, SupersededHashes, AllPaused, IdentityFits, HashLiveElsewhere, SlotHasPrimary, LiveBudgets;
  }

  /** Until its new expiry a renewed permit is not refused as expired; before, the payload check would have. */
  lemma RenewalStaysValid(db: Database, now: int, id: PermitId, capacity: Capacity, expires: int, placed: bool,
                          later: int, a: Payload)
    requires Renew(db, now, id, capacity, expires, placed).Ok?
    ensures var after := Renew(db, now, id, capacity, expires, placed).value;
      && id in db.permits && id in after.permits
      && (ValidatePayload(after.permits[id], id, later, a) == Fail(PermitExpired) <==> later >= expires)
      && now < expires && SameIdentity(db.permits[id], after.permits[id]) && after.permits[id].state == Authorized
      && (forall k | k in db.permits && k != id :: k in after.permits && after.permits[k] == db.permits[k])
  {
    assert now < expires;
    hide Renew, PendingBytes;
    var p, e := CapacitySafety.RenewSteps(db, now, id, capacity, expires, placed);
  }

  // ---- Season packs and handovers ----

  /** Every bound episode now has the season pack as its one source, and the replaced sources are history. */
  lemma BindingServesEpisodes(db: Database, now: int, a: BindRequest, scope: Scope)
    requires Sound(db) && BindSeasonPack(db, now, a).Ok? && scope in a.episodes
    ensures a.id in db.permits && IsSource(BindSeasonPack(db, now, a).value, a.id, db.permits[a.id].reservation, scope)
    ensures forall t | t in a.replaced && t in db.permits ::
      var after := BindSeasonPack(db, now, a).value;
      t in after.permits && (db.permits[t].state == Confirmed ==> after.permits[t].state == Superseded)
  {
    BoundTables(db, now, a);
    BindKeepsSound(db, now, a);
    hide BindSeasonPack, Sound;
    CoveringIsSource(BindSeasonPack(db, now, a).value, a.id, db.permits[a.id].reservation, scope);
  }

  lemma BoundTables(db: Database, now: int, a: BindRequest)
    requires BindSeasonPack(db, now, a).Ok?
    ensures a.id in db.permits
    ensures var after := BindSeasonPack(db, now, a).value;
      && (forall scope | scope in a.episodes :: after.Covers(a.id, db.permits[a.id].reservation, scope))
      && (forall t | t in a.replaced && t in db.permits :: t in after.permits &&
            (db.permits[t].state == Confirmed ==> after.permits[t].state == Superseded))
  {
    hide HistoryStopped, PendingBytes, RequireReservation, HeldBudgets, HashLiveElsewhere, ServesSome, PackOfSeason,
      ReplacementsFit;
    if a.replaced != [] {
      UnusedPackIsAuthorized(db, now, a);
    }
  }

  lemma UnusedPackIsAuthorized(db: Database, now: int, a: BindRequest)
    requires a.id in db.permits && ReplacementsFit(db, now, a).Pass?
    ensures db.permits[a.id].state == Authorized
  {
    hide HistoryStopped, PendingBytes, RequireReservation, AllReplacedFit;
  }

  /** The probe becomes the slot's source, and its parent is history that still holds its bytes. */
  lemma PromotionHandsOver(db: Database, id: PermitId)
    requires Sound(db) && PromoteProbe(db, id).Ok?
    ensures id in db.permits && db.permits[id].parent.Some?
    ensures var after, p, parent := PromoteProbe(db, id).value, db.permits[id], db.permits[id].parent.value;
      && IsSource(after, id, p.reservation, p.scope)
      && parent in after.permits && after.permits[parent].state == Superseded && after.HandingOver(parent)
      && Elsewhere(db, after, {id, parent}, p.reservation)
  {
    PromotedTables(db, id);
    PromoteKeepsSound(db, id);
    hide PromoteProbe, Sound;
    CoveringIsSource(PromoteProbe(db, id).value, id, db.permits[id].reservation, db.permits[id].scope);
  }

  lemma PromotedTables(db: Database, id: PermitId)
    requires PromoteProbe(db, id).Ok?
    ensures id in db.permits && db.permits[id].parent.Some?
    ensures var after, p, parent := PromoteProbe(db, id).value, db.permits[id], db.permits[id].parent.value;
      && after.Covers(id, p.reservation, p.scope)
      && parent in after.permits && after.permits[parent].state == Superseded && after.HandingOver(parent)
      && Elsewhere(db, after, {id, parent}, p.reservation)
  {
    hide RequireReservation, SlotHasPrimary, HeldBudgets;
    assert id in PromoteProbe(db, id).value.handovers;
  }

  /** A rejected probe no longer lives, so its parent may be given another one. */
  lemma RejectionFreesParent(db: Database, id: PermitId)
    requires Sound(db) && RejectProbe(db, id).Ok?
    ensures id in db.permits && db.permits[id].parent.Some?
    ensures var after := RejectProbe(db, id).value;
      && id in after.permits && !after.permits[id].Live()
      && (db.permits[id].Live() ==> !HasLiveProbe(after, db.permits[id].parent.value))
      && Elsewhere(db, after, {id}, db.permits[id].reservation)
  {
    hide Sound, HeldBudgets, HasLiveProbe;
    if db.permits[id].Live() {
      OnlyProbeGone(db, id, RejectProbe(db, id).value);
    }
  }

  lemma OnlyProbeGone(db: Database, id: PermitId, after: Database)
    requires Sound(db) && id in db.permits && db.permits[id].Live() && db.permits[id].parent.Some?
    requires after.permits == db.permits[id := db.permits[id].(state := ProbeRejected)]
    ensures !HasLiveProbe(after, db.permits[id].parent.value)
  {
    hide Sound;
    SoundParts(db);
    forall n | n in db.permits && n != id ensures !RivalProbes(db.permits[id], db.permits[n]) { }
  }

  /** The handover is over, and the reservation is charged with what it then still holds. */
  lemma CompletionReleasesParent(db: Database, id: PermitId)
    requires Sound(db) && id in db.handovers
    ensures id in db.permits
    ensures var after := CompleteHandover(db, id).value;
      && id in after.handovers && !after.handovers[id].pending
      && ((forall c | c in db.handovers && db.handovers[c].parent == db.handovers[id].parent :: c == id) ==>
            !after.HandingOver(db.handovers[id].parent))
      && (db.permits[id].reservation in after.reservations ==>
            after.reservations[db.permits[id].reservation].budget == after.HeldBytes(db.permits[id].reservation))
      && after.permits == db.permits
  {
    hide Sound, HeldBudgets, RowsSound, SlotsUnique, SourcesDistinct, BindingsSound, CoverUnique, ImportsExclusive;
    SoundParts(db);
    assert HandoverSound(db, id, db.handovers[id]);
  }

  // ---- Releasing ----

  /** A cancelled admission leaves no trace: no row, no bindings, and its bytes are no longer charged. */
  lemma CancellationLeavesNothing(db: Database, id: PermitId)
    requires CancelAuthorized(db, id).Ok?
    ensures id in db.permits
    ensures var after := CancelAuthorized(db, id).value;
      && id !in after.permits && id !in after.bindings
      && Elsewhere(db, after, {id}, db.permits[id].reservation)
      && (db.permits[id].reservation in after.reservations ==>
            after.reservations[db.permits[id].reservation].budget == after.LiveBytes(db.permits[id].reservation))
      && after.LiveBytes(db.permits[id].reservation) + db.permits[id].budget == db.LiveBytes(db.permits[id].reservation)
  {
    var r := db.permits[id].reservation;
    var removed := db.(permits := db.permits - {id}, bindings := db.bindings - {id});
    assert LiveBudgets(removed.permits, r) == LiveBudgets(db.permits, r) - {id};
    SumTakeOut(LiveBudgets(db.permits, r), id);
    hide LiveBudgets;
  }

  /** No lapsed admission remains in the slot, and only such ones went. */
  lemma RetirementLeavesNoneLapsed(db: Database, now: int, r: ReservationId, scope: Scope)
    ensures var after := RetireExpired(db, now, r, scope).value;
      && ExpiredRows(after, r, scope, now) == {}
      && Elsewhere(db, after, ExpiredRows(db, r, scope, now), r)
      && (forall id | id in db.permits && id !in after.permits ::
            db.permits[id].state == Authorized && db.permits[id].expires <= now)
  {
    hide LiveBudgets;
  }
}
