/** The shape every reachable ledger has, and that each transaction keeps it. */
module Soundness {
  import opened Options
  import opened Tables
  import opened Transactions

  predicate RivalPrimaries(p: Permit, q: Permit) {
    p.Primary() && q.Primary() && p.SameSlot(q)
  }

  predicate RivalProbes(p: Permit, q: Permit) {
    p.Live() && q.Live() && p.parent.Some? && p.parent == q.parent
  }

  /** A slot has at most one live primary, and a primary at most one live probe. */
  ghost predicate SlotsUnique(db: Database) {
    && (forall a, b | a in db.permits && b in db.permits :: !RivalPrimaries(db.permits[a], db.permits[b]) || a == b)
    && (forall a, b | a in db.permits && b in db.permits :: !RivalProbes(db.permits[a], db.permits[b]) || a == b)
  }

  predicate RowLocal(p: Permit) {
    && p.budget > 0
    && (p.quality.Some? ==> |p.quality.value| >= 2)
    && (p.state == Confirmed ==> p.reply.Some?)
    && (p.state in {Authorized, Dispatching, Unknown} ==> p.reply.None?)
    && (p.state == ProbeRejected ==> p.parent.Some?)
  }

  ghost predicate RowSound(db: Database, p: Permit) {
    && RowLocal(p)
    && p.reservation in db.reservations
    && (p.state == Revoked ==> !db.Active(p.reservation))
    && (p.parent.Some? ==>
          var q := p.parent.value;
          && q in db.permits && db.permits[q].SameSlot(p)
          && db.permits[q].parent.None? && db.permits[q].state in {Confirmed, Superseded})
  }

  ghost predicate RowsSound(db: Database) {
    forall id :: id in db.permits ==> RowSound(db, db.permits[id])
  }

  /** No source is tried twice in one slot of an active reservation. */
  ghost predicate SourcesDistinct(db: Database) {
    forall a, b | a in db.permits && b in db.permits && a != b && db.permits[a].SameSlot(db.permits[b]) ::
      !db.Active(db.permits[a].reservation) || db.permits[a].infohash != db.permits[b].infohash
  }

  ghost predicate BindingsSound(db: Database) {
    && (forall id :: id in db.bindings && id in db.permits ==>
          && db.permits[id].scope.Pack? && db.permits[id].parent.None?
          && forall s :: s in db.bindings[id] ==> s.Episode?)
  }

  /** Live permit b has for its own scope one that live pack a binds. */
  ghost predicate OwnAndBound(db: Database, a: PermitId, b: PermitId)
    requires a in db.permits && b in db.permits
  {
    db.permits[b].Live() && db.permits[b].reservation == db.permits[a].reservation &&
    db.ServesByBinding(a, db.permits[b].scope)
  }

  /** An episode bound by a live pack has no other live source, probes included. */
  ghost predicate CoverUnique(db: Database) {
    && (forall a, b | a in db.permits && b in db.permits :: !OwnAndBound(db, a, b))
    && (forall a, b, s | db.ServesByBinding(a, s) && db.ServesByBinding(b, s) ::
          db.permits[a].reservation != db.permits[b].reservation || a == b)
  }

  ghost predicate HandoverSound(db: Database, c: PermitId, h: Handover) {
    && c in db.permits && db.permits[c].parent.None? && db.permits[c].state in {Confirmed, Superseded}
    && h.parent in db.permits && h.parent != c && db.permits[h.parent].state == Superseded
    && db.permits[h.parent].parent.None? && db.permits[h.parent].SameSlot(db.permits[c])
  }

  ghost predicate HandoversSound(db: Database) {
    forall c :: c in db.handovers ==> HandoverSound(db, c, db.handovers[c])
  }

  /** Two imports may be unfinished together only as hardlinks, and only one of them still being sent. */
  predicate Compatible(s: ImportState, t: ImportState) {
    s == Complete || t == Complete ||
    (s in {Sending, Submitted} && t in {Sending, Submitted} && (s == Submitted || t == Submitted))
  }

  ghost predicate ImportsExclusive(db: Database) {
    && (forall a, b :: a in db.movieImports && b in db.movieImports && a != b ==>
          Compatible(db.movieImports[a], db.movieImports[b]))
    && (forall a, b :: a in db.episodeImports && b in db.episodeImports && a != b ==>
          Compatible(db.episodeImports[a], db.episodeImports[b]))
    && (forall a, b :: a in db.movieImports && b in db.episodeImports ==>
          Compatible(db.movieImports[a], db.episodeImports[b]))
  }

  ghost predicate Sound(db: Database) {
    && RowsSound(db)
    && SlotsUnique(db)
    && SourcesDistinct(db)
    && BindingsSound(db)
    && CoverUnique(db)
    && HandoversSound(db)
    && ImportsExclusive(db)
  }

  lemma SoundParts(db: Database)
    requires Sound(db)
    ensures RowsSound(db) && SlotsUnique(db) && SourcesDistinct(db) && BindingsSound(db) && CoverUnique(db)
    ensures HandoversSound(db) && ImportsExclusive(db)
  {
  }

  lemma PartsAreSound(db: Database)
    requires RowsSound(db) && SlotsUnique(db) && SourcesDistinct(db) && BindingsSound(db) && CoverUnique(db)
    requires HandoversSound(db) && ImportsExclusive(db)
    ensures Sound(db)
  {
  }

  // ---- Changes that add no source ----

  predicate SameIdentity(p: Permit, q: Permit) {
    && q.infohash == p.infohash && q.reservation == p.reservation && q.scope == p.scope
    && q.digest == p.digest && q.category == p.category && q.files == p.files && q.budget == p.budget
    && q.pool == p.pool && q.filesystem == p.filesystem
  }

  /** A row kept in place: nothing dead revives, and a confirmed primary at most retires. */
  predicate RowSettles(p: Permit, q: Permit) {
    && SameIdentity(p, q) && q.parent == p.parent && RowLocal(q)
    && (q.Live() ==> p.Live())
    && (p.state == Confirmed && p.parent.None? ==> q.state in {Confirmed, Superseded})
    && (p.state == Superseded && p.parent.None? ==> q.state == Superseded)
  }

  lemma RetiringRowSettles(p: Permit)
    requires RowLocal(p)
    ensures RowSettles(p, p)
    ensures p.state == Confirmed ==> RowSettles(p, p.(state := Superseded))
  {
  }

  ghost predicate RowsSettle(db: Database, after: Database) {
    && (forall id | id in after.permits :: id in db.permits && RowSettles(db.permits[id], after.permits[id]))
    && (forall id | id in db.permits && db.permits[id].state != Authorized :: id in after.permits)
    && (forall id | id in after.permits :: after.permits[id].state != Revoked ||
          !after.Active(after.permits[id].reservation))
  }

  ghost predicate ReservationsSettle(db: Database, after: Database) {
    && db.reservations.Keys <= after.reservations.Keys
    && (forall r | after.Active(r) :: r !in db.reservations || db.Active(r))
  }

  ghost predicate LinksSettle(db: Database, after: Database) {
    && (forall id | id in after.bindings :: id in db.bindings && after.bindings[id] == db.bindings[id])
    && (forall c | c in after.handovers :: c in db.handovers && after.handovers[c].parent == db.handovers[c].parent)
  }

  /** Rows only settle, bindings and handovers only go away or complete, and no reservation revives. */
  ghost predicate Settles(db: Database, after: Database) {
    && RowsSettle(db, after)
    && ReservationsSettle(db, after)
    && LinksSettle(db, after)
    && ImportsExclusive(after)
  }

  lemma SettleParts(db: Database, after: Database)
    requires Settles(db, after)
    ensures RowsSettle(db, after) && ReservationsSettle(db, after) && LinksSettle(db, after) && ImportsExclusive(after)
  {
  }

  lemma SettlingKeepsRows(db: Database, after: Database)
    requires RowsSound(db) && RowsSettle(db, after) && ReservationsSettle(db, after)
    ensures RowsSound(after)
  {
    forall id | id in after.permits ensures RowSound(after, after.permits[id]) {
      var p := after.permits[id];
      assert RowSound(db, db.permits[id]);
      if p.parent.Some? {
        var q := p.parent.value;
        assert q in after.permits && RowSettles(db.permits[q], after.permits[q]);
      }
    }
  }

  lemma SettlingKeepsSlots(db: Database, after: Database)
    requires SlotsUnique(db) && RowsSettle(db, after)
    ensures SlotsUnique(after)
  {
    forall a, b | a in after.permits && b in after.permits && a != b
      ensures !RivalPrimaries(after.permits[a], after.permits[b])
      ensures !RivalProbes(after.permits[a], after.permits[b])
    {
      assert !RivalPrimaries(db.permits[a], db.permits[b]) && !RivalProbes(db.permits[a], db.permits[b]);
    }
  }

  lemma SettlingKeepsSources(db: Database, after: Database)
    requires SourcesDistinct(db) && RowsSound(db) && RowsSettle(db, after) && ReservationsSettle(db, after)
    ensures SourcesDistinct(after)
  {
  }

  lemma SettlingKeepsCover(db: Database, after: Database)
    requires CoverUnique(db) && RowsSettle(db, after) && LinksSettle(db, after)
    ensures CoverUnique(after)
  {
    forall a, b | a in after.permits && b in after.permits ensures !OwnAndBound(after, a, b) {
      assert !OwnAndBound(db, a, b);
    }
    forall a, b, s | after.ServesByBinding(a, s) && after.ServesByBinding(b, s)
      ensures after.permits[a].reservation != after.permits[b].reservation || a == b
    {
      assert db.ServesByBinding(a, s) && db.ServesByBinding(b, s);
    }
  }

  lemma SettlingKeepsLinks(db: Database, after: Database)
    requires HandoversSound(db) && BindingsSound(db) && RowsSettle(db, after) && LinksSettle(db, after)
    ensures HandoversSound(after) && BindingsSound(after)
  {
    forall c | c in after.handovers ensures HandoverSound(after, c, after.handovers[c]) {
      assert HandoverSound(db, c, db.handovers[c]);
    }
  }

  lemma SettlingKeepsSound(db: Database, after: Database)
    requires Sound(db) && Settles(db, after)
    ensures Sound(after)
  {
    hide *;
    SoundParts(db);
    SettleParts(db, after);
    SettlingKeepsRows(db, after);
    SettlingKeepsSlots(db, after);
    SettlingKeepsSources(db, after);
    SettlingKeepsCover(db, after);
    SettlingKeepsLinks(db, after);
    PartsAreSound(after);
  }

  /** Nothing but reservation states, requests and tombstones moves. */
  lemma QuietChangeSettles(db: Database, after: Database)
    requires RowsSound(db) && ReservationsSettle(db, after) && ImportsExclusive(after)
    requires after.permits == db.permits && after.bindings == db.bindings && after.handovers == db.handovers
    ensures Settles(db, after)
  {
    hide RowSettles, RowLocal;
    forall k | k in after.permits
      ensures RowSettles(db.permits[k], after.permits[k])
      ensures after.permits[k].state != Revoked || !after.Active(after.permits[k].reservation)
    {
      assert RowSound(db, db.permits[k]);
      RetiringRowSettles(db.permits[k]);
    }
  }

  lemma RechargingSettles(db: Database, r: ReservationId, budget: nat)
    requires RowsSound(db) && ImportsExclusive(db)
    ensures Settles(db, WithBudget(db, r, budget))
  {
    hide Settles, RowsSound, ImportsExclusive;
    var after := WithBudget(db, r, budget);
    assert after.permits == db.permits && after.bindings == db.bindings && after.handovers == db.handovers;
    SameImportsStayExclusive(db, after);
    assert forall k :: after.Active(k) == db.Active(k);
    QuietChangeSettles(db, after);
  }

  lemma RechargingKeepsSound(db: Database, r: ReservationId, budget: nat)
    requires Sound(db)
    ensures Sound(WithBudget(db, r, budget))
  {
    hide *;
    SoundParts(db);
    RechargingSettles(db, r, budget);
    SettlingKeepsSound(db, WithBudget(db, r, budget));
  }

  // ---- Changes that add a source ----

  /** What a row must meet for its insertion to leave every slot as it should be. */
  ghost predicate MayEnter(db: Database, id: PermitId, p: Permit) {
    && db.Fresh(id) && RowLocal(p) && p.state == Authorized && p.reservation in db.reservations
    && (p.parent.None? ==> !SlotHasPrimary(db, p.reservation, p.scope))
    && (p.parent.Some? ==>
          var q := p.parent.value;
          && q in db.permits && db.permits[q].SameSlot(p) && db.permits[q].parent.None?
          && db.permits[q].state == Confirmed && !HasLiveProbe(db, q))
    && (forall b | b in db.permits && db.permits[b].SameSlot(p) ::
          !db.Active(p.reservation) || db.permits[b].infohash != p.infohash)
    && (forall a | db.ServesByBinding(a, p.scope) :: db.permits[a].reservation != p.reservation)
  }

  lemma EntryKeepsRows(db: Database, id: PermitId, p: Permit)
    requires RowsSound(db) && MayEnter(db, id, p)
    ensures RowsSound(db.(permits := db.permits[id := p]))
  {
    var after := db.(permits := db.permits[id := p]);
    forall k | k in after.permits ensures RowSound(after, after.permits[k]) {
      assert k != id ==> RowSound(db, db.permits[k]);
    }
  }

  lemma EntryKeepsSlots(db: Database, id: PermitId, p: Permit)
    requires SlotsUnique(db) && MayEnter(db, id, p)
    ensures SlotsUnique(db.(permits := db.permits[id := p]))
  {
    var after := db.(permits := db.permits[id := p]);
    forall a, b | a in after.permits && b in after.permits && a != b
      ensures !RivalPrimaries(after.permits[a], after.permits[b])
      ensures !RivalProbes(after.permits[a], after.permits[b])
    {
      if a != id && b != id {
        assert !RivalPrimaries(db.permits[a], db.permits[b]) && !RivalProbes(db.permits[a], db.permits[b]);
      }
    }
  }

  lemma EntryKeepsCover(db: Database, id: PermitId, p: Permit)
    requires CoverUnique(db) && MayEnter(db, id, p)
    ensures CoverUnique(db.(permits := db.permits[id := p]))
  {
    var after := db.(permits := db.permits[id := p]);
    forall a, b | a in after.permits && b in after.permits ensures !OwnAndBound(after, a, b) {
      if a != id && b != id {
        assert !OwnAndBound(db, a, b);
      } else if a != id {
        assert !(db.ServesByBinding(a, p.scope) && db.permits[a].reservation == p.reservation);
      }
    }
    forall a, b, s | after.ServesByBinding(a, s) && after.ServesByBinding(b, s)
      ensures after.permits[a].reservation != after.permits[b].reservation || a == b
    {
      assert db.ServesByBinding(a, s) && db.ServesByBinding(b, s);
    }
  }

  lemma EntryKeepsLinks(db: Database, id: PermitId, p: Permit)
    requires HandoversSound(db) && BindingsSound(db) && ImportsExclusive(db) && MayEnter(db, id, p)
    ensures HandoversSound(db.(permits := db.permits[id := p])) && BindingsSound(db.(permits := db.permits[id := p]))
    ensures ImportsExclusive(db.(permits := db.permits[id := p]))
  {
    var after := db.(permits := db.permits[id := p]);
    forall c | c in after.handovers ensures HandoverSound(after, c, after.handovers[c]) {
      assert HandoverSound(db, c, db.handovers[c]);
    }
  }

  lemma EntryKeepsSources(db: Database, id: PermitId, p: Permit)
    requires SourcesDistinct(db) && MayEnter(db, id, p)
    ensures SourcesDistinct(db.(permits := db.permits[id := p]))
  {
  }

  lemma EntryKeepsSound(db: Database, id: PermitId, p: Permit)
    requires Sound(db) && MayEnter(db, id, p)
    ensures Sound(db.(permits := db.permits[id := p]))
  {
    hide *;
    var after := db.(permits := db.permits[id := p]);
    SoundParts(db);
    EntryKeepsRows(db, id, p);
    EntryKeepsSlots(db, id, p);
    EntryKeepsSources(db, id, p);
    EntryKeepsCover(db, id, p);
    EntryKeepsLinks(db, id, p);
    PartsAreSound(after);
  }

  /** A live row has its slot to itself: no pack binds that scope. */
  lemma LiveRowIsUnbound(db: Database, id: PermitId)
    requires Sound(db) && id in db.permits && db.permits[id].Live()
    ensures forall a | db.ServesByBinding(a, db.permits[id].scope) ::
              db.permits[a].reservation != db.permits[id].reservation
  {
    forall a | db.ServesByBinding(a, db.permits[id].scope)
      ensures db.permits[a].reservation != db.permits[id].reservation
    {
      assert !OwnAndBound(db, a, id);
    }
  }

  lemma RowOf(db: Database, id: PermitId)
    requires Sound(db) && id in db.permits
    ensures RowSound(db, db.permits[id])
  {
  }

  /** `issue` only ever commits into a slot that has no row at all. */
  lemma IssueFindsEmptySlot(db: Database, now: int, a: IssueRequest)
    requires Sound(db) && Issue(db, now, a).Ok?
    ensures forall b :: b in db.permits ==>
              !(db.permits[b].reservation == a.reservation && db.permits[b].scope == a.scope)
  {
    forall b | b in db.permits && db.permits[b].reservation == a.reservation && db.permits[b].scope == a.scope
      ensures false
    {
      RowOf(db, b);
    }
  }

  /** The pool the row was placed on had room for its whole budget. */
  ghost predicate HasRoom(db: Database, now: int, capacity: Capacity, row: Permit) {
    && row.pool in capacity
    && PendingBytes(db, capacity[row.pool], row.pool, now) + row.budget <= capacity[row.pool].free
  }

  /** A chosen pool was inspected, and has room for the budget beside all that is pending. */
  lemma PoolHasRoom(db: Database, now: int, capacity: Capacity, disks: Disks, budget: nat)
    requires SelectPool(db, now, capacity, disks, budget).Ok?
    ensures var pool := SelectPool(db, now, capacity, disks, budget).value;
      && pool in disks && pool in capacity
      && PendingBytes(db, capacity[pool], pool, now) + budget <= capacity[pool].free
  {
    hide PendingBytes;
  }

  lemma UnboundScope(db: Database, r: ReservationId, scope: Scope)
    requires BindingsSound(db) && (scope == WholeItem || !SlotIsBound(db, r, scope))
    ensures forall b | db.ServesByBinding(b, scope) :: db.permits[b].reservation != r
  {
    if scope != WholeItem {
      forall b | db.ServesByBinding(b, scope) ensures db.permits[b].reservation != r {
        assert !(b in db.permits && db.permits[b].reservation == r && db.ServesByBinding(b, scope));
      }
    }
  }

  lemma EmptySlotAdmits(db: Database, id: PermitId, row: Permit)
    requires db.Fresh(id) && RowLocal(row) && row.state == Authorized && row.reservation in db.reservations
    requires row.parent.None? && !SlotHasPrimary(db, row.reservation, row.scope)
    requires forall b | b in db.permits :: !db.permits[b].SameSlot(row)
    requires forall b | db.ServesByBinding(b, row.scope) :: db.permits[b].reservation != row.reservation
    ensures MayEnter(db, id, row)
  {
  }

  /** What the checks of a committed `issue` leave. */
  lemma IssueChecks(db: Database, now: int, a: IssueRequest) returns (row: Permit)
    requires Issue(db, now, a).Ok?
    ensures db.Fresh(a.id) && a.reservation in db.reservations && !SlotHasPrimary(db, a.reservation, a.scope)
    ensures SelectPool(db, now, a.capacity, a.disks, a.budget).Ok?
    ensures var pool := SelectPool(db, now, a.capacity, a.disks, a.budget).value;
      pool in a.disks && row == IssuedRow(a, pool)
    ensures a.scope == WholeItem || !SlotIsBound(db, a.reservation, a.scope)
    ensures a.budget > 0
    ensures Issue(db, now, a).value ==
            WithBudget(db.(permits := db.permits[a.id := row]), a.reservation, a.budget + db.LiveBytes(a.reservation))
  {
    PoolHasRoom(db, now, a.capacity, a.disks, a.budget);
    hide SelectPool, SlotHasPrimary, SlotHasSuperseded, SlotIsBound, LiveBudgets, PendingBytes, WithBudget;
    row := IssuedRow(a, SelectPool(db, now, a.capacity, a.disks, a.budget).value);
  }

  /** The steps of a committed `issue`: one row enters its slot, then the reservation is charged. */
  lemma IssueSteps(db: Database, now: int, a: IssueRequest) returns (row: Permit, charge: nat)
    requires Sound(db) && Issue(db, now, a).Ok?
    ensures MayEnter(db, a.id, row) && row.reservation == a.reservation && row.budget == a.budget
    ensures charge == a.budget + db.LiveBytes(a.reservation) && HasRoom(db, now, a.capacity, row) && row.parent.None?
    ensures Issue(db, now, a).value == WithBudget(db.(permits := db.permits[a.id := row]), a.reservation, charge)
  {
    hide Issue, Sound, SelectPool, SlotHasPrimary, SlotIsBound, LiveBudgets, PendingBytes, WithBudget, MayEnter,
      RowsSound, SlotsUnique, SourcesDistinct, BindingsSound, CoverUnique, HandoversSound, ImportsExclusive;
    row := IssueChecks(db, now, a);
    charge := a.budget + db.LiveBytes(a.reservation);
    IssueFindsEmptySlot(db, now, a);
    PoolHasRoom(db, now, a.capacity, a.disks, a.budget);
    SoundParts(db);
    UnboundScope(db, a.reservation, a.scope);
    EmptySlotAdmits(db, a.id, row);
  }

  lemma IssueKeepsSound(db: Database, now: int, a: IssueRequest)
    requires Sound(db) && Issue(db, now, a).Ok?
    ensures Sound(Issue(db, now, a).value)
  {
    hide *;
    var row, charge := IssueSteps(db, now, a);
    EntryKeepsSound(db, a.id, row);
    RechargingKeepsSound(db.(permits := db.permits[a.id := row]), a.reservation, charge);
  }

  /** What the checks of a committed probe leave. */
  lemma ProbeChecks(db: Database, now: int, a: SourceRequest) returns (row: Permit)
    requires IssueProbe(db, now, a).Ok?
    ensures a.prior in db.permits && db.permits[a.prior].state == Confirmed && db.permits[a.prior].parent.None?
    ensures !(a.prior in db.handovers && db.handovers[a.prior].pending) && !HasLiveProbe(db, a.prior)
    ensures a.budget > 0 && a.quality.Some? && |a.quality.value| >= 2 && db.Fresh(a.id)
    ensures !SourceTried(db, db.permits[a.prior].reservation, a.infohash)
    ensures SelectPool(db, now, a.capacity, a.disks, a.budget).Ok?
    ensures var pool := SelectPool(db, now, a.capacity, a.disks, a.budget).value;
      pool in a.disks && row == SourceRow(db.permits[a.prior], a, pool, Some(a.prior))
    ensures var added := db.(permits := db.permits[a.id := row]);
      IssueProbe(db, now, a).value == WithBudget(added, row.reservation, added.HeldBytes(row.reservation))
  {
    PoolHasRoom(db, now, a.capacity, a.disks, a.budget);
    hide SelectPool, RequireReservation, HasLiveProbe, SourceTried, HeldBudgets, PendingBytes, WithBudget;
    row := SourceRow(db.permits[a.prior], a, SelectPool(db, now, a.capacity, a.disks, a.budget).value, Some(a.prior));
  }

  lemma ProbeMayEnter(db: Database, a: SourceRequest, row: Permit)
    requires Sound(db) && a.prior in db.permits && db.permits[a.prior].state == Confirmed
    requires db.permits[a.prior].parent.None? && !HasLiveProbe(db, a.prior) && db.Fresh(a.id)
    requires !SourceTried(db, row.reservation, row.infohash) && row.SameSlot(db.permits[a.prior])
    requires RowLocal(row) && row.state == Authorized && row.parent == Some(a.prior)
    ensures MayEnter(db, a.id, row)
  {
    hide Sound;
    RowOf(db, a.prior);
    LiveRowIsUnbound(db, a.prior);
  }

  lemma IssueProbeSteps(db: Database, now: int, a: SourceRequest)
    returns (row: Permit, r: ReservationId, charge: nat)
    requires Sound(db) && IssueProbe(db, now, a).Ok?
    ensures MayEnter(db, a.id, row) && row.reservation == r && row.budget == a.budget
    ensures charge == db.(permits := db.permits[a.id := row]).HeldBytes(r) && HasRoom(db, now, a.capacity, row)
    ensures row.parent == Some(a.prior) && !(a.prior in db.handovers && db.handovers[a.prior].pending)
    ensures IssueProbe(db, now, a).value == WithBudget(db.(permits := db.permits[a.id := row]), r, charge)
  {
    row := ProbeChecks(db, now, a);
    r := row.reservation;
    charge := db.(permits := db.permits[a.id := row]).HeldBytes(r);
    PoolHasRoom(db, now, a.capacity, a.disks, a.budget);
    hide IssueProbe, Sound, SelectPool, HasLiveProbe, SourceTried, HeldBudgets, PendingBytes, WithBudget, MayEnter;
    ProbeMayEnter(db, a, row);
  }

  lemma IssueProbeKeepsSound(db: Database, now: int, a: SourceRequest)
    requires Sound(db) && IssueProbe(db, now, a).Ok?
    ensures Sound(IssueProbe(db, now, a).value)
  {
    hide *;
    var row, r, charge := IssueProbeSteps(db, now, a);
    EntryKeepsSound(db, a.id, row);
    RechargingKeepsSound(db.(permits := db.permits[a.id := row]), r, charge);
  }

  /** Rows that settle one by one, around which nothing changes. */
  lemma SettledRowsSettle(db: Database, permits: map<PermitId, Permit>)
    requires RowsSound(db) && ImportsExclusive(db) && permits.Keys == db.permits.Keys
    requires forall k | k in permits ::
               RowSettles(db.permits[k], permits[k]) && (permits[k].state == Revoked ==> db.permits[k].state == Revoked)
    ensures Settles(db, db.(permits := permits))
  {
    hide RowSettles, RowLocal;
    forall k | k in permits ensures permits[k].state != Revoked || !db.Active(permits[k].reservation) {
      assert RowSound(db, db.permits[k]);
      SettlingKeepsReservation(db.permits[k], permits[k]);
    }
  }

  lemma SettlingKeepsReservation(p: Permit, q: Permit)
    requires RowSettles(p, q)
    ensures q.reservation == p.reservation
  {
  }

  lemma SupersedingSettles(db: Database, id: PermitId)
    requires Sound(db) && id in db.permits && db.permits[id].state == Confirmed
    ensures Settles(db, WithState(db, id, Superseded))
  {
    hide Sound, RowSettles, RowLocal, Settles, ImportsExclusive;
    SoundParts(db);
    var permits := db.permits[id := db.permits[id].(state := Superseded)];
    forall k | k in permits ensures RowSettles(db.permits[k], permits[k]) {
      assert RowSound(db, db.permits[k]);
      RetiringRowSettles(db.permits[k]);
    }
    SettledRowsSettle(db, permits);
  }

  /** What the checks of a committed replacement leave. */
  lemma ReplaceChecks(db: Database, now: int, a: SourceRequest) returns (freed: Database, row: Permit)
    requires ReplaceConfirmed(db, now, a).Ok?
    ensures a.prior in db.permits && db.permits[a.prior].state == Confirmed
    ensures freed == WithState(db, a.prior, Superseded) && freed.Fresh(a.id) && a.budget > 0
    ensures !SlotHasPrimary(freed, row.reservation, row.scope) && !SlotHoldsHash(db, db.permits[a.prior], a.infohash)
    ensures SelectPool(db, now, a.capacity, a.disks, a.budget).Ok?
    ensures var pool := SelectPool(db, now, a.capacity, a.disks, a.budget).value;
      pool in a.disks && row == SourceRow(db.permits[a.prior], a, pool, None)
    ensures var added := freed.(permits := freed.permits[a.id := row]);
      ReplaceConfirmed(db, now, a).value == WithBudget(added, row.reservation, added.LiveBytes(row.reservation))
  {
    PoolHasRoom(db, now, a.capacity, a.disks, a.budget);
    hide SelectPool, SlotHasPrimary, SlotHoldsHash, SupersededHashes, AllPaused, HashLiveElsewhere, IdentityFits,
      LiveBudgets, PendingBytes, WithBudget;
    freed := WithState(db, a.prior, Superseded);
    row := SourceRow(db.permits[a.prior], a, SelectPool(db, now, a.capacity, a.disks, a.budget).value, None);
  }

  lemma ReplacementMayEnter(db: Database, a: SourceRequest, freed: Database, row: Permit)
    requires Sound(db) && a.prior in db.permits && db.permits[a.prior].Live()
    requires freed == WithState(db, a.prior, Superseded) && freed.Fresh(a.id)
    requires !SlotHasPrimary(freed, row.reservation, row.scope) && !SlotHoldsHash(db, db.permits[a.prior], row.infohash)
    requires RowLocal(row) && row.state == Authorized && row.parent.None? && row.SameSlot(db.permits[a.prior])
    ensures MayEnter(freed, a.id, row)
  {
    hide Sound;
    RowOf(db, a.prior);
    LiveRowIsUnbound(db, a.prior);
    forall b | freed.ServesByBinding(b, row.scope) ensures freed.permits[b].reservation != row.reservation {
      assert db.ServesByBinding(b, row.scope);
    }
    forall b | b in freed.permits && freed.permits[b].SameSlot(row) ensures freed.permits[b].infohash != row.infohash {
      assert db.permits[b].SameSlot(db.permits[a.prior]);
    }
  }

  /** The steps of a committed replacement: the prior source retires, then the new one enters its slot. */
  lemma ReplaceSteps(db: Database, now: int, a: SourceRequest)
    returns (freed: Database, row: Permit, r: ReservationId, charge: nat)
    requires Sound(db) && ReplaceConfirmed(db, now, a).Ok?
    ensures a.prior in db.permits && db.permits[a.prior].state == Confirmed
    ensures freed == WithState(db, a.prior, Superseded) && MayEnter(freed, a.id, row)
    ensures row.reservation == r == db.permits[a.prior].reservation && row.budget == a.budget && row.parent.None?
    ensures charge == freed.(permits := freed.permits[a.id := row]).LiveBytes(r) && HasRoom(db, now, a.capacity, row)
    ensures ReplaceConfirmed(db, now, a).value ==
            WithBudget(freed.(permits := freed.permits[a.id := row]), r, charge)
  {
    freed, row := ReplaceChecks(db, now, a);
    r := row.reservation;
    charge := freed.(permits := freed.permits[a.id := row]).LiveBytes(r);
    PoolHasRoom(db, now, a.capacity, a.disks, a.budget);
    hide ReplaceConfirmed, Sound, SelectPool, SlotHasPrimary, SlotHoldsHash, LiveBudgets, PendingBytes, WithBudget,
      MayEnter;
    ReplacementMayEnter(db, a, freed, row);
  }

  lemma ReplaceKeepsSound(db: Database, now: int, a: SourceRequest)
    requires Sound(db) && ReplaceConfirmed(db, now, a).Ok?
    ensures Sound(ReplaceConfirmed(db, now, a).value)
  {
    hide *;
    var freed, row, r, charge := ReplaceSteps(db, now, a);
    SupersedingSettles(db, a.prior);
    SettlingKeepsSound(db, freed);
    EntryKeepsSound(freed, a.id, row);
    RechargingKeepsSound(freed.(permits := freed.permits[a.id := row]), r, charge);
  }

  // ---- Packs and promotion ----

  ghost predicate MayBind(db: Database, id: PermitId, episodes: map<Scope, seq<string>>) {
    && id in db.permits && db.permits[id].scope.Pack? && db.permits[id].parent.None?
    && (forall s :: s in episodes ==> s.Episode?)
    && (forall o | o != id && ServesSome(db, o, db.permits[id].reservation, episodes) :: !db.permits[o].Live())
  }

  lemma BindingKeepsCover(db: Database, id: PermitId, episodes: map<Scope, seq<string>>)
    requires CoverUnique(db) && MayBind(db, id, episodes)
    ensures CoverUnique(db.(bindings := db.bindings[id := episodes]))
  {
    var after := db.(bindings := db.bindings[id := episodes]);
    forall a, b | a in after.permits && b in after.permits ensures !OwnAndBound(after, a, b) {
      assert !OwnAndBound(db, a, b);
      assert b != id ==> !ServesSome(db, b, db.permits[id].reservation, episodes) || !db.permits[b].Live();
    }
    forall a, b, s | after.ServesByBinding(a, s) && after.ServesByBinding(b, s)
      ensures after.permits[a].reservation != after.permits[b].reservation || a == b
    {
      if a != id && b != id {
        assert db.ServesByBinding(a, s) && db.ServesByBinding(b, s);
      } else if a != b {
        var o := if a == id then b else a;
        assert s in db.bindings[o] && s in episodes;
        assert ServesSome(db, o, db.permits[o].reservation, episodes);
      }
    }
  }

  lemma BindingKeepsRest(db: Database, id: PermitId, episodes: map<Scope, seq<string>>)
    requires RowsSound(db) && SlotsUnique(db) && SourcesDistinct(db) && BindingsSound(db)
    requires HandoversSound(db) && ImportsExclusive(db) && MayBind(db, id, episodes)
    ensures var after := db.(bindings := db.bindings[id := episodes]);
      && RowsSound(after) && SlotsUnique(after) && SourcesDistinct(after) && BindingsSound(after)
      && HandoversSound(after) && ImportsExclusive(after)
  {
    var after := db.(bindings := db.bindings[id := episodes]);
    forall k | k in after.permits ensures RowSound(after, after.permits[k]) {
      assert RowSound(db, db.permits[k]);
    }
    forall c | c in after.handovers ensures HandoverSound(after, c, after.handovers[c]) {
      assert HandoverSound(db, c, db.handovers[c]);
    }
  }

  lemma BindingKeepsSound(db: Database, id: PermitId, episodes: map<Scope, seq<string>>)
    requires Sound(db) && MayBind(db, id, episodes)
    ensures Sound(db.(bindings := db.bindings[id := episodes]))
  {
    hide *;
    SoundParts(db);
    BindingKeepsCover(db, id, episodes);
    BindingKeepsRest(db, id, episodes);
    PartsAreSound(db.(bindings := db.bindings[id := episodes]));
  }

  lemma SupersedingAllSettles(db: Database, ids: seq<PermitId>)
    requires Sound(db)
    ensures Settles(db, db.(permits := SupersedeAll(db.permits, ids)))
  {
    hide Sound, RowSettles, RowLocal, Settles, ImportsExclusive;
    SoundParts(db);
    var permits := SupersedeAll(db.permits, ids);
    forall k | k in permits ensures RowSettles(db.permits[k], permits[k]) {
      assert RowSound(db, db.permits[k]);
      RetiringRowSettles(db.permits[k]);
    }
    SettledRowsSettle(db, permits);
  }

  /** Once the replaced sources retire, nothing else alive serves the episodes. */
  lemma RetiringFreesEpisodes(db: Database, a: BindRequest)
    requires a.id in db.permits
    requires forall o | o != a.id && ServesSome(db, o, db.permits[a.id].reservation, a.episodes) ::
               !db.permits[o].Live() || o in a.replaced
    requires a.replaced == [] || AllReplacedFit(db, a, a.replaced).Pass?
    ensures var retired := db.(permits := SupersedeAll(db.permits, a.replaced));
      forall o | o != a.id && ServesSome(retired, o, db.permits[a.id].reservation, a.episodes) ::
        !retired.permits[o].Live()
  {
    hide ReplacedFits;
    var retired := db.(permits := SupersedeAll(db.permits, a.replaced));
    forall o | o != a.id && ServesSome(retired, o, db.permits[a.id].reservation, a.episodes)
      ensures !retired.permits[o].Live()
    {
      assert ServesSome(db, o, db.permits[a.id].reservation, a.episodes);
      if db.permits[o].Live() {
        ReplacedAreConfirmed(db, a, a.replaced, o);
      }
    }
  }

  /** The steps of a committed binding: the replaced sources retire, then the season pack serves their episodes. */
  lemma BindSteps(db: Database, now: int, a: BindRequest)
    returns (retired: Database, bound: Database, r: ReservationId, charge: nat)
    requires BindSeasonPack(db, now, a).Ok?
    ensures retired == db.(permits := SupersedeAll(db.permits, a.replaced)) && MayBind(retired, a.id, a.episodes)
    ensures bound == retired.(bindings := retired.bindings[a.id := a.episodes])
    ensures r == db.permits[a.id].reservation && charge == bound.HeldBytes(r)
    ensures a.replaced == [] || AllReplacedFit(db, a, a.replaced).Pass?
    ensures BindSeasonPack(db, now, a).value == if a.replaced == [] then bound else WithBudget(bound, r, charge)
  {
    hide ServesSome, ReplacedFits, AllReplacedFit, HistoryStopped, PendingBytes, RequireReservation;
    var pack := db.permits[a.id];
    retired := db.(permits := SupersedeAll(db.permits, a.replaced));
    bound := retired.(bindings := retired.bindings[a.id := a.episodes]);
    r, charge := pack.reservation, bound.HeldBytes(pack.reservation);
    RetiringFreesEpisodes(db, a);
  }

  lemma BindKeepsSound(db: Database, now: int, a: BindRequest)
    requires Sound(db) && BindSeasonPack(db, now, a).Ok?
    ensures Sound(BindSeasonPack(db, now, a).value)
  {
    hide *;
    var retired, bound, r, charge := BindSteps(db, now, a);
    SupersedingAllSettles(db, a.replaced);
    SettlingKeepsSound(db, retired);
    BindingKeepsSound(retired, a.id, a.episodes);
    RechargingKeepsSound(bound, r, charge);
  }

  lemma {:induction false} ReplacedAreConfirmed(db: Database, a: BindRequest, tokens: seq<PermitId>, t: PermitId)
    requires a.id in db.permits && AllReplacedFit(db, a, tokens).Pass? && t in tokens
    ensures ReplacedFits(db, a, t).Pass? && t in db.permits && db.permits[t].state == Confirmed
    ensures db.permits[t].reservation == db.permits[a.id].reservation
  {
    if t != tokens[0] {
      ReplacedAreConfirmed(db, a, tokens[1..], t);
    }
  }

  ghost function Promoted(db: Database, id: PermitId, parent: PermitId): Database
    requires id in db.permits
  {
    db.(permits := db.permits[id := db.permits[id].(parent := None)],
        handovers := db.handovers[id := Handover(parent, true)])
  }

  lemma PromoteSteps(db: Database, id: PermitId)
    returns (freed: Database, parent: PermitId, r: ReservationId, charge: nat)
    requires Sound(db) && PromoteProbe(db, id).Ok?
    ensures parent in db.permits && db.permits[parent].state == Confirmed
    ensures freed == WithState(db, parent, Superseded) && Promotable(freed, id)
    ensures id in db.permits && freed.permits[id].parent == Some(parent) && db.permits[id].parent == Some(parent)
    ensures r == db.permits[id].reservation == db.permits[parent].reservation
    ensures charge == Promoted(freed, id, parent).HeldBytes(r) && id !in db.handovers
    ensures db.permits[id].state == Confirmed && id != parent && id in freed.permits
    ensures PromoteProbe(db, id).value == WithBudget(Promoted(freed, id, parent), r, charge)
  {
    var p := db.permits[id];
    parent := p.parent.value;
    freed := WithState(db, parent, Superseded);
    hide Sound;
    RowOf(db, id);
    r := p.reservation;
    var after := Promoted(freed, id, parent);
    charge := after.HeldBytes(r);
    assert freed.permits[id] == p && freed.handovers == db.handovers;
    assert !SlotHasPrimary(freed, p.reservation, p.scope) by {
      var stepped := freed.(handovers := db.handovers[id := Handover(parent, true)]);
      assert !SlotHasPrimary(stepped, p.reservation, p.scope);
    }
  }

  lemma PromoteKeepsSound(db: Database, id: PermitId)
    requires Sound(db) && PromoteProbe(db, id).Ok?
    ensures Sound(PromoteProbe(db, id).value)
  {
    hide *;
    var freed, parent, r, charge := PromoteSteps(db, id);
    SupersedingSettles(db, parent);
    SettlingKeepsSound(db, freed);
    PromotionKeepsSound(freed, id);
    RechargingKeepsSound(Promoted(freed, id, parent), r, charge);
  }

  ghost predicate Promotable(db: Database, id: PermitId) {
    && id in db.permits && db.permits[id].state == Confirmed && db.permits[id].parent.Some?
    && db.permits[id].parent.value in db.permits && db.permits[db.permits[id].parent.value].state == Superseded
    && !SlotHasPrimary(db, db.permits[id].reservation, db.permits[id].scope)
  }

  lemma PromotionKeepsRows(db: Database, id: PermitId)
    requires Promotable(db, id) && RowsSound(db)
    ensures RowsSound(Promoted(db, id, db.permits[id].parent.value))
  {
    var after := Promoted(db, id, db.permits[id].parent.value);
    forall k | k in after.permits ensures RowSound(after, after.permits[k]) {
      assert RowSound(db, db.permits[k]);
    }
  }

  lemma PromotionKeepsSlots(db: Database, id: PermitId)
    requires Promotable(db, id) && SlotsUnique(db)
    ensures SlotsUnique(Promoted(db, id, db.permits[id].parent.value))
  {
    var after := Promoted(db, id, db.permits[id].parent.value);
    forall a, b | a in after.permits && b in after.permits && a != b
      ensures !RivalPrimaries(after.permits[a], after.permits[b])
      ensures !RivalProbes(after.permits[a], after.permits[b])
    {
      assert !RivalPrimaries(db.permits[a], db.permits[b]) && !RivalProbes(db.permits[a], db.permits[b]);
    }
  }

  lemma PromotionKeepsCover(db: Database, id: PermitId)
    requires Promotable(db, id) && CoverUnique(db)
    ensures CoverUnique(Promoted(db, id, db.permits[id].parent.value))
  {
    var after := Promoted(db, id, db.permits[id].parent.value);
    forall a, b | a in after.permits && b in after.permits ensures !OwnAndBound(after, a, b) {
      assert !OwnAndBound(db, a, b);
    }
    forall a, b, s | after.ServesByBinding(a, s) && after.ServesByBinding(b, s)
      ensures after.permits[a].reservation != after.permits[b].reservation || a == b
    {
      assert db.ServesByBinding(a, s) && db.ServesByBinding(b, s);
    }
  }

  lemma PromotionKeepsSources(db: Database, id: PermitId)
    requires Promotable(db, id) && SourcesDistinct(db) && BindingsSound(db) && ImportsExclusive(db)
    ensures var after := Promoted(db, id, db.permits[id].parent.value);
      SourcesDistinct(after) && BindingsSound(after) && ImportsExclusive(after)
  {
  }

  lemma PromotionKeepsLinks(db: Database, id: PermitId)
    requires Promotable(db, id) && RowsSound(db) && HandoversSound(db)
    ensures HandoversSound(Promoted(db, id, db.permits[id].parent.value))
  {
    var after := Promoted(db, id, db.permits[id].parent.value);
    assert RowSound(db, db.permits[id]);
    forall c | c in after.handovers ensures HandoverSound(after, c, after.handovers[c]) {
      assert c != id ==> HandoverSound(db, c, db.handovers[c]);
    }
  }

  lemma PromotionKeepsSound(db: Database, id: PermitId)
    requires Sound(db) && Promotable(db, id)
    ensures id in db.permits && db.permits[id].parent.Some?
    ensures Sound(Promoted(db, id, db.permits[id].parent.value))
  {
    assert id in db.permits && db.permits[id].parent.Some?;
    hide *;
    SoundParts(db);
    PromotionKeepsRows(db, id);
    PromotionKeepsSlots(db, id);
    PromotionKeepsCover(db, id);
    PromotionKeepsSources(db, id);
    PromotionKeepsLinks(db, id);
    PartsAreSound(Promoted(db, id, db.permits[id].parent.value));
  }

  // ---- Everything else only settles ----

  lemma OneRowSettles(db: Database, id: PermitId, q: Permit)
    requires Sound(db) && id in db.permits && RowSettles(db.permits[id], q) && q.state != Revoked
    ensures Settles(db, db.(permits := db.permits[id := q]))
  {
    hide Sound, RowSettles, RowLocal, Settles, ImportsExclusive;
    SoundParts(db);
    forall k | k in db.permits ensures RowSettles(db.permits[k], db.permits[k]) {
      assert RowSound(db, db.permits[k]);
      RetiringRowSettles(db.permits[k]);
    }
    SettledRowsSettle(db, db.permits[id := q]);
  }

  lemma ChangedRowKeepsSound(db: Database, id: PermitId, q: Permit)
    requires Sound(db) && id in db.permits && RowSettles(db.permits[id], q) && q.state != Revoked
    ensures Sound(db.(permits := db.permits[id := q]))
  {
    hide *;
    OneRowSettles(db, id, q);
    SettlingKeepsSound(db, db.(permits := db.permits[id := q]));
  }

  lemma RenewedRowSettles(p: Permit, expires: int)
    requires RowLocal(p) && p.state == Authorized
    ensures RowSettles(p, p.(expires := expires))
  {
  }

  lemma RenewKeepsSound(db: Database, now: int, id: PermitId, capacity: Capacity, expires: int, placed: bool)
    requires Sound(db) && Renew(db, now, id, capacity, expires, placed).Ok?
    ensures Sound(Renew(db, now, id, capacity, expires, placed).value)
  {
    hide Sound, SupersededHashes, AllPaused, PendingBytes, RowSettles;
    RowOf(db, id);
    RenewedRowSettles(db.permits[id], expires);
    ChangedRowKeepsSound(db, id, db.permits[id].(expires := expires));
  }

  lemma RejectKeepsSound(db: Database, id: PermitId)
    requires Sound(db) && RejectProbe(db, id).Ok?
    ensures Sound(RejectProbe(db, id).value)
  {
    hide Sound;
    RowOf(db, id);
    var rejected := WithState(db, id, ProbeRejected);
    ChangedRowKeepsSound(db, id, db.permits[id].(state := ProbeRejected));
    RechargingKeepsSound(rejected, db.permits[id].reservation, rejected.HeldBytes(db.permits[id].reservation));
  }

  lemma ClosingSettles(db: Database, c: PermitId)
    requires RowsSound(db) && ImportsExclusive(db) && c in db.handovers
    ensures Settles(db, db.(handovers := db.handovers[c := db.handovers[c].(pending := false)]))
  {
    hide RowSettles, RowLocal;
    forall k | k in db.permits ensures RowSettles(db.permits[k], db.permits[k]) {
      assert RowSound(db, db.permits[k]);
      RetiringRowSettles(db.permits[k]);
    }
    assert forall k :: k in db.permits ==> RowSound(db, db.permits[k]);
  }

  lemma ClosingKeepsSound(db: Database, c: PermitId)
    requires Sound(db) && c in db.handovers
    ensures Sound(db.(handovers := db.handovers[c := db.handovers[c].(pending := false)]))
  {
    hide *;
    SoundParts(db);
    ClosingSettles(db, c);
    SettlingKeepsSound(db, db.(handovers := db.handovers[c := db.handovers[c].(pending := false)]));
  }

  lemma CompleteHandoverKeepsSound(db: Database, id: PermitId)
    requires Sound(db)
    ensures Sound(CompleteHandover(db, id).value)
  {
    hide Sound;
    if id in db.permits {
      var done := if id in db.handovers
        then db.(handovers := db.handovers[id := db.handovers[id].(pending := false)]) else db;
      if id in db.handovers { ClosingKeepsSound(db, id); }
      RechargingKeepsSound(done, db.permits[id].reservation, done.HeldBytes(db.permits[id].reservation));
    }
  }

  /** Deleting unused admissions, with some of the bindings. */
  lemma DeletingKeepsSound(db: Database, ids: set<PermitId>, unbound: set<PermitId>)
    requires Sound(db) && forall id | id in ids && id in db.permits :: db.permits[id].state == Authorized
    ensures Sound(db.(permits := db.permits - ids, bindings := db.bindings - unbound))
  {
    hide Sound, RowSettles, RowLocal;
    var after := db.(permits := db.permits - ids, bindings := db.bindings - unbound);
    assert Settles(db, after) by {
      SoundParts(db);
      forall k | k in after.permits
        ensures RowSettles(db.permits[k], after.permits[k])
        ensures after.permits[k].state != Revoked || !after.Active(after.permits[k].reservation)
      {
        assert RowSound(db, db.permits[k]);
        RetiringRowSettles(db.permits[k]);
      }
    }
    SettlingKeepsSound(db, after);
  }

  lemma CancelKeepsSound(db: Database, id: PermitId)
    requires Sound(db) && CancelAuthorized(db, id).Ok?
    ensures Sound(CancelAuthorized(db, id).value)
  {
    hide Sound;
    var removed := db.(permits := db.permits - {id}, bindings := db.bindings - {id});
    DeletingKeepsSound(db, {id}, {id});
    RechargingKeepsSound(removed, db.permits[id].reservation, removed.LiveBytes(db.permits[id].reservation));
  }

  lemma RetireKeepsSound(db: Database, now: int, r: ReservationId, scope: Scope)
    requires Sound(db)
    ensures Sound(RetireExpired(db, now, r, scope).value)
  {
    hide Sound;
    var expired := ExpiredRows(db, r, scope, now);
    var removed := db.(permits := db.permits - expired);
    assert removed == db.(permits := db.permits - expired, bindings := db.bindings - {});
    DeletingKeepsSound(db, expired, {});
    RechargingKeepsSound(removed, r, removed.LiveBytes(r));
  }

  lemma BeginKeepsSound(db: Database, now: int, id: PermitId, a: Payload, placed: bool, named: bool)
    requires Sound(db) && Begin(db, now, id, a, placed, named).Ok?
    ensures Sound(Begin(db, now, id, a, placed, named).value)
  {
    if id in db.permits && db.permits[id].state == Authorized {
      RowOf(db, id);
      hide Sound, RequireReservation, RequirePack;
      ChangedRowKeepsSound(db, id, db.permits[id].(state := Dispatching));
    }
  }

  lemma RecordKeepsSound(db: Database, id: PermitId, reply: Reply)
    requires Sound(db) && Record(db, id, reply).Ok?
    ensures Sound(Record(db, id, reply).value)
  {
    hide Sound;
    RowOf(db, id);
    if db.permits[id].state == Dispatching {
      ChangedRowKeepsSound(db, id, db.permits[id].(state := Confirmed, reply := Some(reply)));
    }
  }

  lemma MarkUnknownKeepsSound(db: Database, id: PermitId)
    requires Sound(db)
    ensures Sound(MarkUnknown(db, id).value)
  {
    if id in db.permits && db.permits[id].state == Dispatching {
      RowOf(db, id);
      hide Sound;
      ChangedRowKeepsSound(db, id, db.permits[id].(state := Unknown));
    }
  }

  lemma ReconcileKeepsSound(db: Database, id: PermitId)
    requires Sound(db) && Reconcile(db, id).Ok?
    ensures Sound(Reconcile(db, id).value)
  {
    hide Sound;
    RowOf(db, id);
    var p := db.permits[id];
    if p.state != Confirmed {
      ChangedRowKeepsSound(db, id, p.(state := Confirmed, reply := Some(Accepted(p.infohash))));
    }
  }

  lemma SetQualityKeepsSound(db: Database, id: PermitId, rank: seq<int>)
    requires Sound(db) && SetQuality(db, id, rank).Ok?
    ensures Sound(SetQuality(db, id, rank).value)
  {
    hide Sound;
    if id in db.permits {
      RankingKeepsSound(db, id, rank);
    }
  }

  /** Ranking a row, even a revoked one: its reservation stays as inactive as it was. */
  lemma RankingSettles(db: Database, id: PermitId, rank: seq<int>)
    requires RowsSound(db) && ImportsExclusive(db) && id in db.permits && |rank| >= 2
    ensures Settles(db, db.(permits := db.permits[id := db.permits[id].(quality := Some(rank))]))
  {
    var after := db.(permits := db.permits[id := db.permits[id].(quality := Some(rank))]);
    forall k | k in after.permits
      ensures RowSettles(db.permits[k], after.permits[k])
      ensures after.permits[k].state != Revoked || !after.Active(after.permits[k].reservation)
    {
      assert RowSound(db, db.permits[k]);
    }
  }

  lemma RankingKeepsSound(db: Database, id: PermitId, rank: seq<int>)
    requires Sound(db) && id in db.permits && |rank| >= 2
    ensures Sound(db.(permits := db.permits[id := db.permits[id].(quality := Some(rank))]))
  {
    hide *;
    SoundParts(db);
    RankingSettles(db, id, rank);
    SettlingKeepsSound(db, db.(permits := db.permits[id := db.permits[id].(quality := Some(rank))]));
  }

  lemma RevokedRowSettles(p: Permit)
    requires RowLocal(p)
    ensures RowSettles(p, p)
    ensures p.state == Authorized ==> RowSettles(p, p.(state := Revoked))
  {
  }

  lemma RevokingRowsSettle(db: Database, r: ReservationId, after: Database)
    requires RowsSound(db) && after.permits == RevokeAuthorized(db.permits, r)
    requires !after.Active(r) && forall k | after.Active(k) :: db.Active(k)
    ensures RowsSettle(db, after)
  {
    hide RowSettles, RowLocal;
    forall k | k in after.permits
      ensures RowSettles(db.permits[k], after.permits[k])
      ensures after.permits[k].state != Revoked || !after.Active(after.permits[k].reservation)
    {
      assert RowSound(db, db.permits[k]);
      RevokedRowSettles(db.permits[k]);
    }
  }

  lemma RevokingSettles(db: Database, r: ReservationId)
    requires RowsSound(db) && ImportsExclusive(db) && CancelUnstarted(db, r).Ok?
    ensures Settles(db, CancelUnstarted(db, r).value)
  {
    hide RowsSound, RowsSettle, DownloadStarted, ImportsExclusive, RevokeAuthorized;
    var after := CancelUnstarted(db, r).value;
    SameImportsStayExclusive(db, after);
    if DownloadStarted(db, r) {
      hide Settles;
      QuietChangeSettles(db, after);
    } else {
      RevokingRowsSettle(db, r, after);
    }
  }

  lemma SameImportsStayExclusive(db: Database, after: Database)
    requires ImportsExclusive(db) && after.movieImports == db.movieImports && after.episodeImports == db.episodeImports
    ensures ImportsExclusive(after)
  {
  }

  lemma RevokingKeepsSound(db: Database, r: ReservationId)
    requires Sound(db) && CancelUnstarted(db, r).Ok?
    ensures Sound(CancelUnstarted(db, r).value)
  {
    hide *;
    SoundParts(db);
    RevokingSettles(db, r);
    SettlingKeepsSound(db, CancelUnstarted(db, r).value);
  }

  ghost predicate SameSources(db: Database, after: Database) {
    after.permits == db.permits && after.bindings == db.bindings && after.handovers == db.handovers
  }

  lemma QuietKeepsSound(db: Database, after: Database)
    requires Sound(db) && SameSources(db, after) && ReservationsSettle(db, after) && ImportsExclusive(after)
    ensures Sound(after)
  {
    hide Sound, Settles;
    SoundParts(db);
    QuietChangeSettles(db, after);
    SettlingKeepsSound(db, after);
  }

  predicate SameImports(db: Database, after: Database) {
    after.movieImports == db.movieImports && after.episodeImports == db.episodeImports
  }

  /** Reservations, requests and tombstones change around the sources. */
  lemma AroundKeepsSound(db: Database, after: Database)
    requires Sound(db) && SameSources(db, after) && SameImports(db, after) && ReservationsSettle(db, after)
    ensures Sound(after)
  {
    hide Sound;
    SoundParts(db);
    QuietKeepsSound(db, after);
  }

  lemma ReserveKeepsSound(db: Database, id: ReservationId, request: RequestId, media: MediaKey)
    requires Sound(db) && Reserve(db, id, request, media).Ok?
    ensures Sound(Reserve(db, id, request, media).value)
  {
    hide Sound;
    AroundKeepsSound(db, Reserve(db, id, request, media).value);
  }

  lemma NormalizeKeepsSound(db: Database)
    requires Sound(db)
    ensures Sound(NormalizeBudgets(db).value)
  {
    hide Sound;
    AroundKeepsSound(db, NormalizeBudgets(db).value);
  }

  lemma TombstoneKeepsSound(db: Database, media: MediaKey)
    requires Sound(db)
    ensures Sound(Tombstone(db, media).value) && Sound(CloseSeasonRequests(db, media).value)
  {
    hide Sound;
    AroundKeepsSound(db, Tombstone(db, media).value);
    AroundKeepsSound(db, CloseSeasonRequests(db, media).value);
  }

  lemma ReleaseKeepsSound(db: Database, media: MediaKey)
    requires Sound(db)
    ensures Sound(ReleaseSeason(db, media).value)
  {
    hide Sound;
    AroundKeepsSound(db, ReleaseSeason(db, media).value);
  }

  /** An import may enter or move to a state compatible with every other import. */
  lemma MovieImportFits(db: Database, r: ReservationId, s: ImportState)
    requires ImportsExclusive(db)
    requires forall x | x in db.movieImports && x != r :: Compatible(s, db.movieImports[x])
    requires forall k | k in db.episodeImports :: Compatible(s, db.episodeImports[k])
    ensures ImportsExclusive(db.(movieImports := db.movieImports[r := s]))
  {
  }

  lemma EpisodeImportFits(db: Database, k: ImportKey, s: ImportState)
    requires ImportsExclusive(db)
    requires forall r | r in db.movieImports :: Compatible(s, db.movieImports[r])
    requires forall x | x in db.episodeImports && x != k :: Compatible(s, db.episodeImports[x])
    ensures ImportsExclusive(db.(episodeImports := db.episodeImports[k := s]))
  {
  }

  lemma ClaimFits(db: Database, copy: bool)
    requires !ImportPendingNow(db, copy)
    ensures forall r | r in db.movieImports :: Compatible(ClaimState(copy), db.movieImports[r])
    ensures forall k | k in db.episodeImports :: Compatible(ClaimState(copy), db.episodeImports[k])
  {
    forall r | r in db.movieImports ensures Compatible(ClaimState(copy), db.movieImports[r]) {
      assert !Blocks(db.movieImports[r], copy);
    }
    forall k | k in db.episodeImports ensures Compatible(ClaimState(copy), db.episodeImports[k]) {
      assert !Blocks(db.episodeImports[k], copy);
    }
  }

  lemma ClaimMovieKeepsSound(db: Database, r: ReservationId, copy: bool)
    requires Sound(db) && ClaimMovie(db, r, copy).Ok?
    ensures Sound(ClaimMovie(db, r, copy).value)
  {
    hide Sound, ImportsExclusive, Compatible;
    SoundParts(db);
    ClaimFits(db, copy);
    MovieImportFits(db, r, ClaimState(copy));
    QuietKeepsSound(db, ClaimMovie(db, r, copy).value);
  }

  lemma RecordMovieKeepsSound(db: Database, r: ReservationId)
    requires Sound(db)
    ensures Sound(RecordMovie(db, r).value)
  {
    hide Sound;
    if r in db.movieImports && db.movieImports[r] in {Sending, SendingCopy} {
      SoundParts(db);
      MovieImportFits(db, r, SubmittedState(db.movieImports[r]));
      hide ImportsExclusive;
      QuietKeepsSound(db, RecordMovie(db, r).value);
    }
  }

  lemma CompletionSettles(db: Database, r: ReservationId)
    requires ImportsExclusive(db)
    ensures CompleteMovie(db, r).Ok? && ImportsExclusive(CompleteMovie(db, r).value)
    ensures SameSources(db, CompleteMovie(db, r).value)
    ensures ReservationsSettle(db, CompleteMovie(db, r).value)
  {
    MovieImportFits(db, r, Complete);
  }

  lemma CompleteMovieKeepsSound(db: Database, r: ReservationId)
    requires Sound(db)
    ensures Sound(CompleteMovie(db, r).value)
  {
    hide *;
    SoundParts(db);
    CompletionSettles(db, r);
    QuietKeepsSound(db, CompleteMovie(db, r).value);
  }

  lemma ClaimEpisodeKeepsSound(db: Database, k: ImportKey, copy: bool)
    requires Sound(db) && ClaimEpisode(db, k, copy).Ok?
    ensures Sound(ClaimEpisode(db, k, copy).value)
  {
    hide Sound, ImportsExclusive, Compatible;
    SoundParts(db);
    ClaimFits(db, copy);
    EpisodeImportFits(db, k, ClaimState(copy));
    QuietKeepsSound(db, ClaimEpisode(db, k, copy).value);
  }

  lemma RecordEpisodeKeepsSound(db: Database, k: ImportKey)
    requires Sound(db)
    ensures Sound(RecordEpisode(db, k).value)
  {
    hide Sound;
    if k in db.episodeImports && db.episodeImports[k] in {Sending, SendingCopy} {
      SoundParts(db);
      EpisodeImportFits(db, k, SubmittedState(db.episodeImports[k]));
      hide ImportsExclusive;
      QuietKeepsSound(db, RecordEpisode(db, k).value);
    }
  }

  lemma CompleteEpisodeKeepsSound(db: Database, k: ImportKey)
    requires Sound(db)
    ensures Sound(CompleteEpisode(db, k).value)
  {
    hide Sound;
    if k in db.episodeImports && db.episodeImports[k] in {Submitted, SubmittedCopy} {
      SoundParts(db);
      EpisodeImportFits(db, k, Complete);
      hide ImportsExclusive;
      QuietKeepsSound(db, CompleteEpisode(db, k).value);
    }
  }

  // ---- Every transaction and every run ----

  lemma TransactionKeepsSound(db: Database, now: int, t: Transaction)
    requires Sound(db)
    ensures Sound(After(db, now, t))
  {
    hide Sound, Issue, IssueProbe, ReplaceConfirmed, Renew, BindSeasonPack, PromoteProbe, RejectProbe,
      CompleteHandover, CancelAuthorized, RetireExpired, Begin, Record, MarkUnknown, Reconcile, SetQuality, Reserve,
      NormalizeBudgets, CancelUnstarted, Tombstone, CloseSeasonRequests, ReleaseSeason, ClaimMovie, RecordMovie,
      CompleteMovie, ClaimEpisode, RecordEpisode, CompleteEpisode;
    if Apply(db, now, t).Ok? {
      match t
      case DoIssue(a) => IssueKeepsSound(db, now, a);
      case DoIssueProbe(a) => IssueProbeKeepsSound(db, now, a);
      case DoReplace(a) => ReplaceKeepsSound(db, now, a);
      case DoRenew(id, c, e, p) => RenewKeepsSound(db, now, id, c, e, p);
      case DoBind(a) => BindKeepsSound(db, now, a);
      case DoPromote(id) => PromoteKeepsSound(db, id);
      case DoReject(id) => RejectKeepsSound(db, id);
      case DoCompleteHandover(id) => CompleteHandoverKeepsSound(db, id);
      case DoCancel(id) => CancelKeepsSound(db, id);
      case DoRetire(r, s) => RetireKeepsSound(db, now, r, s);
      case DoBegin(id, a, p, n) => BeginKeepsSound(db, now, id, a, p, n);
      case DoRecord(id, reply) => RecordKeepsSound(db, id, reply);
      case DoMarkUnknown(id) => MarkUnknownKeepsSound(db, id);
      case DoReconcile(id) => ReconcileKeepsSound(db, id);
      case DoSetQuality(id, rank) => SetQualityKeepsSound(db, id, rank);
      case DoReserve(r, q, m) => ReserveKeepsSound(db, r, q, m);
      case DoNormalize => NormalizeKeepsSound(db);
      case DoCancelUnstarted(r) => RevokingKeepsSound(db, r);
      case DoTombstone(m) => TombstoneKeepsSound(db, m);
      case DoCloseRequests(m) => TombstoneKeepsSound(db, m);
      case DoRelease(m) => ReleaseKeepsSound(db, m);
      case DoClaimMovie(r, c) => ClaimMovieKeepsSound(db, r, c);
      case DoRecordMovie(r) => RecordMovieKeepsSound(db, r);
      case DoCompleteMovie(r) => CompleteMovieKeepsSound(db, r);
      case DoClaimEpisode(k, c) => ClaimEpisodeKeepsSound(db, k, c);
      case DoRecordEpisode(k) => RecordEpisodeKeepsSound(db, k);
      case DoCompleteEpisode(k) => CompleteEpisodeKeepsSound(db, k);
    }
  }
}
