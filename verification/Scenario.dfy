/**
 One movie with one slot, followed transaction by transaction from an empty database. Ledgers that
 break a promise are reached here, so that no counterexample is an impossible one.
 */
module MovieScenario {
  import opened Options
  import opened Sums
  import opened Tables
  import opened Transactions
  import opened LedgerRuns

  /** The one file of a source, named differently for every source. */
  function File(id: PermitId): string {
    seq(id + 1, _ => 'x')
  }

  /** A source of the movie: ten bytes of torrent `id + 1`, to be dispatched before time zero. */
  function Source(id: PermitId, state: State, parent: Option<PermitId>, quality: Option<seq<int>>): Permit {
    Permit(id + 1, Some(id), Radarr, 0, WholeItem, [File(id)], 10, 0, state,
      if state in {Confirmed, Superseded} then Some(Accepted(id + 1)) else None, parent, quality, Ssd, 1)
  }

  function Ledger(permits: map<PermitId, Permit>, handovers: map<PermitId, Handover>, charge: nat): Database {
    Database(permits, map[0 := Reservation(0, MovieMedia(1), Reserved, charge)], map[0 := ReservedRequest], handovers,
      map[], {}, map[], map[])
  }

  // ---- Evidence under which everything fits ----

  const TORRENTS: map<InfoHash, nat> := map[1 := 0, 2 := 0, 3 := 0, 4 := 0]
  const CAPACITY: Capacity := map[Ssd := PoolEvidence(1, 100, TORRENTS, 0, {1, 2, 3, 4})]
  const DISKS: Disks := map[Ssd := Sample(1, 100, true)]

  lemma {:induction false} ZerosAddUp(m: map<InfoHash, nat>)
    requires forall h | h in m :: m[h] == 0
    ensures Sum(m) == 0
    decreases m.Keys
  {
    if m != map[] {
      var h :| h in m && Sum(m) == m[h] + Sum(m - {h});
      ZerosAddUp(m - {h});
    }
  }

  /** Every torrent of the ledger is in the queue, with nothing left to fetch. */
  predicate Fetched(db: Database) {
    forall id | id in db.permits :: db.permits[id].infohash in TORRENTS
  }

  lemma PoolIsFree(db: Database, now: int)
    requires Fetched(db)
    ensures SelectPool(db, now, CAPACITY, DISKS, 10) == Ok(Ssd)
  {
    var e := CAPACITY[Ssd];
    assert CommittedHashes(db, e, Ssd, now) == TORRENTS.Keys;
    assert Commitments(db, e, Ssd, now) == TORRENTS;
    ZerosAddUp(TORRENTS);
    assert PendingBytes(db, e, Ssd, now) == 0;
    hide PendingBytes;
    assert PoolFits(db, now, CAPACITY, DISKS, 10, Ssd);
  }

  // ---- What suffices to commit ----

  lemma IssueCommits(db: Database, now: int, a: IssueRequest)
    requires a.budget > 0 && db.Active(a.reservation) && a.scope == WholeItem && Ssd in a.disks
    requires SelectPool(db, now, a.capacity, a.disks, a.budget) == Ok(Ssd)
    requires !SlotHasSuperseded(db, a.reservation, a.scope) && !SlotHasPrimary(db, a.reservation, a.scope)
    requires db.Fresh(a.id)
    ensures Issue(db, now, a) == Ok(WithBudget(db.(permits := db.permits[a.id := IssuedRow(a, Ssd)]), a.reservation,
                                               a.budget + db.LiveBytes(a.reservation)))
  {
    hide SelectPool, SlotHasPrimary, SlotHasSuperseded, SlotIsBound, LiveBudgets, WithBudget;
  }

  lemma ProbeCommits(db: Database, now: int, a: SourceRequest, prior: Permit)
    requires a.WellFormed(now) && a.prior in db.permits && db.permits[a.prior] == prior && Ssd in a.disks
    requires prior.state == Confirmed && prior.parent.None? && prior.quality.Some? && a.quality.Some?
    requires RequireReservation(db, prior.reservation, prior.scope).Pass? && !HasLiveProbe(db, a.prior)
    requires !(a.prior in db.handovers && db.handovers[a.prior].pending)
    requires prior.reservation !in db.movieImports && OfPermit(a.prior) !in db.episodeImports
    requires !SourceTried(db, prior.reservation, a.infohash) && !(exists f :: f in a.files && f in prior.files)
    requires NotWorse(a.quality.value, prior.quality.value) && db.Fresh(a.id)
    requires SelectPool(db, now, a.capacity, a.disks, a.budget) == Ok(Ssd)
    ensures var added := db.(permits := db.permits[a.id := SourceRow(prior, a, Ssd, Some(a.prior))]);
      IssueProbe(db, now, a) == Ok(WithBudget(added, prior.reservation, added.HeldBytes(prior.reservation)))
  {
    hide SelectPool, RequireReservation, HasLiveProbe, SourceTried, NotWorse, HeldBudgets, WithBudget;
  }

  lemma ReplaceCommits(db: Database, now: int, a: SourceRequest, prior: Permit)
    requires a.WellFormed(now) && a.prior in db.permits && db.permits[a.prior] == prior && Ssd in a.disks
    requires prior.state == Confirmed && db.Active(prior.reservation)
    requires {prior.infohash} + SupersededHashes(db, prior.reservation, prior.scope) <= AllPaused(a.capacity)
    requires IdentityFits(prior, db.reservations[prior.reservation].media)
    requires prior.reservation !in db.movieImports && OfPermit(a.prior) !in db.episodeImports
    requires !SlotHoldsHash(db, prior, a.infohash) && !HashLiveElsewhere(db, a.infohash, {})
    requires SelectPool(db, now, a.capacity, a.disks, a.budget) == Ok(Ssd)
    requires var freed := WithState(db, a.prior, Superseded);
      freed.Fresh(a.id) && !SlotHasPrimary(freed, prior.reservation, prior.scope)
    ensures var freed := WithState(db, a.prior, Superseded);
      var added := freed.(permits := freed.permits[a.id := SourceRow(prior, a, Ssd, None)]);
      ReplaceConfirmed(db, now, a) == Ok(WithBudget(added, prior.reservation, added.LiveBytes(prior.reservation)))
  {
    hide SelectPool, SlotHasPrimary, SlotHoldsHash, SupersededHashes, AllPaused, HashLiveElsewhere, IdentityFits,
      LiveBudgets, WithBudget;
  }

  lemma PromoteCommits(db: Database, id: PermitId, p: Permit, parent: PermitId)
    requires id in db.permits && db.permits[id] == p && p.state == Confirmed && p.parent == Some(parent)
    requires RequireReservation(db, p.reservation, p.scope).Pass?
    requires p.reservation !in db.movieImports && OfPermit(parent) !in db.episodeImports
    requires parent in db.permits && db.permits[parent].state == Confirmed && db.permits[parent].parent.None?
    requires id !in db.handovers && id != parent
    requires var stepped := WithState(db, parent, Superseded).(handovers := db.handovers[id := Handover(parent, true)]);
      !SlotHasPrimary(stepped, p.reservation, p.scope)
    ensures var stepped := WithState(db, parent, Superseded).(handovers := db.handovers[id := Handover(parent, true)]);
      var promoted := stepped.(permits := stepped.permits[id := p.(parent := None)]);
      PromoteProbe(db, id) == Ok(WithBudget(promoted, p.reservation, promoted.HeldBytes(p.reservation)))
  {
    hide RequireReservation, SlotHasPrimary, HeldBudgets, WithBudget;
  }

  lemma ChargedAnew(permits: map<PermitId, Permit>, handovers: map<PermitId, Handover>, charge: nat, again: nat)
    ensures WithBudget(Ledger(permits, handovers, charge), 0, again) == Ledger(permits, handovers, again)
  {
    assert Ledger(permits, handovers, charge).reservations[0 := Reservation(0, MovieMedia(1), Reserved, again)] ==
           Ledger(permits, handovers, again).reservations;
  }

  // ---- Dispatch ----

  function Dispatch(id: PermitId): seq<Step> {
    [Step(-1, DoBegin(id, Payload(id + 1, id, Some(id)), true, true)), Step(-1, DoRecord(id, Accepted(id + 1)))]
  }

  lemma TwoSteps(db: Database, a: Step, b: Step)
    ensures Run(db, [a, b]) == After(After(db, a.now, a.transaction), b.now, b.transaction)
  {
    hide After;
    assert [a, b][1..] == [b] && [b][1..] == [];
    assert Run(db, [a, b]) == Run(After(db, a.now, a.transaction), [b]);
  }

  lemma OneStep(db: Database, a: Step)
    ensures Run(db, [a]) == After(db, a.now, a.transaction)
  {
    hide After;
    assert [a][1..] == [];
  }

  lemma RunsJoin(db: Database, a: seq<Step>, b: seq<Step>)
    ensures Run(db, a + b) == Run(Run(db, a), b)
  {
    assert (a + b)[..|a|] == a && (a + b)[|a|..] == b;
    hide Run;
    RunSplits(db, a + b, |a|);
  }

  lemma Dispatched(permits: map<PermitId, Permit>, handovers: map<PermitId, Handover>, charge: nat, id: PermitId,
                   parent: Option<PermitId>, quality: Option<seq<int>>)
    requires id in permits && permits[id] == Source(id, Authorized, parent, quality)
    ensures Run(Ledger(permits, handovers, charge), Dispatch(id)) ==
            Ledger(permits[id := Source(id, Confirmed, parent, quality)], handovers, charge)
  {
    var db := Ledger(permits, handovers, charge);
    var begun := WithState(db, id, Dispatching);
    assert begun == Ledger(permits[id := Source(id, Dispatching, parent, quality)], handovers, charge);
    assert Begin(db, -1, id, Payload(id + 1, id, Some(id)), true, true) == Ok(begun);
    assert Record(begun, id, Accepted(id + 1)).value.permits == permits[id := Source(id, Confirmed, parent, quality)];
    hide Begin, Record, Run;
    TwoSteps(db, Dispatch(id)[0], Dispatch(id)[1]);
  }

  // ---- The first source ----

  const FIRST := IssueRequest(0, 1, Some(0), Radarr, 0, WholeItem, [File(0)], 10, 0, CAPACITY, DISKS)
  const RESERVING := Step(-1, DoReserve(0, 0, MovieMedia(1)))
  const ISSUING := Step(-1, DoIssue(FIRST))
  const OPENING := [RESERVING, ISSUING] + Dispatch(0)
  const OPENED: map<PermitId, Permit> := map[0 := Source(0, Confirmed, None, None)]

  lemma FirstReserved()
    ensures Reserve(EMPTY, 0, 0, MovieMedia(1)) == Ok(Ledger(map[], map[], 0))
  {
  }

  lemma EmptyLedger()
    ensures var db := Ledger(map[], map[], 0);
      && db.LiveBytes(0) == 0 && db.Active(0) && db.Fresh(0) && Fetched(db)
      && !SlotHasSuperseded(db, 0, WholeItem) && !SlotHasPrimary(db, 0, WholeItem)
  {
    assert LiveBudgets(map[], 0) == map[];
  }

  lemma FirstRow()
    ensures Ssd in FIRST.disks && IssuedRow(FIRST, Ssd) == Source(0, Authorized, None, None)
    ensures var db := Ledger(map[], map[], 0);
      db.(permits := db.permits[0 := Source(0, Authorized, None, None)]) ==
      Ledger(map[0 := Source(0, Authorized, None, None)], map[], 0)
  {
  }

  lemma FirstRequest()
    ensures FIRST.id == 0 && FIRST.reservation == 0 && FIRST.scope == WholeItem && FIRST.budget == 10
    ensures FIRST.capacity == CAPACITY && FIRST.disks == DISKS
  {
  }

  lemma FirstIssued()
    ensures Issue(Ledger(map[], map[], 0), -1, FIRST) ==
            Ok(Ledger(map[0 := Source(0, Authorized, None, None)], map[], 10))
  {
    hide *;
    EmptyLedger();
    FirstRow();
    FirstRequest();
    PoolIsFree(Ledger(map[], map[], 0), -1);
    IssueCommits(Ledger(map[], map[], 0), -1, FIRST);
    ChargedAnew(map[0 := Source(0, Authorized, None, None)], map[], 0, 10);
  }

  lemma Admitted()
    ensures Run(EMPTY, [RESERVING, ISSUING]) == Ledger(map[0 := Source(0, Authorized, None, None)], map[], 10)
  {
    FirstReserved();
    FirstIssued();
    hide Issue, Reserve, Run, Source, Ledger;
    TwoSteps(EMPTY, RESERVING, ISSUING);
  }

  lemma Opened()
    ensures Run(EMPTY, OPENING) == Ledger(OPENED, map[], 10)
  {
    hide Run, Dispatch, Source, Ledger;
    Admitted();
    RunsJoin(EMPTY, [RESERVING, ISSUING], Dispatch(0));
    Dispatched(map[0 := Source(0, Authorized, None, None)], map[], 10, 0, None, None);
    assert map[0 := Source(0, Authorized, None, None)][0 := Source(0, Confirmed, None, None)] == OPENED;
  }

  // ---- Further sources ----

  /** Rows of this movie, of which only one is not yet history. */
  predicate OneLeft(permits: map<PermitId, Permit>, left: PermitId, quality: Option<seq<int>>) {
    && left in permits && permits[left] == Source(left, Confirmed, None, quality)
    && (forall k | k in permits :: k < 4 && permits[k] == Source(k, permits[k].state, None, permits[k].quality))
    && (forall k | k in permits && k != left :: permits[k].state == Superseded)
  }

  predicate Unused(permits: map<PermitId, Permit>, handovers: map<PermitId, Handover>, id: PermitId) {
    id < 4 && id !in permits && id !in handovers && forall c | c in handovers :: handovers[c].parent != id
  }

  function Request(prior: PermitId, id: PermitId): SourceRequest {
    SourceRequest(prior, id, id + 1, id, [File(id)], 10, 0, Some([1, 1]), CAPACITY, DISKS)
  }

  function Retired(permits: map<PermitId, Permit>, prior: PermitId, quality: Option<seq<int>>): map<PermitId, Permit> {
    permits[prior := Source(prior, Superseded, None, quality)]
  }

  lemma NotYetThere(permits: map<PermitId, Permit>, handovers: map<PermitId, Handover>, charge: nat, left: PermitId,
                    quality: Option<seq<int>>, id: PermitId)
    requires OneLeft(permits, left, quality) && Unused(permits, handovers, id)
    ensures var db := Ledger(permits, handovers, charge);
      && Fetched(db) && db.Fresh(id) && !HasLiveProbe(db, left) && !SourceTried(db, 0, id + 1)
      && !SlotHoldsHash(db, permits[left], id + 1) && !HashLiveElsewhere(db, id + 1, {})
  {
  }

  lemma HistoryIsPaused(permits: map<PermitId, Permit>, handovers: map<PermitId, Handover>, charge: nat, left: PermitId,
                        quality: Option<seq<int>>)
    requires OneLeft(permits, left, quality)
    ensures {left + 1} + SupersededHashes(Ledger(permits, handovers, charge), 0, WholeItem) <= AllPaused(CAPACITY)
    ensures !SlotHasPrimary(Ledger(Retired(permits, left, quality), handovers, charge), 0, WholeItem)
  {
    forall h | h in {1, 2, 3, 4} ensures h in AllPaused(CAPACITY) {
      assert h in CAPACITY[Ssd].paused;
    }
  }

  lemma ReplacementCommitted(permits: map<PermitId, Permit>, handovers: map<PermitId, Handover>, charge: nat,
                             prior: PermitId, quality: Option<seq<int>>, id: PermitId)
    requires OneLeft(permits, prior, quality) && Unused(permits, handovers, id)
    ensures var rows := Retired(permits, prior, quality)[id := Source(id, Authorized, None, None)];
      ReplaceConfirmed(Ledger(permits, handovers, charge), -1, Request(prior, id)) ==
      Ok(Ledger(rows, handovers, Sum(LiveBudgets(rows, 0))))
  {
    var db := Ledger(permits, handovers, charge);
    NotYetThere(permits, handovers, charge, prior, quality, id);
    HistoryIsPaused(permits, handovers, charge, prior, quality);
    PoolIsFree(db, -1);
    hide SelectPool, LiveBudgets, AllPaused, ReplaceConfirmed, WithBudget, SupersededHashes, SlotHoldsHash,
      HashLiveElsewhere, SlotHasPrimary, Fetched;
    assert WithState(db, prior, Superseded) == Ledger(Retired(permits, prior, quality), handovers, charge);
    ReplaceCommits(db, -1, Request(prior, id), permits[prior]);
    var rows := Retired(permits, prior, quality)[id := Source(id, Authorized, None, None)];
    assert SourceRow(permits[prior], Request(prior, id), Ssd, None) == Source(id, Authorized, None, None);
    ChargedAnew(rows, handovers, charge, Sum(LiveBudgets(rows, 0)));
  }

  lemma ProbeCommitted(permits: map<PermitId, Permit>, handovers: map<PermitId, Handover>, charge: nat, prior: PermitId,
               id: PermitId)
    requires OneLeft(permits, prior, Some([1, 1])) && Unused(permits, handovers, id)
    requires prior in handovers ==> !handovers[prior].pending
    ensures var rows := permits[id := Source(id, Authorized, Some(prior), Some([1, 1]))];
      IssueProbe(Ledger(permits, handovers, charge), -1, Request(prior, id)) ==
      Ok(Ledger(rows, handovers, Sum(HeldBudgets(rows, PendingParents(handovers), 0))))
  {
    var db := Ledger(permits, handovers, charge);
    NotYetThere(permits, handovers, charge, prior, Some([1, 1]), id);
    PoolIsFree(db, -1);
    hide SelectPool, HeldBudgets, IssueProbe, WithBudget, HasLiveProbe, SourceTried, Fetched;
    assert |File(id)| != |File(prior)|;
    ProbeCommits(db, -1, Request(prior, id), permits[prior]);
    var rows := permits[id := Source(id, Authorized, Some(prior), Some([1, 1]))];
    assert SourceRow(permits[prior], Request(prior, id), Ssd, Some(prior)) == rows[id];
    ChargedAnew(rows, handovers, charge, Sum(HeldBudgets(rows, PendingParents(handovers), 0)));
  }

  lemma PromotionCommitted(permits: map<PermitId, Permit>, handovers: map<PermitId, Handover>, charge: nat,
                           prior: PermitId, id: PermitId)
    requires OneLeft(permits, prior, Some([1, 1])) && Unused(permits, handovers, id)
    ensures var probed := permits[id := Source(id, Confirmed, Some(prior), Some([1, 1]))];
      var rows := Retired(permits, prior, Some([1, 1]))[id := Source(id, Confirmed, None, Some([1, 1]))];
      var pending := handovers[id := Handover(prior, true)];
      PromoteProbe(Ledger(probed, handovers, charge), id) ==
      Ok(Ledger(rows, pending, Sum(HeldBudgets(rows, PendingParents(pending), 0))))
  {
    hide HeldBudgets, PromoteProbe, WithBudget;
    var probed := permits[id := Source(id, Confirmed, Some(prior), Some([1, 1]))];
    var rows := Retired(permits, prior, Some([1, 1]))[id := Source(id, Confirmed, None, Some([1, 1]))];
    var db, pending := Ledger(probed, handovers, charge), handovers[id := Handover(prior, true)];
    PromoteCommits(db, id, probed[id], prior);
    assert Retired(probed, prior, Some([1, 1]))[id := Source(id, Confirmed, None, Some([1, 1]))] == rows;
    ChargedAnew(rows, pending, charge, Sum(HeldBudgets(rows, PendingParents(pending), 0)));
  }

  // ---- A replacement, and a handover ----

  lemma Ran(db: Database, s: Step, after: Database)
    requires Apply(db, s.now, s.transaction) == Ok(after)
    ensures Run(db, [s]) == after
  {
    hide Apply;
    OneStep(db, s);
  }

  lemma SetAgain(permits: map<PermitId, Permit>, id: PermitId, p: Permit, q: Permit)
    ensures permits[id := p][id := q] == permits[id := q]
  {
  }

  function Replacing(prior: PermitId, id: PermitId): Step {
    Step(-1, DoReplace(Request(prior, id)))
  }

  lemma ReplacementRan(permits: map<PermitId, Permit>, handovers: map<PermitId, Handover>, charge: nat,
                       prior: PermitId, quality: Option<seq<int>>, id: PermitId)
    returns (rows: map<PermitId, Permit>)
    requires OneLeft(permits, prior, quality) && Unused(permits, handovers, id)
    ensures rows == Retired(permits, prior, quality)[id := Source(id, Authorized, None, None)]
    ensures Run(Ledger(permits, handovers, charge), [Replacing(prior, id)]) ==
            Ledger(rows, handovers, Sum(LiveBudgets(rows, 0)))
  {
    rows := Retired(permits, prior, quality)[id := Source(id, Authorized, None, None)];
    ReplacementCommitted(permits, handovers, charge, prior, quality, id);
    hide Run, ReplaceConfirmed, LiveBudgets, Source, Ledger, Retired;
    Ran(Ledger(permits, handovers, charge), Replacing(prior, id), Ledger(rows, handovers, Sum(LiveBudgets(rows, 0))));
  }

  lemma NextIsLeft(permits: map<PermitId, Permit>, left: PermitId, was: Option<seq<int>>, retired: Option<seq<int>>,
                   id: PermitId, quality: Option<seq<int>>)
    requires OneLeft(permits, left, was) && id !in permits && id < 4
    ensures OneLeft(Retired(permits, left, retired)[id := Source(id, Confirmed, None, quality)], id, quality)
  {
  }

  lemma ReplacedAndDispatched(permits: map<PermitId, Permit>, handovers: map<PermitId, Handover>, charge: nat,
                              prior: PermitId, quality: Option<seq<int>>, id: PermitId)
    returns (rows: map<PermitId, Permit>, held: nat)
    requires OneLeft(permits, prior, quality) && Unused(permits, handovers, id)
    ensures rows == Retired(permits, prior, quality)[id := Source(id, Confirmed, None, None)] && OneLeft(rows, id, None)
    ensures Run(Ledger(permits, handovers, charge), [Replacing(prior, id)] + Dispatch(id)) ==
            Ledger(rows, handovers, held)
  {
    hide Run, Dispatch, LiveBudgets, Ledger, Source, Retired, OneLeft;
    var db := Ledger(permits, handovers, charge);
    rows := Retired(permits, prior, quality)[id := Source(id, Confirmed, None, None)];
    var entered := ReplacementRan(permits, handovers, charge, prior, quality, id);
    held := Sum(LiveBudgets(entered, 0));
    NextIsLeft(permits, prior, quality, quality, id, None);
    SetAgain(Retired(permits, prior, quality), id, Source(id, Authorized, None, None),
      Source(id, Confirmed, None, None));
    RunsJoin(db, [Replacing(prior, id)], Dispatch(id));
    Dispatched(entered, handovers, held, id, None, None);
  }

  function Ranking(prior: PermitId): Step {
    Step(-1, DoSetQuality(prior, [1, 1]))
  }

  lemma RankingRan(permits: map<PermitId, Permit>, handovers: map<PermitId, Handover>, charge: nat, prior: PermitId,
                   quality: Option<seq<int>>)
    returns (ranked: map<PermitId, Permit>)
    requires OneLeft(permits, prior, quality)
    ensures ranked == permits[prior := Source(prior, Confirmed, None, Some([1, 1]))]
    ensures OneLeft(ranked, prior, Some([1, 1]))
    ensures Run(Ledger(permits, handovers, charge), [Ranking(prior)]) == Ledger(ranked, handovers, charge)
  {
    ranked := permits[prior := Source(prior, Confirmed, None, Some([1, 1]))];
    assert SetQuality(Ledger(permits, handovers, charge), prior, [1, 1]) == Ok(Ledger(ranked, handovers, charge));
    assert OneLeft(ranked, prior, Some([1, 1]));
    hide Run, SetQuality, Source, Ledger, OneLeft;
    Ran(Ledger(permits, handovers, charge), Ranking(prior), Ledger(ranked, handovers, charge));
  }

  function Probing(prior: PermitId, id: PermitId): Step {
    Step(-1, DoIssueProbe(Request(prior, id)))
  }

  lemma ProbingRan(permits: map<PermitId, Permit>, handovers: map<PermitId, Handover>, charge: nat, prior: PermitId,
                   id: PermitId)
    returns (rows: map<PermitId, Permit>, held: nat)
    requires OneLeft(permits, prior, Some([1, 1])) && Unused(permits, handovers, id)
    requires prior in handovers ==> !handovers[prior].pending
    ensures rows == permits[id := Source(id, Authorized, Some(prior), Some([1, 1]))]
    ensures Run(Ledger(permits, handovers, charge), [Probing(prior, id)]) == Ledger(rows, handovers, held)
  {
    rows := permits[id := Source(id, Authorized, Some(prior), Some([1, 1]))];
    held := Sum(HeldBudgets(rows, PendingParents(handovers), 0));
    ProbeCommitted(permits, handovers, charge, prior, id);
    hide Run, IssueProbe, HeldBudgets, Source, Ledger;
    Ran(Ledger(permits, handovers, charge), Probing(prior, id), Ledger(rows, handovers, held));
  }

  function Promoting(id: PermitId): Step {
    Step(-1, DoPromote(id))
  }

  lemma PromotingRan(permits: map<PermitId, Permit>, handovers: map<PermitId, Handover>, charge: nat, prior: PermitId,
                     id: PermitId)
    returns (rows: map<PermitId, Permit>, held: nat)
    requires OneLeft(permits, prior, Some([1, 1])) && Unused(permits, handovers, id)
    ensures rows == Retired(permits, prior, Some([1, 1]))[id := Source(id, Confirmed, None, Some([1, 1]))]
    ensures OneLeft(rows, id, Some([1, 1]))
    ensures Run(Ledger(permits[id := Source(id, Confirmed, Some(prior), Some([1, 1]))], handovers, charge),
                [Promoting(id)]) == Ledger(rows, handovers[id := Handover(prior, true)], held)
  {
    hide Run, PromoteProbe, HeldBudgets, PendingParents, Source, Ledger, Retired;
    var pending := handovers[id := Handover(prior, true)];
    rows := Retired(permits, prior, Some([1, 1]))[id := Source(id, Confirmed, None, Some([1, 1]))];
    held := Sum(HeldBudgets(rows, PendingParents(pending), 0));
    PromotionCommitted(permits, handovers, charge, prior, id);
    NextIsLeft(permits, prior, Some([1, 1]), Some([1, 1]), id, Some([1, 1]));
    hide OneLeft;
    Ran(Ledger(permits[id := Source(id, Confirmed, Some(prior), Some([1, 1]))], handovers, charge), Promoting(id),
      Ledger(rows, pending, held));
  }

  function HandingOver(prior: PermitId, id: PermitId): seq<Step> {
    [Ranking(prior)] + [Probing(prior, id)] + Dispatch(id) + [Promoting(id)]
  }

  lemma RetiredAgain(permits: map<PermitId, Permit>, prior: PermitId, p: Permit)
    ensures Retired(permits[prior := p], prior, Some([1, 1])) == Retired(permits, prior, Some([1, 1]))
  {
  }

  /** The parent is ranked, its probe is issued, dispatched and promoted. */
  lemma HandedOver(permits: map<PermitId, Permit>, handovers: map<PermitId, Handover>, charge: nat, prior: PermitId,
                   quality: Option<seq<int>>, id: PermitId)
    returns (rows: map<PermitId, Permit>, held: nat)
    requires OneLeft(permits, prior, quality) && Unused(permits, handovers, id)
    requires prior in handovers ==> !handovers[prior].pending
    ensures rows == Retired(permits, prior, Some([1, 1]))[id := Source(id, Confirmed, None, Some([1, 1]))]
    ensures OneLeft(rows, id, Some([1, 1]))
    ensures Run(Ledger(permits, handovers, charge), HandingOver(prior, id)) ==
            Ledger(rows, handovers[id := Handover(prior, true)], held)
  {
    assert prior in permits;
    hide Run, Dispatch, Source, Ledger, OneLeft, Ranking, Probing, Promoting, Retired;
    var db := Ledger(permits, handovers, charge);
    var ranked := RankingRan(permits, handovers, charge, prior, quality);
    var entered, probing := ProbingRan(ranked, handovers, charge, prior, id);
    rows, held := PromotingRan(ranked, handovers, probing, prior, id);
    SetAgain(ranked, id, Source(id, Authorized, Some(prior), Some([1, 1])),
      Source(id, Confirmed, Some(prior), Some([1, 1])));
    RetiredAgain(permits, prior, Source(prior, Confirmed, None, Some([1, 1])));
    Dispatched(entered, handovers, probing, id, Some(prior), Some([1, 1]));
    FourRuns(db, [Ranking(prior)], [Probing(prior, id)], Dispatch(id), [Promoting(id)]);
  }

  lemma FourRuns(db: Database, a: seq<Step>, b: seq<Step>, c: seq<Step>, d: seq<Step>)
    ensures Run(db, a + b + c + d) == Run(Run(Run(Run(db, a), b), c), d)
  {
    hide Run;
    RunsJoin(db, a, b);
    RunsJoin(db, a + b, c);
    RunsJoin(db, a + b + c, d);
  }
}
