/** What holds after every run of ledger transactions, in any order and whatever their arguments. */
module LedgerRuns {
  import opened Options
  import opened Tables
  import opened Transactions
  import opened Soundness
  import opened Budgets
  import opened CapacitySafety

  datatype Step = Step(now: int, transaction: Transaction)

  ghost function Run(db: Database, steps: seq<Step>): Database
    decreases |steps|
  {
    if steps == [] then db else Run(After(db, steps[0].now, steps[0].transaction), steps[1..])
  }

  lemma {:induction false} RunSplits(db: Database, steps: seq<Step>, k: nat)
    requires k <= |steps|
    ensures Run(db, steps) == Run(Run(db, steps[..k]), steps[k..])
    decreases |steps|
  {
    if k == 0 {
      assert steps[k..] == steps && steps[..k] == [];
    } else {
      hide After;
      assert steps[..k][0] == steps[0] && steps[..k][1..] == steps[1..][..k - 1] && steps[k..] == steps[1..][k - 1..];
      RunSplits(After(db, steps[0].now, steps[0].transaction), steps[1..], k - 1);
    }
  }

  // ---- Soundness and budgets ----

  ghost predicate Reliable(db: Database) {
    Sound(db) && BudgetsExact(db)
  }

  lemma RowStepKeepsBudgets(db: Database, now: int, t: Transaction)
    requires Sound(db) && BudgetsExact(db) && Apply(db, now, t).Ok?
    requires t.RowStep()
    ensures BudgetsExact(Apply(db, now, t).value)
  {
    hide Sound, BudgetsExact, RequireReservation, RequirePack, SlotHasSuperseded, PendingBytes, SupersededHashes,
      IdentityFits, ValidatePayload, AllPaused;
    var id, after := t.id, Apply(db, now, t).value;
    if after != db {
      assert after == db.(permits := db.permits[id := after.permits[id]]);
      ChangedRowKeepsBudgets(db, id, after.permits[id]);
    }
  }

  predicate KeepsRows(t: Transaction) {
    t.DoTombstone? || t.DoCloseRequests? || t.DoRelease? || t.DoClaimMovie? || t.DoRecordMovie? ||
    t.DoCompleteMovie? || t.DoClaimEpisode? || t.DoRecordEpisode? || t.DoCompleteEpisode?
  }

  /** Only reservations, requests, tombstones and imports change, and none of them revives. */
  ghost predicate Around(db: Database, after: Database) {
    SameSources(db, after) && SameCharges(db, after) && ReservationsSettle(db, after) && ImportsStayComplete(db, after)
  }

  lemma DeletionIsAround(db: Database, m: MediaKey)
    ensures Around(db, Tombstone(db, m).value) && Around(db, CloseSeasonRequests(db, m).value)
    ensures Around(db, ReleaseSeason(db, m).value)
  {
  }

  lemma MovieImportIsAround(db: Database, r: ReservationId, copy: bool)
    ensures ClaimMovie(db, r, copy).Ok? ==> Around(db, ClaimMovie(db, r, copy).value)
    ensures Around(db, RecordMovie(db, r).value)
  {
    hide ImportPendingNow;
  }

  lemma MovieCompletionIsAround(db: Database, r: ReservationId)
    ensures Around(db, CompleteMovie(db, r).value)
  {
  }

  lemma EpisodeImportIsAround(db: Database, k: ImportKey, copy: bool)
    ensures ClaimEpisode(db, k, copy).Ok? ==> Around(db, ClaimEpisode(db, k, copy).value)
    ensures Around(db, RecordEpisode(db, k).value)
    ensures Around(db, CompleteEpisode(db, k).value)
  {
    hide ImportPendingNow;
  }

  lemma AroundStep(db: Database, now: int, t: Transaction)
    requires KeepsRows(t) && Apply(db, now, t).Ok?
    ensures Around(db, Apply(db, now, t).value)
  {
    hide Around, Tombstone, CloseSeasonRequests, ReleaseSeason, ClaimMovie, RecordMovie,
      CompleteMovie, ClaimEpisode, RecordEpisode, CompleteEpisode;
    match t
    case DoTombstone(m) => DeletionIsAround(db, m);
    case DoCloseRequests(m) => DeletionIsAround(db, m);
    case DoRelease(m) => DeletionIsAround(db, m);
    case DoClaimMovie(r, copy) => MovieImportIsAround(db, r, copy);
    case DoRecordMovie(r) => MovieImportIsAround(db, r, false);
    case DoCompleteMovie(r) => MovieCompletionIsAround(db, r);
    case DoClaimEpisode(k, copy) => EpisodeImportIsAround(db, k, copy);
    case DoRecordEpisode(k) => EpisodeImportIsAround(db, k, false);
    case DoCompleteEpisode(k) => EpisodeImportIsAround(db, k, false);
  }

  lemma QuietStepKeepsBudgets(db: Database, now: int, t: Transaction)
    requires Sound(db) && BudgetsExact(db) && Apply(db, now, t).Ok? && (KeepsRows(t) || t.RowStep())
    ensures BudgetsExact(Apply(db, now, t).value)
  {
    hide Sound, BudgetsExact, Apply;
    if KeepsRows(t) {
      AroundStep(db, now, t);
      QuietKeepsBudgets(db, Apply(db, now, t).value);
    } else {
      RowStepKeepsBudgets(db, now, t);
    }
  }

  lemma TransactionKeepsBudgets(db: Database, now: int, t: Transaction)
    requires Sound(db) && BudgetsExact(db)
    ensures BudgetsExact(After(db, now, t))
  {
    hide Sound, BudgetsExact, Issue, IssueProbe, ReplaceConfirmed, Renew, BindSeasonPack, PromoteProbe, RejectProbe,
      CompleteHandover, CancelAuthorized, RetireExpired, Begin, Record, MarkUnknown, Reconcile, SetQuality, Reserve,
      NormalizeBudgets, CancelUnstarted, Tombstone, CloseSeasonRequests, ReleaseSeason, ClaimMovie, RecordMovie,
      CompleteMovie, ClaimEpisode, RecordEpisode, CompleteEpisode;
    if Apply(db, now, t).Ok? {
      match t
      case DoIssue(a) => IssueKeepsBudgets(db, now, a);
      case DoIssueProbe(a) => IssueProbeKeepsBudgets(db, now, a);
      case DoReplace(a) => ReplaceKeepsBudgets(db, now, a);
      case DoBind(a) => BindKeepsBudgets(db, now, a);
      case DoPromote(id) => PromoteKeepsBudgets(db, id);
      case DoReject(id) => RejectKeepsBudgets(db, id);
      case DoCompleteHandover(id) => CompleteHandoverKeepsBudgets(db, id);
      case DoCancel(id) => CancelKeepsBudgets(db, id);
      case DoRetire(r, s) => RetireKeepsBudgets(db, now, r, s);
      case DoReserve(r, q, m) => ReserveKeepsBudgets(db, r, q, m);
      case DoNormalize => NormalizeKeepsBudgets(db);
      case DoCancelUnstarted(r) => RevokingKeepsBudgets(db, r);
      case _ => QuietStepKeepsBudgets(db, now, t);
    }
  }

  /** From any reliable ledger, every run ends in a reliable ledger. */
  lemma {:induction false} RunStaysReliable(db: Database, steps: seq<Step>)
    requires Reliable(db)
    ensures Reliable(Run(db, steps))
    decreases |steps|
  {
    if steps != [] {
      hide Sound, BudgetsExact, After;
      TransactionKeepsSound(db, steps[0].now, steps[0].transaction);
      TransactionKeepsBudgets(db, steps[0].now, steps[0].transaction);
      RunStaysReliable(After(db, steps[0].now, steps[0].transaction), steps[1..]);
    }
  }

  const EMPTY := Database(map[], map[], map[], map[], map[], {}, map[], map[])

  /** A new database is reliable, so every ledger that transactions can reach is. */
  lemma ReachableLedgersAreReliable(steps: seq<Step>)
    ensures Reliable(Run(EMPTY, steps))
  {
    hide Run;
    RunStaysReliable(EMPTY, steps);
  }

  // ---- Capacity ----

  /** The evidence a transaction measures against. */
  predicate UsesEvidence(t: Transaction, capacity: Capacity) {
    match t
    case DoIssue(a) => a.capacity == capacity
    case DoIssueProbe(a) => a.capacity == capacity
    case DoReplace(a) => a.capacity == capacity
    case DoRenew(_, c, _, _) => c == capacity
    case _ => true
  }

  /** Reconciling must not wake a lapsed admission the queue says nothing about. */
  predicate WakesNothing(db: Database, now: int, t: Transaction, capacity: Capacity) {
    t.DoReconcile? && t.id in db.permits && db.permits[t.id].state == Authorized && db.permits[t.id].expires <= now &&
    db.permits[t.id].pool in capacity
    ==> db.permits[t.id].infohash in capacity[db.permits[t.id].pool].remaining
  }

  lemma RowStepKeepsSafe(db: Database, now: int, t: Transaction, capacity: Capacity)
    requires Sound(db) && CapacitySafe(db, capacity, now) && Apply(db, now, t).Ok?
    requires t.DoBegin? || t.DoRecord? || t.DoMarkUnknown? || t.DoSetQuality?
    ensures CapacitySafe(Apply(db, now, t).value, capacity, now)
  {
    hide Sound, CapacitySafe, RequireReservation, RequirePack;
    var id, after := t.id, Apply(db, now, t).value;
    if after != db {
      assert after == db.(permits := db.permits[id := after.permits[id]]);
      ChangedRowKeepsSafe(db, now, id, after.permits[id], capacity);
    }
  }

  lemma ReconcileStep(db: Database, id: PermitId) returns (q: Permit)
    requires Reconcile(db, id).Ok?
    ensures id in db.permits && SameIdentity(db.permits[id], q) && q.Live() && db.permits[id].Live()
    ensures q.state == Confirmed && q.parent == db.permits[id].parent && db.Active(q.reservation)
    ensures Reconcile(db, id).value == db.(permits := db.permits[id := q])
  {
    var p := db.permits[id];
    q := if p.state == Confirmed then p else p.(state := Confirmed, reply := Some(Accepted(p.infohash)));
    assert db.permits[id := p] == db.permits;
  }

  lemma ReconcileKeepsSafe(db: Database, now: int, id: PermitId, capacity: Capacity)
    requires Sound(db) && CapacitySafe(db, capacity, now) && Reconcile(db, id).Ok?
    requires WakesNothing(db, now, DoReconcile(id), capacity)
    ensures CapacitySafe(Reconcile(db, id).value, capacity, now)
  {
    hide Sound, Reconcile, PendingBytes, CountedWithin, CapacitySafe;
    var q := ReconcileStep(db, id);
    if db.permits[id].state != Authorized || db.permits[id].expires > now {
      ChangedRowKeepsSafe(db, now, id, q, capacity);
    } else {
      ReportedRowKeepsSafe(db, now, id, q, capacity);
    }
  }

  lemma ReportedRowKeepsSafe(db: Database, now: int, id: PermitId, q: Permit, capacity: Capacity)
    requires Sound(db) && CapacitySafe(db, capacity, now) && id in db.permits && SameIdentity(db.permits[id], q)
    requires q.Live() && db.permits[id].Live() && q.parent == db.permits[id].parent
    requires q.pool in capacity ==> q.infohash in capacity[q.pool].remaining
    ensures CapacitySafe(db.(permits := db.permits[id := q]), capacity, now)
  {
    hide Sound, PendingBytes, CountedWithin;
    SoundParts(db);
    var after := db.(permits := db.permits[id := q]);
    QuieterCountsWithin(db, after, now, {id});
    forall pool | pool in capacity ensures PendingBytes(after, capacity[pool], pool, now) <= capacity[pool].free {
      if pool == q.pool {
        PendingRisesByOne(db, now, after, now, capacity[pool], pool, id);
      } else {
        PendingNeverRises(db, now, after, now, capacity[pool], pool, {id});
      }
    }
  }

  lemma QuietStepKeepsSafe(db: Database, now: int, t: Transaction, capacity: Capacity)
    requires Sound(db) && CapacitySafe(db, capacity, now) && Apply(db, now, t).Ok?
    requires KeepsRows(t) || t.DoBegin? || t.DoRecord? || t.DoMarkUnknown? || t.DoSetQuality?
    ensures CapacitySafe(Apply(db, now, t).value, capacity, now)
  {
    hide Sound, CapacitySafe, Apply;
    if KeepsRows(t) {
      AroundStep(db, now, t);
      QuietKeepsSafe(db, now, Apply(db, now, t).value, capacity);
    } else {
      RowStepKeepsSafe(db, now, t, capacity);
    }
  }

  lemma TransactionKeepsSafe(db: Database, now: int, t: Transaction, capacity: Capacity)
    requires Sound(db) && CapacitySafe(db, capacity, now)
    requires UsesEvidence(t, capacity) && WakesNothing(db, now, t, capacity)
    ensures CapacitySafe(After(db, now, t), capacity, now)
  {
    hide Sound, CapacitySafe, Issue, IssueProbe, ReplaceConfirmed, Renew, BindSeasonPack, PromoteProbe, RejectProbe,
      CompleteHandover, Begin, Record, MarkUnknown, Reconcile, SetQuality, WakesNothing,
      CancelUnstarted, Tombstone, CloseSeasonRequests, ReleaseSeason, ClaimMovie, RecordMovie,
      CompleteMovie, ClaimEpisode, RecordEpisode, CompleteEpisode;
    if Apply(db, now, t).Ok? {
      match t
      case DoIssue(a) => IssueKeepsSafe(db, now, a);
      case DoIssueProbe(a) => IssueProbeKeepsSafe(db, now, a);
      case DoReplace(a) => ReplaceKeepsSafe(db, now, a);
      case DoRenew(id, c, e, p) => RenewKeepsSafe(db, now, id, c, e, p);
      case DoBind(a) => BindKeepsSafe(db, now, a, capacity);
      case DoPromote(id) => PromoteKeepsSafe(db, now, id, capacity);
      case DoReject(id) => RejectKeepsSafe(db, now, id, capacity);
      case DoCompleteHandover(id) => CompleteHandoverKeepsSafe(db, now, id, capacity);
      case DoCancel(id) =>
        DeletingKeepsSafe(db, now, db.(permits := db.permits - {id}, bindings := db.bindings - {id}), {id},
          db.permits[id].reservation, capacity);
      case DoRetire(r, s) =>
        var expired := ExpiredRows(db, r, s, now);
        DeletingKeepsSafe(db, now, db.(permits := db.permits - expired), expired, r, capacity);
      case DoReserve(r, q, m) => QuietKeepsSafe(db, now, Apply(db, now, t).value, capacity);
      case DoNormalize => QuietKeepsSafe(db, now, Apply(db, now, t).value, capacity);
      case DoCancelUnstarted(r) => RevokingKeepsSafe(db, now, r, capacity);
      case DoReconcile(id) => ReconcileKeepsSafe(db, now, id, capacity);
      case _ => QuietStepKeepsSafe(db, now, t, capacity);
    }
  }

  /** The clock never goes back, every step measures against this evidence, and none wakes a lapsed admission. */
  ghost predicate Admissible(db: Database, now: int, steps: seq<Step>, capacity: Capacity)
    decreases |steps|
  {
    steps == [] ||
    (&& now <= steps[0].now
     && UsesEvidence(steps[0].transaction, capacity)
     && WakesNothing(db, steps[0].now, steps[0].transaction, capacity)
     && Admissible(After(db, steps[0].now, steps[0].transaction), steps[0].now, steps[1..], capacity))
  }

  function EndTime(now: int, steps: seq<Step>): int
    decreases |steps|
  {
    if steps == [] then now else EndTime(steps[0].now, steps[1..])
  }

  /** Capacity safety over whole runs. */
  lemma {:induction false} RunStaysWithinCapacity(db: Database, now: int, steps: seq<Step>, capacity: Capacity)
    requires Sound(db) && CapacitySafe(db, capacity, now) && Admissible(db, now, steps, capacity)
    ensures CapacitySafe(Run(db, steps), capacity, EndTime(now, steps))
    decreases |steps|
  {
    if steps != [] {
      hide Sound, CapacitySafe, After, WakesNothing, UsesEvidence;
      var Step(at, t) := steps[0];
      WaitingKeepsSafe(db, now, at, capacity);
      TransactionKeepsSafe(db, at, t, capacity);
      TransactionKeepsSound(db, at, t);
      RunStaysWithinCapacity(After(db, at, t), at, steps[1..], capacity);
    }
  }

  // ---- One live source per slot ----

  /** A slot is never covered twice, so looking up its source is never ambiguous. */
  lemma CoverIsUnique(db: Database, a: PermitId, b: PermitId, r: ReservationId, scope: Scope)
    requires Sound(db) && db.Covers(a, r, scope) && db.Covers(b, r, scope)
    ensures a == b
  {
    SoundParts(db);
    if db.permits[a].scope == scope && db.permits[b].scope == scope {
      assert !RivalPrimaries(db.permits[a], db.permits[b]) || a == b;
    } else if db.permits[a].scope != scope && db.permits[b].scope != scope {
      assert db.ServesByBinding(a, scope) && db.ServesByBinding(b, scope);
    }
  }

  /** A slot covered by a pack binding has no live permit of its own, not even a probe. */
  lemma PackSlotHasNoOwnSource(db: Database, pack: PermitId, r: ReservationId, scope: Scope, own: PermitId)
    requires Sound(db) && db.Covers(pack, r, scope) && db.permits[pack].scope != scope
    requires own in db.permits && db.permits[own].reservation == r && db.permits[own].scope == scope
    ensures !db.permits[own].Live()
  {
    SoundParts(db);
    assert !OwnAndBound(db, pack, own);
  }
}
