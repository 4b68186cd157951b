/**
 Replacing a slow source by a faster probe of the same slot.

 The gateway promotes the probe and records the handover in one transaction,
 then tells the torrent client to stop the parent, and completes the handover
 once it has seen the parent stopped. It may crash at any point; a later call
 finds the handover pending and goes on from the stop.
 */
module HandoverProtocol {
  import opened Options
  import opened Tables
  import opened Transactions
  import opened Soundness
  import opened Budgets
  import opened LedgerRuns
  import opened Evolution
  import opened MovieScenario
  import CapacitySafety

  // ---- One primary, one handover per slot ----

  /** Transactions that do not themselves withdraw or replace the primary of a slot. */
  predicate Protocol(t: Transaction) {
    !t.DoReplace? && !t.DoBind? && !t.DoCancel? && !t.DoRetire? && !t.DoCancelUnstarted?
  }

  /** Is the permit the candidate of a pending handover? */
  predicate Candidate(db: Database, c: PermitId) {
    c in db.handovers && db.handovers[c].pending
  }

  /** A pending handover's candidate is its slot's confirmed primary, with no live probe of its own. */
  ghost predicate PendingSettled(db: Database, c: PermitId) {
    c in db.permits && db.permits[c].state == Confirmed && !HasLiveProbe(db, c)
  }

  ghost predicate HandoversSettled(db: Database) {
    forall c | Candidate(db, c) :: PendingSettled(db, c)
  }

  ghost predicate PrimariesPersist(db: Database, after: Database) {
    forall c | c in db.permits && db.permits[c].Primary() ::
      c in after.permits && after.permits[c].Primary() && after.permits[c].SameSlot(db.permits[c]) &&
      (db.permits[c].state == Confirmed ==> after.permits[c].state == Confirmed)
  }

  /** Rows change in place, handovers stay or complete, and no probe appears. */
  ghost predicate NoNewProbe(db: Database, after: Database) {
    && (forall c | Candidate(after, c) :: Candidate(db, c))
    && (forall n | n in after.permits && after.permits[n].Live() && after.permits[n].parent.Some? ::
          n in db.permits && db.permits[n].Live() && db.permits[n].parent == after.permits[n].parent)
    && PrimariesPersist(db, after)
  }

  lemma NoNewProbeKeepsHandovers(db: Database, after: Database)
    requires HandoversSound(db) && HandoversSettled(db) && NoNewProbe(db, after)
    ensures HandoversSettled(after)
  {
    forall c | Candidate(after, c) ensures PendingSettled(after, c) {
      assert Candidate(db, c) && PendingSettled(db, c) && HandoverSound(db, c, db.handovers[c]);
    }
  }

  lemma EntryAddsNoProbe(db: Database, id: PermitId, row: Permit, r: ReservationId, charge: nat)
    requires id !in db.permits && row.parent.None?
    ensures NoNewProbe(db, WithBudget(db.(permits := db.permits[id := row]), r, charge))
  {
    Charged(db.(permits := db.permits[id := row]), r, charge);
  }

  lemma ProbeEntryKeepsHandovers(db: Database, id: PermitId, row: Permit, r: ReservationId, charge: nat)
    requires HandoversSettled(db) && id !in db.permits && row.parent.Some?
    requires !(row.parent.value in db.handovers && db.handovers[row.parent.value].pending)
    ensures HandoversSettled(WithBudget(db.(permits := db.permits[id := row]), r, charge))
    ensures PrimariesPersist(db, WithBudget(db.(permits := db.permits[id := row]), r, charge))
  {
    var mid := db.(permits := db.permits[id := row]);
    Charged(mid, r, charge);
    hide WithBudget;
    var after := WithBudget(mid, r, charge);
    forall c | Candidate(after, c) ensures PendingSettled(after, c) {
      assert Candidate(db, c) && PendingSettled(db, c);
    }
  }

  /** A probe may only be issued under a confirmed primary whose own handover is over. */
  lemma IssueProbeKeepsHandovers(db: Database, now: int, a: SourceRequest)
    requires Sound(db) && HandoversSettled(db) && IssueProbe(db, now, a).Ok?
    ensures HandoversSettled(IssueProbe(db, now, a).value) && PrimariesPersist(db, IssueProbe(db, now, a).value)
  {
    hide Sound, IssueProbe, HasRoom, HandoversSettled, RowSound, PrimariesPersist;
    var row, r, charge := IssueProbeSteps(db, now, a);
    ProbeEntryKeepsHandovers(db, a.id, row, r, charge);
  }

  lemma PromotionKeepsHandovers(db: Database, id: PermitId, parent: PermitId, after: Database)
    requires RowsSound(db) && HandoversSettled(db) && id in db.permits && parent in db.permits
    requires db.permits[id].state == Confirmed && db.permits[id].parent == Some(parent)
    requires var mid := Promoted(WithState(db, parent, Superseded), id, parent);
      after.permits == mid.permits && after.handovers == mid.handovers
    ensures HandoversSettled(after)
  {
    assert HasLiveProbe(db, parent);
    forall c | Candidate(after, c) ensures PendingSettled(after, c) {
      if c != id {
        assert Candidate(db, c) && PendingSettled(db, c);
      } else {
        forall n | n in after.permits && after.permits[n].Live() ensures after.permits[n].parent != Some(id) {
          assert RowSound(db, db.permits[n]);
        }
      }
    }
  }

  lemma PromoteKeepsHandovers(db: Database, id: PermitId)
    requires Sound(db) && HandoversSettled(db) && PromoteProbe(db, id).Ok?
    ensures HandoversSettled(PromoteProbe(db, id).value)
  {
    hide *;
    var freed, parent, r, charge := PromoteSteps(db, id);
    SoundParts(db);
    Charged(Promoted(freed, id, parent), r, charge);
    PromotionKeepsHandovers(db, id, parent, WithBudget(Promoted(freed, id, parent), r, charge));
  }

  lemma RowStepAddsNoProbe(db: Database, id: PermitId, q: Permit)
    requires id in db.permits && RowEvolves(db.permits[id], q)
    requires q.parent == db.permits[id].parent
    requires q.Live() == db.permits[id].Live() && (db.permits[id].state == Confirmed ==> q.state == Confirmed)
    ensures NoNewProbe(db, db.(permits := db.permits[id := q]))
  {
  }

  lemma RejectAddsNoProbe(db: Database, id: PermitId)
    requires Sound(db) && RejectProbe(db, id).Ok?
    ensures NoNewProbe(db, RejectProbe(db, id).value)
  {
    hide Sound;
    var mid := WithState(db, id, ProbeRejected);
    Charged(mid, db.permits[id].reservation, mid.HeldBytes(db.permits[id].reservation));
  }

  lemma CompleteAddsNoProbe(db: Database, id: PermitId)
    ensures NoNewProbe(db, CompleteHandover(db, id).value)
  {
    if id in db.permits {
      var done := if id in db.handovers
        then db.(handovers := db.handovers[id := db.handovers[id].(pending := false)]) else db;
      Charged(done, db.permits[id].reservation, done.HeldBytes(db.permits[id].reservation));
    }
  }

  lemma SameSourcesAddNoProbe(db: Database, after: Database)
    requires after.permits == db.permits && after.handovers == db.handovers
    ensures NoNewProbe(db, after)
  {
  }

  /** The protocol keeps every pending handover the only one of its slot. */
  lemma ProtocolKeepsHandovers(db: Database, now: int, t: Transaction)
    requires Sound(db) && HandoversSettled(db) && Protocol(t)
    ensures HandoversSettled(After(db, now, t))
  {
    hide Sound, HandoversSettled, NoNewProbe, Issue, IssueProbe, PromoteProbe, RejectProbe, CompleteHandover,
      Begin, Record, MarkUnknown, Reconcile, SetQuality, Renew, RowEvolves, HasRoom,
      Tombstone, CloseSeasonRequests, ReleaseSeason, ClaimMovie, RecordMovie,
      CompleteMovie, ClaimEpisode, RecordEpisode, CompleteEpisode;
    if Apply(db, now, t).Ok? {
      SoundParts(db);
      var after := Apply(db, now, t).value;
      if t.DoIssueProbe? {
        IssueProbeKeepsHandovers(db, now, t.source);
      } else if t.DoPromote? {
        PromoteKeepsHandovers(db, t.id);
      } else {
        assert NoNewProbe(db, after) by { ProtocolAddsNoProbe(db, now, t); }
        NoNewProbeKeepsHandovers(db, after);
      }
    }
  }

  lemma ProtocolAddsNoProbe(db: Database, now: int, t: Transaction)
    requires Sound(db) && Protocol(t) && Apply(db, now, t).Ok? && !t.DoIssueProbe? && !t.DoPromote?
    ensures NoNewProbe(db, Apply(db, now, t).value)
  {
    hide Sound, NoNewProbe, Issue, RejectProbe, CompleteHandover,
      Begin, Record, MarkUnknown, Reconcile, SetQuality, Renew, HasRoom, RowEvolves,
      Tombstone, CloseSeasonRequests, ReleaseSeason, ClaimMovie, RecordMovie,
      CompleteMovie, ClaimEpisode, RecordEpisode, CompleteEpisode;
    if t.DoIssue? {
      var row, charge := IssueSteps(db, now, t.issue);
      EntryAddsNoProbe(db, t.issue.id, row, t.issue.reservation, charge);
    } else if t.DoReject? {
      RejectAddsNoProbe(db, t.id);
    } else if t.DoCompleteHandover? {
      CompleteAddsNoProbe(db, t.id);
    } else if t.RowStep() {
      RowStepsAddNoProbe(db, now, t);
    } else if LedgerRuns.KeepsRows(t) {
      AroundStep(db, now, t);
      SameSourcesAddNoProbe(db, Apply(db, now, t).value);
    } else {
      SameSourcesAddNoProbe(db, Apply(db, now, t).value);
    }
  }

  lemma RowStepsAddNoProbe(db: Database, now: int, t: Transaction)
    requires Sound(db) && t.RowStep() && Apply(db, now, t).Ok?
    ensures NoNewProbe(db, Apply(db, now, t).value)
  {
    hide Sound, Apply;
    if t.id in db.permits {
      RowIsLocal(db, t.id);
      var q := RowStep(db, now, t);
      RowStepAddsNoProbe(db, t.id, q);
    } else {
      StepOnNothing(db, now, t);
      SameSourcesAddNoProbe(db, db);
    }
  }

  lemma PersistingPrimaryFillsSlot(db: Database, after: Database, r: ReservationId, scope: Scope)
    requires SlotHasPrimary(db, r, scope) && PrimariesPersist(db, after)
    ensures SlotHasPrimary(after, r, scope)
  {
    var id :| id in db.permits && db.permits[id].reservation == r && db.permits[id].scope == scope &&
      db.permits[id].Primary();
    assert after.permits[id].Primary();
  }

  /** Promotion hands the slot from the parent to the probe in one step. */
  lemma PromotionFillsSlot(db: Database, id: PermitId, r: ReservationId, scope: Scope)
    requires Sound(db) && PromoteProbe(db, id).Ok? && SlotHasPrimary(db, r, scope)
    ensures SlotHasPrimary(PromoteProbe(db, id).value, r, scope)
  {
    hide Sound, PromoteProbe, Promotable;
    var freed, parent, k, charge := PromoteSteps(db, id);
    var after := WithBudget(Promoted(freed, id, parent), k, charge);
    Charged(Promoted(freed, id, parent), k, charge);
    RowOf(db, id);
    var was :| was in db.permits && db.permits[was].reservation == r && db.permits[was].scope == scope &&
      db.permits[was].Primary();
    if was == parent {
      assert after.permits[id].Primary() && after.permits[id].SameSlot(db.permits[was]);
    } else {
      assert after.permits[was] == db.permits[was] || was == id;
    }
  }

  /** No protocol transaction leaves a slot without its primary. */
  lemma ProtocolKeepsPrimary(db: Database, now: int, t: Transaction, r: ReservationId, scope: Scope)
    requires Sound(db) && Protocol(t) && SlotHasPrimary(db, r, scope)
    requires HandoversSettled(db)
    ensures SlotHasPrimary(After(db, now, t), r, scope)
  {
    hide Sound, HandoversSettled, NoNewProbe, PrimariesPersist, SlotHasPrimary, Issue, IssueProbe, PromoteProbe,
      RejectProbe, CompleteHandover, Begin, Record, MarkUnknown, Reconcile, SetQuality, Renew,
      Tombstone, CloseSeasonRequests, ReleaseSeason, ClaimMovie, RecordMovie,
      CompleteMovie, ClaimEpisode, RecordEpisode, CompleteEpisode;
    if Apply(db, now, t).Ok? {
      var after := Apply(db, now, t).value;
      if t.DoPromote? {
        PromotionFillsSlot(db, t.id, r, scope);
      } else {
        if t.DoIssueProbe? {
          IssueProbeKeepsHandovers(db, now, t.source);
        } else {
          ProtocolAddsNoProbe(db, now, t);
          NoNewProbeParts(db, after);
        }
        PersistingPrimaryFillsSlot(db, after, r, scope);
      }
    }
  }

  lemma NoNewProbeParts(db: Database, after: Database)
    requires NoNewProbe(db, after)
    ensures PrimariesPersist(db, after)
  {
  }

  /**
   Over any run of the protocol a slot that had its one live primary still has
   exactly one, and at most one handover pending.
   */
  lemma {:induction false} ProtocolRunKeepsSlot(db: Database, steps: seq<Step>, r: ReservationId, scope: Scope)
    requires Sound(db) && HandoversSettled(db) && SlotHasPrimary(db, r, scope)
    requires forall s | s in steps :: Protocol(s.transaction)
    ensures var end := Run(db, steps);
      Sound(end) && HandoversSettled(end) && SlotHasPrimary(end, r, scope) && OneHandoverPerSlot(end)
    decreases |steps|
  {
    if steps == [] {
      SettledIsOnePerSlot(db);
    } else {
      hide Sound, HandoversSettled, SlotHasPrimary, After, Protocol, OneHandoverPerSlot;
      var Step(now, t) := steps[0];
      TransactionKeepsSound(db, now, t);
      ProtocolKeepsHandovers(db, now, t);
      ProtocolKeepsPrimary(db, now, t, r, scope);
      ProtocolRunKeepsSlot(After(db, now, t), steps[1..], r, scope);
    }
  }

  // ---- Runs that withdraw and replace sources too ----

  /** Candidates stay confirmed, handovers only complete, and no probe appears. */
  ghost predicate LeavesCandidates(db: Database, after: Database) {
    && (forall c | Candidate(after, c) :: Candidate(db, c))
    && (forall n | n in after.permits && after.permits[n].Live() && after.permits[n].parent.Some? ::
          n in db.permits && db.permits[n].Live() && db.permits[n].parent == after.permits[n].parent)
    && (forall c | Candidate(db, c) && c in db.permits && db.permits[c].state == Confirmed ::
          c in after.permits && after.permits[c].state == Confirmed)
  }

  lemma LeftCandidatesStaySettled(db: Database, after: Database)
    requires HandoversSettled(db) && LeavesCandidates(db, after)
    ensures HandoversSettled(after)
  {
    forall c | Candidate(after, c) ensures PendingSettled(after, c) {
      assert Candidate(db, c) && PendingSettled(db, c);
    }
  }

  lemma CandidatesAreNotReplaced(db: Database, a: BindRequest, c: PermitId)
    requires a.id in db.permits && Candidate(db, c) && c in a.replaced
    ensures AllReplacedFit(db, a, a.replaced).Fail?
  {
    if AllReplacedFit(db, a, a.replaced).Pass? {
      ReplacedAreConfirmed(db, a, a.replaced, c);
    }
  }

  lemma BindingLeavesCandidates(db: Database, now: int, a: BindRequest)
    requires BindSeasonPack(db, now, a).Ok?
    ensures LeavesCandidates(db, BindSeasonPack(db, now, a).value)
  {
    hide BindSeasonPack, AllReplacedFit;
    var retired, bound, r, charge := BindSteps(db, now, a);
    assert a.id in db.permits;
    hide MayBind, WithBudget;
    Charged(bound, r, charge);
    forall c | Candidate(db, c) && c in db.permits ensures c !in a.replaced {
      if c in a.replaced {
        CandidatesAreNotReplaced(db, a, c);
      }
    }
  }

  lemma RevokingLeavesCandidates(db: Database, r: ReservationId)
    requires CancelUnstarted(db, r).Ok?
    ensures LeavesCandidates(db, CancelUnstarted(db, r).value)
  {
    var after := CapacitySafety.RevokeSteps(db, r);
    hide CancelUnstarted;
  }

  lemma DeletingLeavesCandidates(db: Database, ids: set<PermitId>, unbound: set<PermitId>, r: ReservationId,
                                 charge: nat)
    requires forall id | id in ids && id in db.permits :: db.permits[id].state == Authorized
    ensures LeavesCandidates(db,
      WithBudget(db.(permits := db.permits - ids, bindings := db.bindings - unbound), r, charge))
  {
    Charged(db.(permits := db.permits - ids, bindings := db.bindings - unbound), r, charge);
    hide WithBudget;
  }

  lemma ReleaseLeavesCandidates(db: Database, now: int, t: Transaction)
    requires (t.DoCancel? || t.DoRetire?) && Apply(db, now, t).Ok?
    ensures LeavesCandidates(db, Apply(db, now, t).value)
  {
    hide LiveBudgets, LeavesCandidates, WithBudget;
    if t.DoCancel? {
      var removed := db.(permits := db.permits - {t.id}, bindings := db.bindings - {t.id});
      var r := db.permits[t.id].reservation;
      DeletingLeavesCandidates(db, {t.id}, {t.id}, r, removed.LiveBytes(r));
    } else {
      var expired := ExpiredRows(db, t.r, t.scope, now);
      var removed := db.(permits := db.permits - expired);
      assert removed == db.(permits := db.permits - expired, bindings := db.bindings - {});
      DeletingLeavesCandidates(db, expired, {}, t.r, removed.LiveBytes(t.r));
      StayingLeavesCandidates(db);
    }
  }

  lemma StayingLeavesCandidates(db: Database)
    ensures LeavesCandidates(db, db)
  {
  }

  lemma WithdrawalLeavesCandidates(db: Database, now: int, t: Transaction)
    requires !Protocol(t) && !t.DoReplace? && Apply(db, now, t).Ok?
    ensures LeavesCandidates(db, Apply(db, now, t).value)
  {
    hide LeavesCandidates, BindSeasonPack, CancelUnstarted, CancelAuthorized, RetireExpired;
    if t.DoBind? {
      BindingLeavesCandidates(db, now, t.bind);
    } else if t.DoCancelUnstarted? {
      RevokingLeavesCandidates(db, t.r);
    } else {
      ReleaseLeavesCandidates(db, now, t);
    }
  }

  /** A replacement keeps handovers settled if and only if it does not replace the candidate of a pending one. */
  lemma ReplacementSettlesExactly(db: Database, now: int, a: SourceRequest)
    requires Sound(db) && HandoversSettled(db) && ReplaceConfirmed(db, now, a).Ok?
    ensures HandoversSettled(ReplaceConfirmed(db, now, a).value) <==> !Candidate(db, a.prior)
  {
    hide Sound, ReplaceConfirmed, HasRoom, LiveBudgets;
    var freed, row, r, charge := ReplaceSteps(db, now, a);
    var added := freed.(permits := freed.permits[a.id := row]);
    var after := WithBudget(added, r, charge);
    Charged(added, r, charge);
    hide WithBudget, MayEnter, HandoversSettled;
    if Candidate(db, a.prior) {
      UnsettledByReplacing(after, a.prior);
    } else {
      assert LeavesCandidates(db, after);
      LeftCandidatesStaySettled(db, after);
    }
  }

  lemma UnsettledByReplacing(after: Database, c: PermitId)
    requires Candidate(after, c) && (c !in after.permits || after.permits[c].state != Confirmed)
    ensures !HandoversSettled(after)
  {
    assert !PendingSettled(after, c);
  }

  /** Does the transaction replace the candidate of a pending handover? */
  predicate Undercuts(db: Database, t: Transaction) {
    t.DoReplace? && Candidate(db, t.source.prior)
  }

  /** No other transaction unsettles a handover, and a committed one of that kind always does. */
  lemma TransactionSettlesExactly(db: Database, now: int, t: Transaction)
    requires Sound(db) && HandoversSettled(db)
    ensures HandoversSettled(After(db, now, t)) <==> !(Undercuts(db, t) && Apply(db, now, t).Ok?)
  {
    hide Sound, HandoversSettled, ReplaceConfirmed, LeavesCandidates;
    if Protocol(t) {
      hide After;
      ProtocolKeepsHandovers(db, now, t);
    } else if Apply(db, now, t).Ok? {
      if t.DoReplace? {
        ReplacementSettlesExactly(db, now, t.source);
      } else {
        WithdrawalLeavesCandidates(db, now, t);
        LeftCandidatesStaySettled(db, Apply(db, now, t).value);
      }
    }
  }

  /** No step of the run replaces a candidate whose handover is pending then. */
  ghost predicate NeverUndercuts(db: Database, steps: seq<Step>)
    decreases |steps|
  {
    steps == [] ||
    (!Undercuts(db, steps[0].transaction) &&
     NeverUndercuts(After(db, steps[0].now, steps[0].transaction), steps[1..]))
  }

  lemma {:induction false} RunKeepsHandovers(db: Database, steps: seq<Step>)
    requires Sound(db) && HandoversSettled(db) && NeverUndercuts(db, steps)
    ensures Sound(Run(db, steps)) && HandoversSettled(Run(db, steps))
    decreases |steps|
  {
    if steps != [] {
      hide Sound, HandoversSettled, After, Undercuts;
      TransactionKeepsSound(db, steps[0].now, steps[0].transaction);
      TransactionSettlesExactly(db, steps[0].now, steps[0].transaction);
      RunKeepsHandovers(After(db, steps[0].now, steps[0].transaction), steps[1..]);
    }
  }

  lemma SettledHandoversAreUnique(db: Database, c: PermitId, d: PermitId)
    requires Sound(db) && HandoversSettled(db) && Candidate(db, c) && Candidate(db, d)
    requires c in db.permits && d in db.permits && db.permits[c].SameSlot(db.permits[d])
    ensures c == d
  {
    hide Sound;
    SoundParts(db);
    assert PendingSettled(db, c) && PendingSettled(db, d);
    assert HandoverSound(db, c, db.handovers[c]) && HandoverSound(db, d, db.handovers[d]);
    assert !RivalPrimaries(db.permits[c], db.permits[d]) || c == d;
  }

  lemma SettledIsOnePerSlot(db: Database)
    requires Sound(db) && HandoversSettled(db)
    ensures OneHandoverPerSlot(db)
  {
    hide Sound, HandoversSettled;
    forall c, d | Candidate(db, c) && Candidate(db, d) && c in db.permits && d in db.permits &&
                  db.permits[c].SameSlot(db.permits[d])
      ensures c == d
    {
      SettledHandoversAreUnique(db, c, d);
    }
  }

  /** Over any run, whatever else it commits, a slot has at most one pending handover unless a candidate is replaced. */
  lemma AtMostOneHandover(steps: seq<Step>, c: PermitId, d: PermitId)
    requires NeverUndercuts(EMPTY, steps)
    requires var db := Run(EMPTY, steps);
      && Candidate(db, c) && Candidate(db, d)
      && c in db.permits && d in db.permits && db.permits[c].SameSlot(db.permits[d])
    ensures c == d
  {
    ReachableLedgersAreReliable([]);
    assert HandoversSettled(EMPTY);
    hide Run, Sound, HandoversSettled, NeverUndercuts;
    assert Run(EMPTY, []) == EMPTY by { RunOfNothing(EMPTY); }
    RunKeepsHandovers(EMPTY, steps);
    SettledHandoversAreUnique(Run(EMPTY, steps), c, d);
  }

  lemma RunOfNothing(db: Database)
    ensures Run(db, []) == db
  {
  }

  /** Source 1 takes over from 0; source 2 replaces it before that is over; source 3 takes over from 2. */
  const UNDERCUT := OPENING + HandingOver(0, 1) + ([Replacing(1, 2)] + Dispatch(2)) + HandingOver(2, 3)

  lemma FirstHandedOver() returns (rows: map<PermitId, Permit>, held: nat)
    ensures OneLeft(rows, 1, Some([1, 1])) && rows.Keys == {0, 1}
    ensures Run(EMPTY, OPENING + HandingOver(0, 1)) == Ledger(rows, map[1 := Handover(0, true)], held)
  {
    Opened();
    assert OneLeft(OPENED, 0, None);
    hide Run, HandingOver, Dispatch, Source, Ledger, OneLeft, OPENING, EMPTY;
    rows, held := HandedOver(OPENED, map[], 10, 0, None, 1);
    assert map[][1 := Handover(0, true)] == map[1 := Handover(0, true)];
    RunsJoin(EMPTY, OPENING, HandingOver(0, 1));
  }

  lemma CandidateReplaced() returns (rows: map<PermitId, Permit>, held: nat)
    ensures OneLeft(rows, 2, None) && rows.Keys == {0, 1, 2}
    ensures Run(EMPTY, OPENING + HandingOver(0, 1) + ([Replacing(1, 2)] + Dispatch(2))) ==
            Ledger(rows, map[1 := Handover(0, true)], held)
  {
    hide Run, HandingOver, Dispatch, Replacing, Source, Ledger, OneLeft, OPENING, EMPTY;
    var handed, charge := FirstHandedOver();
    rows, held := ReplacedAndDispatched(handed, map[1 := Handover(0, true)], charge, 1, Some([1, 1]), 2);
    RunsJoin(EMPTY, OPENING + HandingOver(0, 1), [Replacing(1, 2)] + Dispatch(2));
  }

  /** A ledger reached from an empty database in which two handovers of one slot are pending. */
  lemma ReplacedCandidateLeavesTwoHandovers()
    ensures var db := Run(EMPTY, UNDERCUT);
      && Candidate(db, 1) && Candidate(db, 3) && 1 in db.permits && 3 in db.permits
      && db.permits[1].SameSlot(db.permits[3])
  {
    hide Run, HandingOver, Dispatch, Replacing, Source, Retired, OneLeft;
    var rows, held := CandidateReplaced();
    var again, _ := HandedOver(rows, map[1 := Handover(0, true)], held, 2, None, 3);
    RunsJoin(EMPTY, OPENING + HandingOver(0, 1) + ([Replacing(1, 2)] + Dispatch(2)), HandingOver(2, 3));
    assert 1 in again by { RetiringKeepsRows(rows, 2); }
    SameMovie(again, 1, 3);
  }

  lemma RetiringKeepsRows(permits: map<PermitId, Permit>, id: PermitId)
    requires id in permits
    ensures Retired(permits, id, Some([1, 1])).Keys == permits.Keys
  {
  }

  lemma SameMovie(permits: map<PermitId, Permit>, c: PermitId, d: PermitId)
    requires OneLeft(permits, d, Some([1, 1])) && c in permits
    ensures permits[c].SameSlot(permits[d])
  {
  }

  // ---- When a slot gets a second pending handover ----

  /** Every slot has at most one pending handover. */
  ghost predicate OneHandoverPerSlot(db: Database) {
    forall c, d | Candidate(db, c) && Candidate(db, d) && c in db.permits && d in db.permits ::
      !db.permits[c].SameSlot(db.permits[d]) || c == d
  }

  /** Would promoting this probe add a handover to a slot that has one pending? */
  ghost predicate Crowded(db: Database, id: PermitId) {
    id in db.permits && exists c | Candidate(db, c) && c in db.permits :: db.permits[c].SameSlot(db.permits[id])
  }

  ghost predicate Crowds(db: Database, t: Transaction) {
    t.DoPromote? && PromoteProbe(db, t.id).Ok? && Crowded(db, t.id)
  }

  /** The candidates of pending handovers afterwards are these, in the slots they had. */
  ghost predicate CandidatesAmong(db: Database, after: Database, more: set<PermitId>) {
    forall c | Candidate(after, c) && c in after.permits ::
      (Candidate(db, c) || c in more) && c in db.permits && after.permits[c].SameSlot(db.permits[c])
  }

  lemma AdmissionAddsNoHandover(db: Database, now: int, t: Transaction)
    requires Sound(db) && Apply(db, now, t).Ok? && (t.DoIssueProbe? || t.DoReplace?)
    ensures Apply(db, now, t).value.handovers == db.handovers
  {
    hide Sound, IssueProbe, ReplaceConfirmed, MayEnter, HasRoom, RowSound, WithBudget;
    if t.DoIssueProbe? {
      var row, r, charge := IssueProbeSteps(db, now, t.source);
      Charged(db.(permits := db.permits[t.source.id := row]), r, charge);
    } else {
      var freed, row, r, charge := ReplaceSteps(db, now, t.source);
      Charged(freed.(permits := freed.permits[t.source.id := row]), r, charge);
    }
  }

  /** Only promotion starts a handover. */
  lemma OnlyPromotionStarts(db: Database, now: int, t: Transaction)
    requires Sound(db) && !t.DoPromote?
    ensures forall c | Candidate(After(db, now, t), c) :: Candidate(db, c)
  {
    hide Sound, Apply, PrimariesPersist;
    if Apply(db, now, t).Ok? {
      if t.DoIssueProbe? || t.DoReplace? {
        AdmissionAddsNoHandover(db, now, t);
      } else if Protocol(t) {
        ProtocolAddsNoProbe(db, now, t);
      } else {
        WithdrawalLeavesCandidates(db, now, t);
      }
    }
  }

  lemma CandidatesKeepSlots(db: Database, now: int, t: Transaction, more: set<PermitId>)
    requires Sound(db) && more <= db.permits.Keys
    requires forall c | Candidate(After(db, now, t), c) :: Candidate(db, c) || c in more
    ensures CandidatesAmong(db, After(db, now, t), more)
  {
    hide Sound, After, HandoverSound;
    SoundParts(db);
    TransactionEvolves(db, now, t);
    CandidatesAreRows(db);
  }

  lemma CandidatesAreRows(db: Database)
    requires HandoversSound(db)
    ensures forall c | Candidate(db, c) :: c in db.permits
  {
    forall c | Candidate(db, c) ensures c in db.permits { assert HandoverSound(db, c, db.handovers[c]); }
  }

  lemma NoNewCandidateKeepsOne(db: Database, after: Database)
    requires OneHandoverPerSlot(db) && CandidatesAmong(db, after, {})
    ensures OneHandoverPerSlot(after)
  {
  }

  lemma PromotionAddsCandidate(db: Database, id: PermitId)
    requires Sound(db) && PromoteProbe(db, id).Ok?
    ensures var after := PromoteProbe(db, id).value;
      && id in db.permits && !Candidate(db, id)
      && (forall c :: Candidate(after, c) <==> Candidate(db, c) || c == id)
      && (forall c | Candidate(after, c) ::
            c in db.permits && c in after.permits && after.permits[c].SameSlot(db.permits[c]))
  {
    hide Sound, PromoteProbe, Promotable, HeldBudgets, WithBudget, HandoverSound;
    SoundParts(db);
    CandidatesAreRows(db);
    var freed, parent, r, charge := PromoteSteps(db, id);
    Charged(Promoted(freed, id, parent), r, charge);
  }

  lemma PromotionCrowdsExactly(db: Database, id: PermitId)
    requires Sound(db) && OneHandoverPerSlot(db) && PromoteProbe(db, id).Ok?
    ensures OneHandoverPerSlot(PromoteProbe(db, id).value) <==> !Crowded(db, id)
  {
    hide Sound, PromoteProbe;
    PromotionAddsCandidate(db, id);
    var after := PromoteProbe(db, id).value;
    if Crowded(db, id) {
      var c :| Candidate(db, c) && c in db.permits && db.permits[c].SameSlot(db.permits[id]);
      assert Candidate(after, c) && Candidate(after, id) && after.permits[c].SameSlot(after.permits[id]) && c != id;
    } else {
      forall c, d | Candidate(after, c) && Candidate(after, d) && after.permits[c].SameSlot(after.permits[d])
        ensures c == d
      {
        assert db.permits[c].SameSlot(db.permits[d]) && db.permits[d].SameSlot(db.permits[c]);
      }
    }
  }

  /** A slot gets a second pending handover exactly by a committed promotion in a slot that already has one. */
  lemma TransactionCrowdsExactly(db: Database, now: int, t: Transaction)
    requires Sound(db) && OneHandoverPerSlot(db)
    ensures OneHandoverPerSlot(After(db, now, t)) <==> !Crowds(db, t)
  {
    hide Sound, OneHandoverPerSlot, PromoteProbe, CandidatesAmong, Crowded;
    if t.DoPromote? {
      if PromoteProbe(db, t.id).Ok? {
        PromotionCrowdsExactly(db, t.id);
      }
    } else {
      hide After;
      OnlyPromotionStarts(db, now, t);
      CandidatesKeepSlots(db, now, t, {});
      NoNewCandidateKeepsOne(db, After(db, now, t));
    }
  }

  /** In every state of the run a slot has at most one pending handover. */
  ghost predicate AlwaysOneHandover(db: Database, steps: seq<Step>)
    decreases |steps|
  {
    && OneHandoverPerSlot(db)
    && (steps == [] || AlwaysOneHandover(After(db, steps[0].now, steps[0].transaction), steps[1..]))
  }

  /** No step of the run promotes a probe in a slot that has a handover pending then. */
  ghost predicate NeverCrowds(db: Database, steps: seq<Step>)
    decreases |steps|
  {
    steps == [] ||
    (!Crowds(db, steps[0].transaction) && NeverCrowds(After(db, steps[0].now, steps[0].transaction), steps[1..]))
  }

  lemma {:induction false} RunCrowdsExactly(db: Database, steps: seq<Step>)
    requires Sound(db) && OneHandoverPerSlot(db)
    ensures AlwaysOneHandover(db, steps) <==> NeverCrowds(db, steps)
    decreases |steps|
  {
    if steps != [] {
      hide Sound, OneHandoverPerSlot, After, Crowds;
      var next := After(db, steps[0].now, steps[0].transaction);
      TransactionCrowdsExactly(db, steps[0].now, steps[0].transaction);
      TransactionKeepsSound(db, steps[0].now, steps[0].transaction);
      if OneHandoverPerSlot(next) {
        RunCrowdsExactly(next, steps[1..]);
      }
    }
  }

  /** From an empty database no slot ever has two pending handovers if and only if no promotion finds one pending. */
  lemma HandoversAreUniqueExactly(steps: seq<Step>)
    ensures AlwaysOneHandover(EMPTY, steps) <==> NeverCrowds(EMPTY, steps)
  {
    ReachableLedgersAreReliable([]);
    RunOfNothing(EMPTY);
    assert OneHandoverPerSlot(EMPTY);
    hide Sound, OneHandoverPerSlot, Run, AlwaysOneHandover, NeverCrowds;
    RunCrowdsExactly(EMPTY, steps);
  }

  // ---- Promotion ----

  /** Promotion is never stopped by the slot index or by an earlier handover. */
  lemma PromotionNeverConflicts(db: Database, id: PermitId)
    requires Sound(db)
    ensures PromoteProbe(db, id) != Refused(SlotTaken) && PromoteProbe(db, id) != Refused(HandoverExists)
  {
    hide EpisodeTombstoned, SlotHasPrimary, Sound, HeldBudgets, WithBudget;
    if PromoteProbe(db, id).Refused? && id in db.permits && db.permits[id].parent.Some? {
      ProbeHasNoHandover(db, id);
      if db.permits[db.permits[id].parent.value].Primary() {
        RetiringFreesSlot(db, id);
      }
    }
  }

  lemma ProbeHasNoHandover(db: Database, id: PermitId)
    requires Sound(db) && id in db.permits && db.permits[id].parent.Some?
    ensures id !in db.handovers && db.permits[id].parent.value in db.permits
  {
    hide Sound;
    SoundParts(db);
    RowOf(db, id);
    assert id in db.handovers ==> HandoverSound(db, id, db.handovers[id]);
  }

  /** A probe's parent is the only primary of the slot, so its retirement leaves room for the probe. */
  lemma RetiringFreesSlot(db: Database, id: PermitId)
    requires Sound(db) && id in db.permits && db.permits[id].parent.Some?
    requires db.permits[id].parent.value in db.permits && db.permits[db.permits[id].parent.value].Primary()
    ensures var parent := db.permits[id].parent.value;
      !SlotHasPrimary(
        WithState(db, parent, Superseded).(handovers := db.handovers[id := Handover(parent, true)]),
        db.permits[id].reservation, db.permits[id].scope)
  {
    hide Sound;
    SoundParts(db);
    RowOf(db, id);
    var parent := db.permits[id].parent.value;
    forall k | k in db.permits && k != parent && db.permits[k].SameSlot(db.permits[parent])
      ensures !db.permits[k].Primary()
    {
      assert !RivalPrimaries(db.permits[parent], db.permits[k]);
    }
  }
}
