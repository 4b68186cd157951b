/** How single permits and handovers may move: forward only, and with what they once stored. */
module Evolution {
  import opened Options
  import opened Tables
  import opened Transactions
  import opened Soundness
  import opened Budgets
  import opened LedgerRuns
  import CapacitySafety

  /** Authorized, then dispatching, then unknown, then confirmed, then one of the dead states. */
  function Rank(s: State): nat {
    match s
    case Authorized => 0
    case Dispatching => 1
    case Unknown => 2
    case Confirmed => 3
    case _ => 4
  }

  /**
   A row keeps its identity and stored reply, never steps back, and only promotion clears its parent.
   An unknown one is confirmed only with the reply that reconciliation writes.
   */
  predicate RowEvolves(p: Permit, q: Permit) {
    && SameIdentity(p, q)
    && Rank(p.state) <= Rank(q.state)
    && (p.reply.Some? ==> q.reply == p.reply)
    && (p.reply.None? && q.reply.Some? ==> q.state == Confirmed)
    && (p.state == Unknown && q.state == Confirmed ==> q.reply == Some(Accepted(p.infohash)))
    && (q.parent == p.parent || (p.state == Confirmed && q.state == Confirmed && q.parent.None?))
  }

  ghost predicate RowsEvolve(db: Database, after: Database) {
    && (forall id | id in db.permits && id in after.permits :: RowEvolves(db.permits[id], after.permits[id]))
    && (forall id | id in db.permits && id !in after.permits :: db.permits[id].state == Authorized)
    && (forall id | id in after.permits && id !in db.permits ::
          after.permits[id].state == Authorized && after.permits[id].reply.None?)
  }

  lemma EntryEvolves(db: Database, id: PermitId, row: Permit)
    requires id !in db.permits && row.state == Authorized && row.reply.None?
    ensures RowsEvolve(db, db.(permits := db.permits[id := row]))
  {
  }

  lemma ReplacementEvolves(db: Database, prior: PermitId, id: PermitId, row: Permit)
    requires prior in db.permits && db.permits[prior].state == Confirmed
    requires id !in db.permits && row.state == Authorized && row.reply.None?
    ensures var freed := WithState(db, prior, Superseded);
      RowsEvolve(db, freed.(permits := freed.permits[id := row]))
  {
  }

  lemma SourceStepEvolves(db: Database, now: int, t: Transaction)
    requires Sound(db) && Apply(db, now, t).Ok? && (t.DoIssue? || t.DoIssueProbe? || t.DoReplace?)
    ensures RowsEvolve(db, Apply(db, now, t).value)
  {
    hide Sound, Issue, IssueProbe, ReplaceConfirmed, RowsEvolve, HasRoom, RowSound;
    match t
    case DoIssue(a) =>
      var row, charge := IssueSteps(db, now, a);
      EntryEvolves(db, a.id, row);
      ChargedEvolves(db, db.(permits := db.permits[a.id := row]), a.reservation, charge);
    case DoIssueProbe(a) =>
      var row, r, charge := IssueProbeSteps(db, now, a);
      EntryEvolves(db, a.id, row);
      ChargedEvolves(db, db.(permits := db.permits[a.id := row]), r, charge);
    case DoReplace(a) =>
      var freed, row, r, charge := ReplaceSteps(db, now, a);
      ReplacementEvolves(db, a.prior, a.id, row);
      ChargedEvolves(db, freed.(permits := freed.permits[a.id := row]), r, charge);
  }

  lemma ChargedEvolves(db: Database, mid: Database, r: ReservationId, charge: nat)
    requires RowsEvolve(db, mid)
    ensures RowsEvolve(db, WithBudget(mid, r, charge))
  {
    Charged(mid, r, charge);
  }

  lemma SupersedingAllEvolves(db: Database, ids: seq<PermitId>, bindings: map<PermitId, map<Scope, seq<string>>>)
    ensures RowsEvolve(db, db.(permits := SupersedeAll(db.permits, ids), bindings := bindings))
  {
  }

  lemma PromotionEvolves(db: Database, id: PermitId, parent: PermitId)
    requires id in db.permits && parent in db.permits && id != parent
    requires db.permits[id].state == Confirmed && db.permits[parent].state == Confirmed
    ensures RowsEvolve(db, Promoted(WithState(db, parent, Superseded), id, parent))
  {
  }

  lemma ProbeStepEvolves(db: Database, now: int, t: Transaction)
    requires Sound(db) && Apply(db, now, t).Ok? && (t.DoBind? || t.DoPromote? || t.DoReject? || t.DoCompleteHandover?)
    ensures RowsEvolve(db, Apply(db, now, t).value)
  {
    hide Sound, BindSeasonPack, PromoteProbe, RowsEvolve, MayBind, Promotable, AllReplacedFit;
    match t
    case DoBind(a) =>
      var retired, bound, r, charge := BindSteps(db, now, a);
      SupersedingAllEvolves(db, a.replaced, bound.bindings);
      ChargedEvolves(db, bound, r, charge);
    case DoPromote(id) =>
      var freed, parent, r, charge := PromoteSteps(db, id);
      PromotionEvolves(db, id, parent);
      ChargedEvolves(db, Promoted(freed, id, parent), r, charge);
    case DoReject(id) =>
      var mid := WithState(db, id, ProbeRejected);
      OneRowEvolves(db, id, db.permits[id].(state := ProbeRejected));
      ChargedEvolves(db, mid, db.permits[id].reservation, mid.HeldBytes(db.permits[id].reservation));
    case DoCompleteHandover(id) =>
      var done := if id in db.handovers
        then db.(handovers := db.handovers[id := db.handovers[id].(pending := false)]) else db;
      SamePermitsEvolve(db, done);
      if id in db.permits {
        ChargedEvolves(db, done, db.permits[id].reservation, done.HeldBytes(db.permits[id].reservation));
      } else {
        SamePermitsEvolve(db, db);
      }
  }

  lemma OneRowEvolves(db: Database, id: PermitId, q: Permit)
    requires id in db.permits && RowEvolves(db.permits[id], q)
    ensures RowsEvolve(db, db.(permits := db.permits[id := q]))
  {
  }

  lemma SamePermitsEvolve(db: Database, after: Database)
    requires after.permits == db.permits
    ensures RowsEvolve(db, after)
  {
  }

  lemma BeginStep(db: Database, now: int, id: PermitId, a: Payload, placed: bool, named: bool) returns (q: Permit)
    requires Begin(db, now, id, a, placed, named).Ok?
    ensures id in db.permits && Begin(db, now, id, a, placed, named).value == db.(permits := db.permits[id := q])
    ensures if BeginOutcome(db, now, id, a, placed, named) == Ok(None)
      then db.permits[id].state == Authorized && q == db.permits[id].(state := Dispatching)
      else q == db.permits[id]
  {
    hide ValidatePayload, RequireReservation, RequirePack;
    assert db.permits[id := db.permits[id]] == db.permits;
    q := if BeginOutcome(db, now, id, a, placed, named).value.None? then db.permits[id].(state := Dispatching)
      else db.permits[id];
  }

  /** A row changed in place, staying as alive as it was. */
  predicate RowMoves(p: Permit, q: Permit) {
    RowEvolves(p, q) && q.parent == p.parent && q.Live() == p.Live() && (p.state == Confirmed ==> q.state == Confirmed)
  }

  lemma ReplyStep(db: Database, id: PermitId, reply: Reply) returns (recorded: Permit, marked: Permit)
    requires id in db.permits && RowLocal(db.permits[id])
    ensures Record(db, id, reply).Ok? ==> Record(db, id, reply).value == db.(permits := db.permits[id := recorded])
    ensures MarkUnknown(db, id).value == db.(permits := db.permits[id := marked])
    ensures RowMoves(db.permits[id], recorded) && RowMoves(db.permits[id], marked)
  {
    var p := db.permits[id];
    assert db.permits[id := p] == db.permits;
    recorded := if p.state == Dispatching then p.(state := Confirmed, reply := Some(reply)) else p;
    marked := if p.state == Dispatching then p.(state := Unknown) else p;
  }

  lemma ReconciledStep(db: Database, id: PermitId) returns (q: Permit)
    requires Reconcile(db, id).Ok? && id in db.permits && RowLocal(db.permits[id])
    ensures Reconcile(db, id).value == db.(permits := db.permits[id := q]) && RowMoves(db.permits[id], q)
  {
    hide SlotHasSuperseded, IdentityFits;
    var p := db.permits[id];
    assert db.permits[id := p] == db.permits;
    q := if p.state == Confirmed then p else p.(state := Confirmed, reply := Some(Accepted(p.infohash)));
  }

  lemma FieldMoves(p: Permit, expires: int, rank: seq<int>)
    requires RowLocal(p)
    ensures RowMoves(p, p) && RowMoves(p, p.(expires := expires)) && RowMoves(p, p.(quality := Some(rank)))
    ensures p.state == Authorized ==> RowMoves(p, p.(state := Dispatching))
  {
  }

  /** Renewal, ranking, dispatch and reconciliation change one row, or none. */
  lemma RowStep(db: Database, now: int, t: Transaction) returns (q: Permit)
    requires Apply(db, now, t).Ok? && t.RowStep() && t.id in db.permits && RowLocal(db.permits[t.id])
    ensures Apply(db, now, t).value == db.(permits := db.permits[t.id := q]) && RowMoves(db.permits[t.id], q)
  {
    hide Begin, Renew, Record, MarkUnknown, Reconcile, RowMoves, RowLocal;
    var p := db.permits[t.id];
    match t
    case DoRenew(id, c, e, placed) =>
      var _, _ := CapacitySafety.RenewSteps(db, now, id, c, e, placed);
      q := p.(expires := e);
      FieldMoves(p, e, []);
    case DoBegin(id, a, placed, named) =>
      q := BeginStep(db, now, id, a, placed, named);
      FieldMoves(p, 0, []);
    case DoRecord(id, reply) =>
      var recorded, _ := ReplyStep(db, id, reply);
      q := recorded;
    case DoMarkUnknown(id) =>
      var _, marked := ReplyStep(db, id, OtherReply(""));
      q := marked;
    case DoReconcile(id) =>
      q := ReconciledStep(db, id);
    case DoSetQuality(id, rank) =>
      q := p.(quality := Some(rank));
      FieldMoves(p, 0, rank);
  }

  lemma RowStepEvolves(db: Database, now: int, t: Transaction)
    requires Sound(db) && Apply(db, now, t).Ok? && t.RowStep()
    ensures RowsEvolve(db, Apply(db, now, t).value)
  {
    hide Sound, RowsEvolve, RowEvolves, RowMoves, RowSound, Apply;
    if t.id in db.permits {
      RowIsLocal(db, t.id);
      var q := RowStep(db, now, t);
      MovingEvolves(db.permits[t.id], q);
      OneRowEvolves(db, t.id, q);
    } else {
      StepOnNothing(db, now, t);
      SamePermitsEvolve(db, db);
    }
  }

  lemma MovingEvolves(p: Permit, q: Permit)
    requires RowMoves(p, q)
    ensures RowEvolves(p, q)
  {
  }

  lemma RowIsLocal(db: Database, id: PermitId)
    requires Sound(db) && id in db.permits
    ensures RowLocal(db.permits[id])
  {
    RowOf(db, id);
  }

  lemma StepOnNothing(db: Database, now: int, t: Transaction)
    requires Apply(db, now, t).Ok? && t.RowStep() && t.id !in db.permits
    ensures Apply(db, now, t).value == db
  {
    hide ValidatePayload, RequireReservation, RequirePack;
  }

  lemma DeletionEvolves(db: Database, mid: Database, ids: set<PermitId>)
    requires mid.permits == db.permits - ids
    requires forall id | id in ids && id in db.permits :: db.permits[id].state == Authorized
    ensures RowsEvolve(db, mid)
  {
  }

  lemma RevokingEvolves(db: Database, after: Database, r: ReservationId)
    requires after.permits == RevokeAuthorized(db.permits, r) || after.permits == db.permits
    ensures RowsEvolve(db, after)
  {
  }

  lemma ReleaseStepEvolves(db: Database, now: int, t: Transaction)
    requires Apply(db, now, t).Ok? && (t.DoCancel? || t.DoRetire? || t.DoCancelUnstarted?)
    ensures RowsEvolve(db, Apply(db, now, t).value)
  {
    hide CancelUnstarted, RowsEvolve, RevokeAuthorized;
    match t
    case DoCancel(id) =>
      var mid := db.(permits := db.permits - {id}, bindings := db.bindings - {id});
      DeletionEvolves(db, mid, {id});
      ChargedEvolves(db, mid, db.permits[id].reservation, mid.LiveBytes(db.permits[id].reservation));
    case DoRetire(r, s) =>
      var expired := ExpiredRows(db, r, s, now);
      var mid := db.(permits := db.permits - expired);
      DeletionEvolves(db, mid, expired);
      ChargedEvolves(db, mid, r, mid.LiveBytes(r));
      SamePermitsEvolve(db, db);
    case DoCancelUnstarted(r) =>
      var after := CapacitySafety.RevokeSteps(db, r);
      RevokingEvolves(db, after, r);
  }

  lemma TransactionEvolves(db: Database, now: int, t: Transaction)
    requires Sound(db)
    ensures RowsEvolve(db, After(db, now, t))
  {
    hide Sound, RowsEvolve, Issue, IssueProbe, ReplaceConfirmed, Renew, BindSeasonPack, PromoteProbe, RejectProbe,
      CompleteHandover, CancelAuthorized, RetireExpired, Begin, Record, MarkUnknown, Reconcile, SetQuality,
      CancelUnstarted, Tombstone, CloseSeasonRequests, ReleaseSeason, ClaimMovie, RecordMovie,
      CompleteMovie, ClaimEpisode, RecordEpisode, CompleteEpisode;
    if Apply(db, now, t).Refused? {
      SamePermitsEvolve(db, db);
    } else if t.DoIssue? || t.DoIssueProbe? || t.DoReplace? {
      SourceStepEvolves(db, now, t);
    } else if t.DoBind? || t.DoPromote? || t.DoReject? || t.DoCompleteHandover? {
      ProbeStepEvolves(db, now, t);
    } else if t.DoCancel? || t.DoRetire? || t.DoCancelUnstarted? {
      ReleaseStepEvolves(db, now, t);
    } else if LedgerRuns.KeepsRows(t) {
      AroundStep(db, now, t);
      SamePermitsEvolve(db, Apply(db, now, t).value);
    } else if t.DoReserve? || t.DoNormalize? {
      SamePermitsEvolve(db, Apply(db, now, t).value);
    } else {
      RowStepEvolves(db, now, t);
    }
  }

  /**
   Once past authorized, a permit is never deleted, never steps back and keeps
   its identity, and a reply it has stored is the reply it has forever.
   */
  lemma {:induction false} RunNeverStepsBack(db: Database, steps: seq<Step>, id: PermitId)
    requires Sound(db) && id in db.permits && db.permits[id].state != Authorized
    ensures id in Run(db, steps).permits
    ensures SameIdentity(db.permits[id], Run(db, steps).permits[id])
    ensures Rank(db.permits[id].state) <= Rank(Run(db, steps).permits[id].state)
    ensures db.permits[id].reply.Some? ==> Run(db, steps).permits[id].reply == db.permits[id].reply
    decreases |steps|
  {
    if steps != [] {
      hide Sound, After;
      var next := After(db, steps[0].now, steps[0].transaction);
      TransactionEvolves(db, steps[0].now, steps[0].transaction);
      TransactionKeepsSound(db, steps[0].now, steps[0].transaction);
      assert RowEvolves(db.permits[id], next.permits[id]);
      RunNeverStepsBack(next, steps[1..], id);
    }
  }

  /** What `authorize` answers for a confirmed permit is the reply it stored. */
  lemma ConfirmedRepliesAreReplayed(db: Database, steps: seq<Step>, now: int, id: PermitId, a: Payload,
                                    placed: bool, named: bool)
    requires Sound(db) && id in db.permits && db.permits[id].state == Confirmed
    requires var later := Run(db, steps); BeginOutcome(later, now, id, a, placed, named).Ok?
    ensures BeginOutcome(Run(db, steps), now, id, a, placed, named).value == db.permits[id].reply
  {
    RowOf(db, id);
    RunNeverStepsBack(db, steps, id);
    hide Sound, Run;
    StartedAnswersStored(Run(db, steps), now, id, a, placed, named);
  }

  /** A permit past authorized is not dispatched: any answer is the reply it stored. */
  lemma StartedAnswersStored(db: Database, now: int, id: PermitId, a: Payload, placed: bool, named: bool)
    requires id in db.permits && Rank(db.permits[id].state) > 0 && BeginOutcome(db, now, id, a, placed, named).Ok?
    ensures BeginOutcome(db, now, id, a, placed, named) == Ok(db.permits[id].reply) && db.permits[id].reply.Some?
  {
    hide RequireReservation, RequirePack, ValidatePayload;
  }

  /** A recorded reply is what every later call is answered, if it is answered at all. */
  lemma RecordedReplyIsReplayed(db: Database, id: PermitId, reply: Reply, steps: seq<Step>, now: int, a: Payload,
                                placed: bool, named: bool)
    requires Sound(db) && id in db.permits && db.permits[id].state == Dispatching
    requires BeginOutcome(Run(Record(db, id, reply).value, steps), now, id, a, placed, named).Ok?
    ensures BeginOutcome(Run(Record(db, id, reply).value, steps), now, id, a, placed, named) == Ok(Some(reply))
  {
    RecordKeepsSound(db, id, reply);
    hide Run, Sound, BeginOutcome;
    ConfirmedRepliesAreReplayed(Record(db, id, reply).value, steps, now, id, a, placed, named);
  }

  /** A permit of unknown fate stores no reply but the one that reconciliation writes. */
  lemma {:induction false} UnknownIsReconciled(db: Database, steps: seq<Step>, id: PermitId)
    requires Sound(db) && id in db.permits && Rank(db.permits[id].state) >= 2
    requires db.permits[id].reply in {None, Some(Accepted(db.permits[id].infohash))}
    ensures id in Run(db, steps).permits && Rank(Run(db, steps).permits[id].state) >= 2
    ensures Run(db, steps).permits[id].reply in {None, Some(Accepted(db.permits[id].infohash))}
    decreases |steps|
  {
    if steps != [] {
      RowOf(db, id);
      hide Sound, After;
      var next := After(db, steps[0].now, steps[0].transaction);
      TransactionEvolves(db, steps[0].now, steps[0].transaction);
      TransactionKeepsSound(db, steps[0].now, steps[0].transaction);
      assert RowEvolves(db.permits[id], next.permits[id]);
      UnknownIsReconciled(next, steps[1..], id);
    }
  }

  /** A failed dispatch is never repeated, and only reconciliation gives later calls an answer. */
  lemma FailedDispatchIsUncertain(db: Database, id: PermitId, steps: seq<Step>, now: int, a: Payload, placed: bool,
                                  named: bool)
    requires Sound(db) && id in db.permits && db.permits[id].state == Dispatching
    requires BeginOutcome(Run(MarkUnknown(db, id).value, steps), now, id, a, placed, named).Ok?
    ensures BeginOutcome(Run(MarkUnknown(db, id).value, steps), now, id, a, placed, named) ==
            Ok(Some(Accepted(db.permits[id].infohash)))
  {
    RowOf(db, id);
    MarkUnknownKeepsSound(db, id);
    hide Run, Sound, BeginOutcome;
    UnknownIsReconciled(MarkUnknown(db, id).value, steps, id);
    StartedAnswersStored(Run(MarkUnknown(db, id).value, steps), now, id, a, placed, named);
  }
}
