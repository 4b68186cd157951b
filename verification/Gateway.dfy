/**
 The gateway's side of a handover: one event loop whose requests run without
 interruption between awaits, beside other processes that write the ledger.
 */
module Gateway {
  import opened Options
  import opened Tables
  import opened Transactions
  import opened Soundness
  import opened Budgets
  import opened LedgerRuns
  import opened HandoverProtocol

  type Request = nat

  /** A promotion request: about to send the stop, or polling the parent until it has stopped. */
  datatype Visit = ToStop(candidate: PermitId, parent: PermitId) | Watching(candidate: PermitId, parent: PermitId)

  /** A stop command and the tables when it was sent. */
  datatype StopCommand = StopCommand(candidate: PermitId, parent: PermitId, db: Database)

  /** `running` is the request the event loop is executing; `seen` the candidates whose parent was observed stopped. */
  datatype Server = Server(db: Database, visits: map<Request, Visit>, running: Option<Request>,
                           stops: seq<StopCommand>, seen: set<PermitId>)

  datatype Event =
    | Ledger(now: int, transaction: Transaction)
    | Promote(request: Request, candidate: PermitId, cleared: bool)
    | SendStop(request: Request)
    | Poll(request: Request, stopped: bool)
    | Abandon(candidate: PermitId, stopped: bool)
    | Restart

  /** What processes other than the gateway may commit. */
  predicate ByOthers(t: Transaction) {
    !t.DoPromote? && !t.DoCompleteHandover?
  }

  ghost function Handle(s: Server, e: Event): Server {
    match e
    case Ledger(now, t) =>
      if ByOthers(t) then s.(db := After(s.db, now, t)) else s
    case Promote(q, c, cleared) =>
      if s.running.Some? || q in s.visits || !cleared then s
      else if c in s.db.handovers && s.db.handovers[c].pending then
        s.(visits := s.visits[q := ToStop(c, s.db.handovers[c].parent)], running := Some(q))
      else if PromoteProbe(s.db, c).Ok? then
        s.(db := PromoteProbe(s.db, c).value,
           visits := s.visits[q := ToStop(c, s.db.permits[c].parent.value)], running := Some(q))
      else s
    case SendStop(q) =>
      if q !in s.visits || !s.visits[q].ToStop? then s
      else
        var ToStop(c, p) := s.visits[q];
        s.(visits := s.visits[q := Watching(c, p)], stops := s.stops + [StopCommand(c, p, s.db)])
    case Poll(q, stopped) =>
      if q !in s.visits || !s.visits[q].Watching? || !(s.running.None? || s.running == Some(q)) then s
      else if stopped then
        var c := s.visits[q].candidate;
        s.(db := CompleteHandover(s.db, c).value, visits := s.visits - {q}, running := None, seen := s.seen + {c})
      else s.(running := None)
    case Abandon(c, stopped) =>
      // A cancelled acquisition may stop both sources of a pending handover; this path never awaits.
      if s.running.Some? || c !in s.db.handovers || !s.db.handovers[c].pending then s
      else
        var told := s.(stops := s.stops + [StopCommand(c, s.db.handovers[c].parent, s.db)]);
        if stopped then told.(db := CompleteHandover(s.db, c).value, seen := s.seen + {c}) else told
    case Restart => s.(visits := map[], running := None)
  }

  ghost function HandleAll(s: Server, events: seq<Event>): Server
    decreases |events|
  {
    if events == [] then s else HandleAll(Handle(s, events[0]), events[1..])
  }

  ghost predicate StopIsDue(db: Database, c: PermitId, p: PermitId) {
    c in db.handovers && db.handovers[c] == Handover(p, true)
  }

  /** Whoever is about to send a stop owns the event loop, and its handover is durably pending. */
  ghost predicate VisitsSound(s: Server) {
    forall q | q in s.visits && s.visits[q].ToStop? ::
      s.running == Some(q) && StopIsDue(s.db, s.visits[q].candidate, s.visits[q].parent)
  }

  ghost predicate StopsSound(s: Server) {
    forall i | 0 <= i < |s.stops| :: StopIsDue(s.stops[i].db, s.stops[i].candidate, s.stops[i].parent)
  }

  /** Apart from those over at the start, a handover is over only once its parent was seen stopped. */
  ghost predicate ReleasesSound(s: Server, over: set<PermitId>) {
    forall c | c in s.db.handovers && !s.db.handovers[c].pending :: c in s.seen || c in over
  }

  ghost predicate ServerSound(s: Server, over: set<PermitId>) {
    Sound(s.db) && VisitsSound(s) && StopsSound(s) && ReleasesSound(s, over)
  }

  // ---- Other processes leave handovers alone ----

  lemma AdmissionKeepsHandovers(db: Database, now: int, t: Transaction)
    requires (t.DoIssue? || t.DoIssueProbe? || t.DoReplace?) && Sound(db) && Apply(db, now, t).Ok?
    ensures Apply(db, now, t).value.handovers == db.handovers
  {
    hide Sound, Issue, IssueProbe, ReplaceConfirmed, MayEnter, HasRoom, RowSound;
    match t
    case DoIssue(a) =>
      var row, charge := IssueSteps(db, now, a);
      Charged(db.(permits := db.permits[a.id := row]), a.reservation, charge);
    case DoIssueProbe(a) =>
      var row, r, charge := IssueProbeSteps(db, now, a);
      Charged(db.(permits := db.permits[a.id := row]), r, charge);
    case DoReplace(a) =>
      var freed, row, r, charge := ReplaceSteps(db, now, a);
      Charged(freed.(permits := freed.permits[a.id := row]), r, charge);
  }

  lemma RowStepKeepsHandovers(db: Database, now: int, t: Transaction)
    requires Sound(db) && t.RowStep() && Apply(db, now, t).Ok?
    ensures Apply(db, now, t).value.handovers == db.handovers
  {
    hide Sound, Apply;
    if t.id in db.permits {
      Evolution.RowIsLocal(db, t.id);
      var q := Evolution.RowStep(db, now, t);
    } else {
      Evolution.StepOnNothing(db, now, t);
    }
  }

  lemma ReleaseKeepsHandovers(db: Database, now: int, t: Transaction)
    requires (t.DoBind? || t.DoReject? || t.DoCancel? || t.DoRetire? || t.DoCancelUnstarted?)
    requires Apply(db, now, t).Ok?
    ensures Apply(db, now, t).value.handovers == db.handovers
  {
    hide BindSeasonPack, MayBind, AllReplacedFit, CancelUnstarted, HeldBudgets, LiveBudgets;
    match t
    case DoBind(a) =>
      var retired, bound, r, charge := BindSteps(db, now, a);
      Charged(bound, r, charge);
    case DoReject(id) =>
    case DoCancel(id) =>
    case DoRetire(r, s) =>
    case DoCancelUnstarted(r) =>
      var after := CapacitySafety.RevokeSteps(db, r);
  }

  lemma OthersKeepHandovers(db: Database, now: int, t: Transaction)
    requires Sound(db) && ByOthers(t)
    ensures After(db, now, t).handovers == db.handovers
  {
    hide Sound, Issue, IssueProbe, ReplaceConfirmed, Renew, BindSeasonPack, RejectProbe,
      CancelAuthorized, RetireExpired, Begin, Record, MarkUnknown, Reconcile, SetQuality,
      CancelUnstarted, Tombstone, CloseSeasonRequests, ReleaseSeason, ClaimMovie, RecordMovie,
      CompleteMovie, ClaimEpisode, RecordEpisode, CompleteEpisode;
    if Apply(db, now, t).Ok? {
      if t.DoIssue? || t.DoIssueProbe? || t.DoReplace? {
        AdmissionKeepsHandovers(db, now, t);
      } else if t.RowStep() {
        RowStepKeepsHandovers(db, now, t);
      } else if LedgerRuns.KeepsRows(t) {
        AroundStep(db, now, t);
      } else if t.DoReserve? || t.DoNormalize? {
      } else {
        ReleaseKeepsHandovers(db, now, t);
      }
    }
  }

  // ---- Each event keeps the invariant ----

  lemma LedgerKeepsServer(s: Server, over: set<PermitId>, now: int, t: Transaction)
    requires ServerSound(s, over)
    ensures ServerSound(Handle(s, Ledger(now, t)), over)
  {
    hide Sound, After;
    if ByOthers(t) {
      OthersKeepHandovers(s.db, now, t);
      TransactionKeepsSound(s.db, now, t);
    }
  }

  lemma PromoteStartsHandover(db: Database, c: PermitId)
    requires Sound(db) && PromoteProbe(db, c).Ok?
    ensures c in db.permits && db.permits[c].parent.Some?
    ensures PromoteProbe(db, c).value.handovers == db.handovers[c := Handover(db.permits[c].parent.value, true)]
    ensures Sound(PromoteProbe(db, c).value)
  {
    hide *;
    var freed, parent, r, charge := PromoteSteps(db, c);
    PromotedTables(db, freed, c, parent);
    Charged(Promoted(freed, c, parent), r, charge);
    PromoteKeepsSound(db, c);
  }

  lemma PromotedTables(db: Database, freed: Database, c: PermitId, parent: PermitId)
    requires parent in db.permits && freed == WithState(db, parent, Superseded) && c in freed.permits
    ensures Promoted(freed, c, parent).handovers == db.handovers[c := Handover(parent, true)]
  {
  }

  lemma PromoteKeepsServer(s: Server, over: set<PermitId>, q: Request, c: PermitId, cleared: bool)
    requires ServerSound(s, over)
    ensures ServerSound(Handle(s, Promote(q, c, cleared)), over)
  {
    hide Sound, PromoteProbe;
    if PromoteProbe(s.db, c).Ok? {
      PromoteStartsHandover(s.db, c);
    }
  }

  lemma CompletedTables(db: Database, c: PermitId)
    ensures var after := CompleteHandover(db, c).value;
      && after.handovers.Keys == db.handovers.Keys
      && (forall k | k in db.handovers :: after.handovers[k].parent == db.handovers[k].parent)
      && (forall k | k in db.handovers && k != c :: after.handovers[k] == db.handovers[k])
  {
    hide HeldBudgets, PendingParents;
    if c in db.permits {
      var done := if c in db.handovers
        then db.(handovers := db.handovers[c := db.handovers[c].(pending := false)]) else db;
      hide WithBudget;
      Charged(done, db.permits[c].reservation, done.HeldBytes(db.permits[c].reservation));
    }
  }

  lemma CompleteEndsHandover(db: Database, c: PermitId)
    requires Sound(db)
    ensures var after := CompleteHandover(db, c).value;
      && Sound(after) && after.handovers.Keys == db.handovers.Keys
      && (forall k | k in db.handovers :: after.handovers[k].parent == db.handovers[k].parent)
      && (forall k | k in db.handovers && k != c :: after.handovers[k] == db.handovers[k])
  {
    hide *;
    CompletedTables(db, c);
    CompleteHandoverKeepsSound(db, c);
  }

  lemma PollKeepsServer(s: Server, over: set<PermitId>, q: Request, stopped: bool)
    requires ServerSound(s, over)
    ensures ServerSound(Handle(s, Poll(q, stopped)), over)
  {
    hide Sound, CompleteHandover;
    if q in s.visits && s.visits[q].Watching? {
      CompleteEndsHandover(s.db, s.visits[q].candidate);
    }
  }

  lemma AbandonKeepsServer(s: Server, over: set<PermitId>, c: PermitId, stopped: bool)
    requires ServerSound(s, over)
    ensures ServerSound(Handle(s, Abandon(c, stopped)), over)
  {
    hide Sound, CompleteHandover;
    if s.running.None? {
      CompleteEndsHandover(s.db, c);
    }
  }

  lemma StopKeepsServer(s: Server, over: set<PermitId>, q: Request)
    requires ServerSound(s, over)
    ensures ServerSound(Handle(s, SendStop(q)), over)
  {
    hide Sound;
  }

  lemma RestartKeepsServer(s: Server, over: set<PermitId>)
    requires ServerSound(s, over)
    ensures ServerSound(Handle(s, Restart), over)
  {
    hide Sound;
  }

  lemma EventKeepsServer(s: Server, over: set<PermitId>, e: Event)
    requires ServerSound(s, over)
    ensures ServerSound(Handle(s, e), over)
  {
    hide ServerSound, Handle;
    match e
    case Ledger(now, t) => LedgerKeepsServer(s, over, now, t);
    case Promote(q, c, cleared) => PromoteKeepsServer(s, over, q, c, cleared);
    case SendStop(q) => StopKeepsServer(s, over, q);
    case Poll(q, stopped) => PollKeepsServer(s, over, q, stopped);
    case Abandon(c, stopped) => AbandonKeepsServer(s, over, c, stopped);
    case Restart => RestartKeepsServer(s, over);
  }

  lemma {:induction false} EventsKeepServer(s: Server, over: set<PermitId>, events: seq<Event>)
    requires ServerSound(s, over)
    ensures ServerSound(HandleAll(s, events), over)
    decreases |events|
  {
    if events != [] {
      hide ServerSound, Handle;
      EventKeepsServer(s, over, events[0]);
      EventsKeepServer(Handle(s, events[0]), over, events[1..]);
    }
  }

  // ---- What the protocol promises ----

  function Over(db: Database): set<PermitId> {
    set c | c in db.handovers && !db.handovers[c].pending
  }

  /** A parent is told to stop only while its handover is durably pending. */
  lemma StopsOnlyWhilePending(db: Database, events: seq<Event>, i: nat)
    requires Sound(db)
    requires i < |HandleAll(Server(db, map[], None, [], {}), events).stops|
    ensures var stop := HandleAll(Server(db, map[], None, [], {}), events).stops[i];
      StopIsDue(stop.db, stop.candidate, stop.parent) && stop.db.HandingOver(stop.parent)
  {
    EventsKeepServer(Server(db, map[], None, [], {}), Over(db), events);
    hide Sound;
    var stop := HandleAll(Server(db, map[], None, [], {}), events).stops[i];
    assert StopIsDue(stop.db, stop.candidate, stop.parent);
  }

  /** A handover ends, and its parent leaves the pending bytes of its pool, only after it was observed stopped. */
  lemma BytesReleasedOnlyAfterStop(db: Database, events: seq<Event>, c: PermitId)
    requires Sound(db) && c !in Over(db)
    requires c in HandleAll(Server(db, map[], None, [], {}), events).db.handovers
    ensures var s := HandleAll(Server(db, map[], None, [], {}), events);
      c in s.seen || s.db.HandingOver(s.db.handovers[c].parent)
  {
    EventsKeepServer(Server(db, map[], None, [], {}), Over(db), events);
    hide Sound;
  }

  // ---- What a request comes to ----

  lemma ThreeEvents(s: Server, a: Event, b: Event, c: Event)
    ensures HandleAll(s, [a, b, c]) == Handle(Handle(Handle(s, a), b), c)
  {
    hide Handle;
    assert [a, b, c][1..] == [b, c] && [b, c][1..] == [c] && [c][1..] == [];
    assert HandleAll(s, [a, b, c]) == HandleAll(Handle(s, a), [b, c]);
    assert HandleAll(Handle(s, a), [b, c]) == HandleAll(Handle(Handle(s, a), b), [c]);
  }

  /** From the stop on: the parent is told once, and its handover is over when it was seen stopped. */
  lemma VisitCompletes(s: Server, q: Request, c: PermitId, p: PermitId)
    requires q !in s.visits
    ensures var told := s.(visits := s.visits[q := ToStop(c, p)], running := Some(q));
      Handle(Handle(told, SendStop(q)), Poll(q, true)) ==
      s.(db := CompleteHandover(s.db, c).value, running := None, seen := s.seen + {c},
         stops := s.stops + [StopCommand(c, p, s.db)])
  {
    hide CompleteHandover;
    var told := s.(visits := s.visits[q := ToStop(c, p)], running := Some(q));
    assert told.visits[q := Watching(c, p)] - {q} == s.visits;
  }

  /** A pending handover, after a restart or not, is taken up where it stands: one stop to its parent, then its end. */
  lemma PendingHandoverCompletes(s: Server, q: Request, c: PermitId)
    requires s.running.None? && q !in s.visits && c in s.db.handovers && s.db.handovers[c].pending
    ensures HandleAll(s, [Promote(q, c, true), SendStop(q), Poll(q, true)]) ==
            s.(db := CompleteHandover(s.db, c).value, seen := s.seen + {c},
               stops := s.stops + [StopCommand(c, s.db.handovers[c].parent, s.db)])
  {
    ThreeEvents(s, Promote(q, c, true), SendStop(q), Poll(q, true));
    VisitCompletes(s, q, c, s.db.handovers[c].parent);
    hide CompleteHandover, HandleAll, PromoteProbe;
  }

  /** A cleared probe is promoted first, and then its parent is told and its handover ends in the same way. */
  lemma PromotionIsFollowedThrough(s: Server, q: Request, c: PermitId)
    requires s.running.None? && q !in s.visits && PromoteProbe(s.db, c).Ok?
    requires !(c in s.db.handovers && s.db.handovers[c].pending)
    ensures c in s.db.permits && s.db.permits[c].parent.Some?
    ensures var promoted := PromoteProbe(s.db, c).value;
      HandleAll(s, [Promote(q, c, true), SendStop(q), Poll(q, true)]) ==
      s.(db := CompleteHandover(promoted, c).value, seen := s.seen + {c},
         stops := s.stops + [StopCommand(c, s.db.permits[c].parent.value, promoted)])
  {
    PromotedHasParent(s.db, c);
    ThreeEvents(s, Promote(q, c, true), SendStop(q), Poll(q, true));
    VisitCompletes(s.(db := PromoteProbe(s.db, c).value), q, c, s.db.permits[c].parent.value);
    hide CompleteHandover, HandleAll, PromoteProbe;
  }

  lemma PromotedHasParent(db: Database, c: PermitId)
    requires PromoteProbe(db, c).Ok?
    ensures c in db.permits && db.permits[c].parent.Some?
  {
    hide RequireReservation, SlotHasPrimary, HeldBudgets;
  }
}
