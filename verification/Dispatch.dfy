/**
 Concurrent `authorize` calls, interleaved with every other transaction.

 A call commits `dispatching`, then runs the upstream effect outside that
 transaction, then stores the reply or `unknown`. For a probe or a pack the
 effect runs while the call holds the database write lock, after checking its
 guard again. A call can crash between any two steps.
 */
module Dispatch {
  import opened Options
  import opened Tables
  import opened Transactions
  import opened Soundness
  import opened Evolution
  import StartChecks

  type Caller = nat

  /** Where one call stands. `permit` is the row as the call first read it. */
  datatype Phase =
    | Dispatched(id: PermitId, permit: Permit, payload: Payload)
    | Guarding(id: PermitId, permit: Permit, payload: Payload, placed: bool, named: bool)
    | Holding(id: PermitId, outcome: Option<Reply>)
    | Finishing(id: PermitId, outcome: Option<Reply>)
  {
    /** Has the call still to run its effect? */
    predicate Pending() { Dispatched? || Guarding? }

    predicate Locked() { Guarding? || Holding? }
  }

  /** One run of the upstream effect, which adds the torrent of the payload, and the tables at that moment. */
  datatype Effect = Effect(id: PermitId, permit: Permit, payload: Payload, db: Database, placed: bool, named: bool)

  datatype System = System(db: Database, calls: map<Caller, Phase>, lock: Option<Caller>, effects: seq<Effect>)

  predicate Guarded(p: Permit) {
    p.parent.Some? || p.scope.Pack?
  }

  datatype Action =
    | Transact(now: int, transaction: Transaction)
    | Call(caller: Caller, now: int, id: PermitId, payload: Payload, placed: bool, named: bool)
    | TakeLock(caller: Caller, placed: bool, named: bool)
    | RunEffect(caller: Caller, outcome: Option<Reply>)
    | Unlock(caller: Caller)
    | Store(caller: Caller)
    | Crash(caller: Caller)

  /** The transactions other callers make; dispatching and storing happen only through the steps below. */
  predicate Foreign(t: Transaction) {
    !t.DoBegin? && !t.DoRecord? && !t.DoMarkUnknown?
  }

  ghost function Next(s: System, a: Action): System {
    match a
    case Transact(now, t) =>
      if s.lock.Some? || !Foreign(t) then s else s.(db := After(s.db, now, t))
    case Call(c, now, id, payload, placed, named) =>
      if s.lock.Some? || c in s.calls || BeginOutcome(s.db, now, id, payload, placed, named) != Ok(None) then s
      else s.(db := After(s.db, now, DoBegin(id, payload, placed, named)),
              calls := s.calls[c := Dispatched(id, s.db.permits[id], payload)])
    case TakeLock(c, placed, named) =>
      if s.lock.Some? || c !in s.calls || !s.calls[c].Dispatched? || !Guarded(s.calls[c].permit) then s
      else
        var call := s.calls[c];
        if Guard(s.db, call.id, call.permit, placed, named).Fail? then
          s.(calls := s.calls[c := Finishing(call.id, None)])
        else
          s.(calls := s.calls[c := Guarding(call.id, call.permit, call.payload, placed, named)], lock := Some(c))
    case RunEffect(c, outcome) =>
      if c !in s.calls || !s.calls[c].Pending() || (s.calls[c].Dispatched? && Guarded(s.calls[c].permit)) then s
      else
        var call := s.calls[c];
        if call.Guarding? then
          s.(calls := s.calls[c := Holding(call.id, outcome)],
             effects := s.effects + [Effect(call.id, call.permit, call.payload, s.db, call.placed, call.named)])
        else
          s.(calls := s.calls[c := Finishing(call.id, outcome)],
             effects := s.effects + [Effect(call.id, call.permit, call.payload, s.db, true, true)])
    case Unlock(c) =>
      if c !in s.calls || !s.calls[c].Holding? then s
      else s.(calls := s.calls[c := Finishing(s.calls[c].id, s.calls[c].outcome)], lock := None)
    case Store(c) =>
      if s.lock.Some? || c !in s.calls || !s.calls[c].Finishing? then s
      else
        var t := if s.calls[c].outcome.Some? then DoRecord(s.calls[c].id, s.calls[c].outcome.value)
                 else DoMarkUnknown(s.calls[c].id);
        s.(db := After(s.db, 0, t), calls := s.calls - {c})
    case Crash(c) =>
      s.(calls := s.calls - {c}, lock := if s.lock == Some(c) then None else s.lock)
  }

  ghost function RunSystem(s: System, actions: seq<Action>): System
    decreases |actions|
  {
    if actions == [] then s else RunSystem(Next(s, actions[0]), actions[1..])
  }

  // ---- The invariant ----

  ghost predicate HasRun(s: System, id: PermitId) {
    exists i :: 0 <= i < |s.effects| && s.effects[i].id == id
  }

  /** A call's permit has left authorized for good. */
  ghost predicate CallsDispatched(db: Database, calls: map<Caller, Phase>) {
    forall c | c in calls :: calls[c].id in db.permits && db.permits[calls[c].id].state != Authorized
  }

  ghost predicate EffectsDispatched(db: Database, effects: seq<Effect>) {
    forall i | 0 <= i < |effects| ::
      effects[i].id in db.permits && db.permits[effects[i].id].state != Authorized
  }

  /** Of all calls for one permit at most one may still run the effect, and only if none has. */
  ghost predicate OnePending(s: System) {
    && (forall c | c in s.calls && s.calls[c].Pending() :: !HasRun(s, s.calls[c].id))
    && (forall c, d | c in s.calls && d in s.calls && s.calls[c].Pending() && s.calls[d].Pending() ::
          s.calls[c].id != s.calls[d].id || c == d)
  }

  /** The lock is held by exactly the call between its check and its release. */
  ghost predicate LockSound(s: System) {
    forall c | c in s.calls && s.calls[c].Locked() :: s.lock == Some(c)
  }

  /** While a call holds the lock for its effect, the check it made is still true. */
  ghost predicate GuardsHold(s: System) {
    forall c | c in s.calls && s.calls[c].Guarding? ::
      var call := s.calls[c];
      Guard(s.db, call.id, call.permit, call.placed, call.named).Pass?
  }

  ghost predicate EffectsDistinct(s: System) {
    forall i, j | 0 <= i < j < |s.effects| :: s.effects[i].id != s.effects[j].id
  }

  ghost predicate EffectGuarded(e: Effect) {
    Guarded(e.permit) ==> Guard(e.db, e.id, e.permit, e.placed, e.named).Pass?
  }

  ghost predicate SystemSound(s: System) {
    && Sound(s.db)
    && CallsDispatched(s.db, s.calls) && EffectsDispatched(s.db, s.effects)
    && OnePending(s) && LockSound(s) && GuardsHold(s) && EffectsDistinct(s)
    && (forall i | 0 <= i < |s.effects| :: EffectGuarded(s.effects[i]))
  }

  // ---- Each step keeps it ----

  lemma TransactionKeepsDispatched(db: Database, now: int, t: Transaction, calls: map<Caller, Phase>,
                                   effects: seq<Effect>)
    requires Sound(db) && CallsDispatched(db, calls) && EffectsDispatched(db, effects)
    ensures CallsDispatched(After(db, now, t), calls) && EffectsDispatched(After(db, now, t), effects)
  {
    hide Sound, After, SameIdentity;
    TransactionEvolves(db, now, t);
    var after := After(db, now, t);
    forall c | c in calls ensures calls[c].id in after.permits && after.permits[calls[c].id].state != Authorized {
      assert calls[c].id in db.permits;
      assert RowEvolves(db.permits[calls[c].id], after.permits[calls[c].id]);
    }
    forall i | 0 <= i < |effects|
      ensures effects[i].id in after.permits && after.permits[effects[i].id].state != Authorized
    {
      assert effects[i].id in db.permits;
      assert RowEvolves(db.permits[effects[i].id], after.permits[effects[i].id]);
    }
  }

  /** A write transaction commits only while nobody holds the lock, so no guarded call is in flight. */
  lemma TransactKeepsSystem(s: System, now: int, t: Transaction)
    requires SystemSound(s) && s.lock.None?
    ensures SystemSound(s.(db := After(s.db, now, t)))
  {
    hide Sound, After, Guard, CallsDispatched, EffectsDispatched;
    TransactionKeepsSound(s.db, now, t);
    TransactionKeepsDispatched(s.db, now, t, s.calls, s.effects);
    var after := s.(db := After(s.db, now, t));
    forall c | c in after.calls && after.calls[c].Pending() ensures !HasRun(after, after.calls[c].id) {
      assert !HasRun(s, s.calls[c].id);
    }
  }

  /** A permit still authorized has no call past its beginning, and has never run. */
  lemma AuthorizedIsUntouched(s: System, id: PermitId)
    requires SystemSound(s) && id in s.db.permits && s.db.permits[id].state == Authorized
    ensures !HasRun(s, id) && forall d | d in s.calls :: s.calls[d].id != id
  {
    hide Sound, OnePending, LockSound, GuardsHold, EffectsDistinct, EffectGuarded;
  }

  lemma CallSteps(s: System, c: Caller, now: int, id: PermitId, a: Payload, placed: bool, named: bool)
    requires s.lock.None? && c !in s.calls && BeginOutcome(s.db, now, id, a, placed, named) == Ok(None)
    ensures id in s.db.permits && s.db.permits[id].state == Authorized
    ensures var t := DoBegin(id, a, placed, named);
      var mid := s.(db := After(s.db, now, t));
      && id in mid.db.permits && mid.db.permits[id].state == Dispatching
      && Next(s, Call(c, now, id, a, placed, named)) ==
         mid.(calls := mid.calls[c := Dispatched(id, s.db.permits[id], a)])
  {
    hide BeginOutcome;
    assert Begin(s.db, now, id, a, placed, named).Ok?;
    var q := BeginStep(s.db, now, id, a, placed, named);
    hide Begin;
    assert After(s.db, now, DoBegin(id, a, placed, named)) == s.db.(permits := s.db.permits[id := q]);
  }

  lemma CallKeepsSystem(s: System, c: Caller, now: int, id: PermitId, a: Payload, placed: bool, named: bool)
    requires SystemSound(s) && s.lock.None? && c !in s.calls
    requires BeginOutcome(s.db, now, id, a, placed, named) == Ok(None)
    ensures id in s.db.permits
    ensures SystemSound(Next(s, Call(c, now, id, a, placed, named)))
  {
    CallSteps(s, c, now, id, a, placed, named);
    AuthorizedIsUntouched(s, id);
    var t := DoBegin(id, a, placed, named);
    var mid := s.(db := After(s.db, now, t));
    assert HasRun(mid, id) == HasRun(s, id);
    hide BeginOutcome, Begin, SystemSound, HasRun, After, Next;
    TransactKeepsSystem(s, now, t);
    CallEnters(mid, c, Dispatched(id, s.db.permits[id], a));
  }

  lemma CallEnters(s: System, c: Caller, call: Phase)
    requires SystemSound(s) && c !in s.calls && call.Dispatched?
    requires call.id in s.db.permits && s.db.permits[call.id].state != Authorized && !HasRun(s, call.id)
    requires forall d | d in s.calls :: s.calls[d].id != call.id
    ensures SystemSound(s.(calls := s.calls[c := call]))
  {
    hide Sound, Guard;
    var after := s.(calls := s.calls[c := call]);
    forall d | d in after.calls && after.calls[d].Pending() ensures !HasRun(after, after.calls[d].id) {
      assert d != c ==> !HasRun(s, s.calls[d].id);
    }
  }

  /** A call moves on without running its effect: to a later phase, or away. */
  lemma MovingOnKeepsSystem(s: System, after: System, c: Caller)
    requires SystemSound(s) && c in s.calls && after.db == s.db && after.effects == s.effects
    requires after.calls - {c} == s.calls - {c}
    requires c in after.calls ==>
               && after.calls[c].id == s.calls[c].id
               && (after.calls[c].Pending() ==> s.calls[c].Pending())
               && (after.calls[c].Locked() ==> after.lock == Some(c))
               && (after.calls[c].Guarding? ==>
                     var call := after.calls[c]; Guard(s.db, call.id, call.permit, call.placed, call.named).Pass?)
    requires after.lock == s.lock || s.lock == Some(c) || (s.lock.None? && after.lock == Some(c))
    ensures SystemSound(after)
  {
    hide Sound, Guard;
    forall d | d in after.calls && d != c ensures d in s.calls && after.calls[d] == s.calls[d] {
      assert d in after.calls - {c};
    }
    forall d | d in after.calls && after.calls[d].Pending() ensures !HasRun(after, after.calls[d].id) {
      assert !HasRun(s, s.calls[d].id);
    }
  }

  lemma EffectKeepsSystem(s: System, c: Caller, outcome: Option<Reply>)
    requires SystemSound(s) && c in s.calls && s.calls[c].Pending()
    requires s.calls[c].Dispatched? ==> !Guarded(s.calls[c].permit)
    ensures SystemSound(Next(s, RunEffect(c, outcome)))
  {
    hide Sound, Guard, Begin, After, Record, MarkUnknown;
    var after := Next(s, RunEffect(c, outcome));
    var call := s.calls[c];
    assert !HasRun(s, call.id);
    forall d | d in after.calls && after.calls[d].Pending() ensures !HasRun(after, after.calls[d].id) {
      assert d != c && !HasRun(s, s.calls[d].id);
    }
    assert EffectGuarded(after.effects[|s.effects|]);
    forall i | 0 <= i < |after.effects| ensures EffectGuarded(after.effects[i]) {
      assert i < |s.effects| ==> after.effects[i] == s.effects[i];
    }
  }

  lemma TakingLockKeepsSystem(s: System, c: Caller, placed: bool, named: bool)
    requires SystemSound(s)
    ensures SystemSound(Next(s, TakeLock(c, placed, named)))
  {
    hide SystemSound, Guard;
    var after := Next(s, TakeLock(c, placed, named));
    if after != s { MovingOnKeepsSystem(s, after, c); }
  }

  lemma UnlockingKeepsSystem(s: System, c: Caller)
    requires SystemSound(s)
    ensures SystemSound(Next(s, Unlock(c)))
  {
    hide SystemSound, Guard;
    var after := Next(s, Unlock(c));
    if after != s {
      LockHolder(s, c);
      MovingOnKeepsSystem(s, after, c);
    }
  }

  lemma StoringKeepsSystem(s: System, c: Caller)
    requires SystemSound(s)
    ensures SystemSound(Next(s, Store(c)))
  {
    hide SystemSound, Guard, After;
    var after := Next(s, Store(c));
    if after != s {
      var t := if s.calls[c].outcome.Some? then DoRecord(s.calls[c].id, s.calls[c].outcome.value)
               else DoMarkUnknown(s.calls[c].id);
      TransactKeepsSystem(s, 0, t);
      MovingOnKeepsSystem(s.(db := After(s.db, 0, t)), after, c);
    }
  }

  lemma CrashKeepsSystem(s: System, c: Caller)
    requires SystemSound(s)
    ensures SystemSound(Next(s, Crash(c)))
  {
    hide SystemSound, Guard;
    if c in s.calls { MovingOnKeepsSystem(s, Next(s, Crash(c)), c); } else { StrayCrash(s, c); }
  }

  lemma CallingKeepsSystem(s: System, a: Action)
    requires SystemSound(s) && (a.Transact? || a.Call? || a.RunEffect?)
    ensures SystemSound(Next(s, a))
  {
    hide SystemSound, Guard, BeginOutcome, After;
    if Next(s, a) != s {
      match a
      case Transact(now, t) => TransactKeepsSystem(s, now, t);
      case Call(c, now, id, payload, placed, named) => CallKeepsSystem(s, c, now, id, payload, placed, named);
      case RunEffect(c, outcome) => EffectKeepsSystem(s, c, outcome);
    }
  }

  lemma StepKeepsSystem(s: System, a: Action)
    requires SystemSound(s)
    ensures SystemSound(Next(s, a))
  {
    hide *;
    match a
    case TakeLock(c, placed, named) => TakingLockKeepsSystem(s, c, placed, named);
    case Unlock(c) => UnlockingKeepsSystem(s, c);
    case Store(c) => StoringKeepsSystem(s, c);
    case Crash(c) => CrashKeepsSystem(s, c);
    case _ => CallingKeepsSystem(s, a);
  }

  lemma LockHolder(s: System, c: Caller)
    requires SystemSound(s) && c in s.calls && s.calls[c].Locked()
    ensures s.lock == Some(c)
  {
    hide Sound, Guard;
  }

  lemma StrayCrash(s: System, c: Caller)
    requires SystemSound(s) && c !in s.calls
    ensures SystemSound(Next(s, Crash(c)))
  {
    hide Sound, Guard;
    var after := Next(s, Crash(c));
    assert after.calls == s.calls;
    forall d | d in after.calls && after.calls[d].Pending() ensures !HasRun(after, after.calls[d].id) {
      assert !HasRun(s, s.calls[d].id);
    }
  }

  lemma {:induction false} RunKeepsSystem(s: System, actions: seq<Action>)
    requires SystemSound(s)
    ensures SystemSound(RunSystem(s, actions))
    decreases |actions|
  {
    if actions != [] {
      hide SystemSound, Next;
      StepKeepsSystem(s, actions[0]);
      RunKeepsSystem(Next(s, actions[0]), actions[1..]);
    }
  }

  // ---- What callers rely on ----

  /** From a ledger nobody is dispatching on, no interleaving runs one permit's effect twice. */
  lemma EffectsRunAtMostOnce(db: Database, actions: seq<Action>, i: nat, j: nat)
    requires Sound(db)
    requires var s := RunSystem(System(db, map[], None, []), actions); i < j < |s.effects|
    ensures var s := RunSystem(System(db, map[], None, []), actions); s.effects[i].id != s.effects[j].id
  {
    RunKeepsSystem(System(db, map[], None, []), actions);
    hide Sound;
  }

  ghost predicate SeasonUntouched(db: Database, media: MediaKey) {
    media.SeasonMedia? && forall n: nat :: EpisodeMedia(media.tmdb, Episode(media.season, n)) !in db.tombstones
  }

  /** What the guard of a probe or a pack means in the tables. */
  ghost predicate Allowed(db: Database, p: Permit) {
    && db.Active(p.reservation)
    && db.reservations[p.reservation].request in db.requests
    && db.requests[db.reservations[p.reservation].request] !in {CancelRequested, CancelledRequest}
    && var media := db.reservations[p.reservation].media;
    && media !in db.tombstones
    && !EpisodeTombstoned(db, media, p.scope)
    && (p.scope.Pack? ==> SeasonUntouched(db, media) && p.scope.season == media.season)
  }

  /**
   Whenever the effect of a probe or a pack ran, in any interleaving, its
   reservation was active, its request not cancelled, and nothing it would
   download had been deleted, at that very moment.
   */
  lemma GuardedEffectsAreAllowed(db: Database, actions: seq<Action>, i: nat)
    requires Sound(db)
    requires var s := RunSystem(System(db, map[], None, []), actions);
      i < |s.effects| && (s.effects[i].permit.parent.Some? || s.effects[i].permit.scope.Pack?)
    ensures var e := RunSystem(System(db, map[], None, []), actions).effects[i]; Allowed(e.db, e.permit)
  {
    hide Sound, RunSystem;
    RunKeepsSystem(System(db, map[], None, []), actions);
    var s := RunSystem(System(db, map[], None, []), actions);
    assert EffectGuarded(s.effects[i]);
    hide SystemSound;
    GuardAllows(s.effects[i]);
  }

  lemma GuardAllows(e: Effect)
    requires Guarded(e.permit) && EffectGuarded(e)
    ensures Allowed(e.db, e.permit)
  {
    hide BindingsFit;
  }

  // ---- What runs is what was permitted ----

  /** The torrent, place and metadata of the permit. */
  predicate IsOf(a: Payload, id: PermitId, p: Permit) {
    a.infohash == p.infohash && a.destination == id && a.digest == p.digest
  }

  /** The payload is of the permit the tables still hold. */
  ghost predicate Matches(db: Database, id: PermitId, p: Permit, a: Payload) {
    IsOf(a, id, p) && id in db.permits && SameIdentity(p, db.permits[id])
  }

  ghost predicate CallsMatch(db: Database, calls: map<Caller, Phase>) {
    forall c | c in calls && calls[c].Pending() :: Matches(db, calls[c].id, calls[c].permit, calls[c].payload)
  }

  ghost predicate EffectsMatch(effects: seq<Effect>) {
    forall i | 0 <= i < |effects| :: Matches(effects[i].db, effects[i].id, effects[i].permit, effects[i].payload)
  }

  lemma TransactionKeepsMatches(db: Database, now: int, t: Transaction, calls: map<Caller, Phase>)
    requires Sound(db) && CallsDispatched(db, calls) && CallsMatch(db, calls)
    ensures CallsMatch(After(db, now, t), calls)
  {
    hide Sound, After;
    TransactionEvolves(db, now, t);
    var after := After(db, now, t);
    forall c | c in calls && calls[c].Pending() ensures Matches(after, calls[c].id, calls[c].permit, calls[c].payload) {
      assert RowEvolves(db.permits[calls[c].id], after.permits[calls[c].id]);
    }
  }

  lemma CallMatches(s: System, c: Caller, now: int, id: PermitId, a: Payload, placed: bool, named: bool)
    requires SystemSound(s) && CallsMatch(s.db, s.calls) && EffectsMatch(s.effects)
    ensures var after := Next(s, Call(c, now, id, a, placed, named));
      CallsMatch(after.db, after.calls) && EffectsMatch(after.effects)
  {
    hide Sound, BeginOutcome, Guard, CallsDispatched, EffectsMatch;
    if s.lock.None? && c !in s.calls && BeginOutcome(s.db, now, id, a, placed, named) == Ok(None) {
      StartChecks.StartIsOfThePermit(s.db, now, id, a, placed, named);
      StartChecks.BeginWrites(s.db, now, id, a, placed, named);
      var t := DoBegin(id, a, placed, named);
      TransactionKeepsMatches(s.db, now, t, s.calls);
      CallSteps(s, c, now, id, a, placed, named);
      hide Begin, Next;
      BegunRowIsSame(s.db, now, id, a, placed, named);
    }
  }

  lemma BegunRowIsSame(db: Database, now: int, id: PermitId, a: Payload, placed: bool, named: bool)
    requires BeginOutcome(db, now, id, a, placed, named) == Ok(None)
    ensures id in db.permits && id in After(db, now, DoBegin(id, a, placed, named)).permits
    ensures SameIdentity(db.permits[id], After(db, now, DoBegin(id, a, placed, named)).permits[id])
  {
    hide BeginOutcome, Begin;
    StartChecks.BeginWrites(db, now, id, a, placed, named);
  }

  lemma StepMatches(s: System, a: Action)
    requires SystemSound(s) && CallsMatch(s.db, s.calls) && EffectsMatch(s.effects)
    ensures CallsMatch(Next(s, a).db, Next(s, a).calls) && EffectsMatch(Next(s, a).effects)
  {
    hide Sound, After, BeginOutcome, Guard, Matches;
    match a
    case Transact(now, t) => TransactionKeepsMatches(s.db, now, t, s.calls);
    case Call(c, now, id, payload, placed, named) => CallMatches(s, c, now, id, payload, placed, named);
    case Store(c) =>
      if c in s.calls && s.calls[c].Finishing? {
        TransactionKeepsMatches(s.db, 0, DoMarkUnknown(s.calls[c].id), s.calls);
        if s.calls[c].outcome.Some? {
          TransactionKeepsMatches(s.db, 0, DoRecord(s.calls[c].id, s.calls[c].outcome.value), s.calls);
        }
      }
    case _ =>
  }

  lemma {:induction false} RunMatches(s: System, actions: seq<Action>)
    requires SystemSound(s) && CallsMatch(s.db, s.calls) && EffectsMatch(s.effects)
    ensures EffectsMatch(RunSystem(s, actions).effects)
    decreases |actions|
  {
    if actions != [] {
      hide SystemSound, Next, CallsMatch, EffectsMatch;
      StepKeepsSystem(s, actions[0]);
      StepMatches(s, actions[0]);
      RunMatches(Next(s, actions[0]), actions[1..]);
    }
  }

  /** Whatever is interleaved, what runs upstream is the torrent, place and metadata of the row in the tables then. */
  lemma EffectsAreOfTheirPermits(db: Database, actions: seq<Action>, i: nat)
    requires Sound(db)
    requires i < |RunSystem(System(db, map[], None, []), actions).effects|
    ensures var e := RunSystem(System(db, map[], None, []), actions).effects[i];
      && e.id in e.db.permits
      && e.payload.infohash == e.db.permits[e.id].infohash && e.payload.destination == e.id
      && e.payload.digest == e.db.permits[e.id].digest
  {
    hide Sound, RunSystem;
    RunMatches(System(db, map[], None, []), actions);
    assert EffectsMatch(RunSystem(System(db, map[], None, []), actions).effects);
  }

  // ---- What a call comes to when nobody interferes ----

  /** The call's permit as it stands while the effect runs, and once what came of it is stored. */
  function Begun(db: Database, id: PermitId): Database
    requires id in db.permits
  {
    db.(permits := db.permits[id := db.permits[id].(state := Dispatching)])
  }

  function Answered(db: Database, id: PermitId, outcome: Option<Reply>): Database
    requires id in db.permits
  {
    var p := db.permits[id];
    db.(permits := db.permits[id := if outcome.Some? then p.(state := Confirmed, reply := outcome)
                                    else p.(state := Unknown)])
  }

  lemma StoredOutcome(s: System, c: Caller, id: PermitId, outcome: Option<Reply>)
    requires s.lock.None? && c in s.calls && s.calls[c] == Finishing(id, outcome)
    requires id in s.db.permits && s.db.permits[id].state == Dispatching
    ensures Next(s, Store(c)) == s.(db := Answered(s.db, id, outcome), calls := s.calls - {c})
  {
    if outcome.Some? {
      assert Record(s.db, id, outcome.value) == Ok(Answered(s.db, id, outcome));
    } else {
      assert MarkUnknown(s.db, id) == Ok(Answered(s.db, id, outcome));
    }
    hide Record, MarkUnknown, Answered;
  }

  lemma BegunCall(s: System, c: Caller, now: int, id: PermitId, a: Payload, placed: bool, named: bool)
    requires s.lock.None? && c !in s.calls && BeginOutcome(s.db, now, id, a, placed, named) == Ok(None)
    requires id in s.db.permits && s.db.permits[id].state == Authorized
    ensures Next(s, Call(c, now, id, a, placed, named)) ==
            s.(db := Begun(s.db, id), calls := s.calls[c := Dispatched(id, s.db.permits[id], a)])
  {
    hide BeginOutcome, Begin;
    StartChecks.BeginWrites(s.db, now, id, a, placed, named);
  }

  /** A call with nobody else about runs its effect once and stores what came of it. */
  lemma PlainCallCompletes(db: Database, c: Caller, now: int, id: PermitId, a: Payload, outcome: Option<Reply>)
    requires BeginOutcome(db, now, id, a, true, true) == Ok(None)
    requires id in db.permits && db.permits[id].state == Authorized
    requires db.permits[id].parent.None? && !db.permits[id].scope.Pack?
    ensures RunSystem(System(db, map[], None, []),
                      [Call(c, now, id, a, true, true), RunEffect(c, outcome), Store(c)]) ==
            System(Answered(Begun(db, id), id, outcome), map[], None,
                   [Effect(id, db.permits[id], a, Begun(db, id), true, true)])
  {
    hide BeginOutcome, Next, Answered, Begun;
    var s := System(db, map[], None, []);
    var actions := [Call(c, now, id, a, true, true), RunEffect(c, outcome), Store(c)];
    ThreeSteps(s, actions[0], actions[1], actions[2]);
    BegunCall(s, c, now, id, a, true, true);
    var begun := s.(db := Begun(db, id), calls := map[c := Dispatched(id, db.permits[id], a)]);
    assert s.calls[c := Dispatched(id, db.permits[id], a)] == begun.calls;
    EffectOf(begun, c, id, db.permits[id], a, outcome);
    BegunRow(db, id);
    var ran := begun.(calls := map[c := Finishing(id, outcome)],
                      effects := [Effect(id, db.permits[id], a, Begun(db, id), true, true)]);
    StoredOutcome(ran, c, id, outcome);
    assert ran.calls - {c} == map[];
  }

  lemma BegunRow(db: Database, id: PermitId)
    requires id in db.permits
    ensures id in Begun(db, id).permits && Begun(db, id).permits[id].state == Dispatching
  {
  }

  lemma EffectOf(s: System, c: Caller, id: PermitId, p: Permit, a: Payload, outcome: Option<Reply>)
    requires s.calls == map[c := Dispatched(id, p, a)] && s.effects == [] && p.parent.None? && !p.scope.Pack?
    ensures Next(s, RunEffect(c, outcome)) ==
            s.(calls := map[c := Finishing(id, outcome)], effects := [Effect(id, p, a, s.db, true, true)])
  {
    assert s.calls[c := Finishing(id, outcome)] == map[c := Finishing(id, outcome)];
    assert [] + [Effect(id, p, a, s.db, true, true)] == [Effect(id, p, a, s.db, true, true)];
  }

  lemma ThreeSteps(s: System, a: Action, b: Action, c: Action)
    ensures RunSystem(s, [a, b, c]) == Next(Next(Next(s, a), b), c)
  {
    hide Next;
    assert [a, b, c][1..] == [b, c] && [b, c][1..] == [c] && [c][1..] == [];
    assert RunSystem(s, [a, b, c]) == RunSystem(Next(s, a), [b, c]);
    assert RunSystem(Next(s, a), [b, c]) == RunSystem(Next(Next(s, a), b), [c]);
  }

  lemma FirstStep(s: System, a: Action, rest: seq<Action>)
    ensures RunSystem(s, [a] + rest) == RunSystem(Next(s, a), rest)
  {
    hide Next;
    assert ([a] + rest)[1..] == rest;
  }

  /** Nothing a guard looks at has changed since the dispatch began. */
  lemma GuardStillPasses(db: Database, now: int, id: PermitId, a: Payload, placed: bool, named: bool)
    requires BeginOutcome(db, now, id, a, placed, named) == Ok(None) && id in db.permits
    ensures Guard(Begun(db, id), id, db.permits[id], placed, named).Pass?
  {
    hide BindingsFit, ValidatePayload;
    assert Begun(db, id).reservations == db.reservations && Begun(db, id).tombstones == db.tombstones;
  }

  /** A probe's or a pack's effect runs under the lock, over the very tables its guard was checked on. */
  lemma GuardedCallCompletes(db: Database, c: Caller, now: int, id: PermitId, a: Payload, placed: bool, named: bool,
                             outcome: Option<Reply>)
    requires BeginOutcome(db, now, id, a, placed, named) == Ok(None)
    requires id in db.permits && db.permits[id].state == Authorized
    requires db.permits[id].parent.Some? || db.permits[id].scope.Pack?
    ensures RunSystem(System(db, map[], None, []),
                      [Call(c, now, id, a, placed, named)] +
                      ([TakeLock(c, placed, named)] + [RunEffect(c, outcome), Unlock(c), Store(c)])) ==
            System(Answered(Begun(db, id), id, outcome), map[], None,
                   [Effect(id, db.permits[id], a, Begun(db, id), placed, named)])
  {
    hide BeginOutcome, Next, Answered, Begun, RunSystem, Guard;
    var s, p := System(db, map[], None, []), db.permits[id];
    var last := [RunEffect(c, outcome), Unlock(c), Store(c)];
    FirstStep(s, Call(c, now, id, a, placed, named), [TakeLock(c, placed, named)] + last);
    BegunCall(s, c, now, id, a, placed, named);
    var begun := s.(db := Begun(db, id), calls := map[c := Dispatched(id, p, a)]);
    assert s.calls[c := Dispatched(id, p, a)] == begun.calls;
    FirstStep(begun, TakeLock(c, placed, named), last);
    GuardStillPasses(db, now, id, a, placed, named);
    LockedEffect(begun, c, id, p, a, placed, named, outcome);
    BegunRow(db, id);
    var ran := begun.(calls := map[c := Finishing(id, outcome)],
                      effects := [Effect(id, p, a, Begun(db, id), placed, named)]);
    StoredOutcome(ran, c, id, outcome);
    assert ran.calls - {c} == map[];
  }

  lemma LockedEffect(s: System, c: Caller, id: PermitId, p: Permit, a: Payload, placed: bool, named: bool,
                     outcome: Option<Reply>)
    requires s.calls == map[c := Dispatched(id, p, a)] && s.effects == [] && s.lock.None?
    requires (p.parent.Some? || p.scope.Pack?) && Guard(s.db, id, p, placed, named).Pass?
    ensures RunSystem(Next(s, TakeLock(c, placed, named)), [RunEffect(c, outcome), Unlock(c), Store(c)]) ==
            Next(s.(calls := map[c := Finishing(id, outcome)], effects := [Effect(id, p, a, s.db, placed, named)]),
                 Store(c))
  {
    hide Guard, RunSystem, After;
    var taken := s.(calls := map[c := Guarding(id, p, a, placed, named)], lock := Some(c));
    assert Next(s, TakeLock(c, placed, named)) == taken by {
      assert s.calls[c := Guarding(id, p, a, placed, named)] == taken.calls;
    }
    var held := taken.(calls := map[c := Holding(id, outcome)], effects := [Effect(id, p, a, s.db, placed, named)]);
    assert Next(taken, RunEffect(c, outcome)) == held by {
      assert taken.calls[c := Holding(id, outcome)] == held.calls;
      assert [] + [Effect(id, p, a, s.db, placed, named)] == held.effects;
    }
    assert held.calls[c := Finishing(id, outcome)] == map[c := Finishing(id, outcome)];
    ThreeSteps(taken, RunEffect(c, outcome), Unlock(c), Store(c));
  }
}
