/**
 `prepare_destination` by several processes at once, each step a single file
 system operation, with both pool roots visible throughout. A process may stop
 anywhere, also between creating its claim file and writing it.
 */
module Placement {

  datatype Pool = Ssd | Hdd

  type PermitId = nat
  type Process = nat

  /** A claim file that exists: still empty, or naming the pool it was written for. */
  datatype Claim = Unwritten | For(pool: Pool)

  /** Where a call stands; `Writing` owns the claim file it has just created. */
  datatype Step =
    | Looking          // about to look for a directory on the other pool
    | Comparing        // about to look for a directory of its own
    | Matching         // has found one, and is about to look for its claim
    | Claiming         // about to create the claim exclusively
    | Writing          // about to write the claim it created
    | Reading          // about to read the claim, whoever wrote it
    | Making           // about to make the directory
    | Finished

  datatype Call = Call(pool: Pool, permit: PermitId, step: Step)

  datatype Disk = Disk(claims: map<PermitId, Claim>, directories: set<(Pool, PermitId)>, calls: map<Process, Call>)

  datatype Event =
    | Start(process: Process, pool: Pool, permit: PermitId)
    | Advance(process: Process)
    | Stop(process: Process)

  function Other(pool: Pool): Pool {
    if pool == Ssd then Hdd else Ssd
  }

  function At(d: Disk, p: Process, step: Step): Disk
    requires p in d.calls
  {
    d.(calls := d.calls[p := d.calls[p].(step := step)])
  }

  /** A refusal ends the call. */
  function Ended(d: Disk, p: Process): Disk {
    d.(calls := d.calls - {p})
  }

  function Advanced(d: Disk, p: Process): Disk
    requires p in d.calls
  {
    var Call(pool, permit, step) := d.calls[p];
    match step
    case Looking => if (Other(pool), permit) in d.directories then Ended(d, p) else At(d, p, Comparing)
    case Comparing => At(d, p, if (pool, permit) in d.directories then Matching else Claiming)
    case Matching => if permit !in d.claims then Ended(d, p) else At(d, p, Claiming)
    case Claiming =>
      if permit in d.claims then At(d, p, Reading)
      else At(d.(claims := d.claims[permit := Unwritten]), p, Writing)
    case Writing => At(d.(claims := d.claims[permit := For(pool)]), p, Reading)
    case Reading => if permit in d.claims && d.claims[permit] == For(pool) then At(d, p, Making) else Ended(d, p)
    case Making => At(d.(directories := d.directories + {(pool, permit)}), p, Finished)
    case Finished => Ended(d, p)
  }

  function After(d: Disk, e: Event): Disk {
    match e
    case Start(p, pool, permit) => if p in d.calls then d else d.(calls := d.calls[p := Call(pool, permit, Looking)])
    case Advance(p) => if p in d.calls then Advanced(d, p) else d
    case Stop(p) => Ended(d, p)
  }

  function Run(d: Disk, events: seq<Event>): Disk
    decreases |events|
  {
    if events == [] then d else Run(After(d, events[0]), events[1..])
  }

  // ---- The invariant ----

  /** Having looked, a call knows that no directory was on the other pool from the start. */
  ghost predicate HasLooked(start: set<(Pool, PermitId)>, c: Call) {
    c.step != Looking ==> (Other(c.pool), c.permit) !in start
  }

  ghost predicate CallSound(d: Disk, start: set<(Pool, PermitId)>, c: Call) {
    && HasLooked(start, c)
    && (c.step == Writing ==> c.permit in d.claims && d.claims[c.permit] == Unwritten)
    && (c.step in {Making, Finished} ==> c.permit in d.claims && d.claims[c.permit] == For(c.pool))
  }

  /** A claim has one writer. */
  ghost predicate WritersDiffer(d: Disk) {
    forall p, q | p in d.calls && q in d.calls && p != q && d.calls[p].step == Writing && d.calls[q].step == Writing ::
      d.calls[p].permit != d.calls[q].permit
  }

  /** A directory made by a call matches its claim, and the other pool had none from the start. */
  ghost predicate MadeSound(d: Disk, start: set<(Pool, PermitId)>) {
    forall dir | dir in d.directories && dir !in start ::
      dir.1 in d.claims && d.claims[dir.1] == For(dir.0) && (Other(dir.0), dir.1) !in start
  }

  ghost predicate Sound(d: Disk, start: set<(Pool, PermitId)>) {
    && start <= d.directories
    && MadeSound(d, start)
    && WritersDiffer(d)
    && forall p | p in d.calls :: CallSound(d, start, d.calls[p])
  }

  /** Claims stay, and once written are never rewritten. */
  ghost predicate ClaimsKept(d: Disk, after: Disk) {
    forall permit | permit in d.claims ::
      permit in after.claims && (d.claims[permit].For? ==> after.claims[permit] == d.claims[permit])
  }

  lemma EventKeepsCalls(d: Disk, start: set<(Pool, PermitId)>, e: Event)
    requires Sound(d, start)
    ensures forall p | p in After(d, e).calls :: CallSound(After(d, e), start, After(d, e).calls[p])
  {
    hide MadeSound;
    var after := After(d, e);
    if e.Advance? && e.process in d.calls { assert CallSound(d, start, d.calls[e.process]); }
    forall q | q in after.calls && q in d.calls && after.calls[q] == d.calls[q]
      ensures CallSound(after, start, after.calls[q])
    {
      assert CallSound(d, start, d.calls[q]);
    }
  }

  lemma EventKeepsMade(d: Disk, start: set<(Pool, PermitId)>, e: Event)
    requires Sound(d, start)
    ensures start <= After(d, e).directories && MadeSound(After(d, e), start) && ClaimsKept(d, After(d, e))
  {
    hide WritersDiffer;
    if e.Advance? && e.process in d.calls { assert CallSound(d, start, d.calls[e.process]); }
  }

  lemma EventKeepsWriters(d: Disk, start: set<(Pool, PermitId)>, e: Event)
    requires Sound(d, start)
    ensures WritersDiffer(After(d, e))
  {
    hide MadeSound;
    assert forall p | p in d.calls :: CallSound(d, start, d.calls[p]);
  }

  lemma EventKeepsSound(d: Disk, start: set<(Pool, PermitId)>, e: Event)
    requires Sound(d, start)
    ensures Sound(After(d, e), start) && ClaimsKept(d, After(d, e))
  {
    hide After, CallSound, MadeSound, WritersDiffer;
    EventKeepsCalls(d, start, e);
    EventKeepsMade(d, start, e);
    EventKeepsWriters(d, start, e);
  }

  lemma {:induction false} RunKeepsSound(d: Disk, start: set<(Pool, PermitId)>, events: seq<Event>)
    requires Sound(d, start)
    ensures Sound(Run(d, events), start) && ClaimsKept(d, Run(d, events))
    decreases |events|
  {
    if events != [] {
      EventKeepsSound(d, start, events[0]);
      RunKeepsSound(After(d, events[0]), start, events[1..]);
    }
  }

  /** A disk on which nobody is preparing anything. */
  predicate Idle(d: Disk) {
    d.calls == map[]
  }

  /** Whatever the interleaving, a permit has a directory on both pools only if it had from the start. */
  lemma PlacementIsExclusive(d: Disk, events: seq<Event>, permit: PermitId)
    requires Idle(d)
    requires var after := Run(d, events); (Ssd, permit) in after.directories && (Hdd, permit) in after.directories
    ensures (Ssd, permit) in d.directories && (Hdd, permit) in d.directories
  {
    RunKeepsSound(d, d.directories, events);
    assert forall pool: Pool :: (pool, permit).0 == pool && (pool, permit).1 == permit;
  }

  /** A directory made in the run is the one its claim names, for good. */
  lemma DirectoriesMatchClaims(d: Disk, events: seq<Event>, more: seq<Event>, pool: Pool, permit: PermitId)
    requires Idle(d) && (pool, permit) in Run(d, events).directories && (pool, permit) !in d.directories
    ensures permit in Run(Run(d, events), more).claims && Run(Run(d, events), more).claims[permit] == For(pool)
  {
    RunKeepsSound(d, d.directories, events);
    RunKeepsSound(Run(d, events), d.directories, more);
    assert (pool, permit).1 in Run(d, events).claims;
  }

  /** One call from its start to its end, with nobody else about. */
  function Alone(p: Process, pool: Pool, permit: PermitId): seq<Event> {
    [Start(p, pool, permit)] + seq(7, _ => Advance(p))
  }

  lemma {:induction false} Steps(d: Disk, p: Process, n: nat)
    requires n > 0
    ensures Run(d, seq(n, _ => Advance(p))) == Run(After(d, Advance(p)), seq(n - 1, _ => Advance(p)))
  {
    assert seq(n, _ => Advance(p))[1..] == seq(n - 1, _ => Advance(p));
  }

  /** The directory there is once a call that nobody disturbs has gone as far as it gets. */
  predicate Prepares(d: Disk, pool: Pool, permit: PermitId) {
    && (Other(pool), permit) !in d.directories
    && ((pool, permit) in d.directories ==> permit in d.claims)
    && (permit in d.claims ==> d.claims[permit] == For(pool))
  }

  /** How many steps a call can have left. */
  function Left(step: Step): nat {
    match step
    case Looking => 7
    case Comparing => 6
    case Matching => 5
    case Claiming => 4
    case Writing => 3
    case Reading => 2
    case Making => 1
    case Finished => 0
  }

  /** Will the call make its directory, if nobody else comes in between? */
  predicate WillMake(d: Disk, c: Call) {
    var mine := c.permit in d.claims && d.claims[c.permit] == For(c.pool);
    match c.step
    case Looking => Prepares(d, c.pool, c.permit)
    case Comparing => mine || (c.permit !in d.claims && (c.pool, c.permit) !in d.directories)
    case Matching => mine
    case Claiming => mine || c.permit !in d.claims
    case Writing => true
    case Reading => mine
    case Making => true
    case Finished => false
  }

  lemma {:induction false} GoesOn(d: Disk, p: Process, n: nat)
    requires p in d.calls ==> n >= Left(d.calls[p].step)
    ensures var after := Run(d, seq(n, _ => Advance(p)));
      if p in d.calls && WillMake(d, d.calls[p]) then
        var c := d.calls[p];
        && after.directories == d.directories + {(c.pool, c.permit)}
        && after.claims == if c.step == Making then d.claims else d.claims[c.permit := For(c.pool)]
      else after.directories == d.directories && after.claims == d.claims
    decreases n
  {
    if n > 0 {
      Steps(d, p, n);
      if p in d.calls { StepsDown(d, p); }
      hide Run, Prepares;
      GoesOn(After(d, Advance(p)), p, n - 1);
      OneStepOn(d, p);
    }
  }

  lemma StepsDown(d: Disk, p: Process)
    requires p in d.calls
    ensures p in Advanced(d, p).calls ==> Left(Advanced(d, p).calls[p].step) < Left(d.calls[p].step)
  {
  }

  /** One step changes neither what will be made nor, by itself, anything but what making it takes. */
  lemma OneStepOn(d: Disk, p: Process)
    ensures var after := After(d, Advance(p));
      p in d.calls && d.calls[p].step != Making ==>
        && after.directories == d.directories
        && (WillMake(d, d.calls[p]) ==>
              && p in after.calls && WillMake(after, after.calls[p])
              && after.calls[p].pool == d.calls[p].pool && after.calls[p].permit == d.calls[p].permit)
        && (!WillMake(d, d.calls[p]) ==>
              after.claims == d.claims && (p in after.calls ==> !WillMake(after, after.calls[p])))
  {
  }

  /** It adds its directory under its claim exactly when it is not refused, and otherwise nothing at all. */
  lemma AloneSucceedsExactly(d: Disk, p: Process, pool: Pool, permit: PermitId)
    requires Idle(d)
    ensures var after := Run(d, Alone(p, pool, permit));
      if Prepares(d, pool, permit) then
        after.directories == d.directories + {(pool, permit)} && after.claims == d.claims[permit := For(pool)]
      else
        after.directories == d.directories && after.claims == d.claims
  {
    var started := After(d, Start(p, pool, permit));
    assert Alone(p, pool, permit)[1..] == seq(7, _ => Advance(p));
    assert Run(d, Alone(p, pool, permit)) == Run(started, seq(7, _ => Advance(p)));
    hide Run;
    GoesOn(started, p, 7);
  }
}
