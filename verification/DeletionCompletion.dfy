/** While services cooperate with the jobs of a family, it is deleted, whatever else goes on in the store. */
module DeletionCompletion {
  import opened Options
  import opened DeletionJobs
  import opened DeletionOrder
  import opened DeletionProgress
  import DeletionSets

  // ---- The jobs followed ----

  /** A job that is done, or not blocked and together with those it waits for: its season, or its children. */
  predicate FollowedJob(jobs: Jobs, family: set<ItemId>, job: Job) {
    job.stage == Complete ||
    (&& job.stage != Blocked
     && (job.kind == Season ==>
           && job.stage != ArrRemoved
           && forall child | child in job.payload.episodes :: ChildIntact(jobs, child) && child.item in family)
     && (job.kind != Season && job.payload.parent.Some? ==>
           && job.payload.parent.value in family && job.payload.parent.value in jobs
           && jobs[job.payload.parent.value].kind == Season))
  }

  /** Whatever else the store holds, none of these jobs is blocked, and their families are complete. */
  ghost predicate Followed(jobs: Jobs, family: set<ItemId>) {
    && RowsNumbered(jobs) && family <= jobs.Keys
    && forall item | item in family :: FollowedJob(jobs, family, jobs[item])
  }

  const STEPS := 7

  /** Every step of the attempt succeeds. */
  predicate Helpful(outcomes: seq<Outcome>) {
    |outcomes| >= STEPS && forall o | o in outcomes :: o.ending == Succeeded
  }

  /** Every step is stamped with a time of the period, each with its own. */
  predicate Stamped(outcomes: seq<Outcome>, since: int, until: int) {
    forall o | o in outcomes :: since <= o.at < until
  }

  predicate Unfinished(jobs: Jobs, season: Job) {
    exists child | child in season.payload.episodes :: child.item in jobs && jobs[child.item].stage != Complete
  }

  lemma GateOfFollowed(jobs: Jobs, family: set<ItemId>, job: Job)
    requires Followed(jobs, family) && FollowedJob(jobs, family, job) && job.stage != Complete
    ensures StageGate(jobs, job) != Refuses
    ensures StageGate(jobs, job) == Waits ==> job.kind == Season && job.stage == Tombstoned && Unfinished(jobs, job)
  {
    if job.kind == Season {
      forall child | child in job.payload.episodes ensures child.item in jobs && jobs[child.item].stage != Blocked {
        assert ChildIntact(jobs, child) && FollowedJob(jobs, family, jobs[child.item]);
      }
    }
  }

  /** Any job may move, a followed one only to a stage that is neither blocked nor foreign to its kind. */
  lemma StepStaysFollowed(jobs: Jobs, family: set<ItemId>, item: ItemId, job: Job)
    requires Followed(jobs, family) && item in jobs && SameCapture(jobs[item], job)
    requires item in family ==>
               jobs[item].stage != Complete && job.stage != Blocked && (job.kind == Season ==> job.stage != ArrRemoved)
    ensures Followed(jobs[item := job], family)
  {
    var after := jobs[item := job];
    StepStaysNumbered(jobs, item, job);
    hide RowsNumbered;
    forall k | k in family ensures FollowedJob(after, family, after[k]) {
      assert FollowedJob(jobs, family, jobs[k]);
      forall child | after[k].kind == Season && child in after[k].payload.episodes && ChildIntact(jobs, child)
        ensures ChildIntact(after, child)
      {
      }
    }
  }

  lemma StepStaysNumbered(jobs: Jobs, item: ItemId, job: Job)
    requires RowsNumbered(jobs) && item in jobs && SameCapture(jobs[item], job)
    ensures RowsNumbered(jobs[item := job])
  {
    var after := jobs[item := job];
    assert after.Keys == jobs.Keys && |after| == |after.Keys| && |jobs| == |jobs.Keys|;
  }

  lemma SeasonStillUnfinished(jobs: Jobs, family: set<ItemId>, item: ItemId, job: Job)
    requires Followed(jobs, family) && item in family && jobs[item].stage != Complete && SameCapture(jobs[item], job)
    requires job.kind == Season && Unfinished(jobs[item := job], job)
    ensures Unfinished(jobs, jobs[item])
  {
    var after := jobs[item := job];
    assert FollowedJob(jobs, family, jobs[item]);
    var child :| child in job.payload.episodes && child.item in after && after[child.item].stage != Complete;
    assert ChildIntact(jobs, child) && child.item != item;
  }

  // ---- A helped attempt ----

  /** With its gate open a job takes one step up and stays followed. */
  lemma DriveSteps(s: State, family: set<ItemId>, item: ItemId, outcomes: seq<Outcome>)
    returns (stepped: State, next: Job)
    requires Followed(s.jobs, family) && item in family && s.jobs[item].Resumable() && outcomes != []
    requires outcomes[0].ending == Succeeded && StageGate(s.jobs, s.jobs[item]) == Open
    ensures stepped.jobs == s.jobs[item := next] && Followed(stepped.jobs, family) && SameCapture(s.jobs[item], next)
    ensures Rank(next.stage) > Rank(s.jobs[item].stage) && next.stage != Blocked && next.updated == outcomes[0].at
    ensures Driven(s, item, outcomes) ==
            if next.stage == Complete then (stepped, Finished) else Driven(stepped, item, outcomes[1..])
  {
    var o, job := outcomes[0], s.jobs[item];
    assert FollowedJob(s.jobs, family, job);
    var to, acted := Following(job.kind, job.stage).value, Acted(s, item, o);
    stepped := acted.(jobs := StageSet(acted.jobs, item, to, None, o.at));
    next := job.(stage := to, error := None, updated := o.at);
    assert stepped.jobs == s.jobs[item := next];
    hide Acted, StageSet, Followed, StageGate;
    StepStaysFollowed(s.jobs, family, item, next);
  }

  lemma UnfinishedJobMoves(jobs: Jobs, family: set<ItemId>, job: Job)
    requires FollowedJob(jobs, family, job) && job.stage != Complete
    ensures Following(job.kind, job.stage).Some?
  {
  }

  /** Left alone, a job runs to the end, or to the point where its season waits for children. */
  lemma {:induction false} HelpedDrive(s: State, family: set<ItemId>, item: ItemId, outcomes: seq<Outcome>, since: int,
                                       until: int)
    requires Followed(s.jobs, family) && item in family && s.jobs[item].Resumable()
    requires |outcomes| + Rank(s.jobs[item].stage) >= STEPS && Stamped(outcomes, since, until)
    requires forall o | o in outcomes :: o.ending == Succeeded
    ensures var (after, verdict) := Driven(s, item, outcomes);
      && Followed(after.jobs, family) && item in after.jobs
      && ((verdict == Finished && after.jobs[item].stage == Complete) ||
          (verdict.Retries? && since <= verdict.at < until && s.jobs[item].kind == Season &&
           after.jobs[item].stage == Tombstoned && Unfinished(s.jobs, s.jobs[item])))
    decreases |outcomes|
  {
    hide StageGate, Unfinished, FollowedJob, RowsNumbered;
    assert outcomes[0] in outcomes && FollowedJob(s.jobs, family, s.jobs[item]);
    UnfinishedJobMoves(s.jobs, family, s.jobs[item]);
    GateOfFollowed(s.jobs, family, s.jobs[item]);
    if StageGate(s.jobs, s.jobs[item]) == Open {
      hide Driven;
      var stepped, next := DriveSteps(s, family, item, outcomes);
      if next.stage != Complete {
        HelpedDrive(stepped, family, item, outcomes[1..], since, until);
        if Driven(stepped, item, outcomes[1..]).1.Retries? {
          SeasonStillUnfinished(s.jobs, family, item, next);
        }
      }
    }
  }

  // ---- Three rounds ----

  /** What a followed job has come to after so many rounds in which each was attended to. */
  predicate Reached(round: nat, job: Job) {
    match round
    case 0 => true
    case 1 =>
      !job.Resumable() || (if job.kind == Season then Rank(job.stage) >= Rank(Tombstoned) else job.payload.parent.Some?)
    case 2 => !job.Resumable() || (job.kind == Season && Rank(job.stage) >= Rank(Tombstoned))
    case _ => !job.Resumable()
  }

  ghost predicate AllReached(round: nat, jobs: Jobs, family: set<ItemId>) {
    forall item | item in family :: item in jobs && Reached(round, jobs[item])
  }

  lemma HelpedAttempt(round: nat, s: State, family: set<ItemId>, item: ItemId, outcomes: seq<Outcome>, since: int,
                      until: int)
    requires Followed(s.jobs, family) && item in family && s.jobs[item].Resumable()
    requires Helpful(outcomes) && Stamped(outcomes, since, until)
    requires 1 <= round <= 3 && AllReached(round - 1, s.jobs, family)
    ensures var after := RunOnce(s, item, outcomes);
      && OthersSame(s.jobs, after.jobs, item) && Followed(after.jobs, family) && Reached(round, after.jobs[item])
      && (after.jobs[item].Resumable() ==> since <= after.jobs[item].updated < until)
    ensures !Processed(s, item, outcomes).1.Dies?
  {
    var job, gate := s.jobs[item], ParentGate(s.jobs, s.jobs[item]);
    AttemptChangesOne(s, item, outcomes);
    DrivenKeepsItem(s, item, outcomes);
    assert outcomes[0] in outcomes && FollowedJob(s.jobs, family, job);
    FamilyReached(round, s.jobs, family, job);
    hide Followed, AllReached, Driven, ParentGate, Unfinished, FollowedJob;
    var (after, verdict) := Processed(s, item, outcomes);
    if gate == Open {
      HelpedDrive(s, family, item, outcomes, since, until);
      SettledStaysFollowed(after, family, item, verdict);
    } else {
      assert verdict == Retries(outcomes[0].at, outcomes[0].error);
      SettledStaysFollowed(s, family, item, verdict);
    }
  }

  /** In the second round no season holds its children up, and in the third no child its season. */
  lemma FamilyReached(round: nat, jobs: Jobs, family: set<ItemId>, job: Job)
    requires Followed(jobs, family) && FollowedJob(jobs, family, job) && job.stage != Complete
    requires 1 <= round <= 3 && AllReached(round - 1, jobs, family)
    ensures ParentGate(jobs, job) != Refuses
    ensures ParentGate(jobs, job) == Waits ==> round == 1 && job.kind != Season && job.payload.parent.Some?
    ensures round == 3 ==> !(job.kind == Season && Unfinished(jobs, job))
  {
    if job.kind != Season && job.payload.parent.Some? {
      var p := job.payload.parent.value;
      assert FollowedJob(jobs, family, jobs[p]) && Reached(round - 1, jobs[p]);
    }
    if job.kind == Season && Unfinished(jobs, job) {
      var child :| child in job.payload.episodes && child.item in jobs && jobs[child.item].stage != Complete;
      assert ChildIntact(jobs, child) && Reached(round - 1, jobs[child.item]);
      assert FollowedJob(jobs, family, jobs[child.item]);
    }
  }

  lemma SettledStaysFollowed(s: State, family: set<ItemId>, item: ItemId, v: Verdict)
    requires Followed(s.jobs, family) && item in family && (v == Finished || v.Retries?)
    requires v.Retries? ==> s.jobs[item].stage != Complete
    ensures item in s.jobs && Followed(Settled(s, item, v).jobs, family)
    ensures Settled(s, item, v).jobs[item].stage == s.jobs[item].stage
    ensures v.Retries? ==> Settled(s, item, v).jobs[item].updated == v.at
  {
    assert FollowedJob(s.jobs, family, s.jobs[item]);
    if v.Retries? {
      var job := Settled(s, item, v).jobs[item];
      assert Settled(s, item, v).jobs == s.jobs[item := job];
      StepStaysFollowed(s.jobs, family, item, job);
    }
  }

  // ---- Anybody else's attempt ----

  /** However an attempt goes, it stamps its job with times of the period, and ends it or puts it behind. */
  lemma {:induction false} DrivenStamps(s: State, item: ItemId, outcomes: seq<Outcome>, since: int, until: int)
    requires item in s.jobs && Stamped(outcomes, since, until)
    ensures var (after, verdict) := Driven(s, item, outcomes);
      && item in after.jobs
      && (after.jobs[item].updated == s.jobs[item].updated || since <= after.jobs[item].updated < until)
      && (verdict.Finished? ==> after.jobs[item].stage == Complete)
      && (verdict.Blocks? || verdict.Retries? ==> since <= verdict.at < until)
    decreases |outcomes|
  {
    if outcomes != [] {
      hide StageGate;
      var o, job := outcomes[0], s.jobs[item];
      assert o in outcomes;
      if Following(job.kind, job.stage).Some? && StageGate(s.jobs, job) == Open && o.ending == Succeeded {
        var to, acted := Following(job.kind, job.stage).value, Acted(s, item, o);
        var stepped := acted.(jobs := StageSet(acted.jobs, item, to, None, o.at));
        DrivenStamps(stepped, item, outcomes[1..], since, until);
      }
    }
  }

  lemma AttemptStamps(s: State, item: ItemId, outcomes: seq<Outcome>, since: int, until: int)
    requires item in s.jobs && Stamped(outcomes, since, until)
    ensures item in RunOnce(s, item, outcomes).jobs
    ensures var after := RunOnce(s, item, outcomes).jobs[item];
      && (after.Resumable() ==> after.updated == s.jobs[item].updated || since <= after.updated < until)
      && (after.Resumable() && !Processed(s, item, outcomes).1.Dies? ==> since <= after.updated < until)
  {
    hide Driven, ParentGate;
    DrivenKeepsItem(s, item, outcomes);
    DrivenStamps(s, item, outcomes, since, until);
    assert outcomes != [] ==> outcomes[0] in outcomes;
  }

  lemma OtherAttempt(s: State, family: set<ItemId>, item: ItemId, outcomes: seq<Outcome>, since: int, until: int)
    requires Followed(s.jobs, family) && item in s.jobs && item !in family && Stamped(outcomes, since, until)
    ensures var after := RunOnce(s, item, outcomes);
      && OthersSame(s.jobs, after.jobs, item) && Followed(after.jobs, family)
      && (after.jobs[item].Resumable() ==>
            after.jobs[item].updated == s.jobs[item].updated || since <= after.jobs[item].updated < until)
      && (after.jobs[item].Resumable() && !Processed(s, item, outcomes).1.Dies? ==>
            since <= after.jobs[item].updated < until)
  {
    hide RunOnce, Processed, Followed;
    var after := RunOnce(s, item, outcomes);
    AttemptChangesOne(s, item, outcomes);
    AttemptStamps(s, item, outcomes, since, until);
    assert after.jobs == s.jobs[item := after.jobs[item]];
    StepStaysFollowed(s.jobs, family, item, after.jobs[item]);
  }

  // ---- One action of a round ----

  predicate Lags(job: Job, since: int) {
    job.Resumable() && job.updated < since
  }

  function Lagging(jobs: Jobs, since: int): set<ItemId> {
    set item | item in jobs && Lags(jobs[item], since)
  }

  function Resumables(jobs: Jobs): set<ItemId> {
    set item | item in jobs && jobs[item].Resumable()
  }

  ghost predicate Current(jobs: Jobs, until: int) {
    forall item | item in jobs && jobs[item].Resumable() :: jobs[item].updated < until
  }

  /** A followed job that was attended to in the round has come as far as the round takes it. */
  ghost predicate CaughtUp(round: nat, jobs: Jobs, family: set<ItemId>, since: int) {
    forall item | item in family && item in jobs && !Lags(jobs[item], since) :: Reached(round, jobs[item])
  }

  /** Where the jobs stand in the middle of a round. */
  ghost predicate Standing(round: nat, jobs: Jobs, family: set<ItemId>, since: int, until: int) {
    && 1 <= round <= 3 && Followed(jobs, family) && AllReached(round - 1, jobs, family)
    && Current(jobs, until) && CaughtUp(round, jobs, family, since)
  }

  /** All times are of the round, and attempts at followed jobs are helpful; captures and other attempts are free. */
  ghost predicate Helped(s: State, family: set<ItemId>, a: Action, since: int, until: int) {
    match a
    case Capture(_, _, _, now) => since <= now < until
    case CaptureSeason(_, _, now) => since <= now < until
    case Attend(outcomes) =>
      Stamped(outcomes, since, until) && forall item | item in family && IsNext(s.jobs, item) :: Helpful(outcomes)
  }

  /** The process survives the attempt. */
  ghost predicate Ends(s: State, a: Action) {
    a.Attend? && forall item | IsNext(s.jobs, item) :: !Processed(s, item, a.outcomes).1.Dies?
  }

  lemma ReachedBefore(round: nat, job: Job)
    requires 1 <= round <= 3
    ensures Reached(round, job) ==> Reached(round - 1, job)
  {
  }

  /** Attending to the next job, which lags if any does, takes it out of those that lag, if the attempt ends. */
  lemma OneCatchesUp(round: nat, jobs: Jobs, after: Jobs, family: set<ItemId>, item: ItemId, since: int, until: int)
    requires Standing(round, jobs, family, since, until) && Followed(after, family) && since <= until
    requires IsNext(jobs, item) && OthersSame(jobs, after, item)
    requires item in family ==> Reached(round, after[item])
    requires after[item].Resumable() ==>
               after[item].updated == jobs[item].updated || since <= after[item].updated < until
    ensures Standing(round, after, family, since, until) && Lagging(after, since) <= Lagging(jobs, since)
    ensures !Lags(after[item], since) && Lagging(jobs, since) != {} ==>
              item in Lagging(jobs, since) && Lagging(after, since) == Lagging(jobs, since) - {item}
  {
    hide Reached, Followed, IsNext;
    NextIsEarliest(jobs, item);
    ReachedBefore(round, after[item]);
  }

  lemma NextIsEarliest(jobs: Jobs, item: ItemId)
    requires IsNext(jobs, item)
    ensures item in jobs && jobs[item].Resumable()
    ensures forall k | k in jobs && jobs[k].Resumable() :: jobs[item].updated <= jobs[k].updated
  {
    forall k | k in jobs && jobs[k].Resumable() && k != item ensures jobs[item].updated <= jobs[k].updated {
      assert Precedes(jobs[item], jobs[k]);
    }
  }

  lemma AttendingCatchesUp(round: nat, s: State, family: set<ItemId>, outcomes: seq<Outcome>, since: int, until: int)
    requires Standing(round, s.jobs, family, since, until) && since <= until
    requires Helped(s, family, Attend(outcomes), since, until)
    ensures var after := Act(s, Attend(outcomes));
      && Standing(round, after.jobs, family, since, until) && Lagging(after.jobs, since) <= Lagging(s.jobs, since)
      && (Ends(s, Attend(outcomes)) && Lagging(s.jobs, since) != {} ==>
            Lagging(after.jobs, since) < Lagging(s.jobs, since))
  {
    hide RunOnce, Processed, Helpful, Stamped, Followed, AllReached, Reached, Current, CaughtUp, RowsNumbered;
    if exists item :: IsNext(s.jobs, item) {
      var item :| IsNext(s.jobs, item);
      forall other | IsNext(s.jobs, other) ensures other == item { NextIsUnique(s.jobs, item, other); }
      var after := RunOnce(s, item, outcomes);
      if item in family {
        HelpedAttempt(round, s, family, item, outcomes, since, until);
      } else {
        OtherAttempt(s, family, item, outcomes, since, until);
      }
      OneCatchesUp(round, s.jobs, after.jobs, family, item, since, until);
    } else {
      NoneLags(s.jobs, family, since);
    }
  }

  lemma NoneLags(jobs: Jobs, family: set<ItemId>, since: int)
    requires Followed(jobs, family) && !exists item :: IsNext(jobs, item)
    ensures Lagging(jobs, since) == {}
  {
    if Lagging(jobs, since) != {} {
      var lagging :| lagging in Lagging(jobs, since);
      assert jobs[lagging].Resumable();
      var next := NextExists(jobs);
    }
  }

  /** A captured season or item stays followed through whatever else is captured. */
  lemma FollowedThroughCaptures(jobs: Jobs, after: Jobs, family: set<ItemId>)
    requires Followed(jobs, family) && JobsGrow(jobs, after) && RowsNumbered(after)
    ensures Followed(after, family)
  {
    hide RowsNumbered;
    forall item | item in family ensures FollowedJob(after, family, after[item]) {
      assert FollowedJob(jobs, family, jobs[item]);
    }
  }

  /** Whatever is captured meanwhile stands behind those that lag, and changes nothing for the jobs followed. */
  lemma GrowthCatchesUp(round: nat, jobs: Jobs, after: Jobs, family: set<ItemId>, since: int, until: int)
    requires Standing(round, jobs, family, since, until) && JobsGrow(jobs, after) && RowsNumbered(after)
    requires forall item | item in after && item !in jobs :: since <= after[item].updated < until
    ensures Standing(round, after, family, since, until) && Lagging(after, since) == Lagging(jobs, since)
  {
    hide Reached, Followed, RowsNumbered;
    FollowedThroughCaptures(jobs, after, family);
    FollowedAreThere(jobs, family);
  }

  lemma FollowedAreThere(jobs: Jobs, family: set<ItemId>)
    requires Followed(jobs, family)
    ensures family <= jobs.Keys
  {
  }

  lemma {:induction false} NewcomersAreStamped(jobs: Jobs, children: seq<Child>, now: int)
    ensures forall item | item in WithChildren(jobs, children, now) && item !in jobs ::
              WithChildren(jobs, children, now)[item].updated == now
    ensures forall item | item in jobs ::
              item in WithChildren(jobs, children, now) && WithChildren(jobs, children, now)[item] == jobs[item]
    decreases |children|
  {
    if children != [] {
      NewcomersAreStamped(Enqueued(jobs, children[0].item, EpisodeItem, children[0].payload, now), children[1..], now);
    }
  }

  lemma CaptureCatchesUp(round: nat, s: State, family: set<ItemId>, a: Action, since: int, until: int)
    requires Standing(round, s.jobs, family, since, until) && !a.Attend? && Helped(s, family, a, since, until)
    ensures var after := Act(s, a);
      Standing(round, after.jobs, family, since, until) && Lagging(after.jobs, since) == Lagging(s.jobs, since)
  {
    hide Followed, AllReached, Current, CaughtUp, Lagging, RowsNumbered;
    FollowedAreNumbered(s.jobs, family);
    CaptureGrows(s, a);
    GrowthCatchesUp(round, s.jobs, Act(s, a).jobs, family, since, until);
  }

  lemma CaptureGrows(s: State, a: Action)
    requires RowsNumbered(s.jobs) && !a.Attend?
    ensures var after := Act(s, a).jobs;
      && JobsGrow(s.jobs, after) && RowsNumbered(after)
      && (forall item | item in after && item !in s.jobs :: after[item].updated == a.now)
  {
    hide RowsNumbered, WithChildren, ChildrenFit;
    if a.Capture? {
      EnqueuingGrows(s.jobs, a.item, a.kind, a.payload, a.now);
    } else if a.item !in s.jobs && SeasonEnqueued(s.jobs, a.item, a.payload, a.now).Some? {
      hide SeasonEnqueued;
      SeasonGrows(s.jobs, a.item, a.payload, a.now);
    }
  }

  lemma FollowedAreNumbered(jobs: Jobs, family: set<ItemId>)
    requires Followed(jobs, family)
    ensures RowsNumbered(jobs)
  {
  }

  lemma SeasonGrows(jobs: Jobs, season: ItemId, payload: Payload, now: int)
    requires RowsNumbered(jobs) && season !in jobs && SeasonEnqueued(jobs, season, payload, now).Some?
    ensures var after := SeasonEnqueued(jobs, season, payload, now).value;
      && JobsGrow(jobs, after) && RowsNumbered(after)
      && (forall item | item in after && item !in jobs :: after[item].updated == now)
  {
    hide RowsNumbered, WithChildren, ChildrenFit;
    var seated := Enqueued(jobs, season, Season, payload, now);
    EnqueuingGrows(jobs, season, Season, payload, now);
    ChildrenFitStill(jobs, season, payload.episodes, {season}, season, seated[season]);
    ChildrenArrive(seated, season, payload.episodes, {season}, now);
    NewcomersAreStamped(seated, payload.episodes, now);
    GrowthChains(jobs, seated, WithChildren(seated, payload.episodes, now));
  }

  // ---- Whole rounds ----

  /** Every action of the round is as `Helped` asks where it happens. */
  ghost predicate AllHelped(s: State, family: set<ItemId>, actions: seq<Action>, since: int, until: int)
    decreases |actions|
  {
    actions == [] ||
    (Helped(s, family, actions[0], since, until) && AllHelped(Act(s, actions[0]), family, actions[1..], since, until))
  }

  /** How many attempts the process survived. */
  ghost function Ended(s: State, actions: seq<Action>): nat
    decreases |actions|
  {
    if actions == [] then 0 else (if Ends(s, actions[0]) then 1 else 0) + Ended(Act(s, actions[0]), actions[1..])
  }

  /** As many attempts end as there were jobs to resume. */
  ghost predicate Round(s: State, family: set<ItemId>, actions: seq<Action>, since: int, until: int) {
    since <= until && AllHelped(s, family, actions, since, until) && Ended(s, actions) >= |Resumables(s.jobs)|
  }

  lemma ActionCatchesUp(round: nat, s: State, family: set<ItemId>, a: Action, since: int, until: int)
    requires Standing(round, s.jobs, family, since, until) && since <= until && Helped(s, family, a, since, until)
    ensures var after := Act(s, a);
      && Standing(round, after.jobs, family, since, until)
      && |Lagging(after.jobs, since)| <= |Lagging(s.jobs, since)|
      && (Ends(s, a) && Lagging(s.jobs, since) != {} ==> |Lagging(after.jobs, since)| < |Lagging(s.jobs, since)|)
  {
    hide Standing, Lagging, Helped, Ends, Act;
    if a.Attend? {
      AttendingCatchesUp(round, s, family, a.outcomes, since, until);
      DeletionSets.SubsetSize(Lagging(Act(s, a).jobs, since), Lagging(s.jobs, since));
      if Lagging(Act(s, a).jobs, since) < Lagging(s.jobs, since) {
        DeletionSets.ProperSubsetSize(Lagging(Act(s, a).jobs, since), Lagging(s.jobs, since));
      }
    } else {
      CaptureCatchesUp(round, s, family, a, since, until);
      OnlyAttemptsEnd(s, a);
    }
  }

  lemma OnlyAttemptsEnd(s: State, a: Action)
    ensures Ends(s, a) ==> a.Attend?
  {
  }

  lemma {:induction false} RoundReaches(round: nat, s: State, family: set<ItemId>, actions: seq<Action>, since: int,
                                        until: int)
    requires Standing(round, s.jobs, family, since, until) && since <= until
    requires AllHelped(s, family, actions, since, until) && |Lagging(s.jobs, since)| <= Ended(s, actions)
    ensures var after := Run(s, actions);
      Followed(after.jobs, family) && AllReached(round, after.jobs, family) && Current(after.jobs, until)
    decreases |actions|
  {
    if actions == [] {
      hide Reached;
      forall item | item in family ensures item in s.jobs && Reached(round, s.jobs[item]) {
        assert Lags(s.jobs[item], since) ==> item in Lagging(s.jobs, since);
      }
    } else {
      hide Standing, Lagging, Helped, Ends, Act, Followed, AllReached, Current;
      ActionCatchesUp(round, s, family, actions[0], since, until);
      RoundReaches(round, Act(s, actions[0]), family, actions[1..], since, until);
    }
  }

  /** A round in which no resumable job has been attended to yet. */
  lemma RoundFromStart(round: nat, s: State, family: set<ItemId>, actions: seq<Action>, since: int, until: int)
    requires 1 <= round <= 3 && Followed(s.jobs, family) && AllReached(round - 1, s.jobs, family)
    requires Current(s.jobs, since) && Round(s, family, actions, since, until)
    ensures var after := Run(s, actions);
      Followed(after.jobs, family) && AllReached(round, after.jobs, family) && Current(after.jobs, until)
  {
    StandsAtStart(round, s.jobs, family, since, until);
    hide Standing, Lagging, Resumables, Followed, AllReached, Current, Run, AllHelped, Ended;
    DeletionSets.SubsetSize(Lagging(s.jobs, since), Resumables(s.jobs));
    RoundReaches(round, s, family, actions, since, until);
  }

  lemma StandsAtStart(round: nat, jobs: Jobs, family: set<ItemId>, since: int, until: int)
    requires 1 <= round <= 3 && Followed(jobs, family) && AllReached(round - 1, jobs, family)
    requires Current(jobs, since) && since <= until
    ensures Standing(round, jobs, family, since, until) && Lagging(jobs, since) <= Resumables(jobs)
  {
    hide Followed;
  }

  lemma {:induction false} RunsJoin(s: State, first: seq<Action>, second: seq<Action>)
    ensures Run(s, first + second) == Run(Run(s, first), second)
    decreases |first|
  {
    hide Act;
    if first == [] {
      assert first + second == second;
    } else {
      assert (first + second)[1..] == first[1..] + second;
      RunsJoin(Act(s, first[0]), first[1..], second);
    }
  }

  /**
   Three rounds in which the services help the followed jobs delete them all: first the seasons pass
   their preflight, then the children finish, then the seasons. Meanwhile anything may be captured,
   and any other job may be blocked, fail, retry or die with the process.
   */
  lemma FollowedAreDeleted(s: State, family: set<ItemId>, first: seq<Action>, second: seq<Action>, third: seq<Action>,
                           t1: int, t2: int, t3: int, t4: int)
    requires Followed(s.jobs, family) && Current(s.jobs, t1)
    requires Round(s, family, first, t1, t2)
    requires Round(Run(s, first), family, second, t2, t3)
    requires Round(Run(Run(s, first), second), family, third, t3, t4)
    ensures forall item | item in family ::
              var after := Run(s, first + second + third); item in after.jobs && after.jobs[item].stage == Complete
  {
    hide *;
    NothingAsked(s.jobs, family);
    RoundFromStart(1, s, family, first, t1, t2);
    var s1 := Run(s, first);
    RoundFromStart(2, s1, family, second, t2, t3);
    var s2 := Run(s1, second);
    RoundFromStart(3, s2, family, third, t3, t4);
    RunsJoin(s, first, second);
    RunsJoin(s, first + second, third);
    AllComplete(Run(s2, third).jobs, family);
  }

  lemma NothingAsked(jobs: Jobs, family: set<ItemId>)
    requires Followed(jobs, family)
    ensures AllReached(0, jobs, family)
  {
  }

  lemma AllComplete(jobs: Jobs, family: set<ItemId>)
    requires Followed(jobs, family) && AllReached(3, jobs, family)
    ensures forall item | item in family :: item in jobs && jobs[item].stage == Complete
  {
    forall item | item in family ensures item in jobs && jobs[item].stage == Complete {
      assert FollowedJob(jobs, family, jobs[item]) && Reached(3, jobs[item]);
    }
  }

  // ---- Attempts only, one after the other ----

  /** One `run_once` in which everything cooperates, within its own period. */
  datatype Help = Help(from: int, to: int, outcomes: seq<Outcome>)

  function Attending(helps: seq<Help>): seq<Action> {
    seq(|helps|, i requires 0 <= i < |helps| => Attend(helps[i].outcomes))
  }

  predicate Cooperates(h: Help) {
    h.from <= h.to && Helpful(h.outcomes) && Stamped(h.outcomes, h.from, h.to)
  }

  ghost predicate HelpsWithin(helps: seq<Help>, since: int, until: int) {
    forall h | h in helps :: Cooperates(h) && since <= h.from && h.to <= until
  }

  /** The jobs that are not followed stay as they are, since none of them is resumed. */
  ghost predicate OthersIdle(jobs: Jobs, after: Jobs, family: set<ItemId>) {
    after.Keys == jobs.Keys &&
    forall item | item in jobs && item !in family :: !jobs[item].Resumable() && after[item] == jobs[item]
  }

  lemma HelpIsATurn(round: nat, s: State, family: set<ItemId>, h: Help, since: int, until: int)
    requires Standing(round, s.jobs, family, since, until) && OthersIdle(s.jobs, s.jobs, family)
    requires Cooperates(h) && since <= h.from && h.to <= until
    ensures Helped(s, family, Attend(h.outcomes), since, until) && Ends(s, Attend(h.outcomes))
    ensures OthersIdle(s.jobs, Act(s, Attend(h.outcomes)).jobs, family)
  {
    hide RunOnce, Processed, Helpful, Followed, AllReached, Reached, Current, CaughtUp;
    if exists item :: IsNext(s.jobs, item) {
      var item :| IsNext(s.jobs, item);
      forall other | IsNext(s.jobs, other) ensures other == item { NextIsUnique(s.jobs, item, other); }
      HelpedAttempt(round, s, family, item, h.outcomes, since, until);
    }
  }

  lemma {:induction false} HelpsAreARound(round: nat, s: State, family: set<ItemId>, helps: seq<Help>, since: int,
                                          until: int)
    requires Standing(round, s.jobs, family, since, until) && OthersIdle(s.jobs, s.jobs, family) && since <= until
    requires HelpsWithin(helps, since, until)
    ensures AllHelped(s, family, Attending(helps), since, until) && Ended(s, Attending(helps)) == |helps|
    ensures OthersIdle(s.jobs, Run(s, Attending(helps)).jobs, family)
    decreases |helps|
  {
    hide Standing, Helped, Ends, Act, Cooperates;
    if helps != [] {
      var next := Act(s, Attend(helps[0].outcomes));
      assert helps[0] in helps && Attending(helps)[0] == Attend(helps[0].outcomes);
      assert Attending(helps)[1..] == Attending(helps[1..]);
      HelpIsATurn(round, s, family, helps[0], since, until);
      ActionCatchesUp(round, s, family, Attend(helps[0].outcomes), since, until);
      HelpsAreARound(round, next, family, helps[1..], since, until);
    }
  }

  lemma HelpedRound(round: nat, s: State, family: set<ItemId>, helps: seq<Help>, since: int, until: int)
    requires 1 <= round <= 3 && Followed(s.jobs, family) && AllReached(round - 1, s.jobs, family)
    requires Current(s.jobs, since) && since <= until && OthersIdle(s.jobs, s.jobs, family)
    requires HelpsWithin(helps, since, until) && |helps| >= |s.jobs|
    ensures Round(s, family, Attending(helps), since, until)
    ensures var after := Run(s, Attending(helps));
      && Followed(after.jobs, family) && AllReached(round, after.jobs, family) && Current(after.jobs, until)
      && OthersIdle(s.jobs, after.jobs, family)
  {
    StandsAtStart(round, s.jobs, family, since, until);
    assert Resumables(s.jobs) <= s.jobs.Keys;
    hide Standing, Resumables, Followed, AllReached, Current, Run, AllHelped, Ended, HelpsWithin, OthersIdle;
    DeletionSets.SubsetSize(Resumables(s.jobs), s.jobs.Keys);
    HelpsAreARound(round, s, family, helps, since, until);
    RoundFromStart(round, s, family, Attending(helps), since, until);
  }

  function Unblocked(jobs: Jobs): set<ItemId> {
    set item | item in jobs && jobs[item].stage != Blocked
  }

  /** No job that may still be resumed belongs to a family with a blocked or missing member. */
  ghost predicate Healthy(jobs: Jobs) {
    Followed(jobs, Unblocked(jobs))
  }

  lemma IdleChains(a: Jobs, b: Jobs, c: Jobs, family: set<ItemId>)
    requires OthersIdle(a, b, family)
    ensures OthersIdle(b, b, family) && |b| == |a| && (OthersIdle(b, c, family) ==> OthersIdle(a, c, family))
  {
    DeletionSets.SameSize(a, b);
  }

  lemma BlockedAreIdle(jobs: Jobs)
    ensures OthersIdle(jobs, jobs, Unblocked(jobs))
  {
  }

  /** While the services cooperate, three attempts per job complete every job not blocked, and touch no other. */
  lemma EverythingIsDeleted(s: State, helps: seq<Help>)
    requires Healthy(s.jobs) && |helps| == 3 * |s.jobs|
    requires forall h | h in helps :: Cooperates(h)
    requires forall i, j | 0 <= i < j < |helps| :: helps[i].to <= helps[j].from
    requires helps != [] ==> Current(s.jobs, helps[0].from)
    ensures Run(s, Attending(helps)).jobs.Keys == s.jobs.Keys
    ensures forall item | item in s.jobs ::
              var after := Run(s, Attending(helps)).jobs[item];
              if s.jobs[item].stage == Blocked then after == s.jobs[item] else after.stage == Complete
  {
    var n, family := |s.jobs|, Unblocked(s.jobs);
    BlockedAreIdle(s.jobs);
    if n == 0 {
      assert s.jobs.Keys == {};
      NoActions(s, helps);
    } else {
      ThreeSlices(s, family, helps, n);
      assert forall item | item in s.jobs && s.jobs[item].stage == Blocked :: item !in family;
    }
  }

  lemma ThreeSlices(s: State, family: set<ItemId>, helps: seq<Help>, n: nat)
    requires Followed(s.jobs, family) && OthersIdle(s.jobs, s.jobs, family) && n == |s.jobs| > 0 && |helps| == 3 * n
    requires forall h | h in helps :: Cooperates(h)
    requires forall i, j | 0 <= i < j < |helps| :: helps[i].to <= helps[j].from
    requires Current(s.jobs, helps[0].from)
    ensures var after := Run(s, Attending(helps)).jobs;
      && OthersIdle(s.jobs, after, family)
      && forall item | item in family :: item in after && after[item].stage == Complete
  {
    hide *;
    var first, second, third := helps[..n], helps[n..][..n], helps[n..][n..];
    var t1, t2, t3, t4 := helps[0].from, helps[n].from, helps[2 * n].from, helps[3 * n - 1].to;
    SlicesInTime(helps, n);
    NothingAsked(s.jobs, family);
    HelpedRound(1, s, family, first, t1, t2);
    var s1 := Run(s, Attending(first));
    IdleChains(s.jobs, s1.jobs, s1.jobs, family);
    HelpedRound(2, s1, family, second, t2, t3);
    var s2 := Run(s1, Attending(second));
    IdleChains(s.jobs, s1.jobs, s2.jobs, family);
    IdleChains(s.jobs, s2.jobs, s2.jobs, family);
    HelpedRound(3, s2, family, third, t3, t4);
    var s3 := Run(s2, Attending(third));
    IdleChains(s.jobs, s2.jobs, s3.jobs, family);
    AllComplete(s3.jobs, family);
    HelpsJoin(s, helps, n);
    HelpsJoin(s1, helps[n..], n);
  }

  lemma HelpsJoin(s: State, helps: seq<Help>, k: nat)
    requires k <= |helps|
    ensures Run(s, Attending(helps)) == Run(Run(s, Attending(helps[..k])), Attending(helps[k..]))
  {
    assert Attending(helps) == Attending(helps[..k]) + Attending(helps[k..]);
    RunsJoin(s, Attending(helps[..k]), Attending(helps[k..]));
  }

  lemma SlicesInTime(helps: seq<Help>, n: nat)
    requires n > 0 && |helps| == 3 * n && forall h | h in helps :: Cooperates(h)
    requires forall i, j | 0 <= i < j < |helps| :: helps[i].to <= helps[j].from
    ensures HelpsWithin(helps[..n], helps[0].from, helps[n].from)
    ensures HelpsWithin(helps[n..][..n], helps[n].from, helps[2 * n].from)
    ensures HelpsWithin(helps[n..][n..], helps[2 * n].from, helps[3 * n - 1].to)
    ensures helps[0].from <= helps[n].from <= helps[2 * n].from <= helps[3 * n - 1].to
  {
    InOrder(helps);
    hide HelpsWithin, Cooperates;
    SliceInTime(helps, 0, n, helps[n].from);
    SliceInTime(helps, n, 2 * n, helps[2 * n].from);
    SliceInTime(helps, 2 * n, 3 * n, helps[3 * n - 1].to);
    SliceTwice(helps, n);
  }

  lemma InOrder(helps: seq<Help>)
    requires forall h | h in helps :: Cooperates(h)
    requires forall i, j | 0 <= i < j < |helps| :: helps[i].to <= helps[j].from
    ensures forall i, j | 0 <= i <= j < |helps| :: helps[i].from <= helps[j].from && helps[i].to <= helps[j].to
    ensures forall i | 0 <= i < |helps| :: helps[i].from <= helps[i].to
  {
    forall i | 0 <= i < |helps| ensures helps[i].from <= helps[i].to {
      assert Cooperates(helps[i]);
    }
  }

  lemma SliceTwice(helps: seq<Help>, n: nat)
    requires |helps| == 3 * n
    ensures helps[..n] == helps[0..n] && helps[n..][..n] == helps[n..2 * n] && helps[n..][n..] == helps[2 * n..3 * n]
  {
  }

  lemma SliceInTime(helps: seq<Help>, i: nat, j: nat, until: int)
    requires i < j <= |helps| && forall h | h in helps :: Cooperates(h)
    requires forall k, l | 0 <= k <= l < |helps| :: helps[k].from <= helps[l].from && helps[k].to <= helps[l].to
    requires helps[j - 1].to <= until
    ensures HelpsWithin(helps[i..j], helps[i].from, until)
  {
    hide Cooperates;
    forall h | h in helps[i..j] ensures h in helps && helps[i].from <= h.from && h.to <= until {
      var k :| i <= k < j && helps[k] == h;
    }
  }

  lemma NoActions(s: State, helps: seq<Help>)
    requires helps == []
    ensures Run(s, Attending(helps)) == s
  {
    assert Attending(helps) == [];
  }

  // ---- What has been captured is followed ----

  function Members(season: ItemId, payload: Payload): set<ItemId> {
    {season} + set child | child in payload.episodes :: child.item
  }

  lemma {:induction false} ChildrenAreResumable(jobs: Jobs, season: ItemId, children: seq<Child>, seen: set<ItemId>,
                                                now: int)
    requires ChildrenFit(jobs, season, children, seen)
    ensures forall child | child in children ::
              var after := WithChildren(jobs, children, now); child.item in after && after[child.item].Resumable()
    decreases |children|
  {
    if children != [] {
      var first, rest := children[0], children[1..];
      var next := Enqueued(jobs, first.item, EpisodeItem, first.payload, now);
      if first.item !in jobs {
        ChildrenFitStill(jobs, season, rest, seen + {first.item}, first.item, next[first.item]);
      }
      ChildrenAreResumable(next, season, rest, seen + {first.item}, now);
      NewcomersAreStamped(next, rest, now);
      assert forall child | child in children :: child == first || child in rest;
    }
  }

  /** Into whatever store a season is captured, it is followed with its children from then on. */
  lemma CapturedSeasonIsFollowed(jobs: Jobs, season: ItemId, payload: Payload, now: int)
    requires RowsNumbered(jobs) && season !in jobs && SeasonEnqueued(jobs, season, payload, now).Some?
    ensures Followed(SeasonEnqueued(jobs, season, payload, now).value, Members(season, payload))
  {
    SeasonGrows(jobs, season, payload, now);
    hide RowsNumbered, WithChildren, ChildrenFit;
    var seated := Enqueued(jobs, season, Season, payload, now);
    EnqueuingGrows(jobs, season, Season, payload, now);
    ChildrenFitStill(jobs, season, payload.episodes, {season}, season, seated[season]);
    ChildrenArrive(seated, season, payload.episodes, {season}, now);
    ChildrenAreResumable(seated, season, payload.episodes, {season}, now);
    FamilyIsFollowed(WithChildren(seated, payload.episodes, now), season, payload);
  }

  lemma FamilyIsFollowed(jobs: Jobs, season: ItemId, payload: Payload)
    requires RowsNumbered(jobs) && season in jobs && jobs[season].kind == Season && jobs[season].stage == Queued
    requires jobs[season].payload == payload
    requires forall child | child in payload.episodes ::
               ChildIntact(jobs, child) && child.payload.parent == Some(season) && jobs[child.item].Resumable()
    ensures Followed(jobs, Members(season, payload))
  {
    hide RowsNumbered;
    var family := Members(season, payload);
    forall item | item in family ensures item in jobs && FollowedJob(jobs, family, jobs[item]) {
      if item != season {
        var child :| child in payload.episodes && child.item == item;
        assert ChildIntact(jobs, child);
      }
    }
  }

  /** In a store whose resumable families are whole, capturing a season leaves them so, the new one included. */
  lemma CapturedSeasonStaysHealthy(jobs: Jobs, season: ItemId, payload: Payload, now: int)
    requires Healthy(jobs) && season !in jobs && SeasonEnqueued(jobs, season, payload, now).Some?
    ensures Healthy(SeasonEnqueued(jobs, season, payload, now).value)
  {
    hide Followed, RowsNumbered, WithChildren, ChildrenFit;
    var after := SeasonEnqueued(jobs, season, payload, now).value;
    FollowedAreNumbered(jobs, Unblocked(jobs));
    SeasonGrows(jobs, season, payload, now);
    CapturedSeasonIsFollowed(jobs, season, payload, now);
    ChildrenAreAdded(Enqueued(jobs, season, Season, payload, now), payload.episodes, now);
    FollowedThroughCaptures(jobs, after, Unblocked(jobs));
    FollowedTogether(after, Unblocked(jobs), Members(season, payload));
    FollowedAreUnblocked(after, Members(season, payload));
    assert Unblocked(after) == Unblocked(jobs) + Members(season, payload);
  }

  lemma FollowedAreUnblocked(jobs: Jobs, family: set<ItemId>)
    requires Followed(jobs, family)
    ensures family <= Unblocked(jobs)
  {
    forall item | item in family ensures item in Unblocked(jobs) { assert FollowedJob(jobs, family, jobs[item]); }
  }

  /** A movie, or an episode of no captured season, is followed once captured. */
  lemma CapturedItemIsFollowed(jobs: Jobs, item: ItemId, kind: Kind, payload: Payload, now: int)
    requires RowsNumbered(jobs) && item !in jobs && kind != Season && payload.parent.None?
    ensures Followed(Enqueued(jobs, item, kind, payload, now), {item})
  {
    EnqueuingGrows(jobs, item, kind, payload, now);
    hide RowsNumbered;
  }

  /** Families may be followed together. */
  lemma FollowedTogether(jobs: Jobs, a: set<ItemId>, b: set<ItemId>)
    requires Followed(jobs, a) && Followed(jobs, b)
    ensures Followed(jobs, a + b)
  {
    hide RowsNumbered;
    forall item | item in a + b ensures FollowedJob(jobs, a + b, jobs[item]) {
      if item in a {
        assert FollowedJob(jobs, a, jobs[item]);
      } else {
        assert FollowedJob(jobs, b, jobs[item]);
      }
    }
  }
}

module DeletionSets {

  lemma SubsetSize<T>(s: set<T>, t: set<T>)
    requires s <= t
    ensures |s| <= |t|
  {
    assert t == s + (t - s);
  }

  lemma ProperSubsetSize<T>(s: set<T>, t: set<T>)
    requires s < t
    ensures |s| < |t|
  {
    assert t == s + (t - s) && t - s != {};
  }

  lemma SameSize<K, V>(m: map<K, V>, n: map<K, V>)
    requires m.Keys == n.Keys
    ensures |m| == |n|
  {
    assert |m| == |m.Keys| && |n| == |n.Keys|;
  }
}
