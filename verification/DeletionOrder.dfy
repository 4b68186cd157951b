/** In which order a deletion can do things, over every run with failures, lost replies and crashes. */
module DeletionOrder {
  import opened Options
  import opened DeletionJobs

  /** Does a job of this kind go through `earlier` on its way to `later`? */
  predicate Before(kind: Kind, earlier: Stage, later: Stage) {
    Rank(earlier) < Rank(later) && Following(kind, earlier).Some?
  }

  /** What must be in the past for an event to follow it. */
  ghost predicate Allowed(jobs: Jobs, past: seq<Event>, e: Event) {
    && e.item in jobs
    && var job := jobs[e.item];
    && Following(job.kind, e.stage).Some?
    && (forall s | Before(job.kind, s, e.stage) :: Confirmed(e.item, s) in past)
    && (job.kind != Season && job.payload.parent.Some? ==> Confirmed(job.payload.parent.value, Validated) in past)
    && (e.Attempt? && Rank(e.stage) >= Rank(Tombstoned) ==> job.payload.key in e.tombstones)
    && (job.kind == Season && e.stage == Tombstoned ==>
          forall child | child in job.payload.episodes :: Confirmed(child.item, JellyfinRemoved) in past)
  }

  ghost predicate LogOrdered(jobs: Jobs, log: seq<Event>) {
    forall j | 0 <= j < |log| :: Allowed(jobs, log[..j], log[j])
  }

  /** Every season's children are jobs, exactly as captured with it. */
  ghost predicate FamiliesIntact(jobs: Jobs) {
    forall p | p in jobs && jobs[p].kind == Season ::
      forall child | child in jobs[p].payload.episodes :: ChildIntact(jobs, child) && child.payload.parent == Some(p)
  }

  /** A stage reached is a stage whose predecessors were all confirmed. */
  ghost predicate StagesLogged(jobs: Jobs, log: seq<Event>) {
    forall item | item in jobs && jobs[item].stage != Blocked ::
      forall s | Before(jobs[item].kind, s, jobs[item].stage) :: Confirmed(item, s) in log
  }

  ghost predicate TombstonesWritten(s: State) {
    forall item | item in s.jobs && Confirmed(item, Validated) in s.log :: s.jobs[item].payload.key in s.tombstones
  }

  ghost predicate Orderly(s: State) {
    && RowsNumbered(s.jobs)
    && FamiliesIntact(s.jobs)
    && StagesLogged(s.jobs, s.log)
    && TombstonesWritten(s)
    && LogOrdered(s.jobs, s.log)
  }

  // ---- How jobs evolve ----

  predicate SameCapture(a: Job, b: Job) {
    a.kind == b.kind && a.payload == b.payload && a.created == b.created && a.rowid == b.rowid
  }

  /** Stages only rise, and complete and blocked jobs stay what they are. */
  predicate JobEvolves(a: Job, b: Job) {
    && SameCapture(a, b)
    && (b.stage == a.stage || Rank(a.stage) < Rank(b.stage))
    && (!a.Resumable() ==> b.stage == a.stage)
  }

  ghost predicate JobsEvolve(jobs: Jobs, after: Jobs) {
    && jobs.Keys <= after.Keys
    && forall item | item in jobs :: JobEvolves(jobs[item], after[item])
  }

  lemma EvolutionKeepsLog(jobs: Jobs, after: Jobs, log: seq<Event>)
    requires LogOrdered(jobs, log) && JobsEvolve(jobs, after)
    ensures LogOrdered(after, log)
  {
    forall j | 0 <= j < |log| ensures Allowed(after, log[..j], log[j]) {
      assert Allowed(jobs, log[..j], log[j]);
    }
  }

  lemma AppendKeepsLog(jobs: Jobs, log: seq<Event>, e: Event)
    requires LogOrdered(jobs, log) && Allowed(jobs, log, e)
    ensures LogOrdered(jobs, log + [e])
  {
    hide Allowed;
    forall j | 0 <= j < |log| + 1 ensures Allowed(jobs, (log + [e])[..j], (log + [e])[j]) {
      assert (log + [e])[..j] == log[..j];
      if j < |log| { assert Allowed(jobs, log[..j], log[j]); } else { assert log[..j] == log; }
    }
  }

  // ---- One stage ----

  /** A child is only worked on once its season has passed its own preflight. */
  ghost predicate Cleared(s: State, item: ItemId)
    requires item in s.jobs
  {
    var job := s.jobs[item];
    job.kind != Season && job.payload.parent.Some? ==> Confirmed(job.payload.parent.value, Validated) in s.log
  }

  lemma StageIsAllowed(s: State, item: ItemId, e: Event)
    requires Orderly(s) && item in s.jobs && Cleared(s, item) && StageGate(s.jobs, s.jobs[item]) == Open
    requires Following(s.jobs[item].kind, s.jobs[item].stage).Some?
    requires e.item == item && e.stage == s.jobs[item].stage
    requires e.Attempt? ==> s.tombstones <= e.tombstones
    ensures Allowed(s.jobs, s.log, e)
  {
    hide LogOrdered;
    var job := s.jobs[item];
    if Rank(job.stage) >= Rank(Tombstoned) { assert Before(job.kind, Validated, job.stage); }
    if job.kind == Season && job.stage == Tombstoned {
      forall child | child in job.payload.episodes ensures Confirmed(child.item, JellyfinRemoved) in s.log {
        assert ChildIntact(s.jobs, child);
        assert Before(EpisodeItem, JellyfinRemoved, Complete);
      }
    }
  }

  lemma RecordStaysOrderly(s: State, e: Event, marked: set<MediaKey>)
    requires Orderly(s) && Allowed(s.jobs, s.log, e) && s.tombstones <= marked
    requires e.Confirmed? && e.stage == Validated && e.item in s.jobs ==> s.jobs[e.item].payload.key in marked
    ensures Orderly(s.(tombstones := marked, log := s.log + [e]))
  {
    hide Allowed;
    AppendKeepsLog(s.jobs, s.log, e);
    hide LogOrdered;
    var log := s.log + [e];
    assert forall x :: x in log <==> x in s.log || x == e;
  }

  lemma ActingStaysOrderly(s: State, item: ItemId, o: Outcome)
    requires Orderly(s) && item in s.jobs && Cleared(s, item) && StageGate(s.jobs, s.jobs[item]) == Open
    requires Following(s.jobs[item].kind, s.jobs[item].stage).Some?
    ensures var acted := Acted(s, item, o);
      && Orderly(acted) && acted.jobs == s.jobs && s.log <= acted.log
      && (Worked(o) ==> Confirmed(item, s.jobs[item].stage) in acted.log)
  {
    hide Allowed, StageGate, Orderly;
    var job := s.jobs[item];
    if o.reached || Worked(o) {
      var marked := s.tombstones + Marks(job, o);
      var attempt, confirmed := Attempt(item, job.stage, marked), Confirmed(item, job.stage);
      StageIsAllowed(s, item, attempt);
      RecordStaysOrderly(s, attempt, marked);
      if Worked(o) {
        var tried := s.(tombstones := marked, log := s.log + [attempt]);
        StageIsAllowed(tried, item, confirmed);
        RecordStaysOrderly(tried, confirmed, marked);
        assert Acted(s, item, o) == tried.(tombstones := marked, log := tried.log + [confirmed]);
        assert Acted(s, item, o).log[|tried.log|] == confirmed;
      } else {
        assert s.log + [attempt] + [] == s.log + [attempt];
      }
    }
  }

  lemma EvolutionKeepsFamilies(jobs: Jobs, after: Jobs)
    requires FamiliesIntact(jobs) && JobsEvolve(jobs, after) && after.Keys == jobs.Keys
    ensures FamiliesIntact(after)
  {
    forall p, child | p in after && after[p].kind == Season && child in after[p].payload.episodes
      ensures ChildIntact(after, child) && child.payload.parent == Some(p)
    {
      assert JobEvolves(jobs[p], after[p]) && ChildIntact(jobs, child);
      assert JobEvolves(jobs[child.item], after[child.item]);
    }
  }

  lemma EvolutionKeepsOrder(s: State, after: Jobs)
    requires Orderly(s) && JobsEvolve(s.jobs, after) && after.Keys == s.jobs.Keys && StagesLogged(after, s.log)
    ensures Orderly(s.(jobs := after))
  {
    EvolutionKeepsLog(s.jobs, after, s.log);
    EvolutionKeepsFamilies(s.jobs, after);
    hide LogOrdered, FamiliesIntact, StagesLogged;
    assert forall item | item in s.jobs :: JobEvolves(s.jobs[item], after[item]);
    assert |after| == |after.Keys| == |s.jobs|;
  }

  lemma ChangedJob(jobs: Jobs, item: ItemId, job: Job)
    requires item in jobs && JobEvolves(jobs[item], job)
    ensures JobsEvolve(jobs, jobs[item := job]) && jobs[item := job].Keys == jobs.Keys
  {
  }

  /** Committing a stage: either the next one after its work, or blocked, or the same one again. */
  lemma StagingStaysOrderly(s: State, item: ItemId, to: Stage, error: Option<string>, at: int)
    requires Orderly(s) && item in s.jobs && s.jobs[item].Resumable()
    requires to == s.jobs[item].stage || to == Blocked ||
      (Following(s.jobs[item].kind, s.jobs[item].stage) == Some(to) && Confirmed(item, s.jobs[item].stage) in s.log)
    ensures var after := s.(jobs := StageSet(s.jobs, item, to, error, at));
      Orderly(after) && JobsEvolve(s.jobs, after.jobs) && after.jobs[item].stage == to
  {
    hide LogOrdered, FamiliesIntact, RowsNumbered, TombstonesWritten;
    var job := s.jobs[item];
    var staged := if job.stage == to && job.error == error then job
      else job.(stage := to, error := error, updated := at);
    assert s.jobs[item := job] == s.jobs;
    var after := s.jobs[item := staged];
    assert after == StageSet(s.jobs, item, to, error, at);
    ChangedJob(s.jobs, item, staged);
    if to != Blocked {
      forall e | Before(job.kind, e, to) ensures Confirmed(item, e) in s.log {
        assert Before(job.kind, e, job.stage) || e == job.stage;
      }
    }
    assert StagesLogged(after, s.log);
    hide Orderly, JobsEvolve, StagesLogged;
    EvolutionKeepsOrder(s, after);
  }

  lemma TouchingStaysOrderly(s: State, item: ItemId, at: int)
    requires Orderly(s)
    ensures var after := s.(jobs := Touched(s.jobs, item, at));
      Orderly(after) && JobsEvolve(s.jobs, after.jobs)
  {
    hide LogOrdered, FamiliesIntact, RowsNumbered, TombstonesWritten;
    var after := Touched(s.jobs, item, at);
    if item in s.jobs { ChangedJob(s.jobs, item, s.jobs[item].(updated := at)); }
    assert StagesLogged(after, s.log);
    hide StagesLogged;
    EvolutionKeepsOrder(s, after);
  }

  // ---- One attempt ----

  lemma EvolutionChains(a: Jobs, b: Jobs, c: Jobs)
    requires JobsEvolve(a, b) && JobsEvolve(b, c)
    ensures JobsEvolve(a, c)
  {
    forall item | item in a ensures JobEvolves(a[item], c[item]) {
      assert JobEvolves(a[item], b[item]) && JobEvolves(b[item], c[item]);
    }
  }

  lemma {:induction false} DrivingStaysOrderly(s: State, item: ItemId, outcomes: seq<Outcome>)
    requires Orderly(s) && item in s.jobs && Cleared(s, item) && s.jobs[item].Resumable()
    ensures var (after, verdict) := Driven(s, item, outcomes);
      && Orderly(after) && JobsEvolve(s.jobs, after.jobs)
      && (verdict != Finished ==> after.jobs[item].Resumable())
    decreases |outcomes|
  {
    hide Orderly, StageGate, JobEvolves;
    JobsStay(s.jobs);
    if outcomes != [] {
      var o, job := outcomes[0], s.jobs[item];
      if Following(job.kind, job.stage).Some? && StageGate(s.jobs, job) == Open {
        ActingStaysOrderly(s, item, o);
        var acted, to := Acted(s, item, o), Following(job.kind, job.stage).value;
        if o.ending == Succeeded {
          StagingStaysOrderly(acted, item, to, None, o.at);
          var stepped := acted.(jobs := StageSet(acted.jobs, item, to, None, o.at));
          if to != Complete {
            DrivingStaysOrderly(stepped, item, outcomes[1..]);
            EvolutionChains(s.jobs, stepped.jobs, Driven(stepped, item, outcomes[1..]).0.jobs);
          }
        }
      }
    }
  }

  lemma JobsStay(jobs: Jobs)
    ensures JobsEvolve(jobs, jobs)
  {
  }

  lemma OpenParentClears(s: State, item: ItemId)
    requires Orderly(s) && item in s.jobs && ParentGate(s.jobs, s.jobs[item]) == Open
    ensures Cleared(s, item)
  {
    var job := s.jobs[item];
    if job.kind != Season && job.payload.parent.Some? {
      var p := job.payload.parent.value;
      assert Before(Season, Validated, s.jobs[p].stage);
    }
  }

  lemma AttemptStaysOrderly(s: State, item: ItemId, outcomes: seq<Outcome>)
    requires Orderly(s) && item in s.jobs && s.jobs[item].Resumable()
    ensures Orderly(RunOnce(s, item, outcomes)) && JobsEvolve(s.jobs, RunOnce(s, item, outcomes).jobs)
  {
    hide Orderly, StageGate, ParentGate, JobEvolves, Driven;
    JobsStay(s.jobs);
    if outcomes != [] && ParentGate(s.jobs, s.jobs[item]) == Open {
      OpenParentClears(s, item);
      DrivingStaysOrderly(s, item, outcomes);
    }
    DrivenKeepsItem(s, item, outcomes);
    var (after, verdict) := Processed(s, item, outcomes);
    match verdict
    case Blocks(at, error) =>
      StagingStaysOrderly(after, item, Blocked, Some(error), at);
      EvolutionChains(s.jobs, after.jobs, Settled(after, item, verdict).jobs);
    case Retries(at, error) =>
      var stage := after.jobs[item].stage;
      StagingStaysOrderly(after, item, stage, Some(error), at);
      var staged := after.(jobs := StageSet(after.jobs, item, stage, Some(error), at));
      TouchingStaysOrderly(staged, item, at);
      EvolutionChains(s.jobs, after.jobs, staged.jobs);
      EvolutionChains(s.jobs, staged.jobs, Settled(after, item, verdict).jobs);
    case _ =>
  }

  // ---- Captures ----

  /** Old jobs stay what they were, and new ones are queued. */
  ghost predicate JobsGrow(jobs: Jobs, after: Jobs) {
    && jobs.Keys <= after.Keys
    && (forall item | item in jobs :: after[item] == jobs[item])
    && (forall item | item in after && item !in jobs :: after[item].stage == Queued)
  }

  lemma GrowthKeepsOrder(s: State, after: Jobs)
    requires Orderly(s) && JobsGrow(s.jobs, after) && RowsNumbered(after) && FamiliesIntact(after)
    ensures Orderly(s.(jobs := after)) && JobsEvolve(s.jobs, after)
  {
    EvolutionKeepsLog(s.jobs, after, s.log);
    forall e | e in s.log ensures e.item in s.jobs {
      var j :| 0 <= j < |s.log| && s.log[j] == e;
      assert Allowed(s.jobs, s.log[..j], s.log[j]);
    }
    hide LogOrdered, FamiliesIntact, RowsNumbered;
  }

  lemma EnqueuingGrows(jobs: Jobs, item: ItemId, kind: Kind, payload: Payload, now: int)
    requires RowsNumbered(jobs)
    ensures var after := Enqueued(jobs, item, kind, payload, now);
      JobsGrow(jobs, after) && RowsNumbered(after) && after.Keys == jobs.Keys + {item}
  {
    if item !in jobs {
      NewJobIsLast(jobs, item, kind, payload, now);
    }
    hide RowsNumbered;
  }

  lemma NewJobIsLast(jobs: Jobs, item: ItemId, kind: Kind, payload: Payload, now: int)
    requires RowsNumbered(jobs) && item !in jobs
    ensures RowsNumbered(jobs[item := NewJob(jobs, kind, payload, now)])
  {
    var after := jobs[item := NewJob(jobs, kind, payload, now)];
    assert after.Keys == jobs.Keys + {item};
    assert |after| == |after.Keys| && |jobs| == |jobs.Keys|;
  }

  lemma GrowthChains(a: Jobs, b: Jobs, c: Jobs)
    requires JobsGrow(a, b) && JobsGrow(b, c)
    ensures JobsGrow(a, c)
  {
  }

  lemma {:induction false} ChildrenFitStill(jobs: Jobs, season: ItemId, children: seq<Child>, seen: set<ItemId>,
                                            x: ItemId, job: Job)
    requires ChildrenFit(jobs, season, children, seen) && x in seen
    ensures ChildrenFit(jobs[x := job], season, children, seen)
    decreases |children|
  {
    if children != [] {
      ChildrenFitStill(jobs, season, children[1..], seen + {children[0].item}, x, job);
    }
  }

  lemma {:induction false} ChildrenAreAdded(jobs: Jobs, children: seq<Child>, now: int)
    ensures WithChildren(jobs, children, now).Keys == jobs.Keys + (set child | child in children :: child.item)
    decreases |children|
  {
    if children != [] {
      var next := Enqueued(jobs, children[0].item, EpisodeItem, children[0].payload, now);
      assert next.Keys == jobs.Keys + {children[0].item};
      ChildrenAreAdded(next, children[1..], now);
      assert forall child | child in children :: child == children[0] || child in children[1..];
    }
  }

  /** The children admitted with a season are all there, each exactly as captured. */
  lemma {:induction false} ChildrenArrive(jobs: Jobs, season: ItemId, children: seq<Child>, seen: set<ItemId>, now: int)
    requires RowsNumbered(jobs) && ChildrenFit(jobs, season, children, seen)
    ensures var after := WithChildren(jobs, children, now);
      && JobsGrow(jobs, after) && RowsNumbered(after)
      && (forall item | item in after && item !in jobs ::
            after[item].kind == EpisodeItem && after[item].payload.parent == Some(season))
      && (forall child | child in children :: ChildIntact(after, child) && child.payload.parent == Some(season))
    decreases |children|
  {
    if children != [] {
      hide RowsNumbered;
      var first, rest := children[0], children[1..];
      var next := Enqueued(jobs, first.item, EpisodeItem, first.payload, now);
      EnqueuingGrows(jobs, first.item, EpisodeItem, first.payload, now);
      if first.item !in jobs {
        ChildrenFitStill(jobs, season, rest, seen + {first.item}, first.item, next[first.item]);
      }
      ChildrenArrive(next, season, rest, seen + {first.item}, now);
      GrowthChains(jobs, next, WithChildren(next, rest, now));
      assert forall child | child in children :: child == first || child in rest;
    }
  }

  lemma FamiliesGrow(jobs: Jobs, after: Jobs)
    requires FamiliesIntact(jobs) && JobsGrow(jobs, after)
    requires forall p | p in after && p !in jobs && after[p].kind == Season ::
      forall child | child in after[p].payload.episodes :: ChildIntact(after, child) && child.payload.parent == Some(p)
    ensures FamiliesIntact(after)
  {
    forall p, child | p in after && after[p].kind == Season && child in after[p].payload.episodes
      ensures ChildIntact(after, child) && child.payload.parent == Some(p)
    {
      if p in jobs { assert ChildIntact(jobs, child); }
    }
  }

  lemma CaptureStaysOrderly(s: State, item: ItemId, kind: Kind, payload: Payload, now: int)
    requires Orderly(s) && kind != Season
    ensures var after := s.(jobs := Enqueued(s.jobs, item, kind, payload, now));
      Orderly(after) && JobsEvolve(s.jobs, after.jobs)
  {
    var after := Enqueued(s.jobs, item, kind, payload, now);
    EnqueuingGrows(s.jobs, item, kind, payload, now);
    FamiliesGrow(s.jobs, after);
    GrowthKeepsOrder(s, after);
  }

  lemma SeasonCaptureStaysOrderly(s: State, item: ItemId, payload: Payload, now: int)
    requires Orderly(s) && SeasonEnqueued(s.jobs, item, payload, now).Some?
    ensures var after := s.(jobs := SeasonEnqueued(s.jobs, item, payload, now).value);
      Orderly(after) && JobsEvolve(s.jobs, after.jobs)
  {
    hide RowsNumbered, LogOrdered, StagesLogged, TombstonesWritten, WithChildren;
    JobsStay(s.jobs);
    if item !in s.jobs {
      var seated := Enqueued(s.jobs, item, Season, payload, now);
      EnqueuingGrows(s.jobs, item, Season, payload, now);
      ChildrenFitStill(s.jobs, item, payload.episodes, {item}, item, seated[item]);
      ChildrenArrive(seated, item, payload.episodes, {item}, now);
      var after := WithChildren(seated, payload.episodes, now);
      GrowthChains(s.jobs, seated, after);
      FamiliesGrow(s.jobs, after);
      GrowthKeepsOrder(s, after);
    }
  }

  // ---- Whole runs ----

  lemma ActionStaysOrderly(s: State, a: Action)
    requires Orderly(s)
    ensures Orderly(Act(s, a)) && JobsEvolve(s.jobs, Act(s, a).jobs)
  {
    hide Orderly, RunOnce, Enqueued, SeasonEnqueued;
    JobsStay(s.jobs);
    match a
    case Capture(item, kind, payload, now) =>
      if kind != Season { CaptureStaysOrderly(s, item, kind, payload, now); }
    case CaptureSeason(item, payload, now) =>
      if SeasonEnqueued(s.jobs, item, payload, now).Some? { SeasonCaptureStaysOrderly(s, item, payload, now); }
    case Attend(outcomes) =>
      if exists item :: IsNext(s.jobs, item) {
        var item :| IsNext(s.jobs, item);
        forall other | IsNext(s.jobs, other) ensures other == item { NextIsUnique(s.jobs, item, other); }
        AttemptStaysOrderly(s, item, outcomes);
      }
  }

  /**
   Every run keeps the order of deletion, and along it stages only rise:
   captures stay as they are, and complete and blocked jobs are final.
   */
  lemma {:induction false} RunStaysOrderly(s: State, actions: seq<Action>)
    requires Orderly(s)
    ensures Orderly(Run(s, actions)) && JobsEvolve(s.jobs, Run(s, actions).jobs)
    decreases |actions|
  {
    JobsStay(s.jobs);
    if actions != [] {
      hide Orderly, JobsEvolve, Act;
      ActionStaysOrderly(s, actions[0]);
      RunStaysOrderly(Act(s, actions[0]), actions[1..]);
      EvolutionChains(s.jobs, Act(s, actions[0]).jobs, Run(s, actions).jobs);
    }
  }

  function Empty(): State {
    State(map[], {}, [])
  }

  /**
   Whatever happens, removing at some stage comes after every earlier stage of that item was
   confirmed, and while its tombstone stands: tombstone, source, Arr file, then the catalogs.
   */
  lemma RemovalsComeInOrder(actions: seq<Action>, j: nat, earlier: Stage)
    requires j < |Run(Empty(), actions).log| && Run(Empty(), actions).log[j].Attempt?
    requires var s := Run(Empty(), actions);
      s.log[j].item in s.jobs && Before(s.jobs[s.log[j].item].kind, earlier, s.log[j].stage)
    ensures var s := Run(Empty(), actions);
      && (exists i | 0 <= i < j :: s.log[i] == Confirmed(s.log[j].item, earlier))
      && (Rank(s.log[j].stage) >= Rank(Tombstoned) ==> s.jobs[s.log[j].item].payload.key in s.log[j].tombstones)
  {
    RunStaysOrderly(Empty(), actions);
    hide Run;
    var s := Run(Empty(), actions);
    assert Allowed(s.jobs, s.log[..j], s.log[j]);
    assert Confirmed(s.log[j].item, earlier) in s.log[..j];
  }

  /** Nothing is done to a child before its season is tombstoned, nor to the season's sources before every child. */
  lemma FamiliesComeInOrder(actions: seq<Action>, j: nat)
    requires j < |Run(Empty(), actions).log|
    ensures var s := Run(Empty(), actions);
      var e := s.log[j];
      && e.item in s.jobs
      && var job := s.jobs[e.item];
      && (job.kind != Season && job.payload.parent.Some? ==>
            Confirmed(job.payload.parent.value, Validated) in s.log[..j])
      && (job.kind == Season && e.stage == Tombstoned ==>
            forall child | child in job.payload.episodes :: Confirmed(child.item, JellyfinRemoved) in s.log[..j])
  {
    RunStaysOrderly(Empty(), actions);
    hide Run;
    var s := Run(Empty(), actions);
    assert Allowed(s.jobs, s.log[..j], s.log[j]);
  }

  /** The coordinator never finds a child changed or gone: that refusal cannot happen. */
  lemma ChildrenNeverChange(actions: seq<Action>, season: ItemId)
    requires season in Run(Empty(), actions).jobs && Run(Empty(), actions).jobs[season].kind == Season
    ensures ChildrenIntact(Run(Empty(), actions).jobs, Run(Empty(), actions).jobs[season])
  {
    RunStaysOrderly(Empty(), actions);
    hide Run;
  }
}
