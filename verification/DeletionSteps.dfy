/** What one turn at a job does, said of its row, its family's rows, the tombstones and the log alone. */
module DeletionSteps {
  import opened Options
  import opened DeletionJobs
  import DeletionOrder

  // ---- Words ----

  /** Which stage comes right behind which, for a season and for a movie or an episode. */
  predicate Follows(kind: Kind, s: Stage, t: Stage) {
    if kind == Season then
      (s, t) in {(Queued, Validated), (Validated, Tombstoned), (Tombstoned, TorrentsRemoved),
                 (TorrentsRemoved, SeerrRemoved), (SeerrRemoved, JellyfinRemoved), (JellyfinRemoved, Complete)}
    else
      (s, t) in {(Queued, Validated), (Validated, Tombstoned), (Tombstoned, TorrentsRemoved),
                 (TorrentsRemoved, ArrRemoved), (ArrRemoved, SeerrRemoved), (SeerrRemoved, JellyfinRemoved),
                 (JellyfinRemoved, Complete)}
  }

  /** The job is no season and its parent is missing, no season, or blocked. */
  predicate ParentBroken(jobs: Jobs, job: Job) {
    && job.kind != Season && job.payload.parent.Some?
    && (job.payload.parent.value !in jobs || jobs[job.payload.parent.value].kind != Season ||
        jobs[job.payload.parent.value].stage == Blocked)
  }

  /** The parent season has not been tombstoned yet. */
  predicate ParentEarly(jobs: Jobs, job: Job) {
    && job.kind != Season && job.payload.parent.Some? && !ParentBroken(jobs, job)
    && (jobs[job.payload.parent.value].stage == Queued || jobs[job.payload.parent.value].stage == Validated)
  }

  /** A captured child is no longer the job it was captured as, or is blocked. */
  predicate ChildBroken(jobs: Jobs, child: Child) {
    || child.item !in jobs || jobs[child.item].kind != EpisodeItem || jobs[child.item].payload != child.payload
    || jobs[child.item].stage == Blocked
  }

  /** A season looks at its children before it starts and before it removes its sources. */
  predicate ChildrenBroken(jobs: Jobs, job: Job) {
    && job.kind == Season && (job.stage == Queued || job.stage == Tombstoned)
    && exists child :: child in job.payload.episodes && ChildBroken(jobs, child)
  }

  predicate ChildrenEarly(jobs: Jobs, job: Job) {
    && job.kind == Season && job.stage == Tombstoned && !ChildrenBroken(jobs, job)
    && exists child :: child in job.payload.episodes && child.item in jobs && jobs[child.item].stage != Complete
  }

  lemma StagesFollow(kind: Kind, s: Stage, t: Stage)
    ensures Following(kind, s) == Some(t) <==> Follows(kind, s, t)
  {
  }

  lemma FamilyGates(jobs: Jobs, job: Job)
    ensures ParentGate(jobs, job) ==
      if ParentBroken(jobs, job) then Refuses else if ParentEarly(jobs, job) then Waits else Open
    ensures StageGate(jobs, job) ==
      if ChildrenBroken(jobs, job) then Refuses else if ChildrenEarly(jobs, job) then Waits else Open
  {
    if job.kind == Season && job.stage in {Queued, Tombstoned} {
      if !ChildrenBroken(jobs, job) {
        forall child | child in job.payload.episodes
          ensures ChildIntact(jobs, child) && jobs[child.item].stage != Blocked
        {
          assert !ChildBroken(jobs, child);
        }
      } else {
        var child :| child in job.payload.episodes && ChildBroken(jobs, child);
      }
    }
  }

  // ---- One step ----

  predicate ParentClear(jobs: Jobs, job: Job) {
    !ParentBroken(jobs, job) && !ParentEarly(jobs, job)
  }

  predicate Ends(job: Job) {
    job.stage == Complete || job.stage == Blocked || (job.kind == Season && job.stage == ArrRemoved)
  }

  predicate Clear(jobs: Jobs, job: Job) {
    ParentClear(jobs, job) && !Ends(job) && !ChildrenBroken(jobs, job) && !ChildrenEarly(jobs, job)
  }

  /** The job is blocked: its family is broken, its stage unknown, or its work found it unsafe. */
  predicate GivesUp(jobs: Jobs, job: Job, e: Ending) {
    if !ParentClear(jobs, job) then ParentBroken(jobs, job) && e != Died && e != Retried
    else if Ends(job) then true
    else if ChildrenBroken(jobs, job) then e != Died && e != Retried
    else e == Stopped
  }

  /** The job is put off: its family is not ready, or something failed on the way. */
  predicate PutsOff(jobs: Jobs, job: Job, e: Ending) {
    if ParentEarly(jobs, job) then e != Died
    else if ParentBroken(jobs, job) then e == Retried
    else if Ends(job) then false
    else if ChildrenEarly(jobs, job) then e != Died && e != Stopped
    else e == Retried
  }

  predicate Advances(jobs: Jobs, job: Job, e: Ending) {
    Clear(jobs, job) && e == Succeeded
  }

  /** The work of the stage got as far as acting. */
  predicate Acts(jobs: Jobs, job: Job, o: Outcome) {
    Clear(jobs, job) && (o.reached || o.ending == Succeeded || o.ending == DiedUncommitted)
  }

  /** A step writes the job's one row, as it ended, and nothing of another job. */
  ghost predicate RowWritten(s: State, after: State, item: ItemId, o: Outcome)
    requires item in s.jobs
  {
    var job := s.jobs[item];
    && after.jobs.Keys == s.jobs.Keys && (forall k | k in s.jobs && k != item :: after.jobs[k] == s.jobs[k])
    && (GivesUp(s.jobs, job, o.ending) ==>
          after.jobs[item] == job.(stage := Blocked, error := Some(o.error), updated := o.at))
    && (PutsOff(s.jobs, job, o.ending) ==> after.jobs[item] == job.(error := Some(o.error), updated := o.at))
    && (Advances(s.jobs, job, o.ending) ==>
          exists t :: Follows(job.kind, job.stage, t) &&
                      after.jobs[item] == job.(stage := t, error := None, updated := o.at))
    && (!GivesUp(s.jobs, job, o.ending) && !PutsOff(s.jobs, job, o.ending) && !Advances(s.jobs, job, o.ending) ==>
          after.jobs[item] == job)
  }

  /** What was acted on is logged under the tombstones that stood, and confirmed when all of it was done. */
  ghost predicate ActionLogged(s: State, after: State, item: ItemId, o: Outcome)
    requires item in s.jobs
  {
    var job := s.jobs[item];
    if !Acts(s.jobs, job, o) then after.tombstones == s.tombstones && after.log == s.log
    else
      && (job.stage == Validated ==> after.tombstones == s.tombstones + {job.payload.key})
      && (job.stage == Tombstoned && job.kind == Season ==> after.tombstones == s.tombstones + o.keys)
      && (job.stage != Validated && !(job.stage == Tombstoned && job.kind == Season) ==>
            after.tombstones == s.tombstones)
      && var tried := s.log + [Attempt(item, job.stage, after.tombstones)];
      && (o.ending == Succeeded || o.ending == DiedUncommitted ==>
            after.log == tried + [Confirmed(item, job.stage)])
      && (o.ending != Succeeded && o.ending != DiedUncommitted ==> after.log == tried)
  }

  lemma EndsWithoutNext(job: Job)
    ensures Following(job.kind, job.stage).None? <==> Ends(job)
  {
  }

  lemma DrivenOnce(s: State, item: ItemId, o: Outcome)
    requires item in s.jobs
    ensures Driven(s, item, [o]) ==
      var job := s.jobs[item];
      if Following(job.kind, job.stage).None? then (s, Blocks(o.at, o.error))
      else if StageGate(s.jobs, job) != Open then (s, GateVerdict(StageGate(s.jobs, job), o))
      else if o.ending != Succeeded then (Acted(s, item, o), EndingVerdict(o))
      else
        var to, acted := Following(job.kind, job.stage).value, Acted(s, item, o);
        (acted.(jobs := StageSet(acted.jobs, item, to, None, o.at)), if to == Complete then Finished else Dies)
  {
    assert [o][1..] == [];
  }

  function VerdictOf(jobs: Jobs, job: Job, o: Outcome): Verdict {
    if GivesUp(jobs, job, o.ending) then Blocks(o.at, o.error)
    else if PutsOff(jobs, job, o.ending) then Retries(o.at, o.error)
    else Dies
  }

  lemma StepIs(s: State, item: ItemId, o: Outcome) returns (mid: State, v: Verdict)
    requires item in s.jobs
    ensures item in mid.jobs && RunOnce(s, item, [o]) == Settled(mid, item, v)
    ensures !Advances(s.jobs, s.jobs[item], o.ending) ==>
      && v == VerdictOf(s.jobs, s.jobs[item], o)
      && mid == if Clear(s.jobs, s.jobs[item]) then Acted(s, item, o) else s
    ensures Advances(s.jobs, s.jobs[item], o.ending) ==>
      && (v == Finished || v == Dies)
      && exists t :: Follows(s.jobs[item].kind, s.jobs[item].stage, t) &&
                     mid == Acted(s, item, o).(jobs := StageSet(s.jobs, item, t, None, o.at))
  {
    hide Driven, ParentGate, StageGate, ParentBroken, ParentEarly, ChildrenBroken, ChildrenEarly, Follows, StageSet,
      Settled, Ends, Following;
    var job := s.jobs[item];
    FamilyGates(s.jobs, job);
    EndsWithoutNext(job);
    DrivenOnce(s, item, o);
    if Following(job.kind, job.stage).Some? { StagesFollow(job.kind, job.stage, Following(job.kind, job.stage).value); }
    GatesExclude(s.jobs, job);
    ActingKeepsJobs(s, item, o);
    mid, v := Processed(s, item, [o]).0, Processed(s, item, [o]).1;
    DrivenKeepsItem(s, item, [o]);
  }

  lemma ActingKeepsJobs(s: State, item: ItemId, o: Outcome)
    requires item in s.jobs
    ensures Acted(s, item, o).jobs == s.jobs
  {
  }

  lemma StepWritesRow(s: State, item: ItemId, o: Outcome)
    requires item in s.jobs && s.jobs[item].Resumable()
    ensures RowWritten(s, RunOnce(s, item, [o]), item, o)
  {
    hide RunOnce, Acted, Clear, ParentClear, ParentBroken, ParentEarly, ChildrenBroken, ChildrenEarly, Follows, GivesUp,
      PutsOff, Advances;
    var mid, v := StepIs(s, item, o);
    ActingKeepsJobs(s, item, o);
    EndingsExclude(s.jobs, s.jobs[item], o.ending);
  }

  lemma EndingsExclude(jobs: Jobs, job: Job, e: Ending)
    ensures !(GivesUp(jobs, job, e) && PutsOff(jobs, job, e))
    ensures Advances(jobs, job, e) ==> !GivesUp(jobs, job, e) && !PutsOff(jobs, job, e)
    ensures forall t :: Follows(job.kind, job.stage, t) ==> t != job.stage
  {
    hide ParentBroken, ParentEarly, ChildrenBroken, ChildrenEarly;
    GatesExclude(jobs, job);
  }

  lemma StepLogs(s: State, item: ItemId, o: Outcome)
    requires item in s.jobs
    ensures ActionLogged(s, RunOnce(s, item, [o]), item, o)
  {
    hide RunOnce, Clear, Follows, GivesUp, PutsOff, StageSet, Touched;
    var mid, v := StepIs(s, item, o);
    SettlingOnlyWritesJobs(mid, item, v);
    hide Settled;
    assert s.log + [Attempt(item, s.jobs[item].stage, mid.tombstones)] + [] ==
           s.log + [Attempt(item, s.jobs[item].stage, mid.tombstones)];
  }

  lemma SettlingOnlyWritesJobs(s: State, item: ItemId, v: Verdict)
    requires item in s.jobs
    ensures Settled(s, item, v).tombstones == s.tombstones && Settled(s, item, v).log == s.log
  {
  }

  /** A turn of one step, whatever state the family is in and however the step ends. */
  lemma StepMeans(s: State, item: ItemId, o: Outcome)
    requires item in s.jobs && s.jobs[item].Resumable()
    ensures RowWritten(s, RunOnce(s, item, [o]), item, o) && ActionLogged(s, RunOnce(s, item, [o]), item, o)
  {
    hide RunOnce, RowWritten, ActionLogged;
    StepWritesRow(s, item, o);
    StepLogs(s, item, o);
  }

  lemma GatesExclude(jobs: Jobs, job: Job)
    ensures !(ParentBroken(jobs, job) && ParentEarly(jobs, job))
    ensures !(ChildrenBroken(jobs, job) && ChildrenEarly(jobs, job))
  {
  }

  // ---- Many steps ----

  lemma ParentStaysOpen(jobs: Jobs, item: ItemId, t: Stage, at: int)
    requires item in jobs && ParentGate(jobs, jobs[item]) == Open
    ensures var after := StageSet(jobs, item, t, None, at); ParentGate(after, after[item]) == Open
  {
  }

  lemma TurnKeepsItem(s: State, item: ItemId, outcomes: seq<Outcome>)
    requires item in s.jobs
    ensures item in RunOnce(s, item, outcomes).jobs
  {
    hide Driven, ParentGate;
    DrivenKeepsItem(s, item, outcomes);
  }

  /** A turn of several steps is its first step, followed by the turn of the rest as long as the job advances. */
  lemma TurnGoesOn(s: State, item: ItemId, o: Outcome, rest: seq<Outcome>)
    requires item in s.jobs && rest != []
    ensures item in RunOnce(s, item, [o]).jobs
    ensures var first := RunOnce(s, item, [o]);
      RunOnce(s, item, [o] + rest) ==
      if Advances(s.jobs, s.jobs[item], o.ending) && first.jobs[item].stage != Complete
      then RunOnce(first, item, rest) else first
  {
    hide ParentGate, StageGate, ParentBroken, ParentEarly, ChildrenBroken, ChildrenEarly, Follows, Ends, Following,
      GivesUp, PutsOff, Touched;
    var job := s.jobs[item];
    assert ([o] + rest)[1..] == rest;
    FamilyGates(s.jobs, job);
    GatesExclude(s.jobs, job);
    EndsWithoutNext(job);
    DrivenOnce(s, item, o);
    ActingKeepsJobs(s, item, o);
    TurnKeepsItem(s, item, [o]);
    if Advances(s.jobs, job, o.ending) {
      var to := Following(job.kind, job.stage).value;
      ParentStaysOpen(s.jobs, item, to, o.at);
    }
  }

  // ---- Captures ----

  /** The child cannot be captured behind those seen: its name or its job contradicts it. */
  predicate RefusedBehind(jobs: Jobs, season: ItemId, children: seq<Child>, seen: set<ItemId>, i: nat)
    requires i < |children|
  {
    || children[i].item in seen
    || (exists j :: 0 <= j < i && children[j].item == children[i].item)
    || children[i].payload.parent != Some(season)
    || (children[i].item in jobs &&
        (jobs[children[i].item].kind != EpisodeItem || jobs[children[i].item].payload != children[i].payload ||
         jobs[children[i].item].stage == Complete || jobs[children[i].item].stage == Blocked))
  }

  lemma {:induction false} ChildrenFitUnlessRefused(jobs: Jobs, season: ItemId, children: seq<Child>, seen: set<ItemId>)
    ensures ChildrenFit(jobs, season, children, seen) <==>
            forall i | 0 <= i < |children| :: !RefusedBehind(jobs, season, children, seen, i)
    decreases |children|
  {
    if children != [] {
      var first, rest := children[0], children[1..];
      ChildrenFitUnlessRefused(jobs, season, rest, seen + {first.item});
      assert RefusedBehind(jobs, season, children, seen, 0) <==> !ChildFits(jobs, season, first, seen);
      hide RefusedBehind, ChildFits;
      forall i | 0 <= i < |rest| && RefusedBehind(jobs, season, rest, seen + {first.item}, i)
        ensures RefusedBehind(jobs, season, children, seen, i + 1)
      {
        RefusedInRest(jobs, season, children, seen, i);
      }
      forall i | 0 < i < |children| && RefusedBehind(jobs, season, children, seen, i)
        ensures RefusedBehind(jobs, season, rest, seen + {first.item}, i - 1)
      {
        RefusedInRest(jobs, season, children, seen, i - 1);
      }
    }
  }

  lemma RefusedInRest(jobs: Jobs, season: ItemId, children: seq<Child>, seen: set<ItemId>, i: nat)
    requires i + 1 < |children|
    ensures RefusedBehind(jobs, season, children, seen, i + 1) <==>
            RefusedBehind(jobs, season, children[1..], seen + {children[0].item}, i)
  {
    var rest := children[1..];
    assert rest[i] == children[i + 1];
    if exists j :: 0 <= j < i + 1 && children[j].item == children[i + 1].item {
      var j :| 0 <= j < i + 1 && children[j].item == children[i + 1].item;
      if j > 0 { assert rest[j - 1].item == rest[i].item; }
    }
    if exists j :: 0 <= j < i && rest[j].item == rest[i].item {
      var j :| 0 <= j < i && rest[j].item == rest[i].item;
      assert children[j + 1].item == children[i + 1].item;
    }
  }

  /** A job of that name decides alone; otherwise a season is captured unless it has no children or one is refused. */
  lemma SeasonIsCapturedExactly(jobs: Jobs, season: ItemId, payload: Payload, now: int)
    ensures SeasonEnqueued(jobs, season, payload, now).Some? <==>
      if season in jobs then jobs[season].kind == Season
      else payload.episodes != [] &&
           forall i | 0 <= i < |payload.episodes| :: !RefusedBehind(jobs, season, payload.episodes, {season}, i)
    ensures season in jobs && jobs[season].kind == Season ==>
      SeasonEnqueued(jobs, season, payload, now) == Some(jobs)
  {
    hide ChildrenFit, WithChildren;
    ChildrenFitUnlessRefused(jobs, season, payload.episodes, {season});
  }

  lemma {:induction false} ChildrenWritten(jobs: Jobs, children: seq<Child>, now: int)
    ensures var after := WithChildren(jobs, children, now);
      && (forall k | k in jobs :: k in after && after[k] == jobs[k])
      && (forall k | k in after && k !in jobs ::
            exists i :: 0 <= i < |children| && children[i].item == k && after[k].rowid >= |jobs| &&
                        after[k] == Job(EpisodeItem, children[i].payload, Queued, None, now, now, after[k].rowid))
      && (forall i | 0 <= i < |children| :: children[i].item in after)
    decreases |children|
  {
    if children != [] {
      var first, rest := children[0], children[1..];
      var next := Enqueued(jobs, first.item, EpisodeItem, first.payload, now);
      assert |next| >= |jobs| by { EnqueuingGrows(jobs, first.item, EpisodeItem, first.payload, now); }
      ChildrenWritten(next, rest, now);
      var after := WithChildren(jobs, children, now);
      forall k | k in after && k !in jobs
        ensures exists i :: 0 <= i < |children| && children[i].item == k && after[k].rowid >= |jobs| &&
                            after[k] == Job(EpisodeItem, children[i].payload, Queued, None, now, now, after[k].rowid)
      {
        if k in next {
          assert children[0].item == k;
        } else {
          var i :| 0 <= i < |rest| && rest[i].item == k && after[k].rowid >= |next| &&
            after[k] == Job(EpisodeItem, rest[i].payload, Queued, None, now, now, after[k].rowid);
          assert children[i + 1] == rest[i];
        }
      }
      forall i | 0 <= i < |children| ensures children[i].item in after {
        if i > 0 { assert children[i] == rest[i - 1]; } else { assert first.item in next; }
      }
    }
  }

  lemma EnqueuingGrows(jobs: Jobs, item: ItemId, kind: Kind, payload: Payload, now: int)
    ensures |Enqueued(jobs, item, kind, payload, now)| >= |jobs|
  {
    var after := Enqueued(jobs, item, kind, payload, now);
    if item !in jobs {
      assert after.Keys == jobs.Keys + {item};
      assert |after| == |after.Keys| && |jobs| == |jobs.Keys|;
    }
  }

  /** Jobs there were stay, and the season and each child that had none get a queued row of their own capture. */
  lemma SeasonCaptureWrites(jobs: Jobs, season: ItemId, payload: Payload, now: int)
    requires season !in jobs && SeasonEnqueued(jobs, season, payload, now).Some?
    ensures var after := SeasonEnqueued(jobs, season, payload, now).value;
      && (forall k | k in jobs :: k in after && after[k] == jobs[k])
      && season in after && after[season] == Job(Season, payload, Queued, None, now, now, |jobs|)
      && (forall k | k in after && k !in jobs && k != season ::
            exists i :: 0 <= i < |payload.episodes| && payload.episodes[i].item == k && after[k].rowid > |jobs| &&
              after[k] == Job(EpisodeItem, payload.episodes[i].payload, Queued, None, now, now, after[k].rowid))
      && (forall i | 0 <= i < |payload.episodes| :: payload.episodes[i].item in after)
  {
    hide ChildrenFit, WithChildren;
    var seated := Enqueued(jobs, season, Season, payload, now);
    ChildrenWritten(seated, payload.episodes, now);
    assert seated.Keys == jobs.Keys + {season} && |seated| == |seated.Keys| && |jobs| == |jobs.Keys|;
  }

  // ---- Whose turn it is ----

  /** No resumable job was attempted longer ago, nor as long ago and captured earlier. */
  lemma NextWaitedLongest(jobs: Jobs, item: ItemId)
    requires RowsNumbered(jobs)
    ensures IsNext(jobs, item) <==>
      && item in jobs && jobs[item].stage != Complete && jobs[item].stage != Blocked
      && forall other | other in jobs && jobs[other].stage != Complete && jobs[other].stage != Blocked ::
           && jobs[item].updated <= jobs[other].updated
           && (jobs[other].updated == jobs[item].updated ==> jobs[item].created <= jobs[other].created)
           && (jobs[other].updated == jobs[item].updated && jobs[other].created == jobs[item].created ==>
                 jobs[item].rowid <= jobs[other].rowid)
  {
  }

  /** Nothing is done for a stage before the one right before it was confirmed, in any run. */
  lemma EachStageFollowsOne(actions: seq<Action>, j: nat, earlier: Stage)
    requires j < |Run(DeletionOrder.Empty(), actions).log|
    requires var s := Run(DeletionOrder.Empty(), actions);
      s.log[j].Attempt? && s.log[j].item in s.jobs && Follows(s.jobs[s.log[j].item].kind, earlier, s.log[j].stage)
    ensures var s := Run(DeletionOrder.Empty(), actions);
      exists i | 0 <= i < j :: s.log[i] == Confirmed(s.log[j].item, earlier)
  {
    hide Run;
    DeletionOrder.RemovalsComeInOrder(actions, j, earlier);
  }
}
