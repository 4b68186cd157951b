/** The job store and the coordinator as objects, updated in place. */
module DeletionWorker {
  import opened Options
  import opened DeletionJobs
  import opened DeletionOrder

  class DeletionJobStore {
    var jobs: Jobs
    var tombstones: set<MediaKey>

    constructor ()
      ensures jobs == map[] && tombstones == {}
    {
      jobs, tombstones := map[], {};
    }

    method Enqueue(item: ItemId, kind: Kind, payload: Payload, now: int) returns (job: Job)
      modifies this`jobs
      ensures jobs == Enqueued(old(jobs), item, kind, payload, now)
      ensures item in jobs && job == jobs[item]
      ensures jobs.Keys == old(jobs).Keys + {item} && forall k | k in old(jobs) :: jobs[k] == old(jobs)[k]
      ensures item !in old(jobs) ==> job.Resumable() && job.kind == kind && job.payload == payload
    {
      if item !in jobs {
        jobs := jobs[item := Job(kind, payload, Queued, None, now, now, |jobs|)];
      }
      job := jobs[item];
    }

    /** None stands for the ValueError; the transaction is rolled back by not having begun to write. */
    method EnqueueSeason(item: ItemId, payload: Payload, now: int) returns (job: Option<Job>)
      modifies this`jobs
      ensures match SeasonEnqueued(old(jobs), item, payload, now)
        case Some(after) => jobs == after && item in jobs && job == Some(jobs[item])
        case None => jobs == old(jobs) && job == None
    {
      if item in jobs {
        return if jobs[item].kind == Season then Some(jobs[item]) else None;
      }
      var episodes := payload.episodes;
      if episodes == [] {
        return None;
      }
      var seen := {item};
      for i := 0 to |episodes|
        invariant jobs == old(jobs)
        invariant ChildrenFit(jobs, item, episodes, {item}) == ChildrenFit(jobs, item, episodes[i..], seen)
      {
        var child := episodes[i];
        assert episodes[i..][0] == child && episodes[i..][1..] == episodes[i + 1..];
        if child.item in seen || child.payload.parent != Some(item) {
          return None;
        }
        seen := seen + {child.item};
        if child.item in jobs && (jobs[child.item].kind != EpisodeItem || jobs[child.item].payload != child.payload ||
           jobs[child.item].stage in {Complete, Blocked}) {
          return None;
        }
      }
      var season := Enqueue(item, Season, payload, now);
      ghost var seated := jobs;
      for i := 0 to |episodes|
        invariant WithChildren(jobs, episodes[i..], now) == WithChildren(seated, episodes, now)
        invariant item in jobs && jobs[item] == season
      {
        var child := episodes[i];
        assert episodes[i..][0] == child && episodes[i..][1..] == episodes[i + 1..];
        if child.item !in jobs {
          jobs := jobs[child.item := Job(EpisodeItem, child.payload, Queued, None, now, now, |jobs|)];
        }
      }
      job := Some(jobs[item]);
    }

    /** The least recently attempted resumable job. */
    method NextQueued() returns (next: Option<ItemId>)
      requires RowsNumbered(jobs)
      ensures next.Some? ==> IsNext(jobs, next.value)
      ensures next.None? ==> !exists item :: IsNext(jobs, item)
    {
      next := None;
      var rest := jobs.Keys;
      while rest != {}
        invariant rest <= jobs.Keys
        invariant next.None? ==> forall k | k in jobs && k !in rest :: !jobs[k].Resumable()
        invariant next.Some? ==> next.value in jobs && next.value !in rest && jobs[next.value].Resumable()
        invariant next.Some? ==>
          forall k | k in jobs && k !in rest && k != next.value && jobs[k].Resumable() ::
            Precedes(jobs[next.value], jobs[k])
        decreases rest
      {
        var item :| item in rest;
        rest := rest - {item};
        if jobs[item].Resumable() && (next.None? || Precedes(jobs[item], jobs[next.value])) {
          if next.Some? {
            forall k | k in jobs { PrecedesIsAnOrder(jobs[item], jobs[next.value], jobs[k]); }
          }
          next := Some(item);
        } else if next.Some? {
          PrecedesIsAnOrder(jobs[item], jobs[next.value], jobs[item]);
        }
      }
    }

    method Touch(item: ItemId, now: int)
      modifies this`jobs
      ensures jobs == Touched(old(jobs), item, now)
      ensures jobs.Keys == old(jobs).Keys && forall k | k in jobs && k != item :: jobs[k] == old(jobs)[k]
      ensures item in jobs ==>
        jobs[item].stage == old(jobs)[item].stage && jobs[item].payload == old(jobs)[item].payload
    {
      if item in jobs {
        jobs := jobs[item := jobs[item].(updated := now)];
      }
    }

    /** False stands for the KeyError. */
    method SetStage(item: ItemId, stage: Stage, error: Option<string>, now: int) returns (found: bool)
      modifies this`jobs
      ensures found == (item in old(jobs))
      ensures jobs == if found then StageSet(old(jobs), item, stage, error, now) else old(jobs)
      ensures jobs.Keys == old(jobs).Keys && forall k | k in jobs && k != item :: jobs[k] == old(jobs)[k]
      ensures found ==> jobs[item].stage == stage && jobs[item].error == error
      ensures found ==> jobs[item].payload == old(jobs)[item].payload && jobs[item].created == old(jobs)[item].created
    {
      if item !in jobs {
        return false;
      }
      if jobs[item].stage != stage || jobs[item].error != error {
        jobs := jobs[item := jobs[item].(stage := stage, error := error, updated := now)];
      }
      found := true;
    }

    method Tombstone(keys: set<MediaKey>)
      modifies this`tombstones
      ensures tombstones == old(tombstones) + keys
    {
      tombstones := tombstones + keys;
    }
  }

  class DeletionCoordinator {
    const jobs: DeletionJobStore
    var log: seq<Event>

    constructor (jobs: DeletionJobStore)
      ensures this.jobs == jobs && log == []
    {
      this.jobs, log := jobs, [];
    }

    function View(): State
      reads this, jobs
    {
      State(jobs.jobs, jobs.tombstones, log)
    }

    /** One stage's work: its tombstones first, then whatever it removes, as far as it gets. */
    method Work(item: ItemId, o: Outcome)
      requires item in jobs.jobs
      modifies this, jobs`tombstones
      ensures View() == Acted(old(View()), item, o)
    {
      var job := jobs.jobs[item];
      var done := o.ending == Succeeded || o.ending == DiedUncommitted;
      if o.reached || done {
        if job.stage == Validated {
          jobs.Tombstone({job.payload.key});
        } else if job.stage == Tombstoned && job.kind == Season {
          jobs.Tombstone(o.keys);
        }
        assert jobs.tombstones == old(jobs.tombstones) + Marks(job, o);
        log := log + [Attempt(item, job.stage, jobs.tombstones)];
        if done {
          log := log + [Confirmed(item, job.stage)];
        } else {
          assert log + [] == log;
        }
      }
    }

    /** `_season_children`: None where it raises. */
    method SeasonChildren(season: Job) returns (children: Option<seq<Job>>)
      ensures children.Some? <==>
        ChildrenIntact(jobs.jobs, season) &&
        forall child | child in season.payload.episodes :: jobs.jobs[child.item].stage != Blocked
      ensures children.Some? ==> |children.value| == |season.payload.episodes|
      ensures children.Some? ==>
        forall i | 0 <= i < |children.value| ::
          ChildIntact(jobs.jobs, season.payload.episodes[i]) &&
          children.value[i] == jobs.jobs[season.payload.episodes[i].item]
    {
      var episodes := season.payload.episodes;
      var result: seq<Job> := [];
      for i := 0 to |episodes|
        invariant |result| == i
        invariant forall k | 0 <= k < i ::
                    ChildIntact(jobs.jobs, episodes[k]) && result[k] == jobs.jobs[episodes[k].item]
        invariant forall k | 0 <= k < i :: result[k].stage != Blocked
      {
        var child := episodes[i];
        assert child in episodes;
        if child.item !in jobs.jobs || jobs.jobs[child.item].kind != EpisodeItem ||
           jobs.jobs[child.item].payload != child.payload {
          return None;
        }
        if jobs.jobs[child.item].stage == Blocked {
          return None;
        }
        result := result + [jobs.jobs[child.item]];
      }
      children := Some(result);
    }

    method ProcessSeason(item: ItemId, outcomes: seq<Outcome>) returns (v: Verdict)
      requires item in jobs.jobs && jobs.jobs[item].kind == Season
      modifies this, jobs
      ensures (View(), v) == Driven(old(View()), item, outcomes)
    {
      hide StageGate, Acted;
      var i := 0;
      while i < |outcomes|
        invariant i <= |outcomes| && item in jobs.jobs && jobs.jobs[item].kind == Season
        invariant Driven(old(View()), item, outcomes) == Driven(View(), item, outcomes[i..])
      {
        var o, job := outcomes[i], jobs.jobs[item];
        assert outcomes[i..][0] == o && outcomes[i..][1..] == outcomes[i + 1..];
        var to;
        if job.stage == Queued {
          to := Validated;
        } else if job.stage == Validated {
          to := Tombstoned;
        } else if job.stage == Tombstoned {
          to := TorrentsRemoved;
        } else if job.stage == TorrentsRemoved {
          to := SeerrRemoved;
        } else if job.stage == SeerrRemoved {
          to := JellyfinRemoved;
        } else if job.stage == JellyfinRemoved {
          to := Complete;
        } else {
          return Blocks(o.at, o.error);
        }
        var gate := ChildGate(job);
        if gate != Open {
          return GateVerdict(gate, o);
        }
        Work(item, o);
        if o.ending != Succeeded {
          return EndingVerdict(o);
        }
        var found := jobs.SetStage(item, to, None, o.at);
        if to == Complete {
          return Finished;
        }
        i := i + 1;
      }
      v := Dies;
    }

    /** The season's own wait for its children. */
    method ChildGate(job: Job) returns (gate: Gate)
      ensures gate == StageGate(jobs.jobs, job)
    {
      if job.kind != Season || (job.stage != Queued && job.stage != Tombstoned) {
        return Open;
      }
      var children := SeasonChildren(job);
      if children.None? {
        return Refuses;
      }
      assert forall child | child in job.payload.episodes ::
        exists k :: 0 <= k < |children.value| && job.payload.episodes[k] == child;
      if job.stage == Tombstoned && exists k :: 0 <= k < |children.value| && children.value[k].stage != Complete {
        ghost var k :| 0 <= k < |children.value| && children.value[k].stage != Complete;
        assert job.payload.episodes[k] in job.payload.episodes;
        return Waits;
      }
      gate := Open;
    }

    method Process(item: ItemId, outcomes: seq<Outcome>) returns (v: Verdict)
      requires item in jobs.jobs
      modifies this, jobs
      ensures (View(), v) == Processed(old(View()), item, outcomes)
    {
      if outcomes == [] {
        return Dies;
      }
      if jobs.jobs[item].kind == Season {
        v := ProcessSeason(item, outcomes);
        return;
      }
      var parent := jobs.jobs[item].payload.parent;
      if parent.Some? {
        var p := parent.value;
        if p !in jobs.jobs || jobs.jobs[p].kind != Season || jobs.jobs[p].stage == Blocked {
          return ParentVerdict(Refuses, outcomes[0]);
        }
        if jobs.jobs[p].stage in {Queued, Validated} {
          return ParentVerdict(Waits, outcomes[0]);
        }
      }
      v := ProcessItem(item, outcomes);
    }

    method ProcessItem(item: ItemId, outcomes: seq<Outcome>) returns (v: Verdict)
      requires item in jobs.jobs && jobs.jobs[item].kind != Season
      modifies this, jobs
      ensures (View(), v) == Driven(old(View()), item, outcomes)
    {
      hide Acted;
      var i := 0;
      while i < |outcomes|
        invariant i <= |outcomes| && item in jobs.jobs && jobs.jobs[item].kind != Season
        invariant Driven(old(View()), item, outcomes) == Driven(View(), item, outcomes[i..])
      {
        var o, job := outcomes[i], jobs.jobs[item];
        assert outcomes[i..][0] == o && outcomes[i..][1..] == outcomes[i + 1..];
        var to;
        if job.stage == Queued {
          to := Validated;
        } else if job.stage == Validated {
          to := Tombstoned;
        } else if job.stage == Tombstoned {
          to := TorrentsRemoved;
        } else if job.stage == TorrentsRemoved {
          to := ArrRemoved;
        } else if job.stage == ArrRemoved {
          to := SeerrRemoved;
        } else if job.stage == SeerrRemoved {
          to := JellyfinRemoved;
        } else if job.stage == JellyfinRemoved {
          to := Complete;
        } else {
          return Blocks(o.at, o.error);
        }
        Work(item, o);
        if o.ending != Succeeded {
          return EndingVerdict(o);
        }
        var found := jobs.SetStage(item, to, None, o.at);
        if to == Complete {
          return Finished;
        }
        i := i + 1;
      }
      v := Dies;
    }

    /** The worker's turn; what it leaves is what the run semantics says it leaves. */
    method RunOnce(outcomes: seq<Outcome>) returns (v: Option<Verdict>)
      requires Orderly(View())
      modifies this, jobs
      ensures View() == Act(old(View()), Attend(outcomes)) && Orderly(View())
    {
      ActionStaysOrderly(View(), Attend(outcomes));
      OrderlyRows(View());
      hide Driven, Processed, Orderly, StageSet, Touched, Act, IsNext, RowsNumbered;
      var next := jobs.NextQueued();
      if next.None? {
        NothingToAttend(View(), outcomes);
        return None;
      }
      var item := next.value;
      ghost var before := View();
      AttendsToNext(before, item, outcomes);
      ProcessedKeepsItem(before, item, outcomes);
      var verdict := Process(item, outcomes);
      if verdict.Blocks? {
        var found := jobs.SetStage(item, Blocked, Some(verdict.error), verdict.at);
      } else if verdict.Retries? {
        var found := jobs.SetStage(item, jobs.jobs[item].stage, Some(verdict.error), verdict.at);
        jobs.Touch(item, verdict.at);
      }
      v := Some(verdict);
    }
  }

  lemma OrderlyRows(s: State)
    requires Orderly(s)
    ensures RowsNumbered(s.jobs)
  {
  }

  lemma NothingToAttend(s: State, outcomes: seq<Outcome>)
    requires !exists item :: IsNext(s.jobs, item)
    ensures Act(s, Attend(outcomes)) == s
  {
  }

  lemma AttendsToNext(s: State, item: ItemId, outcomes: seq<Outcome>)
    requires IsNext(s.jobs, item)
    ensures item in s.jobs && Act(s, Attend(outcomes)) == RunOnce(s, item, outcomes)
  {
    hide RunOnce;
    forall other | IsNext(s.jobs, other) ensures other == item { NextIsUnique(s.jobs, item, other); }
  }

  lemma ProcessedKeepsItem(s: State, item: ItemId, outcomes: seq<Outcome>)
    requires item in s.jobs
    ensures item in Processed(s, item, outcomes).0.jobs
  {
    DrivenKeepsItem(s, item, outcomes);
  }
}
