/** The retry queue is fair. */
module DeletionProgress {
  import opened Options
  import opened DeletionJobs
  import opened DeletionOrder

  // ---- Only the attended job changes ----

  ghost predicate OthersSame(jobs: Jobs, after: Jobs, item: ItemId) {
    && after.Keys == jobs.Keys
    && (forall other | other in jobs && other != item :: after[other] == jobs[other])
    && (item in jobs ==> SameCapture(jobs[item], after[item]))
  }

  lemma {:induction false} DrivingChangesOne(s: State, item: ItemId, outcomes: seq<Outcome>)
    requires item in s.jobs
    ensures OthersSame(s.jobs, Driven(s, item, outcomes).0.jobs, item)
    decreases |outcomes|
  {
    if outcomes != [] {
      hide StageGate;
      var o, job := outcomes[0], s.jobs[item];
      if Following(job.kind, job.stage).Some? && StageGate(s.jobs, job) == Open && o.ending == Succeeded {
        var to, acted := Following(job.kind, job.stage).value, Acted(s, item, o);
        var stepped := acted.(jobs := StageSet(acted.jobs, item, to, None, o.at));
        DrivingChangesOne(stepped, item, outcomes[1..]);
      }
    }
  }

  lemma AttemptChangesOne(s: State, item: ItemId, outcomes: seq<Outcome>)
    requires item in s.jobs
    ensures OthersSame(s.jobs, RunOnce(s, item, outcomes).jobs, item)
  {
    hide Driven, ParentGate, StageGate;
    DrivingChangesOne(s, item, outcomes);
    DrivenKeepsItem(s, item, outcomes);
  }

  // ---- Fairness ----

  /** The job an action attends to. */
  ghost predicate Attends(s: State, a: Action, item: ItemId) {
    a.Attend? && IsNext(s.jobs, item)
  }

  lemma UnattendedStays(s: State, a: Action, item: ItemId)
    requires RowsNumbered(s.jobs) && item in s.jobs && !Attends(s, a, item)
    ensures item in Act(s, a).jobs && Act(s, a).jobs[item] == s.jobs[item]
  {
    hide RunOnce, ChildrenFit, WithChildren, RowsNumbered;
    match a
    case Capture(other, kind, payload, now) =>
    case CaptureSeason(season, payload, now) =>
      if season !in s.jobs && SeasonEnqueued(s.jobs, season, payload, now).Some? {
        var seated := Enqueued(s.jobs, season, Season, payload, now);
        EnqueuingGrows(s.jobs, season, Season, payload, now);
        ChildrenFitStill(s.jobs, season, payload.episodes, {season}, season, seated[season]);
        ChildrenArrive(seated, season, payload.episodes, {season}, now);
      }
    case Attend(outcomes) =>
      if exists other :: IsNext(s.jobs, other) {
        var other :| IsNext(s.jobs, other);
        forall again | IsNext(s.jobs, again) ensures again == other { NextIsUnique(s.jobs, other, again); }
        AttemptChangesOne(s, other, outcomes);
      }
  }

  /** Some action of the run attends to the item. */
  ghost predicate AttendedIn(s: State, actions: seq<Action>, item: ItemId)
    decreases |actions|
  {
    actions != [] && (Attends(s, actions[0], item) || AttendedIn(Act(s, actions[0]), actions[1..], item))
  }

  /** While a job stands behind another, it is not attended to before that one is. */
  lemma {:induction false} EarlierGoesFirst(s: State, actions: seq<Action>, first: ItemId, second: ItemId)
    requires Orderly(s) && first in s.jobs && second in s.jobs && first != second
    requires s.jobs[first].Resumable() && Precedes(s.jobs[first], s.jobs[second])
    requires AttendedIn(s, actions, second)
    ensures !Attends(s, actions[0], second)
    ensures AttendedIn(s, actions[..|actions| - 1], first)
    decreases |actions|
  {
    hide Orderly, Act;
    PrecedesIsAnOrder(s.jobs[first], s.jobs[second], s.jobs[first]);
    OrderlyIsNumbered(s);
    assert !Attends(s, actions[0], second);
    var prefix := actions[..|actions| - 1];
    assert |actions| >= 2 && prefix[0] == actions[0] && prefix[1..] == actions[1..][..|actions[1..]| - 1];
    if !Attends(s, actions[0], first) {
      UnattendedStays(s, actions[0], first);
      UnattendedStays(s, actions[0], second);
      ActionStaysOrderly(s, actions[0]);
      EarlierGoesFirst(Act(s, actions[0]), actions[1..], first, second);
    }
  }

  lemma OrderlyIsNumbered(s: State)
    requires Orderly(s)
    ensures RowsNumbered(s.jobs)
  {
  }

  /**
   Once an attempt at a job has ended for a retry, later than every earlier attempt, any other job
   that could be resumed then is attended to before that job is again.
   */
  lemma RetriesTakeTurns(s: State, item: ItemId, outcomes: seq<Outcome>, actions: seq<Action>, other: ItemId)
    requires Orderly(s) && IsNext(s.jobs, item) && Processed(s, item, outcomes).1.Retries?
    requires other in s.jobs && other != item && s.jobs[other].Resumable()
    requires s.jobs[other].updated < Processed(s, item, outcomes).1.at
    requires AttendedIn(RunOnce(s, item, outcomes), actions, item)
    ensures AttendedIn(RunOnce(s, item, outcomes), actions[..|actions| - 1], other)
  {
    var after := RunOnce(s, item, outcomes);
    RetryStampsTime(s, item, outcomes);
    AttemptChangesOne(s, item, outcomes);
    AttemptStaysOrderly(s, item, outcomes);
    hide Orderly, RunOnce, Processed, AttendedIn;
    EarlierGoesFirst(after, actions, other, item);
  }

  lemma RetryStampsTime(s: State, item: ItemId, outcomes: seq<Outcome>)
    requires item in s.jobs && Processed(s, item, outcomes).1.Retries?
    ensures item in RunOnce(s, item, outcomes).jobs
    ensures RunOnce(s, item, outcomes).jobs[item].updated == Processed(s, item, outcomes).1.at
  {
    hide Driven, ParentGate, StageGate;
    DrivenKeepsItem(s, item, outcomes);
  }
}
