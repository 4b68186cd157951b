/**
 Coordinated deletion: the durable jobs, the stages a coordinator drives each
 one through, and everything it does to the outside on the way, as a log.
 Checks and services may answer anything at any time, and the process may die
 between any two steps.
 */
module DeletionJobs {
  import opened Options

  type ItemId = nat
  type MediaKey = nat

  datatype Stage =
    | Queued | Validated | Tombstoned | TorrentsRemoved | ArrRemoved | SeerrRemoved | JellyfinRemoved
    | Complete | Blocked

  datatype Kind = Movie | EpisodeItem | Season

  /** A captured payload; `content` stands for all of it that only services read. */
  datatype Payload = Payload(content: string, key: MediaKey, parent: Option<ItemId>, episodes: seq<Child>)

  datatype Child = Child(item: ItemId, payload: Payload)

  datatype Job = Job(kind: Kind, payload: Payload, stage: Stage, error: Option<string>, created: int, updated: int,
                     rowid: nat)
  {
    predicate Resumable() {
      stage != Complete && stage != Blocked
    }
  }

  type Jobs = map<ItemId, Job>

  // ---- The job store ----

  function NewJob(jobs: Jobs, kind: Kind, payload: Payload, now: int): Job {
    Job(kind, payload, Queued, None, now, now, |jobs|)
  }

  /** `enqueue`: the first capture of an item is kept. */
  function Enqueued(jobs: Jobs, item: ItemId, kind: Kind, payload: Payload, now: int): Jobs {
    if item in jobs then jobs else jobs[item := NewJob(jobs, kind, payload, now)]
  }

  /** May this child be captured, after those in `seen`, without contradicting a job there is? */
  predicate ChildFits(jobs: Jobs, season: ItemId, child: Child, seen: set<ItemId>) {
    && child.item !in seen
    && child.payload.parent == Some(season)
    && (child.item in jobs ==>
          && jobs[child.item].kind == EpisodeItem && jobs[child.item].payload == child.payload
          && jobs[child.item].Resumable())
  }

  predicate ChildrenFit(jobs: Jobs, season: ItemId, children: seq<Child>, seen: set<ItemId>) {
    children == [] ||
    (ChildFits(jobs, season, children[0], seen) && ChildrenFit(jobs, season, children[1..], seen + {children[0].item}))
  }

  function WithChildren(jobs: Jobs, children: seq<Child>, now: int): Jobs
    decreases |children|
  {
    if children == [] then jobs
    else WithChildren(Enqueued(jobs, children[0].item, EpisodeItem, children[0].payload, now), children[1..], now)
  }

  /** `enqueue_season`: the season with all its children, or, where it raises, nothing. */
  function SeasonEnqueued(jobs: Jobs, item: ItemId, payload: Payload, now: int): Option<Jobs> {
    if item in jobs then
      if jobs[item].kind == Season then Some(jobs) else None
    else if payload.episodes == [] || !ChildrenFit(jobs, item, payload.episodes, {item}) then None
    else Some(WithChildren(Enqueued(jobs, item, Season, payload, now), payload.episodes, now))
  }

  function Touched(jobs: Jobs, item: ItemId, now: int): Jobs {
    if item in jobs then jobs[item := jobs[item].(updated := now)] else jobs
  }

  function StageSet(jobs: Jobs, item: ItemId, stage: Stage, error: Option<string>, now: int): Jobs
    requires item in jobs
  {
    if jobs[item].stage == stage && jobs[item].error == error then jobs
    else jobs[item := jobs[item].(stage := stage, error := error, updated := now)]
  }

  /** Python orders the rows by last attempt, then creation, then row number. */
  predicate Precedes(a: Job, b: Job) {
    || a.updated < b.updated
    || (a.updated == b.updated && (a.created < b.created || (a.created == b.created && a.rowid < b.rowid)))
  }

  predicate IsNext(jobs: Jobs, item: ItemId) {
    && item in jobs && jobs[item].Resumable()
    && forall other | other in jobs && jobs[other].Resumable() && other != item :: Precedes(jobs[item], jobs[other])
  }

  ghost predicate RowsNumbered(jobs: Jobs) {
    && (forall a, b | a in jobs && b in jobs && a != b :: jobs[a].rowid != jobs[b].rowid)
    && (forall a | a in jobs :: jobs[a].rowid < |jobs|)
  }

  lemma PrecedesIsAnOrder(a: Job, b: Job, c: Job)
    ensures Precedes(a, b) && Precedes(b, c) ==> Precedes(a, c)
    ensures a.rowid != b.rowid ==> Precedes(a, b) || Precedes(b, a)
    ensures !(Precedes(a, b) && Precedes(b, a))
  {
  }

  lemma {:induction false} LeastExists(jobs: Jobs, items: set<ItemId>) returns (least: ItemId)
    requires RowsNumbered(jobs) && items != {} && items <= jobs.Keys
    ensures least in items
    ensures forall other | other in items && other != least :: Precedes(jobs[least], jobs[other])
    decreases items
  {
    least :| least in items;
    if items != {least} {
      var best := LeastExists(jobs, items - {least});
      PrecedesIsAnOrder(jobs[least], jobs[best], jobs[best]);
      if Precedes(jobs[best], jobs[least]) {
        least := best;
      } else {
        forall other | other in items && other != least ensures Precedes(jobs[least], jobs[other]) {
          if other != best { PrecedesIsAnOrder(jobs[least], jobs[best], jobs[other]); }
        }
      }
    }
  }

  /** `next_queued` has a job to return unless every job is complete or blocked. */
  lemma NextExists(jobs: Jobs) returns (least: ItemId)
    requires RowsNumbered(jobs) && exists item :: item in jobs && jobs[item].Resumable()
    ensures IsNext(jobs, least)
  {
    var resumable := set item | item in jobs && jobs[item].Resumable();
    var some :| some in jobs && jobs[some].Resumable();
    assert some in resumable;
    least := LeastExists(jobs, resumable);
  }

  lemma NextIsUnique(jobs: Jobs, a: ItemId, b: ItemId)
    requires IsNext(jobs, a) && IsNext(jobs, b)
    ensures a == b
  {
    if a != b { PrecedesIsAnOrder(jobs[a], jobs[b], jobs[a]); }
  }

  // ---- Stages ----

  function Rank(s: Stage): nat {
    match s
    case Queued => 0
    case Validated => 1
    case Tombstoned => 2
    case TorrentsRemoved => 3
    case ArrRemoved => 4
    case SeerrRemoved => 5
    case JellyfinRemoved => 6
    case Complete => 7
    case Blocked => 8
  }

  /** A season owns no Arr file of its own. */
  function Following(kind: Kind, s: Stage): Option<Stage> {
    match s
    case Queued => Some(Validated)
    case Validated => Some(Tombstoned)
    case Tombstoned => Some(TorrentsRemoved)
    case TorrentsRemoved => Some(if kind == Season then SeerrRemoved else ArrRemoved)
    case ArrRemoved => if kind == Season then None else Some(SeerrRemoved)
    case SeerrRemoved => Some(JellyfinRemoved)
    case JellyfinRemoved => Some(Complete)
    case Complete => None
    case Blocked => None
  }

  datatype Gate = Open | Waits | Refuses

  /** A child may not start before its season has passed its own preflight. */
  function ParentGate(jobs: Jobs, job: Job): Gate {
    if job.kind == Season || job.payload.parent.None? then Open
    else
      var p := job.payload.parent.value;
      if p !in jobs || jobs[p].kind != Season || jobs[p].stage == Blocked then Refuses
      else if jobs[p].stage in {Queued, Validated} then Waits
      else Open
  }

  predicate ChildIntact(jobs: Jobs, child: Child) {
    child.item in jobs && jobs[child.item].kind == EpisodeItem && jobs[child.item].payload == child.payload
  }

  predicate ChildrenIntact(jobs: Jobs, season: Job) {
    forall child | child in season.payload.episodes :: ChildIntact(jobs, child)
  }

  /** What `_season_children`, and the wait for them, makes of the stage a job is at. */
  function StageGate(jobs: Jobs, job: Job): Gate {
    if job.kind != Season || job.stage !in {Queued, Tombstoned} then Open
    else if !ChildrenIntact(jobs, job) then Refuses
    else if exists child | child in job.payload.episodes :: jobs[child.item].stage == Blocked then Refuses
    else if job.stage == Tombstoned &&
            exists child | child in job.payload.episodes :: jobs[child.item].stage != Complete
    then Waits
    else Open
  }

  // ---- One attempt ----

  /** How one stage's work ends; `DiedUncommitted` did all of it and lost only the stage update. */
  datatype Ending = Succeeded | DiedUncommitted | Retried | Stopped | Died

  /** `reached` tells whether a failing step got as far as acting; `keys` are further tombstones it wrote. */
  datatype Outcome = Outcome(at: int, reached: bool, ending: Ending, keys: set<MediaKey>, error: string)

  datatype Event =
    | Attempt(item: ItemId, stage: Stage, tombstones: set<MediaKey>)
    | Confirmed(item: ItemId, stage: Stage)

  datatype State = State(jobs: Jobs, tombstones: set<MediaKey>, log: seq<Event>)

  datatype Verdict = Finished | Blocks(at: int, error: string) | Retries(at: int, error: string) | Dies

  /** Reading the parent's row may fail; otherwise its stage decides. */
  function ParentVerdict(g: Gate, o: Outcome): Verdict {
    if o.ending == Died then Dies
    else if g == Refuses && o.ending != Retried then Blocks(o.at, o.error)
    else Retries(o.at, o.error)
  }

  /** The mount guard and other checks come first and may stop the job on their own. */
  function GateVerdict(g: Gate, o: Outcome): Verdict {
    if o.ending == Stopped then Blocks(o.at, o.error) else ParentVerdict(g, o)
  }

  function EndingVerdict(o: Outcome): Verdict {
    match o.ending
    case Succeeded => Finished
    case Retried => Retries(o.at, o.error)
    case Stopped => Blocks(o.at, o.error)
    case _ => Dies
  }

  /** The tombstones the work of a stage writes before anything else it does. */
  function Marks(job: Job, o: Outcome): set<MediaKey> {
    if job.stage == Validated then {job.payload.key}
    else if job.stage == Tombstoned && job.kind == Season then o.keys
    else {}
  }

  predicate Worked(o: Outcome) {
    o.ending == Succeeded || o.ending == DiedUncommitted
  }

  /** The work of the stage the job is at, without the stage update. */
  function Acted(s: State, item: ItemId, o: Outcome): State
    requires item in s.jobs
  {
    var job := s.jobs[item];
    if !(o.reached || Worked(o)) then s
    else
      var marked := s.tombstones + Marks(job, o);
      s.(tombstones := marked,
         log := s.log + [Attempt(item, job.stage, marked)] + if Worked(o) then [Confirmed(item, job.stage)] else [])
  }

  /** The stage loop of `_process` and `_process_season`. */
  function Driven(s: State, item: ItemId, outcomes: seq<Outcome>): (State, Verdict)
    requires item in s.jobs
    decreases |outcomes|
  {
    if outcomes == [] then (s, Dies)
    else
      var o, job := outcomes[0], s.jobs[item];
      if Following(job.kind, job.stage).None? then (s, Blocks(o.at, o.error))
      else if StageGate(s.jobs, job) != Open then (s, GateVerdict(StageGate(s.jobs, job), o))
      else
        var acted, to := Acted(s, item, o), Following(job.kind, job.stage).value;
        if o.ending != Succeeded then (acted, EndingVerdict(o))
        else
          var stepped := acted.(jobs := StageSet(acted.jobs, item, to, None, o.at));
          if to == Complete then (stepped, Finished) else Driven(stepped, item, outcomes[1..])
  }

  function Processed(s: State, item: ItemId, outcomes: seq<Outcome>): (State, Verdict)
    requires item in s.jobs
  {
    if outcomes == [] then (s, Dies)
    else
      var gate := ParentGate(s.jobs, s.jobs[item]);
      if gate != Open then (s, ParentVerdict(gate, outcomes[0])) else Driven(s, item, outcomes)
  }

  /** How `run_once` records a verdict; a retrying job goes behind the others. */
  function Settled(s: State, item: ItemId, v: Verdict): State
    requires item in s.jobs
  {
    match v
    case Blocks(at, error) => s.(jobs := StageSet(s.jobs, item, Blocked, Some(error), at))
    case Retries(at, error) =>
      s.(jobs := Touched(StageSet(s.jobs, item, s.jobs[item].stage, Some(error), at), item, at))
    case _ => s
  }

  lemma {:induction false} DrivenKeepsItem(s: State, item: ItemId, outcomes: seq<Outcome>)
    requires item in s.jobs
    ensures Driven(s, item, outcomes).0.jobs.Keys == s.jobs.Keys
    decreases |outcomes|
  {
    if outcomes != [] {
      var o, job := outcomes[0], s.jobs[item];
      if Following(job.kind, job.stage).Some? && StageGate(s.jobs, job) == Open && o.ending == Succeeded {
        var to := Following(job.kind, job.stage).value;
        var acted := Acted(s, item, o);
        var stepped := acted.(jobs := StageSet(acted.jobs, item, to, None, o.at));
        DrivenKeepsItem(stepped, item, outcomes[1..]);
      }
    }
  }

  /** One `run_once` that picks `item`. */
  function RunOnce(s: State, item: ItemId, outcomes: seq<Outcome>): State
    requires item in s.jobs
  {
    DrivenKeepsItem(s, item, outcomes);
    var (after, verdict) := Processed(s, item, outcomes);
    Settled(after, item, verdict)
  }

  // ---- Runs ----

  datatype Action =
    | Capture(item: ItemId, kind: Kind, payload: Payload, now: int)
    | CaptureSeason(item: ItemId, payload: Payload, now: int)
    | Attend(outcomes: seq<Outcome>)

  /** The API captures movies, episodes, and seasons with their children; the worker attends to the next job. */
  ghost function Act(s: State, a: Action): State {
    match a
    case Capture(item, kind, payload, now) =>
      if kind == Season then s else s.(jobs := Enqueued(s.jobs, item, kind, payload, now))
    case CaptureSeason(item, payload, now) =>
      (match SeasonEnqueued(s.jobs, item, payload, now)
       case Some(jobs) => s.(jobs := jobs)
       case None => s)
    case Attend(outcomes) =>
      if exists item :: IsNext(s.jobs, item) then
        var item :| IsNext(s.jobs, item);
        RunOnce(s, item, outcomes)
      else s
  }

  ghost function Run(s: State, actions: seq<Action>): State
    decreases |actions|
  {
    if actions == [] then s else Run(Act(s, actions[0]), actions[1..])
  }
}
