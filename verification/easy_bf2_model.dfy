/** EASY backfilling over the profile, as a state machine driven by calls of `make_decisions`:
    the pure form of one call, loop by loop. A failed assertion of the code is the result None. */
module EasyBf2Model {
  import opened Machines
  import opened Profiles
  import opened FirstFits
  import opened Slots
  import opened Queues

  datatype Config = Config(nbMachines: nat, selector: Selector, order: Order)

  datatype Decision = Execute(job: JobId, machines: MachineSet) | Reject(job: JobId)

  datatype State = State(profile: Profile, queue: JobQueue, decisions: seq<Decision>)

  /** One call: its date, the jobs that ended and the jobs that were released since the last call. */
  datatype Call = Call(date: real, ended: seq<JobId>, released: seq<Job>)

  /** No call is later than `last`, no job longer than `longest`, and the profile reaches up to the horizon. */
  datatype Limits = Limits(last: real, longest: real, horizon: real)

  predicate Accepts(cfg: Config, job: Job) {
    job.res <= cfg.nbMachines && job.hasWalltime
  }

  /** `remove_job` for every job that ended; it insists that the job is in the schedule. */
  ghost function EndJobs(st: State, ended: seq<JobId>): Option<State>
    decreases |ended|
  {
    if ended == [] then Some(st)
    else if !Contains(st.profile, ended[0]) then None
    else EndJobs(st.(profile := Remove(st.profile, ended[0], {})), ended[1..])
  }

  function ReleaseJob(cfg: Config, st: State, job: Job, date: real): State {
    if Accepts(cfg, job) then st.(queue := st.queue + [Entry(job, date)])
    else st.(decisions := st.decisions + [Reject(job.id)])
  }

  function ReleaseJobs(cfg: Config, st: State, released: seq<Job>, date: real): State
    decreases |released|
  {
    if released == [] then st
    else ReleaseJobs(cfg, ReleaseJob(cfg, st, released[0], date), released[1..], date)
  }

  function Accepted(cfg: Config, released: seq<Job>): seq<Job> {
    if released == [] then []
    else (if Accepts(cfg, released[0]) then [released[0]] else []) + Accepted(cfg, released[1..])
  }

  /** `add_job_first_fit`, which insists that the job is new and finds a place. */
  ghost function Insertion(cfg: Config, p: Profile, job: Job): Option<Added> {
    if Contains(p, job.id) then None
    else if Add(p, 0, job, cfg.selector).alloc.hasBeenInserted then Some(Add(p, 0, job, cfg.selector))
    else None
  }

  /** While the head of the queue can start now, start it; reserve a place for the first head that cannot. */
  ghost function PlaceHead(cfg: Config, st: State): Option<State>
    decreases |st.queue|
  {
    if st.queue == [] then Some(st)
    else
      var job := st.queue[0].job;
      match Insertion(cfg, st.profile, job)
      case None => None
      case Some(Added(p, alloc)) =>
        if alloc.startedInFirstSlice then
          PlaceHead(cfg, State(p, WithoutIndex(st.queue, 0), st.decisions + [Execute(job.id, alloc.machines)]))
        else Some(st.(profile := p))
  }

  /** `sort_queue_while_handling_priority_job`. */
  ghost function SortAndPlaceHead(cfg: Config, st: State, before: Option<JobId>, date: real): Option<State> {
    var sorted := st.(queue := SortQueue(cfg.order, st.queue, date));
    if Head(sorted.queue) == before then Some(sorted)
    else PlaceHead(cfg, if before.Some? then sorted.(profile := Remove(st.profile, before.value, {})) else sorted)
  }

  /** No job ended: try to start each newly released job that is not the head. */
  ghost function BackfillNew(cfg: Config, st: State, recent: seq<Job>, nbAvailable: int): Option<State>
    decreases |recent|
  {
    if recent == [] || nbAvailable <= 0 then Some(st)
    else
      var job := recent[0];
      if job.id in QueueIds(st.queue) && Head(st.queue) != Some(job.id) && job.res <= nbAvailable then
        match Insertion(cfg, st.profile, job)
        case None => None
        case Some(Added(p, alloc)) =>
          if alloc.startedInFirstSlice && IndexOf(st.queue, job.id, 0) < |st.queue| then
            BackfillNew(cfg, State(p, WithoutIndex(st.queue, IndexOf(st.queue, job.id, 0)),
                                   st.decisions + [Execute(job.id, alloc.machines)]),
                        recent[1..], nbAvailable - job.res)
          else BackfillNew(cfg, st.(profile := Remove(p, job.id, {})), recent[1..], nbAvailable)
      else BackfillNew(cfg, st, recent[1..], nbAvailable)
  }

  /** Some job ended: try to start every job of the queue from position i on; the head keeps its new place if it
      cannot start. */
  ghost function Traverse(cfg: Config, st: State, i: nat, priority: Option<JobId>): Option<State>
    decreases |st.queue| - i
  {
    if i >= |st.queue| then Some(st)
    else
      var job := st.queue[i].job;
      match Insertion(cfg, Remove(st.profile, job.id, {}), job)
      case None => None
      case Some(Added(p, alloc)) =>
        if alloc.startedInFirstSlice then
          var rest := WithoutIndex(st.queue, i);
          Traverse(cfg, State(p, rest, st.decisions + [Execute(job.id, alloc.machines)]), i,
                   if priority == Some(job.id) then Head(rest) else priority)
        else if priority == Some(job.id) then Traverse(cfg, st.(profile := p), i + 1, priority)
        else Traverse(cfg, st.(profile := Remove(p, job.id, {})), i + 1, priority)
  }

  ghost function Backfill(cfg: Config, st: State, call: Call): Option<State> {
    if |st.profile| == 0 then None
    else if call.ended == [] then BackfillNew(cfg, st, Accepted(cfg, call.released), |st.profile[0].available|)
    else if |st.profile[0].available| > 0 then Traverse(cfg, st, 0, Head(st.queue))
    else Some(st)
  }

  /** The state after the ended jobs left, the released jobs queued up and the present moved to the call's date. */
  ghost function Arrive(cfg: Config, st: State, call: Call): Option<State> {
    match EndJobs(st, call.ended)
    case None => None
    case Some(s) =>
      var r := ReleaseJobs(cfg, s, call.released, call.date);
      if CanAdvance(r.profile, call.date) then Some(r.(profile := Advance(r.profile, call.date))) else None
  }

  /** `make_decisions`. */
  ghost function Step(cfg: Config, st: State, call: Call): Option<State> {
    match Arrive(cfg, st, call)
    case None => None
    case Some(s) =>
      match SortAndPlaceHead(cfg, s, Head(st.queue), call.date)
      case None => None
      case Some(r) => Backfill(cfg, r, call)
  }
}
