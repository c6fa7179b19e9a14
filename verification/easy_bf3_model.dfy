/** The rewritten EASY scheduler: a sorted list of running jobs, a set of free machines, and a shadow time for the
    head of the queue. The pure form of one call of `make_decisions`, loop by loop. */
module EasyBf3Model {
  import opened Machines
  import opened Profiles
  import opened Queues
  import opened HeapSorts
  import opened EasyBf2Model

  /** What is remembered of the head: the date by which enough machines are free, and how many are spare then. */
  datatype PriorityJob = PriorityJob(id: JobId, requestedResources: nat, extraResources: int, shadowTime: real,
                                     estFinishTime: real)

  datatype FastState = FastState(scheduled: seq<ScheduledJob>, available: MachineSet, nbAvailable: int,
                                 priority: PriorityJob, queue: JobQueue, decisions: seq<Decision>)

  function FirstWithId(s: seq<ScheduledJob>, id: JobId, from: nat): (r: nat)
    requires from <= |s|
    ensures from <= r <= |s|
    ensures forall k :: from <= k < r ==> s[k].id != id
    ensures r < |s| ==> s[r].id == id
    decreases |s| - from
  {
    if from == |s| || s[from].id == id then from else FirstWithId(s, id, from + 1)
  }

  /** `handle_finished_job`: give the machines back; an unknown job changes nothing. */
  function FinishJob(st: FastState, id: JobId): FastState {
    var i := FirstWithId(st.scheduled, id, 0);
    if i == |st.scheduled| then st
    else st.(scheduled := st.scheduled[..i] + st.scheduled[i + 1..],
             available := st.available + st.scheduled[i].machines,
             nbAvailable := st.nbAvailable + st.scheduled[i].requestedResources)
  }

  function FinishJobs(st: FastState, ended: seq<JobId>): FastState
    decreases |ended|
  {
    if ended == [] then st else FinishJobs(FinishJob(st, ended[0]), ended[1..])
  }

  function ReleaseFast(cfg: Config, st: FastState, job: Job, date: real): FastState {
    if Accepts(cfg, job) then st.(queue := st.queue + [Entry(job, date)])
    else st.(decisions := st.decisions + [Reject(job.id)])
  }

  function ReleaseAllFast(cfg: Config, st: FastState, released: seq<Job>, date: real): FastState
    decreases |released|
  {
    if released == [] then st
    else ReleaseAllFast(cfg, ReleaseFast(cfg, st, released[0], date), released[1..], date)
  }

  function Running(job: Job, available: MachineSet, date: real): ScheduledJob {
    ScheduledJob(job.id, job.res, job.walltime, date, job.duration, date + job.duration,
                 if job.res <= |available| then Left(available, job.res) else available)
  }

  /** `handle_scheduled_job`, and the sort that always follows it. */
  function StartFast(st: FastState, job: Job, date: real): FastState {
    var j := Running(job, st.available, date);
    st.(scheduled := HeapSort(st.scheduled + [j]),
        available := st.available - j.machines,
        nbAvailable := st.nbAvailable - job.res)
  }

  /** Start the job and tell the resource manager. */
  function ExecuteFast(st: FastState, job: Job, date: real): FastState {
    StartFast(st, job, date).(decisions := st.decisions + [Execute(job.id, Running(job, st.available, date).machines)])
  }

  /** The scan for the shadow time: accumulate machines in order of finish until the head has enough. */
  function ScanShadow(p: PriorityJob, job: Job, s: seq<ScheduledJob>, i: nat, count: int): PriorityJob
    requires i <= |s|
    decreases |s| - i
  {
    if i == |s| then p
    else
      var c := count + s[i].requestedResources;
      if c >= p.requestedResources then
        p.(shadowTime := s[i].estFinishTime, estFinishTime := s[i].estFinishTime + job.duration,
           extraResources := c - job.res)
      else ScanShadow(p, job, s, i + 1, c)
  }

  function Noted(p: PriorityJob, job: Job): PriorityJob {
    if p.id != job.id then p.(id := job.id, requestedResources := job.res) else p
  }

  predicate HeadCanRun(st: FastState, job: Job) {
    Noted(st.priority, job).requestedResources <= st.nbAvailable
  }

  /** `check_priority_job` on a head that cannot run: note it and compute its shadow time. */
  function ShadowHead(st: FastState, job: Job): FastState {
    st.(priority := ScanShadow(Noted(st.priority, job), job, st.scheduled, 0, st.nbAvailable))
  }

  function NoteHead(st: FastState, job: Job): FastState {
    st.(priority := Noted(st.priority, job))
  }

  /** `check_next_job`: a job behind the head may run if it ends by the shadow time, or uses only spare machines. */
  predicate CanBackfill(st: FastState, job: Job, date: real) {
    if date + job.duration <= st.priority.shadowTime then job.res <= st.nbAvailable
    else job.res <= (if st.nbAvailable < st.priority.extraResources then st.nbAvailable else st.priority.extraResources)
  }

  function Dequeue(st: FastState, i: nat): FastState
    requires i < |st.queue|
  {
    st.(queue := WithoutIndex(st.queue, i))
  }

  function PlaceHeadFast(st: FastState, date: real): FastState
    decreases |st.queue|
  {
    if st.queue == [] then st
    else
      var job := st.queue[0].job;
      if HeadCanRun(st, job) then PlaceHeadFast(Dequeue(ExecuteFast(NoteHead(st, job), job, date), 0), date)
      else ShadowHead(st, job)
  }

  function SortAndPlaceHeadFast(cfg: Config, st: FastState, before: Option<JobId>, date: real): FastState {
    var sorted := st.(queue := SortQueue(cfg.order, st.queue, date));
    if Head(sorted.queue) == before then sorted else PlaceHeadFast(sorted, date)
  }

  ghost function BackfillNewFast(st: FastState, recent: seq<Job>, nbAvailable: int, date: real): FastState
    decreases |recent|
  {
    if recent == [] || nbAvailable <= 0 then st
    else
      var job := recent[0];
      if job.id in QueueIds(st.queue) && Head(st.queue) != Some(job.id) && job.res <= nbAvailable
         && CanBackfill(st, job, date) && IndexOf(st.queue, job.id, 0) < |st.queue| then
        BackfillNewFast(Dequeue(ExecuteFast(st, job, date), IndexOf(st.queue, job.id, 0)), recent[1..],
                        nbAvailable - job.res, date)
      else BackfillNewFast(st, recent[1..], nbAvailable, date)
  }

  function TraverseFast(st: FastState, i: nat, priority: Option<JobId>, date: real): FastState
    decreases |st.queue| - i
  {
    if i >= |st.queue| then st
    else
      var job := st.queue[i].job;
      if priority == Some(job.id) then
        if HeadCanRun(st, job) then
          var r := Dequeue(ExecuteFast(NoteHead(st, job), job, date), i);
          TraverseFast(r, i, Head(r.queue), date)
        else TraverseFast(ShadowHead(st, job), i + 1, priority, date)
      else if CanBackfill(st, job, date) then
        TraverseFast(Dequeue(ExecuteFast(st, job, date), i), i, priority, date)
      else TraverseFast(st, i + 1, priority, date)
  }

  ghost function BackfillFast(cfg: Config, st: FastState, call: Call): FastState {
    if call.ended == [] then BackfillNewFast(st, Accepted(cfg, call.released), st.nbAvailable, call.date)
    else if st.nbAvailable > 0 then TraverseFast(st, 0, Head(st.queue), call.date)
    else st
  }

  function ArriveFast(cfg: Config, st: FastState, call: Call): FastState {
    ReleaseAllFast(cfg, FinishJobs(st, call.ended), call.released, call.date)
  }

  /** `make_decisions`. */
  ghost function FastStep(cfg: Config, st: FastState, call: Call): FastState {
    BackfillFast(cfg, SortAndPlaceHeadFast(cfg, ArriveFast(cfg, st, call), Head(st.queue), call.date), call)
  }

  function InitialFast(nbMachines: nat): FastState {
    FastState([], AllMachines(nbMachines), nbMachines, PriorityJob("", 0, 0, 0.0, 0.0), [], [])
  }
}
