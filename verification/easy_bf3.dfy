/** The rewritten EASY scheduler, with its in-place heap sort. */
module EasyBf3 {
  import opened Machines
  import opened Profiles
  import opened Queues
  import opened HeapSorts
  import opened EasyBf2Model
  import opened EasyBf3Model
  import opened EasyBf3Proofs

  class EasyBackfilling3 {
    const cfg: Config
    const queue: Queue
    var scheduledJobs: seq<ScheduledJob>
    var availableMachines: MachineSet
    var nbAvailableMachines: int
    var priorityJob: PriorityJob
    var canRun: bool
    var decisions: seq<Decision>

    ghost function View(): FastState
      reads this, queue
    {
      FastState(scheduledJobs, availableMachines, nbAvailableMachines, priorityJob, queue.jobs, decisions)
    }

    ghost predicate WellFormed()
      reads this, queue
    {
      queue.order == cfg.order && FastInv(cfg, View())
    }

    constructor (cfg: Config)
      ensures WellFormed() && this.cfg == cfg && View() == InitialFast(cfg.nbMachines) && fresh(queue)
    {
      this.cfg := cfg;
      queue := new Queue(cfg.order);
      scheduledJobs, availableMachines, nbAvailableMachines := [], AllMachines(cfg.nbMachines), cfg.nbMachines;
      priorityJob := PriorityJob("", 0, 0, 0.0, 0.0);
      canRun := false;
      decisions := [];
      new;
      InitialFastInv(cfg);
    }

    method MaxHeap(root: nat, size: nat)
      requires size <= |scheduledJobs|
      modifies this`scheduledJobs
      ensures scheduledJobs == SiftDown(old(scheduledJobs), root, size)
      decreases size - root
    {
      var max, left := root, 2 * root + 1;
      var right := left + 1;
      if left < size && scheduledJobs[left].estFinishTime > scheduledJobs[max].estFinishTime {
        max := left;
      }
      if right < size && scheduledJobs[right].estFinishTime > scheduledJobs[max].estFinishTime {
        max := right;
      }
      if max != root {
        scheduledJobs := scheduledJobs[root := scheduledJobs[max]][max := scheduledJobs[root]];
        MaxHeap(max, size);
      }
    }

    method ScheduleHeapSort(size: nat)
      requires size == |scheduledJobs|
      modifies this`scheduledJobs
      ensures scheduledJobs == HeapSort(old(scheduledJobs))
      ensures SortedByFinish(scheduledJobs) && multiset(scheduledJobs) == multiset(old(scheduledJobs))
    {
      hide SiftDown, SortedByFinish;
      var i := size / 2;
      while i >= 0
        invariant -1 <= i && |scheduledJobs| == size
        invariant BuildHeap(scheduledJobs, i) == BuildHeap(old(scheduledJobs), size / 2)
      {
        MaxHeap(i, size);
        i := i - 1;
      }
      ghost var heap := scheduledJobs;
      assert heap == BuildHeap(old(scheduledJobs), size / 2);
      i := size - 1;
      while i > 0
        invariant -1 <= i < size || i == size == 0
        invariant |scheduledJobs| == size && i < size
        invariant ExtractAll(scheduledJobs, i) == ExtractAll(heap, size - 1)
      {
        scheduledJobs := scheduledJobs[0 := scheduledJobs[i]][i := scheduledJobs[0]];
        MaxHeap(0, i);
        i := i - 1;
      }
      HeapSortSorts(old(scheduledJobs));
    }

    /** Put the job on the list of running jobs, on the lowest-numbered free machines. */
    method HandleScheduledJob(job: Job, date: real) returns (started: ScheduledJob)
      requires job.res <= |availableMachines|
      modifies this`scheduledJobs, this`availableMachines, this`nbAvailableMachines
      ensures started == Running(job, old(availableMachines), date)
      ensures scheduledJobs == old(scheduledJobs) + [started]
      ensures availableMachines == old(availableMachines) - started.machines
      ensures nbAvailableMachines == old(nbAvailableMachines) - job.res
    {
      started := ScheduledJob(job.id, job.res, job.walltime, date, job.duration, date + job.duration,
                              Left(availableMachines, job.res));
      scheduledJobs := scheduledJobs + [started];
      availableMachines := availableMachines - started.machines;
      nbAvailableMachines := nbAvailableMachines - started.requestedResources;
    }

    method HandleFinishedJob(id: JobId)
      modifies this`scheduledJobs, this`availableMachines, this`nbAvailableMachines
      ensures View() == FinishJob(old(View()), id)
    {
      var i := 0;
      while i < |scheduledJobs| && scheduledJobs[i].id != id
        invariant 0 <= i <= |scheduledJobs| && FirstWithId(scheduledJobs, id, 0) == FirstWithId(scheduledJobs, id, i)
      {
        i := i + 1;
      }
      if i < |scheduledJobs| {
        var finished := scheduledJobs[i];
        availableMachines := availableMachines + finished.machines;
        nbAvailableMachines := nbAvailableMachines + finished.requestedResources;
        scheduledJobs := scheduledJobs[..i] + scheduledJobs[i + 1..];
      }
    }

    /** Start the head if it fits; otherwise compute when it will. */
    method CheckPriorityJob(job: Job, date: real) returns (started: ScheduledJob)
      requires nbAvailableMachines == |availableMachines|
      requires Noted(priorityJob, job).requestedResources == job.res
      modifies this`scheduledJobs, this`availableMachines, this`nbAvailableMachines, this`priorityJob, this`canRun
      ensures canRun <==> HeadCanRun(old(View()), job)
      ensures canRun ==>
                View() == StartFast(NoteHead(old(View()), job), job, date)
                && started == Running(job, old(availableMachines), date)
      ensures !canRun ==> View() == ShadowHead(old(View()), job)
    {
      hide HeapSort, SortedByFinish;
      var count := nbAvailableMachines;
      if priorityJob.id != job.id {
        priorityJob := priorityJob.(id := job.id, requestedResources := job.res);
      }
      canRun := priorityJob.requestedResources <= count;
      if canRun {
        started := HandleScheduledJob(job, date);
        ScheduleHeapSort(|scheduledJobs|);
      } else {
        started := ScheduledJob("", 0, 0.0, 0.0, 0.0, 0.0, {});
        ghost var scan := ScanShadow(priorityJob, job, scheduledJobs, 0, count);
        var i := 0;
        while i < |scheduledJobs|
          invariant 0 <= i <= |scheduledJobs|
          invariant View() == NoteHead(old(View()), job)
          invariant scan == ScanShadow(priorityJob, job, scheduledJobs, i, count)
        {
          var running := scheduledJobs[i];
          count := count + running.requestedResources;
          if count >= priorityJob.requestedResources {
            priorityJob := priorityJob.(shadowTime := running.estFinishTime,
                                        estFinishTime := running.estFinishTime + job.duration,
                                        extraResources := count - job.res);
            return;
          }
          i := i + 1;
        }
      }
    }

    method CheckNextJob(job: Job, date: real) returns (started: ScheduledJob)
      requires nbAvailableMachines == |availableMachines|
      modifies this`scheduledJobs, this`availableMachines, this`nbAvailableMachines, this`canRun
      ensures canRun <==> CanBackfill(old(View()), job, date)
      ensures canRun ==>
                View() == StartFast(old(View()), job, date) && started == Running(job, old(availableMachines), date)
      ensures !canRun ==> View() == old(View())
    {
      hide HeapSort, SortedByFinish;
      started := ScheduledJob("", 0, 0.0, 0.0, 0.0, 0.0, {});
      if date + job.duration <= priorityJob.shadowTime {
        canRun := job.res <= nbAvailableMachines;
      } else {
        canRun := job.res <= if nbAvailableMachines < priorityJob.extraResources then nbAvailableMachines
                             else priorityJob.extraResources;
      }
      if canRun {
        started := HandleScheduledJob(job, date);
        ScheduleHeapSort(|scheduledJobs|);
      }
    }

    method RemoveFinishedJobs(ended: seq<JobId>)
      modifies this`scheduledJobs, this`availableMachines, this`nbAvailableMachines
      ensures View() == FinishJobs(old(View()), ended)
    {
      hide FinishJob;
      var i := 0;
      assert ended[0..] == ended;
      while i < |ended|
        invariant 0 <= i <= |ended|
        invariant FinishJobs(old(View()), ended) == FinishJobs(View(), ended[i..])
      {
        assert ended[i..][1..] == ended[i + 1..];
        HandleFinishedJob(ended[i]);
        i := i + 1;
      }
    }

    method QueueReleasedJobs(released: seq<Job>, date: real) returns (recent: seq<Job>)
      modifies this`decisions, queue
      ensures View() == ReleaseAllFast(cfg, old(View()), released, date)
      ensures recent == Accepted(cfg, released)
    {
      hide ReleaseAllFast, Accepted;
      recent := [];
      var i := 0;
      assert released[0..] == released;
      while i < |released|
        invariant 0 <= i <= |released|
        invariant ReleaseAllFast(cfg, old(View()), released, date) == ReleaseAllFast(cfg, View(), released[i..], date)
        invariant Accepted(cfg, released) == recent + Accepted(cfg, released[i..])
      {
        var job := released[i];
        ReleaseFastNext(cfg, View(), released, i, date);
        if job.res > cfg.nbMachines {
          decisions := decisions + [Reject(job.id)];
        } else if !job.hasWalltime {
          decisions := decisions + [Reject(job.id)];
        } else {
          queue.AppendJob(job, date);
          recent := recent + [job];
        }
        i := i + 1;
      }
      assert released[i..] == [];
      ReleaseFastNone(cfg, View(), date);
    }

    method SortQueueWhileHandlingPriorityJob(before: Option<JobId>, date: real)
      requires queue.order == cfg.order && FastOk(cfg, View())
      modifies this`scheduledJobs, this`availableMachines, this`nbAvailableMachines, this`priorityJob, this`canRun,
               this`decisions, queue
      ensures View() == SortAndPlaceHeadFast(cfg, old(View()), before, date)
    {
      hide FastOk, SortQueue, StartFast, HeapSort, WithoutIndex, Noted, ScanShadow, Running;
      SortKeepsFast(cfg, View(), date);
      queue.SortJobs(date);
      var after := queue.FirstJobOrNull();
      if after == before { return; }
      ghost var start := View();
      var couldRun := true;
      while couldRun && |queue.jobs| > 0
        invariant couldRun ==> FastOk(cfg, View())
        invariant PlaceHeadFast(start, date) == if couldRun then PlaceHeadFast(View(), date) else View()
        decreases couldRun, |queue.jobs|
      {
        couldRun := false;
        var job := queue.jobs[0].job;
        ghost var st := View();
        HeadFacts(cfg, st, 0);
        var started := CheckPriorityJob(job, date);
        if canRun {
          decisions := decisions + [Execute(job.id, started.machines)];
          ExecuteKeeps(cfg, NoteHead(st, job), 0, date);
          FewerQueued(queue.jobs, 0);
          queue.RemoveJobAt(0);
          assert View() == Dequeue(ExecuteFast(NoteHead(st, job), job, date), 0);
          couldRun := true;
        }
      }
    }

    method BackfillReleasedJobs(recent: seq<Job>, date: real)
      requires FastInv(cfg, View()) && forall k :: k in recent ==> ForAll(queue.jobs, k)
      modifies this`scheduledJobs, this`availableMachines, this`nbAvailableMachines, this`canRun, this`decisions, queue
      ensures View() == BackfillNewFast(old(View()), recent, old(nbAvailableMachines), date)
    {
      hide FastOk, HeadBlocked, ForAll, StartFast, HeapSort, WithoutIndex, QueueIds, Running, CanBackfill;
      var nbAvailable := nbAvailableMachines;
      ghost var all := BackfillNewFast(View(), recent, nbAvailable, date);
      var i := 0;
      assert recent[0..] == recent;
      while i < |recent| && nbAvailable > 0
        invariant 0 <= i <= |recent| && FastOk(cfg, View())
        invariant forall k :: k in recent ==> ForAll(queue.jobs, k)
        invariant all == BackfillNewFast(View(), recent[i..], nbAvailable, date)
      {
        var job := recent[i];
        assert recent[i..][1..] == recent[i + 1..];
        var queued := queue.ContainsJob(job.id);
        var first := queue.FirstJobOrNull();
        if queued && first != Some(job.id) && job.res <= nbAvailable {
          ghost var st := View();
          ghost var at := IndexOf(queue.jobs, job.id, 0);
          QueuedAt(st.queue, job);
          CountIsSize(cfg, st);
          var started := CheckNextJob(job, date);
          if canRun {
            decisions := decisions + [Execute(job.id, started.machines)];
            nbAvailable := nbAvailable - job.res;
            BackfillFits(st, job, date);
            ExecuteKeeps(cfg, st, at, date);
            queue.RemoveJob(job.id);
            assert View() == Dequeue(ExecuteFast(st, job, date), at);
            forall k | k in recent ensures ForAll(queue.jobs, k) { ForAllLess(st.queue, k, at); }
          }
        }
        i := i + 1;
      }
    }

    method TraverseQueue(date: real)
      requires FastOk(cfg, View())
      modifies this`scheduledJobs, this`availableMachines, this`nbAvailableMachines, this`priorityJob, this`canRun,
               this`decisions, queue
      ensures View() == TraverseFast(old(View()), 0, Head(old(queue.jobs)), date)
    {
      hide FastOk, StartFast, HeapSort, WithoutIndex, Running, CanBackfill, Noted, ScanShadow, HeadCanRun;
      var priority := queue.FirstJobOrNull();
      ghost var all := TraverseFast(View(), 0, priority, date);
      var i := 0;
      while i < |queue.jobs|
        invariant 0 <= i <= |queue.jobs| && FastOk(cfg, View())
        invariant all == TraverseFast(View(), i, priority, date)
        decreases |queue.jobs| - i
      {
        var job := queue.jobs[i].job;
        ghost var st := View();
        HeadFacts(cfg, st, i);
        var started;
        if priority == Some(job.id) {
          started := CheckPriorityJob(job, date);
        } else {
          started := CheckNextJob(job, date);
          if canRun { BackfillFits(st, job, date); }
        }
        if canRun {
          decisions := decisions + [Execute(job.id, started.machines)];
          ghost var noted := if priority == Some(job.id) then NoteHead(st, job) else st;
          ExecuteKeeps(cfg, noted, i, date);
          FewerQueued(queue.jobs, i);
          queue.RemoveJobAt(i);
          assert View() == Dequeue(ExecuteFast(noted, job, date), i);
          if priority == Some(job.id) { priority := queue.FirstJobOrNull(); }
        } else {
          i := i + 1;
        }
      }
    }

    method MakeDecisions(call: Call)
      requires WellFormed() && FastCallOk(View(), call)
      modifies this, queue
      ensures View() == FastStep(cfg, old(View()), call)
      ensures WellFormed()
      ensures queue.jobs != [] ==> queue.jobs[0].job.res > nbAvailableMachines == |availableMachines|
    {
      hide FastOk, FastCallOk, FinishJobs, ReleaseAllFast, SortAndPlaceHeadFast, BackfillNewFast, TraverseFast, ForAll,
           Accepted;
      ghost var start := View();
      SettleKeeps(cfg, start, call);
      ArriveKeepsFast(cfg, start, call);
      FastStepKeepsInv(cfg, start, call);
      var before := queue.FirstJobOrNull();
      RemoveFinishedJobs(call.ended);
      var recent := QueueReleasedJobs(call.released, call.date);
      SortQueueWhileHandlingPriorityJob(before, call.date);
      if |call.ended| == 0 {
        BackfillReleasedJobs(recent, call.date);
      } else if nbAvailableMachines > 0 {
        TraverseQueue(call.date);
      }
      assert View() == FastStep(cfg, start, call);
      CountIsSize(cfg, View());
    }
  }

  lemma ReleaseFastNone(cfg: Config, st: FastState, date: real)
    ensures ReleaseAllFast(cfg, st, [], date) == st && Accepted(cfg, []) == []
  {
  }

  lemma ReleaseFastNext(cfg: Config, st: FastState, released: seq<Job>, i: nat, date: real)
    requires i < |released|
    ensures ReleaseAllFast(cfg, st, released[i..], date)
            == ReleaseAllFast(cfg, ReleaseFast(cfg, st, released[i], date), released[i + 1..], date)
    ensures Accepted(cfg, released[i..])
                == (if Accepts(cfg, released[i]) then [released[i]] else []) + Accepted(cfg, released[i + 1..])
  {
    assert released[i..][1..] == released[i + 1..];
  }

  lemma CountIsSize(cfg: Config, st: FastState)
    requires FastOk(cfg, st)
    ensures st.nbAvailable == |st.available|
  {
  }

  lemma HeadFacts(cfg: Config, st: FastState, i: nat)
    requires FastOk(cfg, st) && i < |st.queue|
    ensures st.nbAvailable == |st.available|
    ensures Noted(st.priority, st.queue[i].job).requestedResources == st.queue[i].job.res
    ensures HeadCanRun(st, st.queue[i].job) <==> st.queue[i].job.res <= st.nbAvailable
    ensures FastOk(cfg, NoteHead(st, st.queue[i].job)) && FastOk(cfg, ShadowHead(st, st.queue[i].job))
  {
    FastParts(cfg, st);
    NotedRequest(st, i);
    NoteKeeps(cfg, st, i);
  }

  lemma BackfillFits(st: FastState, job: Job, date: real)
    requires CanBackfill(st, job, date)
    ensures job.res <= st.nbAvailable
  {
  }

  lemma QueuedAt(q: JobQueue, job: Job)
    requires job.id in QueueIds(q) && ForAll(q, job)
    ensures IndexOf(q, job.id, 0) < |q| && q[IndexOf(q, job.id, 0)].job == job
  {
    var i :| 0 <= i < |q| && q[i].job.id == job.id;
    ForAllAt(q, job, IndexOf(q, job.id, 0));
  }
}
