/** The EASY backfilling scheduler over the profile. */
module EasyBf2 {
  import opened Machines
  import opened Profiles
  import opened FirstFits
  import opened Schedules
  import opened Queues
  import opened EasyBf2Model
  import opened EasyBf2Proofs
  import opened EasyBf2Guarantee

  predicate HasTime(job: Job) {
    job.hasWalltime && job.walltime > 0.0
  }

  ghost predicate Timed(q: JobQueue) {
    forall i :: 0 <= i < |q| ==> HasTime(q[i].job)
  }

  class EasyBackfilling2 {
    const cfg: Config
    const schedule: Schedule
    const queue: Queue
    var decisions: seq<Decision>

    ghost function View(): State
      reads this, schedule, queue
    {
      State(schedule.profile, queue.jobs, decisions)
    }

    /** The objects fit together, whatever the schedule and the queue hold. */
    ghost predicate Assembled()
      reads this, schedule, queue
    {
      schedule.WellFormed() && schedule.repairMachines == {} && schedule.nbMachines == cfg.nbMachines
      && queue.order == cfg.order && Timed(queue.jobs)
    }

    ghost predicate WellFormed()
      reads this, schedule, queue
    {
      Assembled() && Inv(cfg, View())
    }

    constructor (cfg: Config, date: real)
      requires cfg.nbMachines > 0 && date <= INFINITE_HORIZON
      ensures WellFormed() && this.cfg == cfg && fresh(schedule) && fresh(queue)
      ensures View() == State(Profiles.Fresh(cfg.nbMachines, date, INFINITE_HORIZON), [], [])
    {
      this.cfg := cfg;
      schedule := new Schedule(cfg.nbMachines, date);
      queue := new Queue(cfg.order);
      decisions := [];
      new;
      InitialState(cfg, date, INFINITE_HORIZON);
    }

    /** `add_job_first_fit` with its assertions: None when the job is already there or finds no place. */
    method InsertJob(job: Job) returns (r: Option<JobAlloc>)
      requires Assembled() && HasTime(job)
      modifies schedule
      ensures Assembled()
      ensures r.Some? <==> Insertion(cfg, old(schedule.profile), job).Some?
      ensures r.Some? ==> Insertion(cfg, old(schedule.profile), job) == Some(Added(schedule.profile, r.value))
    {
      hide Valid, Add, Timed;
      var x := schedule.FindFirstOccurenceOfJob(job.id, 0);
      if x < |schedule.profile| { return None; }
      var alloc := schedule.AddJobFirstFit(job, cfg.selector);
      r := if alloc.hasBeenInserted then Some(alloc) else None;
    }

    method RemoveEndedJobs(ended: seq<JobId>) returns (ok: bool)
      requires Assembled()
      modifies schedule
      ensures Assembled()
      ensures ok <==> EndJobs(old(View()), ended).Some?
      ensures ok ==> EndJobs(old(View()), ended) == Some(View())
    {
      hide Valid, Remove, Timed;
      var i := 0;
      while i < |ended|
        invariant 0 <= i <= |ended| && Assembled()
        invariant EndJobs(old(View()), ended) == EndJobs(View(), ended[i..])
      {
        assert ended[i..][1..] == ended[i + 1..];
        var removed := schedule.RemoveJobIfExists(ended[i]);
        if !removed { return false; }
        i := i + 1;
      }
      return true;
    }

    /** Reject the jobs that can never run and queue the others. */
    method QueueReleasedJobs(released: seq<Job>, date: real) returns (recent: seq<Job>)
      requires Assembled() && forall k :: k in released && k.hasWalltime ==> k.walltime > 0.0
      modifies this`decisions, queue
      ensures Assembled() && View() == ReleaseJobs(cfg, old(View()), released, date)
      ensures recent == Accepted(cfg, released) && forall k :: k in recent ==> HasTime(k)
    {
      hide Valid, Timed, ReleaseJobs, Accepted;
      ReleaseNone(cfg, View(), date);
      recent := [];
      var i := 0;
      assert released[0..] == released;
      while i < |released|
        invariant 0 <= i <= |released| && Assembled()
        invariant ReleaseJobs(cfg, old(View()), released, date) == ReleaseJobs(cfg, View(), released[i..], date)
        invariant Accepted(cfg, released) == recent + Accepted(cfg, released[i..])
        invariant forall k :: k in recent ==> HasTime(k)
      {
        var job := released[i];
        ReleaseNext(cfg, View(), released, i, date);
        if job.res > cfg.nbMachines {
          decisions := decisions + [Reject(job.id)];
        } else if !job.hasWalltime {
          decisions := decisions + [Reject(job.id)];
        } else {
          AppendTimed(queue.jobs, Entry(job, date));
          queue.AppendJob(job, date);
          recent := recent + [job];
        }
        i := i + 1;
      }
      assert released[i..] == [];
      ReleaseNone(cfg, View(), date);
    }

    method SortQueueWhileHandlingPriorityJob(before: Option<JobId>, date: real) returns (ok: bool)
      requires Assembled()
      modifies this`decisions, schedule, queue
      ensures ok <==> SortAndPlaceHead(cfg, old(View()), before, date).Some?
      ensures ok ==> Assembled() && SortAndPlaceHead(cfg, old(View()), before, date) == Some(View())
    {
      hide Valid, Remove, Timed, SortQueue, Insertion, WithoutIndex;
      SortTimed(cfg, queue.jobs, date);
      queue.SortJobs(date);
      var after := queue.FirstJobOrNull();
      if after == before { return true; }
      if before.Some? {
        var removed := schedule.RemoveJobIfExists(before.value);
      }
      ghost var start := View();
      assert SortAndPlaceHead(cfg, old(View()), before, date) == PlaceHead(cfg, start);
      var couldRun := true;
      while couldRun && |queue.jobs| > 0
        invariant Assembled()
        invariant PlaceHead(cfg, start) == if couldRun then PlaceHead(cfg, View()) else Some(View())
        decreases couldRun, |queue.jobs|
      {
        couldRun := false;
        var job := queue.jobs[0].job;
        TimedAt(queue.jobs, 0);
        var alloc := InsertJob(job);
        if alloc.None? { return false; }
        if alloc.value.startedInFirstSlice {
          decisions := decisions + [Execute(job.id, alloc.value.machines)];
          WithoutTimed(queue.jobs, 0);
          FewerQueued(queue.jobs, 0);
          queue.RemoveJobAt(0);
          couldRun := true;
        }
      }
      return true;
    }

    method BackfillReleasedJobs(recent: seq<Job>) returns (ok: bool)
      requires Assembled() && |schedule.profile| > 0 && forall k :: k in recent ==> HasTime(k)
      modifies this`decisions, schedule, queue
      ensures ok <==> BackfillNew(cfg, old(View()), recent, |old(schedule.profile)[0].available|).Some?
      ensures ok ==>
                Assembled()
                && BackfillNew(cfg, old(View()), recent, |old(schedule.profile)[0].available|) == Some(View())
    {
      hide Valid, Remove, Timed, Insertion, WithoutIndex, QueueIds;
      var nbAvailable := |schedule.profile[0].available|;
      ghost var all := BackfillNew(cfg, View(), recent, nbAvailable);
      var i := 0;
      while i < |recent| && nbAvailable > 0
        invariant 0 <= i <= |recent| && Assembled()
        invariant all == BackfillNew(cfg, View(), recent[i..], nbAvailable)
      {
        var job := recent[i];
        assert recent[i..][1..] == recent[i + 1..];
        var queued := queue.ContainsJob(job.id);
        var first := queue.FirstJobOrNull();
        if queued && first != Some(job.id) && job.res <= nbAvailable {
          IndexOfQueued(queue.jobs, job.id);
          var alloc := InsertJob(job);
          if alloc.None? { return false; }
          if alloc.value.startedInFirstSlice {
            decisions := decisions + [Execute(job.id, alloc.value.machines)];
            WithoutTimed(queue.jobs, IndexOf(queue.jobs, job.id, 0));
            queue.RemoveJob(job.id);
            nbAvailable := nbAvailable - job.res;
          } else {
            var removed := schedule.RemoveJobIfExists(job.id);
          }
        }
        i := i + 1;
      }
      return true;
    }

    method TraverseQueue() returns (ok: bool)
      requires Assembled()
      modifies this`decisions, schedule, queue
      ensures ok <==> Traverse(cfg, old(View()), 0, Head(old(queue.jobs))).Some?
      ensures ok ==> Assembled() && Traverse(cfg, old(View()), 0, Head(old(queue.jobs))) == Some(View())
    {
      hide Valid, Remove, Timed, Insertion, WithoutIndex;
      var priority := queue.FirstJobOrNull();
      ghost var all := Traverse(cfg, View(), 0, priority);
      var i := 0;
      while i < |queue.jobs|
        invariant 0 <= i <= |queue.jobs| && Assembled()
        invariant all == Traverse(cfg, View(), i, priority)
        decreases |queue.jobs| - i
      {
        var job := queue.jobs[i].job;
        TimedAt(queue.jobs, i);
        var removed := schedule.RemoveJobIfExists(job.id);
        var alloc := InsertJob(job);
        if alloc.None? { return false; }
        if alloc.value.startedInFirstSlice {
          decisions := decisions + [Execute(job.id, alloc.value.machines)];
          WithoutTimed(queue.jobs, i);
          FewerQueued(queue.jobs, i);
          queue.RemoveJobAt(i);
          if priority == Some(job.id) { priority := queue.FirstJobOrNull(); }
        } else {
          if priority != Some(job.id) {
            var undone := schedule.RemoveJobIfExists(job.id);
          }
          i := i + 1;
        }
      }
      return true;
    }

    /** One call. It ends with ok = false where the code's assertions would stop the program. */
    method MakeDecisions(call: Call) returns (ok: bool)
      requires WellFormed() && CallOk(View(), call)
      modifies this`decisions, schedule, queue
      ensures ok <==> Step(cfg, old(View()), call).Some?
      ensures ok ==> WellFormed() && Step(cfg, old(View()), call) == Some(View())
      ensures ok && old(queue.jobs) != [] && HeadAfterSort(cfg, old(View()), call) == Head(old(queue.jobs)) ==>
                forall b :: old(Reserved(cfg, View(), b)) ==> NotDelayed(cfg, View(), old(queue.jobs)[0].job, b)
    {
      hide Valid, Timed, Inv, Reserved, NotDelayed, EndJobs, ReleaseJobs, SortAndPlaceHead, BackfillNew,
        Traverse, Advance, HeadAfterSort, CallOk;
      ghost var start := View();
      var before := queue.FirstJobOrNull();
      ok := RemoveEndedJobs(call.ended);
      if !ok { return; }
      ReleasedTimed(start, call);
      var recent := QueueReleasedJobs(call.released, call.date);
      if !(|schedule.profile| > 0 && schedule.profile[0].begin <= call.date <= schedule.profile[0].end) {
        return false;
      }
      schedule.UpdateFirstSlice(call.date);
      assert Arrive(cfg, start, call) == Some(View());
      ok := SortQueueWhileHandlingPriorityJob(before, call.date);
      if !ok { return; }
      ghost var settled := View();
      if |schedule.profile| == 0 { return false; }
      if call.ended == [] {
        ok := BackfillReleasedJobs(recent);
      } else if |schedule.profile[0].available| > 0 {
        ok := TraverseQueue();
      }
      assert Step(cfg, start, call) == Backfill(cfg, settled, call);
      if ok {
        StepKeepsInv(cfg, start, call);
        forall b | Reserved(cfg, start, b) && HeadAfterSort(cfg, start, call) == Head(start.queue) && start.queue != []
          ensures NotDelayed(cfg, View(), start.queue[0].job, b)
        {
          HeadIsNotDelayed(cfg, start, call, b);
        }
      }
    }
  }

  lemma ReleasedTimed(st: State, call: Call)
    requires CallOk(st, call)
    ensures forall k :: k in call.released && k.hasWalltime ==> k.walltime > 0.0
  {
  }

  lemma ReleaseNone(cfg: Config, st: State, date: real)
    ensures ReleaseJobs(cfg, st, [], date) == st && Accepted(cfg, []) == []
  {
  }

  lemma ReleaseNext(cfg: Config, st: State, released: seq<Job>, i: nat, date: real)
    requires i < |released|
    ensures ReleaseJobs(cfg, st, released[i..], date)
                == ReleaseJobs(cfg, ReleaseJob(cfg, st, released[i], date), released[i + 1..], date)
    ensures Accepted(cfg, released[i..])
                == (if Accepts(cfg, released[i]) then [released[i]] else []) + Accepted(cfg, released[i + 1..])
  {
    assert released[i..][1..] == released[i + 1..];
  }

  lemma AppendTimed(q: JobQueue, j: SortableJob)
    requires Timed(q) && HasTime(j.job)
    ensures Timed(q + [j])
  {
  }

  lemma TimedAt(q: JobQueue, i: nat)
    requires Timed(q) && i < |q|
    ensures HasTime(q[i].job)
  {
  }

  lemma WithoutTimed(q: JobQueue, i: nat)
    requires Timed(q) && i < |q|
    ensures Timed(WithoutIndex(q, i))
  {
    var r := WithoutIndex(q, i);
    assert forall k :: 0 <= k < |r| ==> r[k] == q[if k < i then k else k + 1];
  }

  lemma SortTimed(cfg: Config, q: JobQueue, date: real)
    requires Timed(q)
    ensures Timed(SortQueue(cfg.order, q, date))
  {
    var a := AgedQueue(cfg.order, q, date);
    SortPermutes(cfg.order, a);
    var r := Sort(cfg.order, a);
    forall i | 0 <= i < |r| ensures HasTime(r[i].job) {
      assert r[i] in multiset(a);
      var k :| 0 <= k < |a| && a[k] == r[i];
      assert a[k].job == q[k].job;
    }
  }
}
