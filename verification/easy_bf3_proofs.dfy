/** What every call of the rewritten scheduler keeps: machines are conserved, the running jobs stay sorted, and the
    head of the queue never waits while it fits. */
module EasyBf3Proofs {
  import opened Machines
  import opened Profiles
  import opened Queues
  import opened HeapSorts
  import opened EasyBf2Model
  import opened EasyBf3Model

  // ---------------------------------------------------------------- the running jobs

  /** Different running jobs, on different machines. */
  ghost predicate Apart(s: seq<ScheduledJob>) {
    forall i, k :: 0 <= i < k < |s| ==> s[i].id != s[k].id && s[i].machines !! s[k].machines
  }

  ghost function RunningIds(s: seq<ScheduledJob>): set<JobId> {
    set j | j in s :: j.id
  }

  /** Every machine is free or held by a running job, never both; each job holds as many as it requested. */
  ghost predicate Conserved(all: MachineSet, available: MachineSet, s: seq<ScheduledJob>) {
    && available <= all
    && (forall j :: j in s ==> j.machines <= all && j.machines !! available && |j.machines| == j.requestedResources)
    && (forall m :: m in all ==> m in available || exists j :: j in s && m in j.machines)
  }

  ghost predicate PlatformOk(all: MachineSet, st: FastState) {
    Conserved(all, st.available, st.scheduled) && Apart(st.scheduled) && st.nbAvailable == |st.available|
    && SortedByFinish(st.scheduled)
  }

  lemma SwapApart(s: seq<ScheduledJob>, i: nat, k: nat)
    requires Apart(s) && i < |s| && k < |s|
    ensures Apart(Swap(s, i, k))
  {
  }

  lemma {:induction false} SiftApart(s: seq<ScheduledJob>, root: nat, size: nat)
    requires size <= |s| && Apart(s)
    ensures Apart(SiftDown(s, root, size))
    decreases size - root
  {
    hide Apart;
    var max := Latest(s, root, size);
    if max != root {
      SwapApart(s, root, max);
      SiftApart(Swap(s, root, max), max, size);
    }
  }

  lemma {:induction false} BuildApart(s: seq<ScheduledJob>, i: int)
    requires Apart(s)
    ensures Apart(BuildHeap(s, i))
    decreases i
  {
    hide Apart;
    if i >= 0 {
      SiftApart(s, i, |s|);
      BuildApart(SiftDown(s, i, |s|), i - 1);
    }
  }

  lemma {:induction false} ExtractApart(s: seq<ScheduledJob>, i: int)
    requires i < |s| && Apart(s)
    ensures Apart(ExtractAll(s, i))
    decreases i
  {
    hide Apart;
    if i > 0 {
      SwapApart(s, 0, i);
      SiftApart(Swap(s, 0, i), 0, i);
      ExtractApart(SiftDown(Swap(s, 0, i), 0, i), i - 1);
    }
  }

  lemma SortApart(s: seq<ScheduledJob>)
    requires Apart(s)
    ensures Apart(HeapSort(s))
  {
    hide Apart;
    BuildApart(s, |s| / 2);
    ExtractApart(BuildHeap(s, |s| / 2), |s| - 1);
  }

  // ---------------------------------------------------------------- starting and finishing a job

  lemma ConservedStart(all: MachineSet, available: MachineSet, s: seq<ScheduledJob>, j: ScheduledJob)
    requires Conserved(all, available, s) && j.machines <= available && |j.machines| == j.requestedResources
    ensures Conserved(all, available - j.machines, s + [j])
  {
    var t := s + [j];
    forall k | k in t
      ensures k.machines <= all && k.machines !! (available - j.machines) && |k.machines| == k.requestedResources
    {
      assert k in s || k == j;
    }
    forall m | m in all ensures m in available - j.machines || exists k :: k in t && m in k.machines {
      if m in j.machines {
        assert j in t;
      } else if m !in available {
        var k :| k in s && m in k.machines;
        assert k in t;
      }
    }
  }

  lemma ConservedPermutes(all: MachineSet, available: MachineSet, s: seq<ScheduledJob>, t: seq<ScheduledJob>)
    requires Conserved(all, available, s) && forall j :: j in t <==> j in s
    ensures Conserved(all, available, t)
  {
    forall m | m in all && m !in available ensures exists j :: j in t && m in j.machines {
      var j :| j in s && m in j.machines;
      assert j in t;
    }
  }

  lemma ApartStart(all: MachineSet, available: MachineSet, s: seq<ScheduledJob>, j: ScheduledJob)
    requires Apart(s) && Conserved(all, available, s) && j.machines <= available && j.id !in RunningIds(s)
    ensures Apart(s + [j])
  {
    assert forall i :: 0 <= i < |s| ==> s[i] in s && s[i].id in RunningIds(s);
  }

  /** A job that fits now starts: the platform stays consistent and the list sorted. */
  lemma StartKeeps(all: MachineSet, st: FastState, job: Job, date: real)
    requires PlatformOk(all, st) && job.res <= st.nbAvailable && job.id !in RunningIds(st.scheduled)
    ensures PlatformOk(all, StartFast(st, job, date))
    ensures RunningIds(StartFast(st, job, date).scheduled) == RunningIds(st.scheduled) + {job.id}
  {
    hide HeapSort, SortedByFinish, Apart, Conserved;
    var j := Running(job, st.available, date);
    var t := st.scheduled + [j];
    ConservedStart(all, st.available, st.scheduled, j);
    ApartStart(all, st.available, st.scheduled, j);
    SortApart(t);
    HeapSortSorts(t);
    HeapSortMembers(t);
    ConservedPermutes(all, st.available - j.machines, t, HeapSort(t));
    assert st.available == (st.available - j.machines) + j.machines;
    StartIds(st.scheduled, j, HeapSort(t));
  }

  lemma StartIds(s: seq<ScheduledJob>, j: ScheduledJob, t: seq<ScheduledJob>)
    requires forall k :: k in t <==> k in s + [j]
    ensures RunningIds(t) == RunningIds(s) + {j.id}
  {
    assert j in t;
    assert forall k :: k in s ==> k in t;
  }

  lemma WithoutOneKeeps(s: seq<ScheduledJob>, i: nat)
    requires i < |s|
    ensures var t := s[..i] + s[i + 1..];
            (Apart(s) ==> Apart(t)) && (SortedByFinish(s) ==> SortedByFinish(t))
  {
    var t := s[..i] + s[i + 1..];
    assert forall k :: 0 <= k < |t| ==> t[k] == s[if k < i then k else k + 1];
  }

  lemma WithoutOne(s: seq<ScheduledJob>, i: nat)
    requires i < |s| && Apart(s)
    ensures forall j :: j in s[..i] + s[i + 1..] <==> j in s && j != s[i]
  {
    var t := s[..i] + s[i + 1..];
    forall j | j in t ensures j in s && j != s[i] {
      var k :| 0 <= k < |t| && t[k] == j;
      assert t[k] == s[if k < i then k else k + 1];
    }
    forall j | j in s && j != s[i] ensures j in t {
      var k :| 0 <= k < |s| && s[k] == j;
      assert t[if k < i then k else k - 1] == s[k];
    }
  }

  lemma WithoutOneIds(s: seq<ScheduledJob>, i: nat)
    requires i < |s| && Apart(s)
    ensures RunningIds(s[..i] + s[i + 1..]) == RunningIds(s) - {s[i].id}
  {
    WithoutOne(s, i);
    var t := s[..i] + s[i + 1..];
    forall j | j in s && j != s[i] ensures j.id != s[i].id {
      var k :| 0 <= k < |s| && s[k] == j;
    }
  }

  lemma ConservedFinish(all: MachineSet, available: MachineSet, s: seq<ScheduledJob>, t: seq<ScheduledJob>,
                        f: ScheduledJob)
    requires Conserved(all, available, s) && f in s && forall j :: j in t <==> j in s && j != f
    requires forall j :: j in t ==> j.machines !! f.machines
    ensures Conserved(all, available + f.machines, t)
  {
    forall m | m in all && m !in available + f.machines ensures exists j :: j in t && m in j.machines {
      var j :| j in s && m in j.machines;
      assert j in t;
    }
  }

  /** A finished job gives its machines back. */
  lemma FinishKeeps(all: MachineSet, st: FastState, id: JobId)
    requires PlatformOk(all, st)
    ensures PlatformOk(all, FinishJob(st, id)) && FinishJob(st, id).nbAvailable >= st.nbAvailable
    ensures RunningIds(FinishJob(st, id).scheduled) == RunningIds(st.scheduled) - {id}
  {
    hide SortedByFinish, Conserved, Apart, RunningIds;
    var i := FirstWithId(st.scheduled, id, 0);
    if i < |st.scheduled| {
      var f := st.scheduled[i];
      var t := FinishJob(st, id).scheduled;
      WithoutOne(st.scheduled, i);
      WithoutOneKeeps(st.scheduled, i);
      WithoutOneIds(st.scheduled, i);
      ApartFrom(st.scheduled, i);
      ConservedFinish(all, st.available, st.scheduled, t, f);
      ConservedOne(all, st.available, st.scheduled, f);
    } else {
      NoSuchId(st.scheduled, id);
    }
  }

  lemma NoSuchId(s: seq<ScheduledJob>, id: JobId)
    requires FirstWithId(s, id, 0) == |s|
    ensures RunningIds(s) - {id} == RunningIds(s)
  {
  }

  lemma ApartFrom(s: seq<ScheduledJob>, i: nat)
    requires i < |s| && Apart(s)
    ensures forall j :: j in s && j != s[i] ==> j.machines !! s[i].machines
  {
    forall j | j in s && j != s[i] ensures j.machines !! s[i].machines {
      var k :| 0 <= k < |s| && s[k] == j;
    }
  }

  lemma ConservedOne(all: MachineSet, available: MachineSet, s: seq<ScheduledJob>, f: ScheduledJob)
    requires Conserved(all, available, s) && f in s
    ensures |available + f.machines| == |available| + f.requestedResources
  {
    assert available !! f.machines;
  }

  // ---------------------------------------------------------------- the invariant of a call

  ghost predicate QueueFits(cfg: Config, st: FastState) {
    && Distinct(st.queue)
    && RunningIds(st.scheduled) !! QueueIds(st.queue)
    && forall k :: k in st.queue ==> k.job.res <= cfg.nbMachines
  }

  /** Whatever is noted under a queued job's identifier is that job's request. */
  ghost predicate PriorityOk(st: FastState) {
    forall k :: k in st.queue && k.job.id == st.priority.id ==> k.job.res == st.priority.requestedResources
  }

  ghost predicate FastOk(cfg: Config, st: FastState) {
    PlatformOk(AllMachines(cfg.nbMachines), st) && QueueFits(cfg, st) && PriorityOk(st)
  }

  /** Work conservation: the head of a non-empty queue requests more machines than are free. */
  ghost predicate HeadBlocked(st: FastState) {
    st.queue != [] ==> st.queue[0].job.res > st.nbAvailable
  }

  ghost predicate FastInv(cfg: Config, st: FastState) {
    FastOk(cfg, st) && HeadBlocked(st)
  }

  ghost predicate FastCallOk(st: FastState, call: Call) {
    && (forall i :: 0 <= i < |call.released| ==>
          call.released[i].id !in QueueIds(st.queue) && call.released[i].id !in RunningIds(st.scheduled)
          && call.released[i].id != st.priority.id)
    && (forall i, k :: 0 <= i < k < |call.released| ==> call.released[i].id != call.released[k].id)
  }

  lemma NotedRequest(st: FastState, i: nat)
    requires PriorityOk(st) && i < |st.queue|
    ensures Noted(st.priority, st.queue[i].job).requestedResources == st.queue[i].job.res
    ensures Noted(st.priority, st.queue[i].job).id == st.queue[i].job.id
  {
    assert st.queue[i] in st.queue;
  }

  lemma {:induction false} ScanKeepsNote(p: PriorityJob, job: Job, s: seq<ScheduledJob>, i: nat, count: int)
    requires i <= |s|
    ensures ScanShadow(p, job, s, i, count).id == p.id
    ensures ScanShadow(p, job, s, i, count).requestedResources == p.requestedResources
    decreases |s| - i
  {
    if i < |s| && count + s[i].requestedResources < p.requestedResources {
      ScanKeepsNote(p, job, s, i + 1, count + s[i].requestedResources);
    }
  }

  lemma SubQueuePriority(st: FastState, r: FastState)
    requires PriorityOk(st) && r.priority == st.priority && forall k :: k in r.queue ==> k in st.queue
    ensures PriorityOk(r)
  {
  }

  /** Starting the queued job at position i keeps the invariant of the call and frees nothing. */
  lemma ExecuteKeeps(cfg: Config, st: FastState, i: nat, date: real)
    requires FastOk(cfg, st) && i < |st.queue| && st.queue[i].job.res <= st.nbAvailable
    ensures var r := Dequeue(ExecuteFast(st, st.queue[i].job, date), i);
            && FastOk(cfg, r) && r.nbAvailable <= st.nbAvailable && r.queue == WithoutIndex(st.queue, i)
            && r.priority == st.priority
  {
    hide PlatformOk, HeapSort, RunningIds, PriorityOk;
    var job := st.queue[i].job;
    assert job.id in QueueIds(st.queue);
    StartKeeps(AllMachines(cfg.nbMachines), st, job, date);
    WithoutIndexKeeps(st.queue, i);
    var r := Dequeue(ExecuteFast(st, job, date), i);
    PlatformQueueFree(AllMachines(cfg.nbMachines), StartFast(st, job, date), r);
    assert forall k :: k in r.queue ==> k in st.queue;
    SubQueuePriority(st, r);
  }

  lemma PlatformQueueFree(all: MachineSet, st: FastState, r: FastState)
    requires PlatformOk(all, st) && r.scheduled == st.scheduled && r.available == st.available
    requires r.nbAvailable == st.nbAvailable
    ensures PlatformOk(all, r)
  {
  }

  lemma NoteKeeps(cfg: Config, st: FastState, i: nat)
    requires FastOk(cfg, st) && i < |st.queue|
    ensures FastOk(cfg, NoteHead(st, st.queue[i].job)) && FastOk(cfg, ShadowHead(st, st.queue[i].job))
  {
    hide PlatformOk, QueueFits;
    var job := st.queue[i].job;
    NotedRequest(st, i);
    var p := Noted(st.priority, job);
    ScanKeepsNote(p, job, st.scheduled, 0, st.nbAvailable);
    PlatformQueueFree(AllMachines(cfg.nbMachines), st, NoteHead(st, job));
    PlatformQueueFree(AllMachines(cfg.nbMachines), st, ShadowHead(st, job));
    assert QueueFits(cfg, NoteHead(st, job)) && QueueFits(cfg, ShadowHead(st, job)) by { QueueFitsSame(cfg, st, job); }
    assert PriorityOk(NoteHead(st, job)) && PriorityOk(ShadowHead(st, job)) by { PriorityIs(cfg, st, i); }
  }

  lemma QueueFitsSame(cfg: Config, st: FastState, job: Job)
    requires QueueFits(cfg, st)
    ensures QueueFits(cfg, NoteHead(st, job)) && QueueFits(cfg, ShadowHead(st, job))
  {
  }

  lemma PriorityIs(cfg: Config, st: FastState, i: nat)
    requires QueueFits(cfg, st) && PriorityOk(st) && i < |st.queue|
    ensures PriorityOk(NoteHead(st, st.queue[i].job)) && PriorityOk(ShadowHead(st, st.queue[i].job))
  {
    NotedRequest(st, i);
    ScanKeepsNote(Noted(st.priority, st.queue[i].job), st.queue[i].job, st.scheduled, 0, st.nbAvailable);
    forall k | k in st.queue && k.job.id == st.queue[i].job.id ensures k == st.queue[i] {
      var x :| 0 <= x < |st.queue| && st.queue[x] == k;
    }
  }

  lemma {:induction false} PlaceHeadFastKeeps(cfg: Config, st: FastState, date: real)
    requires FastOk(cfg, st)
    ensures FastInv(cfg, PlaceHeadFast(st, date))
    decreases |st.queue|
  {
    hide PlatformOk, QueueFits, PriorityOk, HeapSort, WithoutIndex, Noted, ScanShadow, FastOk;
    if st.queue != [] {
      var job := st.queue[0].job;
      FastParts(cfg, st);
      NotedRequest(st, 0);
      NoteKeeps(cfg, st, 0);
      if HeadCanRun(st, job) {
        ExecuteKeeps(cfg, NoteHead(st, job), 0, date);
        FewerQueued(st.queue, 0);
        PlaceHeadFastKeeps(cfg, Dequeue(ExecuteFast(NoteHead(st, job), job, date), 0), date);
      }
    }
  }

  lemma FastParts(cfg: Config, st: FastState)
    requires FastOk(cfg, st)
    ensures PlatformOk(AllMachines(cfg.nbMachines), st) && QueueFits(cfg, st) && PriorityOk(st) && st.nbAvailable >= 0
  {
  }

  // ---------------------------------------------------------------- arriving, sorting

  lemma {:induction false} FinishJobsKeep(cfg: Config, st: FastState, ended: seq<JobId>)
    requires FastOk(cfg, st)
    ensures var r := FinishJobs(st, ended);
            FastOk(cfg, r) && r.queue == st.queue && r.priority == st.priority && r.nbAvailable >= st.nbAvailable
            && RunningIds(r.scheduled) <= RunningIds(st.scheduled)
    decreases |ended|
  {
    hide PlatformOk, FinishJob, RunningIds;
    if ended != [] {
      FinishKeeps(AllMachines(cfg.nbMachines), st, ended[0]);
      FinishLeavesQueue(st, ended[0]);
      FinishJobsKeep(cfg, FinishJob(st, ended[0]), ended[1..]);
    }
  }

  lemma FinishLeavesQueue(st: FastState, id: JobId)
    ensures FinishJob(st, id).queue == st.queue && FinishJob(st, id).priority == st.priority
    ensures FinishJob(st, id).decisions == st.decisions
  {
  }

  lemma {:induction false} ReleaseAllKeep(cfg: Config, st: FastState, released: seq<Job>, date: real)
    requires FastOk(cfg, st) && FastCallOk(st, Call(date, [], released))
    ensures var r := ReleaseAllFast(cfg, st, released, date);
            FastOk(cfg, r) && st.queue <= r.queue && r.nbAvailable == st.nbAvailable && r.scheduled == st.scheduled
    decreases |released|
  {
    hide PlatformOk, RunningIds;
    if released != [] {
      var job := released[0];
      var r := ReleaseFast(cfg, st, job, date);
      AppendKeeps(st.queue, Entry(job, date));
      PlatformQueueFree(AllMachines(cfg.nbMachines), st, r);
      ReleaseAllKeep(cfg, r, released[1..], date);
    }
  }

  lemma SortKeepsFast(cfg: Config, st: FastState, date: real)
    requires FastOk(cfg, st)
    ensures FastOk(cfg, st.(queue := SortQueue(cfg.order, st.queue, date)))
    ensures Head(SortQueue(cfg.order, st.queue, date)) == Head(st.queue) && st.queue != [] ==>
              SortQueue(cfg.order, st.queue, date) != []
              && SortQueue(cfg.order, st.queue, date)[0].job == st.queue[0].job
  {
    hide PlatformOk, SortQueue, RunningIds;
    var q := SortQueue(cfg.order, st.queue, date);
    SortQueueKeepsJobs(cfg.order, st.queue, date);
    SortQueueIds(cfg.order, st.queue, date);
    PlatformQueueFree(AllMachines(cfg.nbMachines), st, st.(queue := q));
    forall k | k in q
      ensures k.job.res <= cfg.nbMachines
      ensures k.job.id == st.priority.id ==> k.job.res == st.priority.requestedResources
    {
      var i :| 0 <= i < |st.queue| && k.job == st.queue[i].job;
      assert st.queue[i] in st.queue;
    }
    if st.queue != [] && Head(q) == Head(st.queue) {
      assert q[0] in q;
      var i :| 0 <= i < |st.queue| && q[0].job == st.queue[i].job;
      assert i == 0;
    }
  }

  // ---------------------------------------------------------------- backfilling

  lemma {:induction false} BackfillNewFastKeeps(cfg: Config, st: FastState, recent: seq<Job>, nb: int, date: real)
    requires FastInv(cfg, st) && forall k :: k in recent ==> ForAll(st.queue, k)
    ensures FastInv(cfg, BackfillNewFast(st, recent, nb, date))
    decreases |recent|
  {
    hide PlatformOk, QueueFits, PriorityOk, HeapSort, WithoutIndex, QueueIds, ForAll, FastOk;
    if recent != [] && nb > 0 {
      var job := recent[0];
      var i := IndexOf(st.queue, job.id, 0);
      if job.id in QueueIds(st.queue) && Head(st.queue) != Some(job.id) && job.res <= nb && CanBackfill(st, job, date)
         && i < |st.queue| {
        assert st.queue[i].job == job by { ForAllAt(st.queue, job, i); }
        ExecuteKeeps(cfg, st, i, date);
        FewerQueued(st.queue, i);
        var r := Dequeue(ExecuteFast(st, job, date), i);
        forall k | k in recent[1..] ensures ForAll(r.queue, k) { ForAllLess(st.queue, k, i); }
        BackfillNewFastKeeps(cfg, r, recent[1..], nb - job.res, date);
      } else {
        BackfillNewFastKeeps(cfg, st, recent[1..], nb, date);
      }
    }
  }

  /** A queue entry with the job's identifier is that job. */
  ghost predicate ForAll(q: JobQueue, job: Job) {
    forall x :: x in q && x.job.id == job.id ==> x.job == job
  }

  lemma ForAllAt(q: JobQueue, job: Job, i: nat)
    requires ForAll(q, job) && i < |q| && q[i].job.id == job.id
    ensures q[i].job == job
  {
    assert q[i] in q;
  }

  lemma ForAllLess(q: JobQueue, job: Job, i: nat)
    requires ForAll(q, job) && i < |q|
    ensures ForAll(WithoutIndex(q, i), job)
  {
    assert forall x :: x in WithoutIndex(q, i) ==> x in q;
  }

  lemma {:induction false} TraverseBehindHeadFast(cfg: Config, st: FastState, i: nat, date: real)
    requires FastInv(cfg, st) && i > 0
    ensures FastInv(cfg, TraverseFast(st, i, Head(st.queue), date))
    decreases |st.queue| - i
  {
    hide PlatformOk, PriorityOk, HeapSort, WithoutIndex, QueueIds, RunningIds;
    if i < |st.queue| {
      var job := st.queue[i].job;
      assert Head(st.queue) != Some(job.id);
      if CanBackfill(st, job, date) {
        ExecuteKeeps(cfg, st, i, date);
        FewerQueued(st.queue, i);
        TraverseBehindHeadFast(cfg, Dequeue(ExecuteFast(st, job, date), i), i, date);
      } else {
        TraverseBehindHeadFast(cfg, st, i + 1, date);
      }
    }
  }

  lemma {:induction false} TraverseFromHeadFast(cfg: Config, st: FastState, date: real)
    requires FastOk(cfg, st)
    ensures FastInv(cfg, TraverseFast(st, 0, Head(st.queue), date))
    decreases |st.queue|
  {
    hide PlatformOk, QueueFits, PriorityOk, HeapSort, WithoutIndex, Noted, ScanShadow, FastOk;
    if st.queue != [] {
      var job := st.queue[0].job;
      FastParts(cfg, st);
      NotedRequest(st, 0);
      NoteKeeps(cfg, st, 0);
      if HeadCanRun(st, job) {
        ExecuteKeeps(cfg, NoteHead(st, job), 0, date);
        FewerQueued(st.queue, 0);
        TraverseFromHeadFast(cfg, Dequeue(ExecuteFast(NoteHead(st, job), job, date), 0), date);
      } else {
        TraverseBehindHeadFast(cfg, ShadowHead(st, job), 1, date);
      }
    }
  }

  // ---------------------------------------------------------------- one call

  lemma {:induction false} ReleasedAreQueued(cfg: Config, st: FastState, released: seq<Job>, date: real)
    ensures var r := ReleaseAllFast(cfg, st, released, date);
            && st.queue <= r.queue
            && forall k :: k in Accepted(cfg, released) ==> exists x :: x in r.queue && x.job == k
    decreases |released|
  {
    if released != [] {
      var s := ReleaseFast(cfg, st, released[0], date);
      ReleasedAreQueued(cfg, s, released[1..], date);
      var r := ReleaseAllFast(cfg, st, released, date);
      if Accepts(cfg, released[0]) {
        var x := Entry(released[0], date);
        assert s.queue[|st.queue|] == x;
        assert r.queue[|st.queue|] == x;
        assert x in r.queue;
      }
    }
  }

  lemma QueuedIsOnly(q: JobQueue, k: Job)
    requires Distinct(q) && exists x :: x in q && x.job == k
    ensures ForAll(q, k)
  {
    var x :| x in q && x.job == k;
    var i :| 0 <= i < |q| && q[i] == x;
    forall y | y in q && y.job.id == k.id ensures y.job == k {
      var m :| 0 <= m < |q| && q[m] == y;
    }
  }

  lemma {:induction false} PlaceHeadQueue(st: FastState, date: real)
    ensures forall x :: x in PlaceHeadFast(st, date).queue ==> x in st.queue
    decreases |st.queue|
  {
    hide ExecuteFast, NoteHead, ScanShadow, Noted;
    if st.queue != [] {
      var job := st.queue[0].job;
      if HeadCanRun(st, job) {
        ExecuteQueue(NoteHead(st, job), job, date);
        NoteQueue(st, job);
        PlaceHeadQueue(Dequeue(ExecuteFast(NoteHead(st, job), job, date), 0), date);
      }
    }
  }

  lemma ExecuteQueue(st: FastState, job: Job, date: real)
    ensures ExecuteFast(st, job, date).queue == st.queue && ExecuteFast(st, job, date).priority == st.priority
  {
  }

  lemma NoteQueue(st: FastState, job: Job)
    ensures NoteHead(st, job).queue == st.queue
  {
  }

  lemma SortedQueueFinds(cfg: Config, q: JobQueue, date: real, k: Job)
    requires Distinct(q) && exists x :: x in q && x.job == k
    ensures ForAll(SortQueue(cfg.order, q, date), k)
  {
    hide SortQueue;
    SortQueueKeepsJobs(cfg.order, q, date);
    var x :| x in q && x.job == k;
    var i :| 0 <= i < |q| && q[i] == x;
    var r := SortQueue(cfg.order, q, date);
    var m :| 0 <= m < |r| && r[m].job == q[i].job;
    assert r[m] in r;
    QueuedIsOnly(r, k);
  }

  /** The arrivals of a call, sorted, with the head placed: consistent, and the head is blocked. */
  lemma SettleKeeps(cfg: Config, st: FastState, call: Call)
    requires FastInv(cfg, st) && FastCallOk(st, call)
    ensures var s := ArriveFast(cfg, st, call);
            var r := SortAndPlaceHeadFast(cfg, s, Head(st.queue), call.date);
            && FastOk(cfg, r)
            && (call.ended == [] || r.nbAvailable <= 0 ==> HeadBlocked(r))
            && (forall k :: k in Accepted(cfg, call.released) ==> ForAll(r.queue, k))
  {
    hide PlatformOk, QueueFits, PriorityOk, FinishJobs, ReleaseAllFast, SortQueue, PlaceHeadFast, ForAll;
    FinishJobsKeep(cfg, st, call.ended);
    var f := FinishJobs(st, call.ended);
    assert FastCallOk(f, Call(call.date, [], call.released));
    ReleaseAllKeep(cfg, f, call.released, call.date);
    ReleasedAreQueued(cfg, f, call.released, call.date);
    var s := ArriveFast(cfg, st, call);
    SortKeepsFast(cfg, s, call.date);
    var q := SortQueue(cfg.order, s.queue, call.date);
    var r := SortAndPlaceHeadFast(cfg, s, Head(st.queue), call.date);
    forall k | k in Accepted(cfg, call.released) ensures ForAll(q, k) {
      FastDistinct(cfg, s);
      SortedQueueFinds(cfg, s.queue, call.date, k);
    }
    if Head(q) != Head(st.queue) {
      PlaceHeadFastKeeps(cfg, s.(queue := q), call.date);
      PlaceHeadQueue(s.(queue := q), call.date);
      forall k | k in Accepted(cfg, call.released) ensures ForAll(r.queue, k) { ForAllSub(q, r.queue, k); }
    } else if st.queue != [] {
      FastParts(cfg, st);
      assert call.ended == [] ==> f == st by { NoneFinished(st); }
    }
  }

  lemma ArriveKeepsFast(cfg: Config, st: FastState, call: Call)
    requires FastOk(cfg, st) && FastCallOk(st, call)
    ensures FastOk(cfg, ArriveFast(cfg, st, call))
  {
    hide PlatformOk, QueueFits, PriorityOk, FinishJobs, ReleaseAllFast;
    FinishJobsKeep(cfg, st, call.ended);
    var f := FinishJobs(st, call.ended);
    assert FastCallOk(f, Call(call.date, [], call.released));
    ReleaseAllKeep(cfg, f, call.released, call.date);
  }

  lemma NoneFinished(st: FastState)
    ensures FinishJobs(st, []) == st
  {
  }

  lemma FastDistinct(cfg: Config, st: FastState)
    requires FastOk(cfg, st)
    ensures Distinct(st.queue)
  {
  }

  lemma ForAllSub(q: JobQueue, r: JobQueue, k: Job)
    requires ForAll(q, k) && forall x :: x in r ==> x in q
    ensures ForAll(r, k)
  {
  }

  /** Every call conserves the machines, keeps the running jobs sorted, and leaves a head that does not fit: the
      head of the queue never waits while enough machines are free, whichever branch of the call ran. */
  lemma FastStepKeepsInv(cfg: Config, st: FastState, call: Call)
    requires FastInv(cfg, st) && FastCallOk(st, call)
    ensures FastInv(cfg, FastStep(cfg, st, call))
  {
    hide FastOk, FastCallOk, ArriveFast, SortAndPlaceHeadFast, BackfillNewFast, TraverseFast, HeadBlocked, ForAll;
    SettleKeeps(cfg, st, call);
    var r := SortAndPlaceHeadFast(cfg, ArriveFast(cfg, st, call), Head(st.queue), call.date);
    if call.ended == [] {
      BackfillNewFastKeeps(cfg, r, Accepted(cfg, call.released), r.nbAvailable, call.date);
    } else if r.nbAvailable > 0 {
      TraverseFromHeadFast(cfg, r, call.date);
    }
  }

  // ---------------------------------------------------------------- whole runs

  ghost predicate IsFastRun(cfg: Config, states: seq<FastState>, calls: seq<Call>) {
    && |states| == |calls| + 1
    && states[0] == InitialFast(cfg.nbMachines)
    && forall i :: 0 <= i < |calls| ==>
        FastCallOk(states[i], calls[i]) && states[i + 1] == FastStep(cfg, states[i], calls[i])
  }

  lemma InitialFastInv(cfg: Config)
    ensures FastInv(cfg, InitialFast(cfg.nbMachines))
  {
  }

  lemma FastRunStep(cfg: Config, states: seq<FastState>, calls: seq<Call>, i: nat)
    requires IsFastRun(cfg, states, calls) && i < |calls|
    ensures FastCallOk(states[i], calls[i]) && states[i + 1] == FastStep(cfg, states[i], calls[i])
  {
    hide FastCallOk, FastStep;
  }

  /** Work conservation and machine conservation over whole runs. */
  lemma {:induction false} FastRunKeepsInv(cfg: Config, states: seq<FastState>, calls: seq<Call>, n: nat)
    requires IsFastRun(cfg, states, calls) && n <= |calls|
    ensures FastInv(cfg, states[n])
    decreases n
  {
    hide FastInv, FastCallOk, FastStep;
    if n == 0 {
      InitialFastInv(cfg);
    } else {
      FastRunKeepsInv(cfg, states, calls, n - 1);
      FastRunStep(cfg, states, calls, n - 1);
      FastStepKeepsInv(cfg, states[n - 1], calls[n - 1]);
    }
  }
}
