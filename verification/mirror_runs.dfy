/** Whole runs of the rewritten scheduler against the profile: when jobs run for their walltime at most, a profile
    can be kept that mirrors the running jobs, and whenever a blocked head is checked, its shadow time is the start
    that first fit gives it on that profile. */
module MirrorRuns {
  import opened Machines
  import opened Profiles
  import opened Removal
  import opened FirstFits
  import opened JobRuns
  import opened Membership
  import opened Queues
  import opened HeapSorts
  import opened EasyBf2Model
  import opened EasyBf3Model
  import opened EasyBf3Proofs
  import opened Shadows
  import opened Agreement

  /** The walltime of the job is the time it would run. */
  predicate Exact(lim: Limits, job: Job) {
    0.0 < job.walltime == job.duration <= lim.longest
  }

  ghost predicate InLimits(lim: Limits, st: FastState) {
    && 0.0 < lim.longest && lim.last + 2.0 * lim.longest <= lim.horizon
    && (forall k :: k in st.queue ==> Exact(lim, k.job))
    && forall j :: j in st.scheduled ==> j.estFinishTime <= lim.last + lim.longest
  }

  /** The profile mirrors the running jobs at the date. */
  ghost predicate Follows(cfg: Config, lim: Limits, p: Profile, st: FastState, now: real) {
    && Mirrors(p, AllMachines(cfg.nbMachines), st.scheduled, now)
    && |p| > 0 && Horizon(p) == lim.horizon
    && FastOk(cfg, st) && InLimits(lim, st)
  }

  /** A check of this head at the date finds the shadow time that first fit chooses on a profile that mirrors the
      running jobs. */
  ghost predicate CheckAgrees(cfg: Config, lim: Limits, st: FastState, job: Job, now: real) {
    exists p :: Follows(cfg, lim, p, st, now) && FirstFitIs(p, job, ShadowHead(st, job).priority.shadowTime)
  }

  predicate FirstFitIs(p: Profile, job: Job, date: real) {
    match FirstFit(p, 0, job.res, job.walltime, Basic)
    case None => false
    case Some(Spot(i, _, _)) => p[i].begin == date
  }

  // ---------------------------------------------------------------- the checks of a call

  /** Every check of a blocked head while heads are placed agrees with the profile. */
  ghost predicate PlaceHeadAgrees(cfg: Config, lim: Limits, st: FastState, date: real)
    decreases |st.queue|
  {
    if st.queue == [] then true
    else
      var job := st.queue[0].job;
      if HeadCanRun(st, job) then PlaceHeadAgrees(cfg, lim, Dequeue(ExecuteFast(NoteHead(st, job), job, date), 0), date)
      else CheckAgrees(cfg, lim, st, job, date)
  }

  /** Every check of a blocked head in the traversal agrees with the profile. */
  ghost predicate TraverseAgrees(cfg: Config, lim: Limits, st: FastState, i: nat, priority: Option<JobId>, date: real)
    decreases |st.queue| - i
  {
    if i >= |st.queue| then true
    else
      var job := st.queue[i].job;
      if priority == Some(job.id) then
        if HeadCanRun(st, job) then
          var r := Dequeue(ExecuteFast(NoteHead(st, job), job, date), i);
          TraverseAgrees(cfg, lim, r, i, Head(r.queue), date)
        else CheckAgrees(cfg, lim, st, job, date)
             && TraverseAgrees(cfg, lim, ShadowHead(st, job), i + 1, priority, date)
      else if CanBackfill(st, job, date) then
        TraverseAgrees(cfg, lim, Dequeue(ExecuteFast(st, job, date), i), i, priority, date)
      else TraverseAgrees(cfg, lim, st, i + 1, priority, date)
  }

  /** Every check of a blocked head in the call agrees with the profile. */
  ghost predicate StepAgrees(cfg: Config, lim: Limits, st: FastState, call: Call) {
    var s := ArriveFast(cfg, st, call);
    var sorted := s.(queue := SortQueue(cfg.order, s.queue, call.date));
    var r := SortAndPlaceHeadFast(cfg, s, Head(st.queue), call.date);
    && (Head(sorted.queue) != Head(st.queue) ==> PlaceHeadAgrees(cfg, lim, sorted, call.date))
    && (call.ended != [] && r.nbAvailable > 0 ==> TraverseAgrees(cfg, lim, r, 0, Head(r.queue), call.date))
  }

  // ---------------------------------------------------------------- starting and checking

  lemma FollowsParts(cfg: Config, lim: Limits, p: Profile, st: FastState, now: real)
    requires Follows(cfg, lim, p, st, now)
    ensures PlatformOk(AllMachines(cfg.nbMachines), st) && QueueFits(cfg, st) && PriorityOk(st) && FastOk(cfg, st)
    ensures Mirrors(p, AllMachines(cfg.nbMachines), st.scheduled, now) && |p| > 0 && Horizon(p) == lim.horizon
    ensures st.nbAvailable == |st.available|
  {
    hide Mirrors, Horizon, InLimits, QueueFits, PriorityOk;
  }

  lemma SameRunning(cfg: Config, lim: Limits, p: Profile, st: FastState, r: FastState, now: real)
    requires Follows(cfg, lim, p, st, now) && FastOk(cfg, r) && r.scheduled == st.scheduled && r.queue == st.queue
    ensures Follows(cfg, lim, p, r, now)
  {
    hide Mirrors, Horizon, FastOk;
  }

  lemma StartedInLimits(lim: Limits, st: FastState, i: nat, date: real)
    requires InLimits(lim, st) && i < |st.queue| && date <= lim.last
    ensures InLimits(lim, Dequeue(ExecuteFast(st, st.queue[i].job, date), i))
    ensures Exact(lim, st.queue[i].job) && date + st.queue[i].job.walltime <= lim.horizon
  {
    hide HeapSort, Left;
    assert st.queue[i] in st.queue;
    var job := st.queue[i].job;
    HeapSortMembers(st.scheduled + [Running(job, st.available, date)]);
    FewerQueued(st.queue, i);
  }

  /** A waiting job that fits starts on the profile too. */
  lemma ExecuteFollows(cfg: Config, lim: Limits, p: Profile, st: FastState, i: nat, date: real) returns (q: Profile)
    requires Follows(cfg, lim, p, st, date) && date <= lim.last
    requires i < |st.queue| && st.queue[i].job.res <= st.nbAvailable
    ensures Follows(cfg, lim, q, Dequeue(ExecuteFast(st, st.queue[i].job, date), i), date)
  {
    hide Mirrors, HeapSort, Add, PlatformOk, QueueFits, PriorityOk, InLimits, Horizon, FastOk, RunningIds;
    var job := st.queue[i].job;
    var all := AllMachines(cfg.nbMachines);
    FollowsParts(cfg, lim, p, st, date);
    StartedInLimits(lim, st, i, date);
    WaitingIsNotRunning(cfg, st, i);
    StartAgrees(p, all, st, date, job);
    ExecuteKeeps(cfg, st, i, date);
    q := Add(p, 0, job, Basic).profile;
    AddedHorizon(p, job, all, st.scheduled, date);
  }

  lemma WaitingIsNotRunning(cfg: Config, st: FastState, i: nat)
    requires QueueFits(cfg, st) && i < |st.queue|
    ensures st.queue[i].job.id !in RunningIds(st.scheduled)
  {
    hide RunningIds;
    assert st.queue[i].job.id in QueueIds(st.queue);
  }

  lemma AddedHorizon(p: Profile, job: Job, all: MachineSet, s: seq<ScheduledJob>, now: real)
    requires Mirrors(p, all, s, now) && job.walltime > 0.0 && job.id !in RunningIds(s)
    ensures var q := Add(p, 0, job, Basic).profile; |q| > 0 && Horizon(q) == Horizon(p)
  {
    hide Valid, Canonical, JobSet, FirstFit, Place, Occupies;
    NotRunning(p, s, job.id);
    AddKeeps(p, 0, job, Basic, all, {});
  }

  /** A check of a blocked head agrees. */
  lemma CheckFollows(cfg: Config, lim: Limits, p: Profile, st: FastState, now: real)
    requires Follows(cfg, lim, p, st, now) && st.queue != [] && st.queue[0].job.res > st.nbAvailable
    ensures CheckAgrees(cfg, lim, st, st.queue[0].job, now)
    ensures Follows(cfg, lim, p, ShadowHead(st, st.queue[0].job), now)
  {
    hide Mirrors, PlatformOk, QueueFits, PriorityOk, Horizon, FirstFit, InLimits;
    var job := st.queue[0].job;
    var r := ShadowHead(st, job);
    FollowsParts(cfg, lim, p, st, now);
    CheckFindsShadow(cfg, st);
    NoteKeeps(cfg, st, 0);
    SameRunning(cfg, lim, p, st, r, now);
    ShadowInLimits(lim, r, job);
    ShadowIsFirstFit(p, AllMachines(cfg.nbMachines), r, now, job);
    assert FirstFitIs(p, job, r.priority.shadowTime);
  }

  lemma ShadowInLimits(lim: Limits, r: FastState, job: Job)
    requires InLimits(lim, r) && ShadowIsRight(r, job) && r.queue != [] && r.queue[0].job == job
    ensures job.walltime > 0.0 && r.priority.shadowTime + job.walltime <= lim.horizon
  {
    hide FreeBy;
    assert r.queue[0] in r.queue;
    var i :| 0 <= i < |r.scheduled| && r.priority.shadowTime == r.scheduled[i].estFinishTime;
    assert r.scheduled[i] in r.scheduled;
  }

  lemma HeadRuns(cfg: Config, lim: Limits, p: Profile, st: FastState, date: real) returns (q: Profile)
    requires Follows(cfg, lim, p, st, date) && date <= lim.last && st.queue != [] && HeadCanRun(st, st.queue[0].job)
    ensures var job := st.queue[0].job;
            Follows(cfg, lim, q, Dequeue(ExecuteFast(NoteHead(st, job), job, date), 0), date)
  {
    hide Mirrors, PlatformOk, QueueFits, Horizon, InLimits, ExecuteFast, Noted;
    FollowsParts(cfg, lim, p, st, date);
    NotedRequest(st, 0);
    NoteKeeps(cfg, st, 0);
    var s := NoteHead(st, st.queue[0].job);
    SameRunning(cfg, lim, p, st, s, date);
    q := ExecuteFollows(cfg, lim, p, s, 0, date);
  }

  lemma {:induction false} PlaceHeadFollows(cfg: Config, lim: Limits, p: Profile, st: FastState, date: real)
    returns (q: Profile)
    requires Follows(cfg, lim, p, st, date) && date <= lim.last
    ensures PlaceHeadAgrees(cfg, lim, st, date) && Follows(cfg, lim, q, PlaceHeadFast(st, date), date)
    decreases |st.queue|
  {
    hide Follows, ExecuteFast, NoteHead, ShadowHead, CheckAgrees, HeadCanRun;
    if st.queue == [] {
      q := p;
    } else {
      var job := st.queue[0].job;
      if HeadCanRun(st, job) {
        var s := HeadRuns(cfg, lim, p, st, date);
        ExecutedQueue(st, date);
        q := PlaceHeadFollows(cfg, lim, s, Dequeue(ExecuteFast(NoteHead(st, job), job, date), 0), date);
      } else {
        BlockedHead(cfg, lim, p, st, date);
        CheckFollows(cfg, lim, p, st, date);
        q := p;
      }
    }
  }

  lemma ExecutedQueue(st: FastState, date: real)
    requires st.queue != []
    ensures var job := st.queue[0].job;
            && ExecuteFast(NoteHead(st, job), job, date).queue == st.queue
            && |WithoutIndex(st.queue, 0)| == |st.queue| - 1
  {
    FewerQueued(st.queue, 0);
  }

  lemma BlockedHead(cfg: Config, lim: Limits, p: Profile, st: FastState, date: real)
    requires Follows(cfg, lim, p, st, date) && st.queue != []
    ensures HeadCanRun(st, st.queue[0].job) <==> st.queue[0].job.res <= st.nbAvailable
  {
    hide Mirrors, Horizon, InLimits, Noted;
    FollowsParts(cfg, lim, p, st, date);
    NotedRequest(st, 0);
  }

  // ---------------------------------------------------------------- backfilling

  lemma {:induction false} BackfillNewFollows(cfg: Config, lim: Limits, p: Profile, st: FastState, recent: seq<Job>,
                                              nb: int, date: real)
    returns (q: Profile)
    requires Follows(cfg, lim, p, st, date) && date <= lim.last && forall k :: k in recent ==> ForAll(st.queue, k)
    ensures Follows(cfg, lim, q, BackfillNewFast(st, recent, nb, date), date)
    decreases |recent|
  {
    hide Follows, WithoutIndex, QueueIds, ForAll, ExecuteFast;
    q := p;
    if recent != [] && nb > 0 {
      var job := recent[0];
      var i := IndexOf(st.queue, job.id, 0);
      if job.id in QueueIds(st.queue) && Head(st.queue) != Some(job.id) && job.res <= nb && CanBackfill(st, job, date)
         && i < |st.queue| {
        assert st.queue[i].job == job by { ForAllAt(st.queue, job, i); }
        q := ExecuteFollows(cfg, lim, p, st, i, date);
        ExecuteQueue(st, job, date);
        var r := Dequeue(ExecuteFast(st, job, date), i);
        forall k | k in recent[1..] ensures ForAll(r.queue, k) { ForAllLess(st.queue, k, i); }
        q := BackfillNewFollows(cfg, lim, q, r, recent[1..], nb - job.res, date);
      } else {
        q := BackfillNewFollows(cfg, lim, p, st, recent[1..], nb, date);
      }
    }
  }

  lemma {:induction false} TraverseBehindFollows(cfg: Config, lim: Limits, p: Profile, st: FastState, i: nat,
                                                 date: real)
    returns (q: Profile)
    requires Follows(cfg, lim, p, st, date) && date <= lim.last && i > 0 && st.queue != []
    ensures TraverseAgrees(cfg, lim, st, i, Head(st.queue), date)
    ensures Follows(cfg, lim, q, TraverseFast(st, i, Head(st.queue), date), date)
    decreases |st.queue| - i
  {
    hide Follows, WithoutIndex, ExecuteFast, HeadCanRun, NoteHead, ShadowHead, CheckAgrees;
    q := p;
    if i < |st.queue| {
      var job := st.queue[i].job;
      OtherThanHead(cfg, lim, p, st, i, date);
      if CanBackfill(st, job, date) {
        q := ExecuteFollows(cfg, lim, p, st, i, date);
        ExecuteQueue(st, job, date);
        FewerQueued(st.queue, i);
        q := TraverseBehindFollows(cfg, lim, q, Dequeue(ExecuteFast(st, job, date), i), i, date);
      } else {
        q := TraverseBehindFollows(cfg, lim, p, st, i + 1, date);
      }
    }
  }

  lemma OtherThanHead(cfg: Config, lim: Limits, p: Profile, st: FastState, i: nat, date: real)
    requires Follows(cfg, lim, p, st, date) && 0 < i < |st.queue|
    ensures Head(st.queue) != Some(st.queue[i].job.id)
  {
    hide Mirrors, Horizon, InLimits;
    FollowsParts(cfg, lim, p, st, date);
  }

  lemma {:induction false} TraverseFollows(cfg: Config, lim: Limits, p: Profile, st: FastState, date: real)
    returns (q: Profile)
    requires Follows(cfg, lim, p, st, date) && date <= lim.last
    ensures TraverseAgrees(cfg, lim, st, 0, Head(st.queue), date)
    ensures Follows(cfg, lim, q, TraverseFast(st, 0, Head(st.queue), date), date)
    decreases |st.queue|
  {
    hide Follows, ExecuteFast, NoteHead, ShadowHead, CheckAgrees, HeadCanRun;
    q := p;
    if st.queue != [] {
      var job := st.queue[0].job;
      if HeadCanRun(st, job) {
        q := HeadRuns(cfg, lim, p, st, date);
        ExecutedQueue(st, date);
        q := TraverseFollows(cfg, lim, q, Dequeue(ExecuteFast(NoteHead(st, job), job, date), 0), date);
      } else {
        BlockedHead(cfg, lim, p, st, date);
        CheckFollows(cfg, lim, p, st, date);
        ShadowQueue(st, job);
        q := TraverseBehindFollows(cfg, lim, p, ShadowHead(st, job), 1, date);
      }
    }
  }

  lemma ShadowQueue(st: FastState, job: Job)
    ensures ShadowHead(st, job).queue == st.queue
  {
  }

  // ---------------------------------------------------------------- arriving

  /** Every job that would have finished before the call has ended; one that is due at its date may end by a later call
      of that date. */
  ghost predicate Timely(st: FastState, call: Call) {
    forall j :: j in st.scheduled && j.estFinishTime < call.date ==> j.id in call.ended
  }

  lemma {:induction false} FinishFollows(cfg: Config, lim: Limits, p: Profile, st: FastState, ended: seq<JobId>,
                                         now: real)
    returns (q: Profile)
    requires Follows(cfg, lim, p, st, now)
    ensures Follows(cfg, lim, q, FinishJobs(st, ended), now)
    ensures forall j :: j in FinishJobs(st, ended).scheduled ==> j in st.scheduled && j.id !in ended
    decreases |ended|
  {
    hide Follows, FinishJob;
    q := p;
    if ended != [] {
      q := FinishOne(cfg, lim, p, st, ended[0], now);
      q := FinishFollows(cfg, lim, q, FinishJob(st, ended[0]), ended[1..], now);
    }
  }

  lemma FinishOne(cfg: Config, lim: Limits, p: Profile, st: FastState, id: JobId, now: real) returns (q: Profile)
    requires Follows(cfg, lim, p, st, now)
    ensures Follows(cfg, lim, q, FinishJob(st, id), now)
    ensures forall j :: j in FinishJob(st, id).scheduled ==> j in st.scheduled && j.id != id
  {
    hide Mirrors, PlatformOk, Horizon, FinishJob, Remove, RunningIds;
    var all := AllMachines(cfg.nbMachines);
    FollowsParts(cfg, lim, p, st, now);
    FinishAgrees(p, all, st, now, id);
    FinishKeeps(all, st, id);
    FinishLeavesQueue(st, id);
    forall j | j in FinishJob(st, id).scheduled ensures j in st.scheduled && j.id != id {
      StillRunning(all, st, id, j);
    }
    q := Remove(p, id, {});
    RemovedHorizon(p, id, all, st.scheduled, now);
  }

  lemma RemovedHorizon(p: Profile, id: JobId, all: MachineSet, s: seq<ScheduledJob>, now: real)
    requires Mirrors(p, all, s, now)
    ensures var q := Remove(p, id, {}); |q| > 0 && Horizon(q) == Horizon(p)
  {
    hide Valid, Canonical, JobSet, Remove, Occupies;
    RemoveKeeps(p, id, all, {});
  }

  /** When nothing finishes before the date, the first slice lasts until then. */
  lemma FirstSliceLasts(p: Profile, all: MachineSet, s: seq<ScheduledJob>, now: real, date: real)
    requires Mirrors(p, all, s, now) && |p| > 0 && date <= Horizon(p)
    requires forall j :: j in s ==> date <= j.estFinishTime
    ensures date <= p[0].end
  {
    hide Occupies, SliceOk, Runs, Tiles;
    MirrorsParts(p, all, s, now);
    if |p| > 1 {
      var id := SomethingChanges(p);
      assert id in JobSet(p) by { InEither(p, id); }
      var i :| 0 <= i < |s| && s[i].id == id;
      assert s[i] in s;
      RunningEnds(p, id, Grant(now, s[i].estFinishTime, s[i].machines));
    }
  }

  lemma InEither(p: Profile, id: JobId)
    requires |p| > 1 && (id in p[0].jobs || id in p[1].jobs)
    ensures id in JobSet(p)
  {
  }

  /** Time passes to the date of the call, once what would have finished before has ended. */
  lemma PassFollows(cfg: Config, lim: Limits, p: Profile, st: FastState, now: real, date: real) returns (q: Profile)
    requires Follows(cfg, lim, p, st, now) && now <= date <= lim.last
    requires forall j :: j in st.scheduled ==> date <= j.estFinishTime
    ensures Follows(cfg, lim, q, st, date)
  {
    hide Mirrors, FastOk, Advance;
    var all := AllMachines(cfg.nbMachines);
    FirstSliceLasts(p, all, st.scheduled, now, date);
    AdvanceAgrees(p, all, st.scheduled, now, date);
    q := Advance(p, date);
    AdvancedHorizon(p, date, all, st.scheduled, now);
  }

  lemma AdvancedHorizon(p: Profile, date: real, all: MachineSet, s: seq<ScheduledJob>, now: real)
    requires Mirrors(p, all, s, now) && |p| > 0 && now <= date <= p[0].end
    ensures var q := Advance(p, date); |q| > 0 && Horizon(q) == Horizon(p)
  {
    hide JobSet, Occupies, SliceOk, Runs;
  }

  lemma {:induction false} ReleaseFollows(cfg: Config, lim: Limits, p: Profile, st: FastState, released: seq<Job>,
                                          date: real, now: real)
    requires Follows(cfg, lim, p, st, now) && FastCallOk(st, Call(date, [], released))
    requires forall k :: k in released && Accepts(cfg, k) ==> Exact(lim, k)
    ensures Follows(cfg, lim, p, ReleaseAllFast(cfg, st, released, date), now)
    decreases |released|
  {
    hide Mirrors, FastOk, Horizon, FastCallOk;
    if released != [] {
      var r := ReleaseFast(cfg, st, released[0], date);
      assert r == ReleaseAllFast(cfg, st, released[..1], date) by { ReleaseSingle(cfg, st, released, date); }
      FirstReleased(cfg, st, released, date);
      ReleaseAllKeep(cfg, st, released[..1], date);
      ReleaseFollows(cfg, lim, p, r, released[1..], date, now);
    }
  }

  lemma ReleaseSingle(cfg: Config, st: FastState, released: seq<Job>, date: real)
    requires released != []
    ensures ReleaseAllFast(cfg, st, released[..1], date) == ReleaseFast(cfg, st, released[0], date)
  {
    assert released[..1][1..] == [];
  }

  lemma FirstReleased(cfg: Config, st: FastState, released: seq<Job>, date: real)
    requires released != [] && FastCallOk(st, Call(date, [], released))
    ensures FastCallOk(st, Call(date, [], released[..1]))
    ensures FastCallOk(ReleaseFast(cfg, st, released[0], date), Call(date, [], released[1..]))
  {
    hide RunningIds;
    AppendIds(st.queue, Entry(released[0], date));
  }

  lemma SortFollows(cfg: Config, lim: Limits, p: Profile, st: FastState, date: real)
    requires Follows(cfg, lim, p, st, date)
    ensures Follows(cfg, lim, p, st.(queue := SortQueue(cfg.order, st.queue, date)), date)
  {
    hide Mirrors, FastOk, Horizon, SortQueue;
    SortKeepsFast(cfg, st, date);
    FastDistinct(cfg, st);
    SortQueueKeepsJobs(cfg.order, st.queue, date);
    var q := SortQueue(cfg.order, st.queue, date);
    forall k | k in q ensures Exact(lim, k.job) {
      var i :| 0 <= i < |st.queue| && k.job == st.queue[i].job;
      assert st.queue[i] in st.queue;
    }
  }

  lemma ArriveFollows(cfg: Config, lim: Limits, p: Profile, st: FastState, call: Call, now: real) returns (q: Profile)
    requires Follows(cfg, lim, p, st, now) && FastCallOk(st, call) && Timely(st, call) && now <= call.date <= lim.last
    requires forall k :: k in call.released && Accepts(cfg, k) ==> Exact(lim, k)
    ensures Follows(cfg, lim, q, ArriveFast(cfg, st, call), call.date)
  {
    hide Follows, FinishJobs, ReleaseAllFast, RunningIds, QueueIds;
    q := FinishFollows(cfg, lim, p, st, call.ended, now);
    var s := FinishJobs(st, call.ended);
    q := PassFollows(cfg, lim, q, s, now, call.date);
    FollowsOk(cfg, lim, p, st, now);
    FinishJobsKeep(cfg, st, call.ended);
    assert FastCallOk(s, Call(call.date, [], call.released));
    ReleaseFollows(cfg, lim, q, s, call.released, call.date, call.date);
  }

  lemma FollowsOk(cfg: Config, lim: Limits, p: Profile, st: FastState, now: real)
    requires Follows(cfg, lim, p, st, now)
    ensures FastOk(cfg, st)
  {
  }

  // ---------------------------------------------------------------- whole runs

  /** One call keeps a mirroring profile, and every check of a blocked head in it agrees with first fit. */
  lemma StepFollows(cfg: Config, lim: Limits, p: Profile, st: FastState, call: Call, now: real) returns (q: Profile)
    requires Follows(cfg, lim, p, st, now) && HeadBlocked(st) && FastCallOk(st, call) && Timely(st, call)
    requires now <= call.date <= lim.last && forall k :: k in call.released && Accepts(cfg, k) ==> Exact(lim, k)
    ensures StepAgrees(cfg, lim, st, call) && Follows(cfg, lim, q, FastStep(cfg, st, call), call.date)
  {
    hide Follows, ArriveFast, SortQueue, PlaceHeadFast, BackfillNewFast, TraverseFast, PlaceHeadAgrees, TraverseAgrees,
         ForAll, FastCallOk, FastOk, HeadBlocked;
    FollowsOk(cfg, lim, p, st, now);
    assert FastInv(cfg, st);
    SettleKeeps(cfg, st, call);
    q := ArriveFollows(cfg, lim, p, st, call, now);
    var s := ArriveFast(cfg, st, call);
    SortFollows(cfg, lim, q, s, call.date);
    var sorted := s.(queue := SortQueue(cfg.order, s.queue, call.date));
    if Head(sorted.queue) != Head(st.queue) {
      q := PlaceHeadFollows(cfg, lim, q, sorted, call.date);
    }
    var r := SortAndPlaceHeadFast(cfg, s, Head(st.queue), call.date);
    if call.ended == [] {
      q := BackfillNewFollows(cfg, lim, q, r, Accepted(cfg, call.released), r.nbAvailable, call.date);
    } else if r.nbAvailable > 0 {
      q := TraverseFollows(cfg, lim, q, r, call.date);
    }
  }

  /** Calls come in order of date within the limits; no call comes later than a running job would have finished that it
      does not end; and the walltimes of the accepted jobs are the times they run. */
  ghost predicate InTime(cfg: Config, lim: Limits, states: seq<FastState>, calls: seq<Call>)
    requires |states| == |calls| + 1
  {
    && 0.0 < lim.longest && lim.last + 2.0 * lim.longest <= lim.horizon
    && (forall i, k :: 0 <= i < k < |calls| ==> calls[i].date <= calls[k].date)
    && (forall i :: 0 <= i < |calls| ==> calls[i].date <= lim.last && Timely(states[i], calls[i]))
    && forall i, k :: 0 <= i < |calls| && k in calls[i].released && Accepts(cfg, k) ==> Exact(lim, k)
  }

  lemma FreshFollows(cfg: Config, lim: Limits, date: real)
    requires 0.0 < lim.longest && lim.last + 2.0 * lim.longest <= lim.horizon && date <= lim.last
    ensures Follows(cfg, lim, Fresh(cfg.nbMachines, date, lim.horizon), InitialFast(cfg.nbMachines), date)
  {
    InitialFastInv(cfg);
    FreshIsValid(cfg.nbMachines, date, lim.horizon);
  }

  lemma {:induction false} RunFollows(cfg: Config, lim: Limits, states: seq<FastState>, calls: seq<Call>, n: nat)
    returns (p: Profile)
    requires IsFastRun(cfg, states, calls) && InTime(cfg, lim, states, calls) && 0 < n <= |calls|
    ensures Follows(cfg, lim, p, states[n], calls[n - 1].date)
    ensures StepAgrees(cfg, lim, states[n - 1], calls[n - 1])
    decreases n
  {
    hide Follows, FastInv, FastCallOk, FastStep, StepAgrees, Timely, InitialFast;
    var now := calls[n - 1].date;
    if n == 1 {
      FreshFollows(cfg, lim, now);
      p := Fresh(cfg.nbMachines, now, lim.horizon);
    } else {
      p := RunFollows(cfg, lim, states, calls, n - 1);
      now := calls[n - 2].date;
    }
    FastRunKeepsInv(cfg, states, calls, n - 1);
    FastRunStep(cfg, states, calls, n - 1);
    assert HeadBlocked(states[n - 1]) by { InvBlocked(cfg, states[n - 1]); }
    p := StepFollows(cfg, lim, p, states[n - 1], calls[n - 1], now);
  }

  lemma InvBlocked(cfg: Config, st: FastState)
    requires FastInv(cfg, st)
    ensures HeadBlocked(st)
  {
    hide FastOk;
  }

  /** Along every run in time, at every check of a blocked head in every call, the shadow time the scan computes is the
      start that first fit chooses on a profile of exactly the running jobs. */
  lemma ShadowIsFirstFitThroughout(cfg: Config, lim: Limits, states: seq<FastState>, calls: seq<Call>)
    requires IsFastRun(cfg, states, calls) && InTime(cfg, lim, states, calls)
    ensures forall i :: 0 <= i < |calls| ==> StepAgrees(cfg, lim, states[i], calls[i])
  {
    hide Follows, FastInv, FastCallOk, FastStep, StepAgrees, InTime, InitialFast;
    forall i | 0 <= i < |calls| ensures StepAgrees(cfg, lim, states[i], calls[i]) {
      var p := RunFollows(cfg, lim, states, calls, i + 1);
    }
  }
}
