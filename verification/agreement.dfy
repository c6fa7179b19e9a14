/** The rewritten scheduler agrees with the profile: on the running jobs, the scan for the shadow time finds the start
    that first fit gives the head, and starting or finishing a job does the same to both. */
module Agreement {
  import opened Machines
  import opened Profiles
  import opened Removal
  import opened FirstFits
  import opened Slots
  import opened Vacancies
  import opened Membership
  import opened JobRuns
  import opened HeapSorts
  import opened EasyBf3Model
  import opened EasyBf3Proofs
  import opened Shadows

  /** The profile holds exactly the running jobs, each from now to its estimated finish, on its machines. The present
      may stand at the end of the first slice, where a running job is due. */
  ghost predicate Mirrors(p: Profile, all: MachineSet, s: seq<ScheduledJob>, now: real) {
    && Valid(p, all, {}) && Canonical(p)
    && p[0].begin == now
    && JobSet(p) == RunningIds(s) == p[0].jobs.Keys
    && forall j :: j in s ==> Occupies(p, j.id, Grant(now, j.estFinishTime, j.machines))
  }

  lemma MirrorsParts(p: Profile, all: MachineSet, s: seq<ScheduledJob>, now: real)
    requires Mirrors(p, all, s, now)
    ensures Valid(p, all, {}) && Tiles(p) && Runs(p) && |p| > 0 && p[0].begin == now
    ensures JobSet(p) == RunningIds(s) == p[0].jobs.Keys
    ensures forall j :: j in s ==> Occupies(p, j.id, Grant(now, j.estFinishTime, j.machines))
  {
  }

  // ---------------------------------------------------------------- free machines at an instant

  /** A machine is free at an instant exactly when it is free now or its job has finished. */
  lemma FreeMember(p: Profile, all: MachineSet, st: FastState, now: real, t: real, m: nat)
    requires Mirrors(p, all, st.scheduled, now) && PlatformOk(all, st) && Within(p, t)
    ensures Tiles(p)
    ensures m in FreeAt(p, t) <==> m in FreedBy(st.available, st.scheduled, t)
  {
    hide Occupies, JobSet, FreedBy, IndexAt, Apart, SliceOk, Runs;
    MirrorsParts(p, all, st.scheduled, now);
    FreedMembers(st.available, st.scheduled, t, m);
    FreeIsRest(p[IndexAt(p, t)], all, {}, m);
    forall j | j in st.scheduled
      ensures if t < j.estFinishTime then j.id in JobsAt(p, t) && JobsAt(p, t)[j.id] == j.machines
              else j.id !in JobsAt(p, t)
    {
      OccupiesAt(p, j.id, Grant(now, j.estFinishTime, j.machines), t) by { NowFirst(p, now, t); }
    }
    forall id | id in JobsAt(p, t) ensures exists j :: j in st.scheduled && j.id == id {
      InJobSet(p, IndexAt(p, t), id);
    }
    FreeOrHeld(p, all, st, t, m);
    assert SliceOk(p[IndexAt(p, t)], all, {});
    assert FreeAt(p, t) == p[IndexAt(p, t)].available && JobsAt(p, t) == p[IndexAt(p, t)].jobs;
  }

  lemma NowFirst(p: Profile, now: real, t: real)
    requires |p| > 0 && p[0].begin == now && Within(p, t)
    ensures now <= t
  {
  }

  lemma InJobSet(p: Profile, i: nat, id: JobId)
    requires i < |p| && id in p[i].jobs
    ensures id in JobSet(p)
  {
  }

  lemma HeldByOne(all: MachineSet, st: FastState, m: nat, a: ScheduledJob, b: ScheduledJob)
    requires PlatformOk(all, st) && a in st.scheduled && b in st.scheduled && m in a.machines && m in b.machines
    ensures a == b && m !in st.available && m in all
  {
    hide SortedByFinish;
    var i :| 0 <= i < |st.scheduled| && st.scheduled[i] == a;
    var k :| 0 <= k < |st.scheduled| && st.scheduled[k] == b;
    assert i == k;
  }

  lemma HeldByNone(all: MachineSet, st: FastState, m: nat)
    requires PlatformOk(all, st) && forall j :: j in st.scheduled ==> m !in j.machines
    ensures m in all <==> m in st.available
  {
    hide Apart, SortedByFinish;
  }

  lemma FreeOrHeld(p: Profile, all: MachineSet, st: FastState, t: real, m: nat)
    requires PlatformOk(all, st) && Tiles(p) && Within(p, t)
    requires forall j :: j in st.scheduled ==>
               if t < j.estFinishTime then j.id in JobsAt(p, t) && JobsAt(p, t)[j.id] == j.machines
               else j.id !in JobsAt(p, t)
    requires forall id :: id in JobsAt(p, t) ==> exists j :: j in st.scheduled && j.id == id
    ensures (m in all && forall id :: id in JobsAt(p, t) ==> m !in JobsAt(p, t)[id])
            <==> m in st.available || exists j :: j in st.scheduled && j.estFinishTime <= t && m in j.machines
  {
    hide PlatformOk, IndexAt, JobsAt, Within, Tiles;
    if a :| a in st.scheduled && m in a.machines {
      HeldByOne(all, st, m, a, a);
      forall b | b in st.scheduled && m in b.machines ensures b == a { HeldByOne(all, st, m, a, b); }
    } else {
      HeldByNone(all, st, m);
    }
  }

  /** The number of free machines at an instant is the number the scan counts. */
  lemma FreeCount(p: Profile, all: MachineSet, st: FastState, now: real, t: real)
    requires Mirrors(p, all, st.scheduled, now) && PlatformOk(all, st) && Within(p, t)
    ensures Tiles(p) && |FreeAt(p, t)| == FreeBy(st, t)
  {
    hide Mirrors, FreedBy, FreeAt, Within, DueBy;
    MirrorsParts(p, all, st.scheduled, now);
    forall m ensures m in FreeAt(p, t) <==> m in FreedBy(st.available, st.scheduled, t) {
      FreeMember(p, all, st, now, t, m);
    }
    assert FreeAt(p, t) == FreedBy(st.available, st.scheduled, t);
    CountFreed(all, st, t);
  }

  lemma CountFreed(all: MachineSet, st: FastState, t: real)
    requires PlatformOk(all, st)
    ensures |FreedBy(st.available, st.scheduled, t)| == FreeBy(st, t)
  {
    hide SortedByFinish;
    FreedCount(st.available, st.scheduled, t);
  }

  /** Without new starts, machines only become free. */
  lemma FreeGrows(p: Profile, all: MachineSet, st: FastState, now: real, t: real, u: real)
    requires Mirrors(p, all, st.scheduled, now) && PlatformOk(all, st) && Within(p, t) && Within(p, u) && t <= u
    ensures Tiles(p) && FreeAt(p, t) <= FreeAt(p, u)
  {
    hide Mirrors, FreedBy, FreeAt, Within, PlatformOk;
    MirrorsParts(p, all, st.scheduled, now);
    forall m | m in FreeAt(p, t) ensures m in FreeAt(p, u) {
      FreeMember(p, all, st, now, t, m);
      FreeMember(p, all, st, now, u, m);
      FreedMembers(st.available, st.scheduled, t, m);
      FreedMembers(st.available, st.scheduled, u, m);
    }
  }

  // ---------------------------------------------------------------- the shadow time is the first fit

  lemma FreeThroughoutFrom(p: Profile, all: MachineSet, st: FastState, now: real, t: real, e: real)
    requires Mirrors(p, all, st.scheduled, now) && PlatformOk(all, st) && Within(p, t) && t < e <= Horizon(p)
    ensures Tiles(p) && FreeThroughout(p, FreeAt(p, t), t, e)
  {
    hide Mirrors, FreeAt, PlatformOk;
    MirrorsParts(p, all, st.scheduled, now);
    forall u | t <= u < e ensures FreeAt(p, t) <= FreeAt(p, u) {
      FreeGrows(p, all, st, now, t, u);
    }
  }

  /** For a head that does not fit now, first fit on the profile of the running jobs chooses exactly the shadow time
      that the scan over the sorted finish times computes. */
  lemma ShadowIsFirstFit(p: Profile, all: MachineSet, st: FastState, now: real, job: Job)
    requires Mirrors(p, all, st.scheduled, now) && PlatformOk(all, st) && ShadowIsRight(st, job)
    requires job.walltime > 0.0 && st.priority.shadowTime + job.walltime <= Horizon(p)
    ensures FirstFit(p, 0, job.res, job.walltime, Basic).Some?
    ensures p[FirstFit(p, 0, job.res, job.walltime, Basic).value.first].begin == st.priority.shadowTime
  {
    hide Mirrors, FreeAt, PlatformOk, FreeBy, FirstFit, FreeThroughout, Valid, Runs, Occupies, JobSet, RunningIds,
         Within;
    MirrorsParts(p, all, st.scheduled, now);
    var shadow := st.priority.shadowTime;
    ShadowWithin(p, all, st, now, job);
    var free := FreeAt(p, shadow);
    FreeCount(p, all, st, now, shadow);
    FreeThroughoutFrom(p, all, st, now, shadow, shadow + job.walltime);
    FirstFitIsEarliest(p, 0, job.res, job.walltime, Basic, free, shadow);
    SpotHasMachines(p, all, st, now, job);
  }

  /** Where first fit begins, enough machines are free. */
  lemma SpotHasMachines(p: Profile, all: MachineSet, st: FastState, now: real, job: Job)
    requires Mirrors(p, all, st.scheduled, now) && PlatformOk(all, st) && job.walltime > 0.0
    requires FirstFit(p, 0, job.res, job.walltime, Basic).Some?
    ensures FreeBy(st, p[FirstFit(p, 0, job.res, job.walltime, Basic).value.first].begin) >= job.res
  {
    hide Mirrors, FreeAt, PlatformOk, FreeBy, FirstFit, FreeThroughout, CanFit;
    MirrorsParts(p, all, st.scheduled, now);
    SpotIsFree(p, 0, job.res, job.walltime, Basic);
    SpotFits(p, 0, job.res, job.walltime, Basic);
    var Spot(i, k, u) := FirstFit(p, 0, job.res, job.walltime, Basic).value;
    var b := p[i].begin;
    FreeEnd(p, u, b, b + job.walltime);
    FreeAtStart(p, u, b, b + job.walltime);
    SubsetSize(u, FreeAt(p, b));
    FreeCount(p, all, st, now, b);
  }

  lemma FreeAtStart(p: Profile, u: MachineSet, b: real, e: real)
    requires FreeThroughout(p, u, b, e) && b < e
    ensures Tiles(p) && Within(p, b) && u <= FreeAt(p, b)
  {
  }

  lemma ShadowWithin(p: Profile, all: MachineSet, st: FastState, now: real, job: Job)
    requires Mirrors(p, all, st.scheduled, now) && ShadowIsRight(st, job)
    requires st.priority.shadowTime + job.walltime <= Horizon(p)
    requires job.walltime > 0.0
    ensures Within(p, st.priority.shadowTime) && now <= st.priority.shadowTime
  {
    hide Valid, Canonical, JobSet, FreeBy, Occupies;
    var i :| 0 <= i < |st.scheduled| && st.priority.shadowTime == st.scheduled[i].estFinishTime;
    var j := st.scheduled[i];
    assert j in st.scheduled && j.id in RunningIds(st.scheduled);
    MirrorsParts(p, all, st.scheduled, now);
    EndsLater(p, j.id, Grant(now, j.estFinishTime, j.machines));
  }

  lemma EndsLater(p: Profile, id: JobId, g: Grant)
    requires Tiles(p) && id in p[0].jobs && Occupies(p, id, g)
    ensures p[0].begin <= g.end
  {
    RunningEnds(p, id, g);
  }

  // ---------------------------------------------------------------- starting and finishing agree

  /** All machines free now stay available in every slice. */
  lemma NowIsSmallest(p: Profile, all: MachineSet, st: FastState, now: real, x: nat)
    requires Mirrors(p, all, st.scheduled, now) && PlatformOk(all, st) && x < |p|
    ensures |p| > 0 && p[0].available == st.available && p[0].available <= p[x].available
  {
    hide SliceOk, Tiles, Runs, Occupies, Apart, Canonical;
    forall id | id in p[x].jobs ensures id in p[0].jobs { InJobSet(p, x, id); }
    FreeNowStays(p, all, x);
    forall m ensures m in p[0].available <==> m in st.available {
      assert SliceOk(p[0], all, {});
      FreeIsRest(p[0], all, {}, m);
      HeldNow(p, all, st, now, m);
    }
  }

  /** A machine is held in the first slice exactly when a running job holds it. */
  lemma HeldNow(p: Profile, all: MachineSet, st: FastState, now: real, m: nat)
    requires Mirrors(p, all, st.scheduled, now) && PlatformOk(all, st)
    ensures |p| > 0
    ensures (m in all && forall id :: id in p[0].jobs ==> m !in p[0].jobs[id]) <==> m in st.available
  {
    hide PlatformOk, Valid, Canonical, Occupies, JobSet;
    MirrorsParts(p, all, st.scheduled, now);
    forall j | j in st.scheduled ensures j.id in p[0].jobs && p[0].jobs[j.id] == j.machines {
      RunsNow(p, j.id, Grant(now, j.estFinishTime, j.machines)) by { assert j.id in RunningIds(st.scheduled); }
    }
    if a :| a in st.scheduled && m in a.machines {
      HeldByOne(all, st, m, a, a);
    } else {
      HeldByNone(all, st, m);
    }
  }

  lemma RunsNow(p: Profile, id: JobId, g: Grant)
    requires Runs(p) && |p| > 0 && id in p[0].jobs && Occupies(p, id, g)
    ensures p[0].jobs[id] == g.machines
  {
    var f, l := RunOf(p, id, g);
  }

  lemma {:induction false} CommonIsFirst(p: Profile, k: nat)
    requires k < |p| && forall x :: 0 <= x < |p| ==> p[0].available <= p[x].available
    ensures Common(p, 0, k) == p[0].available
    decreases k
  {
    if k > 0 { CommonIsFirst(p, k - 1); }
  }

  lemma StartsInFirst(p: Profile, job: Job)
    requires Tiles(p) && (forall x :: 0 <= x < |p| ==> p[0].available <= p[x].available)
    requires job.res <= |p[0].available| && job.walltime > 0.0 && p[0].begin + job.walltime <= Horizon(p)
    ensures FirstFit(p, 0, job.res, job.walltime, Basic).Some?
    ensures FirstFit(p, 0, job.res, job.walltime, Basic).value.first == 0
    ensures FirstFit(p, 0, job.res, job.walltime, Basic).value.machines == Left(p[0].available, job.res)
  {
    hide Left;
    var k := SpanEnd(p, 0, 0, job.walltime);
    assert k < |p|;
    CommonIsFirst(p, k);
    assert Anchor(p, 0, job.res, job.walltime, Basic);
  }

  /** A job that fits now starts at once in both schedulers, on the same machines, and the profile goes on mirroring
      the running jobs. */
  lemma StartAgrees(p: Profile, all: MachineSet, st: FastState, now: real, job: Job)
    requires Mirrors(p, all, st.scheduled, now) && PlatformOk(all, st)
    requires job.res <= st.nbAvailable && job.walltime > 0.0 && job.duration == job.walltime
    requires now + job.walltime <= Horizon(p) && job.id !in RunningIds(st.scheduled)
    ensures var Added(q, alloc) := Add(p, 0, job, Basic);
            && alloc.hasBeenInserted && alloc.startedInFirstSlice
            && alloc.machines == Running(job, st.available, now).machines
            && Mirrors(q, all, StartFast(st, job, now).scheduled, now)
  {
    hide Occupies, JobSet, Left, HeapSort, FirstFit, Place, Valid, Canonical, PlatformOk;
    MirrorsParts(p, all, st.scheduled, now);
    forall x | 0 <= x < |p| ensures p[0].available <= p[x].available { NowIsSmallest(p, all, st, now, x); }
    NowIsSmallest(p, all, st, now, 0);
    NbAvailable(all, st);
    StartsInFirst(p, job);
    NotRunning(p, st.scheduled, job.id);
    var q := Add(p, 0, job, Basic).profile;
    var u := FirstFit(p, 0, job.res, job.walltime, Basic).value.machines;
    assert u == Running(job, st.available, now).machines;
    AddKeeps(p, 0, job, Basic, all, {});
    AddJobSet(p, job, Basic);
    AddPresent(p, job, Basic);
    AddOccupies(p, 0, job, Basic);
    StartKeeps(all, st, job, now);
    HeapSortMembers(st.scheduled + [Running(job, st.available, now)]);
    forall j | j in StartFast(st, job, now).scheduled
      ensures Occupies(q, j.id, Grant(now, j.estFinishTime, j.machines))
    {
      if j in st.scheduled {
        assert j.id in RunningIds(st.scheduled);
        AddKeepsOccupies(p, 0, job, Basic, j.id, Grant(now, j.estFinishTime, j.machines));
      }
    }
  }

  lemma NbAvailable(all: MachineSet, st: FastState)
    requires PlatformOk(all, st)
    ensures st.nbAvailable == |st.available|
  {
  }

  lemma NotRunning(p: Profile, s: seq<ScheduledJob>, id: JobId)
    requires JobSet(p) == RunningIds(s) && id !in RunningIds(s)
    ensures !Contains(p, id)
  {
    JobSetContains(p, id);
  }

  /** A finished job leaves both. */
  lemma FinishAgrees(p: Profile, all: MachineSet, st: FastState, now: real, id: JobId)
    requires Mirrors(p, all, st.scheduled, now) && PlatformOk(all, st)
    ensures Mirrors(Remove(p, id, {}), all, FinishJob(st, id).scheduled, now)
  {
    hide Occupies, JobSet, Remove, Canonical, PlatformOk, Valid, RunningIds;
    MirrorsParts(p, all, st.scheduled, now);
    RemoveKeeps(p, id, all, {});
    RemoveCanonical(p, id, {});
    RemoveJobSet(p, id, all, {});
    RemovePresent(p, id, all, {});
    FinishKeeps(all, st, id);
    var q := Remove(p, id, {});
    var s := FinishJob(st, id).scheduled;
    forall j | j in s ensures Occupies(q, j.id, Grant(now, j.estFinishTime, j.machines)) {
      StillRunning(all, st, id, j);
      RemoveKeepsOccupies(p, id, all, {}, j.id, Grant(now, j.estFinishTime, j.machines));
    }
  }

  lemma StillRunning(all: MachineSet, st: FastState, id: JobId, j: ScheduledJob)
    requires PlatformOk(all, st) && j in FinishJob(st, id).scheduled
    ensures j in st.scheduled && j.id != id
  {
    hide Conserved, SortedByFinish;
    var i := FirstWithId(st.scheduled, id, 0);
    if i < |st.scheduled| {
      WithoutOne(st.scheduled, i);
      var k :| 0 <= k < |st.scheduled| && st.scheduled[k] == j;
    }
  }

  /** The present moves on, at most to the next estimated finish. */
  lemma AdvanceAgrees(p: Profile, all: MachineSet, s: seq<ScheduledJob>, now: real, date: real)
    requires |p| > 0 && Mirrors(p, all, s, now) && now <= date <= p[0].end
    ensures Mirrors(Advance(p, date), all, s, date)
  {
    hide Occupies, JobSet, Valid, Canonical;
    MirrorsParts(p, all, s, now);
    AdvanceKeeps(p, date, all, {});
    AdvanceJobSet(p, date);
    forall j | j in s ensures Occupies(Advance(p, date), j.id, Grant(date, j.estFinishTime, j.machines)) {
      AdvanceOccupies(p, date, j.id, Grant(now, j.estFinishTime, j.machines));
    }
  }

  // ---------------------------------------------------------------- any sequence of changes

  datatype Change = Begins(job: Job) | Finishes(id: JobId) | Passes(date: real)

  datatype Pair = Pair(profile: Profile, fast: FastState, now: real)

  /** The same change made to the profile by first fit and to the list of running jobs. */
  function Both(s: Pair, c: Change): Pair
    requires |s.profile| > 0
  {
    match c
    case Begins(job) => Pair(Add(s.profile, 0, job, Basic).profile, StartFast(s.fast, job, s.now), s.now)
    case Finishes(id) => Pair(Remove(s.profile, id, {}), FinishJob(s.fast, id), s.now)
    case Passes(date) => Pair(Advance(s.profile, date), s.fast, date)
  }

  /** Jobs that fit now begin, any job finishes, and time passes up to the next estimated finish. */
  ghost predicate Possible(s: Pair, c: Change)
    requires |s.profile| > 0
  {
    match c
    case Begins(job) =>
      job.res <= s.fast.nbAvailable && job.walltime > 0.0 && job.duration == job.walltime
      && s.now + job.walltime <= Horizon(s.profile) && job.id !in RunningIds(s.fast.scheduled)
    case Finishes(_) => true
    case Passes(date) => s.now <= date <= s.profile[0].end
  }

  ghost predicate Mirrored(all: MachineSet, s: Pair) {
    Mirrors(s.profile, all, s.fast.scheduled, s.now) && PlatformOk(all, s.fast)
  }

  lemma ChangeKeepsMirror(all: MachineSet, s: Pair, c: Change)
    requires Mirrored(all, s) && |s.profile| > 0 && Possible(s, c)
    ensures Mirrored(all, Both(s, c)) && |Both(s, c).profile| > 0
  {
    hide PlatformOk, Mirrors, StartFast, FinishJob, Add, Remove, Advance;
    match c
    case Begins(job) =>
      StartAgrees(s.profile, all, s.fast, s.now, job);
      StartKeeps(all, s.fast, job, s.now);
      MirrorsParts(Add(s.profile, 0, job, Basic).profile, all, StartFast(s.fast, job, s.now).scheduled, s.now);
    case Finishes(id) =>
      FinishAgrees(s.profile, all, s.fast, s.now, id);
      FinishKeeps(all, s.fast, id);
      MirrorsParts(Remove(s.profile, id, {}), all, FinishJob(s.fast, id).scheduled, s.now);
    case Passes(date) =>
      AdvanceAgrees(s.profile, all, s.fast.scheduled, s.now, date);
      MirrorsParts(Advance(s.profile, date), all, s.fast.scheduled, date);
  }

  ghost predicate AllPossible(all: MachineSet, s: Pair, changes: seq<Change>)
    decreases |changes|
  {
    |s.profile| > 0
    && (changes == [] || (Possible(s, changes[0]) && AllPossible(all, Both(s, changes[0]), changes[1..])))
  }

  function After(s: Pair, changes: seq<Change>): Pair
    decreases |changes|
  {
    if changes == [] || |s.profile| == 0 then s else After(Both(s, changes[0]), changes[1..])
  }

  /** Through any sequence of starts, finishes and passing time the profile mirrors the list of running jobs, and so
      the shadow time of a blocked head remains its first fit. */
  lemma {:induction false} MirroredThroughout(all: MachineSet, s: Pair, changes: seq<Change>)
    requires Mirrored(all, s) && AllPossible(all, s, changes)
    ensures Mirrored(all, After(s, changes))
    decreases |changes|
  {
    hide Mirrored, Possible, Both;
    if changes != [] {
      ChangeKeepsMirror(all, s, changes[0]);
      MirroredThroughout(all, Both(s, changes[0]), changes[1..]);
    }
  }
}
