/** The questions asked of a profile: where a request fits, when it could start, and what is allocated. */
module Queries {
  import opened Machines
  import opened Profiles
  import opened FirstFits
  import opened Slots
  import opened JobRuns
  import opened OpenJobs

  // ---------------------------------------------------------------- scanning for a place

  lemma CommonShrinks(p: Profile, i: nat, y: nat, k: nat)
    requires i <= y <= k < |p|
    ensures Common(p, i, k) <= Common(p, i, y)
  {
    CommonIsGreatest(p, i, y, Common(p, i, k));
  }

  /** Too few machines in the slices up to y, none of them long enough: no place starts with slice i. */
  lemma TooFewUpTo(p: Profile, i: nat, y: nat, n: nat, walltime: real, sel: Selector)
    requires i <= y < |p| && |Common(p, i, y)| < n
    requires forall x :: i <= x < y ==> p[x].end - p[i].begin < walltime
    ensures !Anchor(p, i, n, walltime, sel)
  {
    hide CanFit, Common;
    var k := SpanEnd(p, i, i, walltime);
    if k < |p| {
      CommonShrinks(p, i, y, k);
      SubsetSize(Common(p, i, k), Common(p, i, y));
      FitContract(sel, n, Common(p, i, k));
    }
  }

  /** A fit that failed when the walltime was first covered cannot succeed over more slices. */
  lemma NoLaterFit(p: Profile, i: nat, y: nat, n: nat, walltime: real, sel: Selector)
    requires i <= y < |p| && p[y].end - p[i].begin >= walltime && CanFit(sel, n, Common(p, i, y))
    ensures Anchor(p, i, n, walltime, sel)
  {
    hide CanFit, Common;
    var k := SpanEnd(p, i, i, walltime);
    assert k <= y;
    CommonShrinks(p, i, k, y);
    FitMonotone(sel, n, Common(p, i, y), Common(p, i, k));
  }

  lemma CommonInSlice(p: Profile, i: nat, y: nat, all: MachineSet, repair: MachineSet)
    requires Valid(p, all, repair) && i <= y < |p|
    ensures |Common(p, i, y)| <= p[y].nbAvailable && p[y].length == p[y].end - p[y].begin
    ensures i < y ==> p[y - 1].end == p[y].begin
  {
    hide Runs, Holds, Partition;
    assert SliceOk(p[y], all, repair);
    SubsetSize(Common(p, i, y), p[y].available);
  }

  /** When the walltime is first covered by slice y, the machines common to the slices up to y decide. */
  lemma CoveredAt(p: Profile, i: nat, y: nat, n: nat, walltime: real, sel: Selector)
    requires i <= y < |p| && p[y].end - p[i].begin >= walltime
    requires forall x :: i <= x < y ==> p[x].end - p[i].begin < walltime
    ensures Anchor(p, i, n, walltime, sel) <==> CanFit(sel, n, Common(p, i, y))
    ensures Anchor(p, i, n, walltime, sel) ==>
              Fit(sel, n, Common(p, i, y)).Some?
              && SpotAt(p, i, n, walltime, sel) == Spot(i, y, Fit(sel, n, Common(p, i, y)).value)
  {
    hide CanFit, Fit, Common;
    assert SpanEnd(p, i, i, walltime) == y;
    FitContract(sel, n, Common(p, i, y));
  }

  lemma NeverCovered(p: Profile, i: nat, n: nat, walltime: real, sel: Selector)
    requires i < |p| && forall x :: i <= x < |p| ==> p[x].end - p[i].begin < walltime
    ensures !Anchor(p, i, n, walltime, sel)
  {
  }

  /** Whether a place starts with slice i: widen the window slice by slice while enough machines stay available. */
  method ScanFrom(p: Profile, i: nat, n: nat, walltime: real, sel: Selector, ghost all: MachineSet,
                  ghost repair: MachineSet)
    returns (r: Option<Spot>)
    requires Valid(p, all, repair) && i < |p|
    ensures r.Some? <==> Anchor(p, i, n, walltime, sel)
    ensures r.Some? ==> r.value == SpotAt(p, i, n, walltime, sel)
  {
    hide Valid, CanFit, Fit, Anchor, SpanEnd, SpotAt;
    CommonInSlice(p, i, i, all, repair);
    if p[i].nbAvailable < n {
      TooFewUpTo(p, i, i, n, walltime, sel);
      return None;
    }
    var totalTime := p[i].length;
    var availableMachines := p[i].available;
    FitContract(sel, n, availableMachines);
    if totalTime >= walltime {
      CoveredAt(p, i, i, n, walltime, sel);
      var fit := Fit(sel, n, availableMachines);
      if fit.Some? { return Some(Spot(i, i, fit.value)); }
      return None;
    }
    var k := i + 1;
    while k < |p| && p[k].nbAvailable >= n
      invariant i < k <= |p|
      invariant availableMachines == Common(p, i, k - 1) && totalTime == p[k - 1].end - p[i].begin
      invariant (forall x :: i <= x < k ==> p[x].end - p[i].begin < walltime) || !Anchor(p, i, n, walltime, sel)
    {
      CommonInSlice(p, i, k, all, repair);
      availableMachines := availableMachines * p[k].available;
      totalTime := totalTime + p[k].length;
      if |availableMachines| < n {
        if forall x :: i <= x < k ==> p[x].end - p[i].begin < walltime { TooFewUpTo(p, i, k, n, walltime, sel); }
        return None;
      } else if totalTime >= walltime {
        FitContract(sel, n, availableMachines);
        var fit := Fit(sel, n, availableMachines);
        if fit.Some? { NoLaterFit(p, i, k, n, walltime, sel); }
        if forall x :: i <= x < k ==> p[x].end - p[i].begin < walltime { CoveredAt(p, i, k, n, walltime, sel); }
        if fit.Some? { return Some(Spot(i, k, fit.value)); }
      }
      k := k + 1;
    }
    if forall x :: i <= x < k ==> p[x].end - p[i].begin < walltime {
      if k < |p| {
        CommonInSlice(p, i, k, all, repair);
        TooFewUpTo(p, i, k, n, walltime, sel);
      } else {
        NeverCovered(p, i, n, walltime, sel);
      }
    }
    return None;
  }

  /** The scan shared by `add_job_first_fit_after_time_slice` and `query_wait`. */
  method FindSpot(p: Profile, from: nat, n: nat, walltime: real, sel: Selector, ghost all: MachineSet,
                  ghost repair: MachineSet)
    returns (r: Option<Spot>)
    requires Valid(p, all, repair) && from <= |p|
    ensures r == FirstFit(p, from, n, walltime, sel)
  {
    hide Valid, Anchor, FirstAnchor, SpotAt;
    var i := from;
    while i < |p|
      invariant from <= i <= |p|
      invariant forall x :: from <= x < i ==> !Anchor(p, x, n, walltime, sel)
    {
      r := ScanFrom(p, i, n, walltime, sel, all, repair);
      if r.Some? {
        assert FirstAnchor(p, from, n, walltime, sel) == i;
        return;
      }
      i := i + 1;
    }
    assert FirstAnchor(p, from, n, walltime, sel) == |p|;
    r := None;
  }

  /** The scan for a job, which sets the walltime of a job without one anew for each slice it begins with. */
  method FindSpotFor(p: Profile, from: nat, job: Job, sel: Selector, ghost all: MachineSet, ghost repair: MachineSet)
    returns (r: Option<Spot>)
    requires Valid(p, all, repair) && from <= |p|
    ensures r == if job.hasWalltime then FirstFit(p, from, job.res, job.walltime, sel)
                 else OpenFit(p, from, job.res, sel)
  {
    hide Valid, Anchor, FirstAnchor, SpotAt, FirstOpen;
    var i := from;
    while i < |p|
      invariant from <= i <= |p|
      invariant forall x :: from <= x < i ==> !Anchor(p, x, job.res, WalltimeFrom(p, x, job), sel)
    {
      var walltime := job.walltime;
      if !job.hasWalltime {
        walltime := p[|p| - 1].end - p[i].begin;
      }
      r := ScanFrom(p, i, job.res, walltime, sel, all, repair);
      if r.Some? {
        FirstForIs(p, from, job, sel, i);
        return;
      }
      i := i + 1;
    }
    FirstForIs(p, from, job, sel, |p|);
    r := None;
  }

  /** The first slice a job can begin with, or the number of slices. */
  function FirstFor(p: Profile, from: nat, job: Job, sel: Selector): (r: nat)
    requires from <= |p|
    ensures from <= r <= |p|
    ensures r < |p| ==> Anchor(p, r, job.res, WalltimeFrom(p, r, job), sel)
  {
    if job.hasWalltime then FirstAnchor(p, from, job.res, job.walltime, sel) else FirstOpen(p, from, job.res, sel)
  }

  lemma FirstForIs(p: Profile, from: nat, job: Job, sel: Selector, i: nat)
    requires from <= i <= |p| && forall x :: from <= x < i ==> !Anchor(p, x, job.res, WalltimeFrom(p, x, job), sel)
    requires i < |p| ==> Anchor(p, i, job.res, WalltimeFrom(p, i, job), sel)
    ensures FirstFor(p, from, job, sel) == i
  {
    hide Anchor;
    var r := FirstFor(p, from, job, sel);
    if i < r && !job.hasWalltime { NoneBeforeFirstOpen(p, from, job.res, sel, i); }
  }

  /** `query_wait`: the date at which a request could start, or -1 when it never can. */
  method QueryWait(p: Profile, n: nat, time: real, sel: Selector, ghost all: MachineSet, ghost repair: MachineSet)
    returns (date: real)
    requires Valid(p, all, repair) && p[0].begin >= 0.0
    ensures date == -1.0 <==> FirstFit(p, 0, n, time, sel).None?
    ensures forall job: Job :: job.res == n && job.walltime == time ==>
              var alloc := Add(p, 0, job, sel).alloc;
              (alloc.hasBeenInserted <==> date != -1.0) && (alloc.hasBeenInserted ==> date == alloc.begin)
  {
    hide SliceOk, Runs, Place;
    var spot := FindSpot(p, 0, n, time, sel, all, repair);
    if spot.Some? {
      date := p[spot.value.first].begin;
      if spot.value.first > 0 { Ordered(p, 0, spot.value.first); }
    } else {
      date := -1.0;
    }
  }

  // ---------------------------------------------------------------- reading the allocations back

  function AsGrant(a: JobAlloc): Grant {
    Grant(a.begin, a.end, a.machines)
  }

  /** The allocation describes the job's run: its first start, its last end, its machines. */
  ghost predicate Describes(p: Profile, a: JobAlloc) {
    && |p| > 0
    && Occupies(p, a.job, AsGrant(a))
    && a.hasBeenInserted && a.startedInFirstSlice == (a.begin == p[0].begin)
  }

  /** Among the slices up to x, the job starts with the slice that begins at the date and stays to slice x. */
  ghost predicate StartedAt(p: Profile, j: JobId, x: nat, date: real) {
    exists f: nat :: f <= x < |p| && date == p[f].begin && forall y :: 0 <= y <= x ==> (j in p[y].jobs <==> f <= y)
  }

  lemma RunCloses(p: Profile, j: JobId, x: nat, date: real) returns (f: nat)
    requires Runs(p) && 0 < x < |p| && StartedAt(p, j, x - 1, date) && j !in p[x].jobs
    ensures f < x && p[f].begin == date && RunSpans(p, j, f, x - 1)
  {
    f :| f <= x - 1 && date == p[f].begin && forall y :: 0 <= y <= x - 1 ==> (j in p[y].jobs <==> f <= y);
    forall y | 0 <= y < |p| ensures j in p[y].jobs <==> f <= y <= x - 1 {
      if y > x { assert j in p[x - 1].jobs; }
    }
  }

  lemma RunGoesOn(p: Profile, j: JobId, x: nat, date: real)
    requires 0 < x < |p| && StartedAt(p, j, x - 1, date) && j in p[x].jobs
    ensures StartedAt(p, j, x, date)
  {
    var f: nat :| f <= x - 1 && date == p[f].begin && forall y :: 0 <= y <= x - 1 ==> (j in p[y].jobs <==> f <= y);
  }

  lemma RunOpens(p: Profile, j: JobId, x: nat)
    requires Runs(p) && x < |p| && j in p[x].jobs && (x > 0 ==> j !in p[x - 1].jobs)
    ensures StartedAt(p, j, x, p[x].begin)
  {
    forall y | 0 <= y <= x ensures j in p[y].jobs <==> x <= y {
      if y < x { assert j !in p[x - 1].jobs && j in p[x].jobs; }
    }
  }

  function Reported(res: seq<JobAlloc>): set<JobId> {
    set a | a in res :: a.job
  }

  lemma ReportedAppend(a: seq<JobAlloc>, b: seq<JobAlloc>)
    ensures Reported(a + b) == Reported(a) + Reported(b)
  {
    forall j | j in Reported(a) + Reported(b) ensures j in Reported(a + b) {
      if j in Reported(a) {
        var x :| x in a && x.job == j;
        assert x in a + b;
      } else {
        var x :| x in b && x.job == j;
        assert x in a + b;
      }
    }
  }

  /** One allocation for each of the jobs, each describing its job's run. */
  ghost predicate Lists(p: Profile, res: seq<JobAlloc>, jobs: set<JobId>) {
    && Reported(res) == jobs
    && (forall a :: a in res ==> Describes(p, a))
    && (forall i, k :: 0 <= i < k < |res| ==> res[i].job != res[k].job)
  }

  lemma ListsAppend(p: Profile, a: seq<JobAlloc>, x: set<JobId>, b: seq<JobAlloc>, y: set<JobId>)
    requires Lists(p, a, x) && Lists(p, b, y) && x !! y
    ensures Lists(p, a + b, x + y)
  {
    hide Describes;
    ReportedAppend(a, b);
    forall i, k | 0 <= i < k < |a + b| ensures (a + b)[i].job != (a + b)[k].job {
      if i < |a| <= k {
        assert a[i].job in Reported(a) && b[k - |a|].job in Reported(b);
      }
    }
  }

  /** The allocations of the jobs that end with slice x - 1. */
  method ReportFinished(p: Profile, x: nat, finished: set<JobId>, starts: map<JobId, real>) returns (res: seq<JobAlloc>)
    requires Runs(p) && 0 < x < |p| && p[x - 1].end == p[x].begin
    requires forall j :: j in finished ==> j in starts && j !in p[x].jobs && StartedAt(p, j, x - 1, starts[j])
    ensures Lists(p, res, finished)
  {
    hide Runs, StartedAt;
    res := [];
    var todo := finished;
    while todo != {}
      invariant todo <= finished
      invariant Lists(p, res, finished - todo)
      decreases |todo|
    {
      var j :| j in todo;
      ghost var f := RunCloses(p, j, x, starts[j]);
      assert j in p[x - 1].jobs;
      var a := JobAlloc(true, starts[j], p[x].begin, starts[j] == p[0].begin, j, p[x - 1].jobs[j]);
      assert RunIs(p, j, f, x - 1, AsGrant(a));
      assert Reported([a]) == {j} by { assert a in [a]; }
      ListsAppend(p, res, finished - todo, [a], {j});
      assert finished - todo + {j} == finished - (todo - {j});
      res := res + [a];
      todo := todo - {j};
    }
    assert finished - todo == finished;
  }

  /** The jobs that hold machines in some slice before x and no longer in slice x - 1. */
  ghost function EndedBy(p: Profile, x: nat): set<JobId>
    requires x <= |p|
  {
    set i, j | 0 <= i < x && j in p[i].jobs && j !in p[x - 1].jobs :: j
  }

  lemma EndedGrows(p: Profile, x: nat)
    requires Runs(p) && 0 < x < |p|
    ensures EndedBy(p, x + 1) == EndedBy(p, x) + (p[x - 1].jobs.Keys - p[x].jobs.Keys)
    ensures EndedBy(p, x) !! p[x - 1].jobs.Keys
  {
    forall j | j in EndedBy(p, x) ensures j in EndedBy(p, x + 1) {
      var i :| 0 <= i < x && j in p[i].jobs && j !in p[x - 1].jobs;
      assert j !in p[x].jobs;
    }
    var more := EndedBy(p, x) + (p[x - 1].jobs.Keys - p[x].jobs.Keys);
    forall j | j in EndedBy(p, x + 1) ensures j in more {
      var i :| 0 <= i < x + 1 && j in p[i].jobs && j !in p[x].jobs;
      assert i < x;
    }
  }

  /** `jobs_allocations`: exactly one allocation for each job that ends before the horizon, describing the job's run. */
  method JobsAllocations(p: Profile, ghost all: MachineSet, ghost repair: MachineSet) returns (res: seq<JobAlloc>)
    requires Valid(p, all, repair)
    ensures Lists(p, res, EndedBy(p, |p|))
  {
    hide SliceOk, Runs, StartedAt, Lists, EndedBy;
    res := [];
    var starts: map<JobId, real> := map j | j in p[0].jobs :: p[0].begin;
    forall j | j in p[0].jobs ensures StartedAt(p, j, 0, p[0].begin) { RunOpens(p, j, 0); }
    assert Lists(p, res, EndedBy(p, 1)) by { NothingEnded(p); }
    var x := 1;
    while x < |p|
      invariant 1 <= x <= |p|
      invariant forall j :: j in p[x - 1].jobs ==> j in starts && StartedAt(p, j, x - 1, starts[j])
      invariant Lists(p, res, EndedBy(p, x))
    {
      var finished := p[x - 1].jobs.Keys - p[x].jobs.Keys;
      var more := ReportFinished(p, x, finished, starts);
      EndedGrows(p, x);
      ListsAppend(p, res, EndedBy(p, x), more, finished);
      res := res + more;
      ghost var before := starts;
      starts := starts + map j | j in p[x].jobs && j !in p[x - 1].jobs :: p[x].begin;
      forall j | j in p[x].jobs ensures j in starts && StartedAt(p, j, x, starts[j]) {
        if j in p[x - 1].jobs { RunGoesOn(p, j, x, before[j]); } else { RunOpens(p, j, x); }
      }
      x := x + 1;
    }
  }

  lemma NothingEnded(p: Profile)
    requires |p| > 0
    ensures Lists(p, [], EndedBy(p, 1))
  {
    assert EndedBy(p, 1) == {};
  }

  /** What is listed for a job is what it holds at every instant, and its slot unless the first slice is empty. */
  lemma DescribesHolding(p: Profile, a: JobAlloc, all: MachineSet, repair: MachineSet)
    requires Valid(p, all, repair) && Describes(p, a)
    ensures forall t :: Within(p, t) ==>
              if a.begin <= t < a.end then a.job in JobsAt(p, t) && JobsAt(p, t)[a.job] == a.machines
              else a.job !in JobsAt(p, t)
    ensures p[0].begin < p[0].end ==> Slot(p, a.job, a.begin, a.end, a.machines)
  {
    hide SliceOk, Runs, JobsAt, Occupies, Slot;
    forall t | Within(p, t)
      ensures if a.begin <= t < a.end then a.job in JobsAt(p, t) && JobsAt(p, t)[a.job] == a.machines
              else a.job !in JobsAt(p, t)
    {
      OccupiesAt(p, a.job, AsGrant(a), t);
    }
    if p[0].begin < p[0].end { OccupiesSlot(p, a.job, AsGrant(a)); }
  }

  /** With an idle last slice every job of the profile is listed. */
  lemma AllJobsAreListed(p: Profile, res: seq<JobAlloc>)
    requires LastIsIdle(p) && Lists(p, res, EndedBy(p, |p|))
    ensures forall j :: Contains(p, j) <==> exists i :: 0 <= i < |res| && res[i].job == j
  {
    hide Describes;
    forall j ensures Contains(p, j) <==> exists i :: 0 <= i < |res| && res[i].job == j {
      assert j in EndedBy(p, |p|) <==> Contains(p, j);
      if j in Reported(res) {
        var a :| a in res && a.job == j;
        var i :| 0 <= i < |res| && res[i] == a;
      }
      if i :| 0 <= i < |res| && res[i].job == j {
        assert res[i] in res && j in Reported(res);
      }
    }
  }

  /** What is read back for a job that was just inserted is what first fit chose. */
  lemma AddedIsReadBack(p: Profile, job: Job, sel: Selector, res: seq<JobAlloc>, a: JobAlloc)
    requires Tiles(p) && job.walltime > 0.0 && !Contains(p, job.id)
    requires FirstFit(p, 0, job.res, job.walltime, sel).Some?
    requires var q := Add(p, 0, job, sel).profile; Lists(q, res, EndedBy(q, |q|))
    requires a in res && a.job == job.id
    ensures var Added(q, alloc) := Add(p, 0, job, sel);
            a.begin == alloc.begin && a.end == alloc.begin + job.walltime && a.machines == alloc.machines
  {
    hide FirstFit, Place, Occupies, EndedBy, Contains, Tiles;
    var Added(q, alloc) := Add(p, 0, job, sel);
    AddOccupies(p, 0, job, sel);
    OccupiesUnique(q, job.id, AsGrant(a), Grant(alloc.begin, alloc.begin + job.walltime, alloc.machines));
  }
}
