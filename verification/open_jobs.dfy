/** Jobs without a walltime: first fit asks for their machines from their begin up to the horizon. */
module OpenJobs {
  import opened Machines
  import opened Profiles
  import opened Placement
  import opened Removal
  import opened FirstFits
  import opened Membership

  /** The time first fit asks for when the job begins with slice i. */
  function WalltimeFrom(p: Profile, i: nat, job: Job): real
    requires i < |p|
  {
    if job.hasWalltime then job.walltime else Horizon(p) - p[i].begin
  }

  /** The first slice from which the machines can be had up to the horizon. */
  function FirstOpen(p: Profile, from: nat, n: nat, sel: Selector): (r: nat)
    requires from <= |p|
    ensures from <= r <= |p|
    ensures r < |p| ==> Anchor(p, r, n, Horizon(p) - p[r].begin, sel)
    decreases |p| - from
  {
    if from == |p| || Anchor(p, from, n, Horizon(p) - p[from].begin, sel) then from
    else FirstOpen(p, from + 1, n, sel)
  }

  /** No earlier slice would do. */
  lemma {:induction false} NoneBeforeFirstOpen(p: Profile, from: nat, n: nat, sel: Selector, i: nat)
    requires from <= |p| && from <= i < FirstOpen(p, from, n, sel)
    ensures !Anchor(p, i, n, Horizon(p) - p[i].begin, sel)
    decreases i - from
  {
    hide Anchor;
    if from < i { NoneBeforeFirstOpen(p, from + 1, n, sel, i); }
  }

  /** The place of a job without a walltime. */
  function OpenFit(p: Profile, from: nat, n: nat, sel: Selector): (r: Option<Spot>)
    requires from <= |p|
    ensures r.Some? ==> from <= r.value.first <= r.value.last < |p|
  {
    var i := FirstOpen(p, from, n, sel);
    if i == |p| then None else Some(SpotAt(p, i, n, Horizon(p) - p[i].begin, sel))
  }

  /** `add_job_first_fit_after_time_slice`, for jobs with and without a walltime. */
  function AddAny(p: Profile, from: nat, job: Job, sel: Selector): Added
    requires from <= |p|
  {
    if job.hasWalltime then Add(p, from, job, sel)
    else
      match OpenFit(p, from, job.res, sel)
      case None => Added(p, FAILED_ALLOC)
      case Some(Spot(i, k, u)) =>
        var begin := p[i].begin;
        var end := begin + WalltimeFrom(p, i, job);
        Added(Place(p, i, k, end, job.id, u, job.res),
              JobAlloc(true, begin, if i == k then 0.0 else end, i == 0, job.id, u))
  }

  lemma Rising(p: Profile, i: nat, k: nat)
    requires Tiles(p) && i <= k < |p|
    ensures p[i].begin <= p[k].begin && p[i].end <= p[k].end
  {
    if i < k { Ordered(p, i, k); }
  }

  /** A job without a walltime runs to the end of the last slice. */
  lemma OpenSpot(p: Profile, from: nat, n: nat, sel: Selector)
    requires Tiles(p) && from <= |p| && OpenFit(p, from, n, sel).Some?
    ensures var Spot(i, k, u) := OpenFit(p, from, n, sel).value;
            && k == |p| - 1 && |u| == n && (n > 0 ==> CanFit(sel, n, u))
            && (forall x :: i <= x <= k ==> u <= p[x].available)
  {
    hide CanFit, Fit, FirstOpen, Anchor, Tiles;
    var i := FirstOpen(p, from, n, sel);
    OpenEnd(p, i, n, sel);
    FitContract(sel, n, Common(p, i, |p| - 1));
  }

  lemma OpenEnd(p: Profile, i: nat, n: nat, sel: Selector)
    requires Tiles(p) && i < |p| && Anchor(p, i, n, Horizon(p) - p[i].begin, sel)
    ensures SpanEnd(p, i, i, Horizon(p) - p[i].begin) == |p| - 1 && CanFit(sel, n, Common(p, i, |p| - 1))
  {
    hide CanFit;
    var k := SpanEnd(p, i, i, Horizon(p) - p[i].begin);
    if k < |p| - 1 { Ordered(p, k, |p| - 1); }
  }

  lemma PlacedToTheEnd(p: Profile, i: nat, j: JobId, u: MachineSet, n: nat)
    requires i < |p|
    ensures Place(p, i, |p| - 1, Horizon(p), j, u, n) == Mark(p, i, |p| - 1, j, u, n)
  {
  }

  /** An insertion of any job keeps the invariant, the period and the normal form, whether it succeeds or not. */
  lemma AddAnyKeeps(p: Profile, from: nat, job: Job, sel: Selector, all: MachineSet, repair: MachineSet)
    requires Valid(p, all, repair) && from <= |p| && (job.hasWalltime ==> job.walltime > 0.0) && !Contains(p, job.id)
    ensures var q := AddAny(p, from, job, sel).profile;
            Valid(q, all, repair) && SameSpan(p, q) && (Canonical(p) ==> Canonical(q))
  {
    hide SliceOk, Runs, Tiles, OpenFit, Place, Mark, Contains, CanFit;
    if job.hasWalltime {
      AddKeeps(p, from, job, sel, all, repair);
    } else if OpenFit(p, from, job.res, sel).Some? {
      var Spot(i, k, u) := OpenFit(p, from, job.res, sel).value;
      OpenSpot(p, from, job.res, sel);
      PlacedToTheEnd(p, i, job.id, u, job.res);
      MarkValid(p, i, k, job.id, u, all, repair);
      MarkedSpan(p, i, k, job.id, u, job.res);
      if Canonical(p) { MarkCanonical(p, i, k, job.id, u, job.res); }
    } else {
      assert SameSpan(p, p) by { NotEmpty(p, all, repair); }
    }
  }

  lemma NotEmpty(p: Profile, all: MachineSet, repair: MachineSet)
    requires Valid(p, all, repair)
    ensures |p| > 0 && Tiles(p)
  {
  }

  lemma MarkedSpan(p: Profile, i: nat, k: nat, j: JobId, u: MachineSet, n: nat)
    requires i <= k < |p|
    ensures SameSpan(p, Mark(p, i, k, j, u, n))
  {
  }

  /** The machines of a job without a walltime are its own from its begin to the horizon, and nothing else changes. */
  lemma OpenJobsAt(p: Profile, from: nat, job: Job, sel: Selector, all: MachineSet, repair: MachineSet, t: real)
    requires Valid(p, all, repair) && from <= |p| && !job.hasWalltime && !Contains(p, job.id)
    requires OpenFit(p, from, job.res, sel).Some? && Within(p, t)
    ensures var Added(q, alloc) := AddAny(p, from, job, sel);
            && Tiles(q) && Within(q, t)
            && JobsAt(q, t) == if alloc.begin <= t then JobsAt(p, t)[job.id := alloc.machines] else JobsAt(p, t)
  {
    hide SliceOk, Runs, OpenFit, JobsAt, Mark, Place, Contains;
    var Spot(i, k, u) := OpenFit(p, from, job.res, sel).value;
    AddAnyKeeps(p, from, job, sel, all, repair);
    OpenSpot(p, from, job.res, sel);
    PlacedToTheEnd(p, i, job.id, u, job.res);
    MarkJobsAt(p, i, k, job.id, u, job.res, t);
  }

  /** No earlier begin was possible: whenever some machines could be had from instant t up to the horizon, the job
      begins at t or before. */
  lemma OpenIsEarliest(p: Profile, n: nat, sel: Selector, m: MachineSet, t: real)
    requires |p| > 0 && FreeThroughout(p, m, t, Horizon(p)) && CanFit(sel, n, m) && t < Horizon(p)
    ensures OpenFit(p, 0, n, sel).Some?
    ensures p[OpenFit(p, 0, n, sel).value.first].begin <= t
  {
    hide FreeThroughout, CanFit, Anchor;
    FreeEnd(p, m, t, Horizon(p));
    var i := IndexAt(p, t);
    OpenAnchor(p, n, sel, m, t, i);
    var f := FirstOpen(p, 0, n, sel);
    if i < f { NoneBeforeFirstOpen(p, 0, n, sel, i); }
    if f < i { Ordered(p, f, i); assert p[f].begin <= p[f].end; }
  }

  lemma OpenAnchor(p: Profile, n: nat, sel: Selector, m: MachineSet, t: real, i: nat)
    requires |p| > 0 && FreeThroughout(p, m, t, Horizon(p)) && CanFit(sel, n, m)
    requires i < |p| && p[i].begin <= t < p[i].end
    ensures Anchor(p, i, n, Horizon(p) - p[i].begin, sel)
  {
    hide CanFit, FreeAt, IndexAt;
    FreeEnd(p, m, t, Horizon(p));
    var last := |p| - 1;
    assert forall x :: i <= x < last ==> p[x].end < Horizon(p) by {
      forall x | i <= x < last ensures p[x].end < Horizon(p) { Ordered(p, x, last); }
    }
    assert SpanEnd(p, i, i, Horizon(p) - p[i].begin) == last;
    forall x | i <= x <= last ensures m <= p[x].available {
      var s := if x == i then t else p[x].begin;
      if i < x { Ordered(p, i, x); }
      Rising(p, x, last);
      IndexUnique(p, x, s);
      AvailableIs(p, x, s);
    }
    CommonIsGreatest(p, i, last, m);
    FitMonotone(sel, n, m, Common(p, i, last));
  }

  lemma AvailableIs(p: Profile, x: nat, t: real)
    requires Tiles(p) && Within(p, t) && x < |p| && IndexAt(p, t) == x
    ensures FreeAt(p, t) == p[x].available
  {
  }

  /** A job without a walltime finds no place exactly when no machines could be had from any instant up to the
      horizon. */
  lemma OpenFailsIff(p: Profile, n: nat, sel: Selector)
    requires Tiles(p) && p[0].begin < Horizon(p)
    ensures OpenFit(p, 0, n, sel).None? <==>
              forall t, m :: t < Horizon(p) && FreeThroughout(p, m, t, Horizon(p)) ==> !CanFit(sel, n, m)
  {
    hide FreeThroughout, CanFit, FirstOpen, Anchor;
    forall t, m | t < Horizon(p) && FreeThroughout(p, m, t, Horizon(p)) && CanFit(sel, n, m)
      ensures OpenFit(p, 0, n, sel).Some?
    {
      FreeEnd(p, m, t, Horizon(p));
      OpenIsEarliest(p, n, sel, m, t);
    }
    var i := FirstOpen(p, 0, n, sel);
    if i < |p| {
      OpenEnd(p, i, n, sel);
      var m := Common(p, i, |p| - 1);
      CommonIsFree(p, i, |p| - 1, m, Horizon(p));
      BeginsBefore(p, i);
      assert FreeThroughout(p, m, p[i].begin, Horizon(p)) && CanFit(sel, n, m);
    }
  }

  lemma BeginsBefore(p: Profile, i: nat)
    requires Tiles(p) && i < |p| && p[0].begin < Horizon(p)
    ensures p[i].begin < Horizon(p)
  {
    Rising(p, i, |p| - 1);
  }

  /** For jobs with and without a walltime: the answer names the job, and says that it started now exactly when it
      runs in the first slice afterwards; the other running jobs keep their machines. */
  lemma AddAnyPresent(p: Profile, from: nat, job: Job, sel: Selector)
    requires |p| > 0 && from <= |p| && !Contains(p, job.id)
    ensures var Added(q, alloc) := AddAny(p, from, job, sel);
            && |q| > 0
            && (alloc.startedInFirstSlice <==> job.id in q[0].jobs)
            && q[0].jobs == (if job.id in q[0].jobs then p[0].jobs[job.id := alloc.machines] else p[0].jobs)
            && (alloc.hasBeenInserted <==> Contains(q, job.id))
            && (if alloc.hasBeenInserted then alloc.job == job.id else q == p && alloc == FAILED_ALLOC)
  {
    hide FirstFit, OpenFit, Place;
    var spot := if job.hasWalltime then FirstFit(p, from, job.res, job.walltime, sel)
                else OpenFit(p, from, job.res, sel);
    if spot.Some? {
      var Spot(i, k, u) := spot.value;
      var end := p[i].begin + WalltimeFrom(p, i, job);
      PlaceNonempty(p, i, k, end, job.id, u, job.res);
      PlacePresent(p, i, k, end, job.id, u, job.res);
      PlaceJobSet(p, i, k, end, job.id, u, job.res);
      var q := Place(p, i, k, end, job.id, u, job.res);
      JobSetContains(q, job.id);
      assert AddAny(p, from, job, sel).profile == q;
    }
  }

  /** The returned end of a job without a walltime is the horizon exactly when its first slice is not the last, or when
      the horizon is 0, which is also the default. */
  lemma OpenEndIsReturnedIff(p: Profile, from: nat, job: Job, sel: Selector)
    requires Tiles(p) && from <= |p| && !job.hasWalltime && OpenFit(p, from, job.res, sel).Some?
    ensures var alloc, first := AddAny(p, from, job, sel).alloc, OpenFit(p, from, job.res, sel).value.first;
            && alloc.begin == p[first].begin
            && (alloc.end == Horizon(p) <==> first < |p| - 1 || Horizon(p) == 0.0)
  {
    hide FirstOpen, Anchor, Place;
    OpenSpot(p, from, job.res, sel);
  }
}
