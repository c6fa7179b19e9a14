/** First fit: which place a job gets in the profile, and that no earlier start was possible. */
module FirstFits {
  import opened Machines
  import opened Profiles
  import opened Placement
  import opened Removal

  // ---------------------------------------------------------------- the place first fit chooses

  /** The first slice from k on by whose end the walltime, counted from the start of slice i, has passed. */
  function SpanEnd(p: Profile, i: nat, k: nat, walltime: real): (r: nat)
    requires i < |p| && k <= |p|
    ensures k <= r <= |p|
    ensures r < |p| ==> p[r].end - p[i].begin >= walltime
    ensures forall x :: k <= x < r ==> p[x].end - p[i].begin < walltime
    decreases |p| - k
  {
    if k == |p| || p[k].end - p[i].begin >= walltime then k else SpanEnd(p, i, k + 1, walltime)
  }

  /** The machines available in all of the slices i to k. */
  function Common(p: Profile, i: nat, k: nat): (r: MachineSet)
    requires i <= k < |p|
    ensures forall x :: i <= x <= k ==> r <= p[x].available
    decreases k
  {
    if i == k then p[i].available else Common(p, i, k - 1) * p[k].available
  }

  lemma {:induction false} CommonIsGreatest(p: Profile, i: nat, k: nat, m: MachineSet)
    requires i <= k < |p| && forall x :: i <= x <= k ==> m <= p[x].available
    ensures m <= Common(p, i, k)
    decreases k
  {
    if i < k {
      CommonIsGreatest(p, i, k - 1, m);
    }
  }

  /** A request for n machines fits over the whole walltime from the start of slice i. */
  predicate Anchor(p: Profile, i: nat, n: nat, walltime: real, sel: Selector)
    requires i < |p|
  {
    var k := SpanEnd(p, i, i, walltime);
    k < |p| && CanFit(sel, n, Common(p, i, k))
  }

  function FirstAnchor(p: Profile, from: nat, n: nat, walltime: real, sel: Selector): (r: nat)
    requires from <= |p|
    ensures from <= r <= |p|
    ensures r < |p| ==> Anchor(p, r, n, walltime, sel)
    ensures forall i :: from <= i < r ==> !Anchor(p, i, n, walltime, sel)
    decreases |p| - from
  {
    if from == |p| || Anchor(p, from, n, walltime, sel) then from
    else FirstAnchor(p, from + 1, n, walltime, sel)
  }

  /** A place for a job: it starts with slice `first`, ends in slice `last`, and gets the machines. */
  datatype Spot = Spot(first: nat, last: nat, machines: MachineSet)

  function SpotAt(p: Profile, i: nat, n: nat, walltime: real, sel: Selector): Spot
    requires i < |p| && Anchor(p, i, n, walltime, sel)
  {
    var k := SpanEnd(p, i, i, walltime);
    FitContract(sel, n, Common(p, i, k));
    Spot(i, k, Fit(sel, n, Common(p, i, k)).value)
  }

  function FirstFit(p: Profile, from: nat, n: nat, walltime: real, sel: Selector): (r: Option<Spot>)
    requires from <= |p|
    ensures r.Some? ==> from <= r.value.first <= r.value.last < |p|
  {
    var i := FirstAnchor(p, from, n, walltime, sel);
    if i == |p| then None else Some(SpotAt(p, i, n, walltime, sel))
  }

  /** The answer of an insertion. The code leaves `end` at its default when the job fits in a single slice. */
  datatype JobAlloc = JobAlloc(hasBeenInserted: bool, begin: real, end: real, startedInFirstSlice: bool,
                               job: JobId, machines: MachineSet)

  const FAILED_ALLOC := JobAlloc(false, 0.0, 0.0, false, "", {})

  datatype Added = Added(profile: Profile, alloc: JobAlloc)

  /** `add_job_first_fit_after_time_slice`. */
  function Add(p: Profile, from: nat, job: Job, sel: Selector): Added
    requires from <= |p|
  {
    match FirstFit(p, from, job.res, job.walltime, sel)
    case None => Added(p, FAILED_ALLOC)
    case Some(Spot(i, k, u)) =>
      var begin := p[i].begin;
      Added(Place(p, i, k, begin + job.walltime, job.id, u, job.res),
            JobAlloc(true, begin, if i == k then 0.0 else begin + job.walltime, i == 0, job.id, u))
  }

  /** The returned end is the end of the job exactly when the job's first slice is too short for it, or when the job
      ends at date 0, which is also the default. */
  lemma EndIsReturnedIff(p: Profile, from: nat, job: Job, sel: Selector)
    requires from <= |p| && FirstFit(p, from, job.res, job.walltime, sel).Some?
    ensures var alloc, first := Add(p, from, job, sel).alloc,
        p[FirstFit(p, from, job.res, job.walltime, sel).value.first];
            && alloc.begin == first.begin
            && (alloc.end == alloc.begin + job.walltime <==>
                  first.end - first.begin < job.walltime || alloc.begin + job.walltime == 0.0)
  {
    hide FirstAnchor, Anchor, Place;
  }

  /** An idle machine up to date 10: a job of 5 is placed in the only slice, and the end returned is 0. */
  lemma EndIsLost()
    ensures var alloc := Add(Fresh(1, 0.0, 10.0), 0, Job("w!1", 1, 5.0, true, 5.0, 0.0), Basic).alloc;
            alloc.hasBeenInserted && alloc.begin == 0.0 && alloc.end == 0.0
  {
    var p := Fresh(1, 0.0, 10.0);
    assert SpanEnd(p, 0, 0, 5.0) == 0;
    assert Common(p, 0, 0) == AllMachines(1);
    assert Anchor(p, 0, 1, 5.0, Basic);
    assert FirstAnchor(p, 0, 1, 5.0, Basic) == 0;
  }

  // ---------------------------------------------------------------- the place is sound

  lemma SpotIsPlaceable(p: Profile, from: nat, job: Job, sel: Selector)
    requires Tiles(p) && from <= |p| && job.walltime > 0.0 && !Contains(p, job.id)
    requires FirstFit(p, from, job.res, job.walltime, sel).Some?
    ensures var Spot(i, k, u) := FirstFit(p, from, job.res, job.walltime, sel).value;
            && from <= i
            && Placeable(p, i, k, p[i].begin + job.walltime, job.id, u)
            && |u| == job.res && (job.res > 0 ==> CanFit(sel, job.res, u))
  {
    var Spot(i, k, u) := FirstFit(p, from, job.res, job.walltime, sel).value;
    FitContract(sel, job.res, Common(p, i, k));
    if i < k {
      assert p[k - 1].end - p[i].begin < job.walltime && p[k - 1].end == p[k].begin;
    }
  }

  /** An insertion keeps the invariant, the period and the normal form, whether it succeeds or not. */
  lemma AddKeeps(p: Profile, from: nat, job: Job, sel: Selector, all: MachineSet, repair: MachineSet)
    requires Valid(p, all, repair) && from <= |p| && job.walltime > 0.0 && !Contains(p, job.id)
    ensures var q := Add(p, from, job, sel).profile;
            Valid(q, all, repair) && SameSpan(p, q) && (Canonical(p) ==> Canonical(q))
  {
    hide SliceOk, Runs, Place, Canonical, Placeable, FirstFit;
    if FirstFit(p, from, job.res, job.walltime, sel).Some? {
      SpotIsPlaceable(p, from, job, sel);
      var Spot(i, k, u) := FirstFit(p, from, job.res, job.walltime, sel).value;
      PlaceValid(p, i, k, p[i].begin + job.walltime, job.id, u, all, repair);
      PlaceSpan(p, i, k, p[i].begin + job.walltime, job.id, u, |u|);
      if Canonical(p) {
        PlaceCanonical(p, i, k, p[i].begin + job.walltime, job.id, u, |u|);
      }
    }
  }

  lemma PlaceSpan(p: Profile, i: nat, k: nat, date: real, j: JobId, u: MachineSet, n: nat)
    requires Placeable(p, i, k, date, j, u)
    ensures SameSpan(p, Place(p, i, k, date, j, u, n))
  {
    var s := Split(p, k, date);
    assert s[0].begin == p[0].begin && s[|s| - 1].end == p[|p| - 1].end;
  }

  // ---------------------------------------------------------------- the place is the earliest

  /** The machines m are free at every instant from b up to e. */
  ghost predicate FreeThroughout(p: Profile, m: MachineSet, b: real, e: real) {
    && Tiles(p)
    && p[0].begin <= b && e <= Horizon(p)
    && forall t :: b <= t < e ==> m <= FreeAt(p, t)
  }

  lemma FreeInSlices(p: Profile, m: MachineSet, t: real, walltime: real, i: nat, k: nat, x: nat)
    requires walltime > 0.0 && FreeThroughout(p, m, t, t + walltime)
    requires i < |p| && p[i].begin <= t < p[i].end
    requires i <= x <= k <= |p| && x < |p| && forall y :: i <= y < k ==> p[y].end - p[i].begin < walltime
    ensures m <= p[x].available
  {
    hide IndexAt;
    if x == i {
      IndexUnique(p, i, t);
      assert m <= FreeAt(p, t);
    } else {
      Ordered(p, i, x);
      var s := p[x].begin;
      assert p[x - 1].end == s && p[x].begin < p[x].end;
      assert p[x - 1].end - p[i].begin < walltime;
      IndexUnique(p, x, s);
      assert m <= FreeAt(p, s);
    }
  }

  /** If some machines can serve the request during the whole walltime from instant t, the slice of t is an anchor. */
  lemma FeasibleIsAnchor(p: Profile, n: nat, walltime: real, sel: Selector, m: MachineSet, t: real, i: nat)
    requires walltime > 0.0 && FreeThroughout(p, m, t, t + walltime) && CanFit(sel, n, m)
    requires i < |p| && p[i].begin <= t < p[i].end
    ensures Anchor(p, i, n, walltime, sel)
  {
    hide FreeThroughout, CanFit;
    var k := SpanEnd(p, i, i, walltime);
    FreeEnd(p, m, t, t + walltime);
    assert k < |p| by {
      assert p[|p| - 1].end - p[i].begin >= walltime;
    }
    forall x | i <= x <= k ensures m <= p[x].available {
      FreeInSlices(p, m, t, walltime, i, k, x);
    }
    CommonIsGreatest(p, i, k, m);
    FitMonotone(sel, n, m, Common(p, i, k));
  }

  lemma FreeEnd(p: Profile, m: MachineSet, b: real, e: real)
    requires FreeThroughout(p, m, b, e)
    ensures Tiles(p) && p[0].begin <= b && e <= Horizon(p)
  {
  }

  /** First fit is optimal: whenever any machines could serve the request from instant t on,
      it finds a place, and that place starts at t or before. */
  lemma FirstFitIsEarliest(p: Profile, from: nat, n: nat, walltime: real, sel: Selector, m: MachineSet, t: real)
    requires walltime > 0.0 && FreeThroughout(p, m, t, t + walltime) && CanFit(sel, n, m)
    requires from < |p| && p[from].begin <= t
    ensures FirstFit(p, from, n, walltime, sel).Some?
    ensures var i := FirstFit(p, from, n, walltime, sel).value.first;
            p[i].begin <= t
  {
    hide FreeThroughout, CanFit, Anchor;
    FreeEnd(p, m, t, t + walltime);
    var i := IndexAt(p, t);
    FeasibleIsAnchor(p, n, walltime, sel, m, t, i);
    if i < from { Ordered(p, i, from); }
    var f := FirstAnchor(p, from, n, walltime, sel);
    assert f <= i;
    if f < i { Ordered(p, f, i); assert p[f].begin <= p[f].end; }
  }

  /** The chosen machines are free at every instant of the chosen interval. */
  lemma SpotIsFree(p: Profile, from: nat, n: nat, walltime: real, sel: Selector)
    requires Tiles(p) && from <= |p| && walltime > 0.0 && FirstFit(p, from, n, walltime, sel).Some?
    ensures var Spot(i, k, u) := FirstFit(p, from, n, walltime, sel).value;
            FreeThroughout(p, u, p[i].begin, p[i].begin + walltime)
  {
    hide CanFit, IndexAt;
    var Spot(i, k, u) := FirstFit(p, from, n, walltime, sel).value;
    FitContract(sel, n, Common(p, i, k));
    CommonIsFree(p, i, k, u, p[i].begin + walltime);
  }

  /** The machines m could serve a request for n machines during the whole walltime from instant t on. */
  ghost predicate Serves(p: Profile, n: nat, walltime: real, sel: Selector, m: MachineSet, t: real) {
    FreeThroughout(p, m, t, t + walltime) && CanFit(sel, n, m)
  }

  /** First fit fails exactly when no machines could serve the request from any instant on. */
  lemma FirstFitFailsIff(p: Profile, n: nat, walltime: real, sel: Selector)
    requires Tiles(p) && walltime > 0.0
    ensures FirstFit(p, 0, n, walltime, sel).None? <==> forall t, m :: !Serves(p, n, walltime, sel, m, t)
  {
    hide FreeThroughout, CanFit, FirstFit;
    forall t, m | Serves(p, n, walltime, sel, m, t)
      ensures FirstFit(p, 0, n, walltime, sel).Some?
    {
      FreeEnd(p, m, t, t + walltime);
      FirstFitIsEarliest(p, 0, n, walltime, sel, m, t);
    }
    if FirstFit(p, 0, n, walltime, sel).Some? {
      var i, m := AnchorServes(p, n, walltime, sel);
      assert Serves(p, n, walltime, sel, m, p[i].begin);
    }
  }

  /** All machines that are free throughout the chosen interval could serve the request. */
  lemma AnchorServes(p: Profile, n: nat, walltime: real, sel: Selector) returns (i: nat, m: MachineSet)
    requires Tiles(p) && walltime > 0.0 && FirstFit(p, 0, n, walltime, sel).Some?
    ensures i < |p| && FreeThroughout(p, m, p[i].begin, p[i].begin + walltime) && CanFit(sel, n, m)
  {
    hide CanFit, IndexAt;
    var spot := FirstFit(p, 0, n, walltime, sel).value;
    i := spot.first;
    m := Common(p, i, spot.last);
    CommonIsFree(p, i, spot.last, m, p[i].begin + walltime);
  }

  lemma CommonIsFree(p: Profile, i: nat, k: nat, m: MachineSet, e: real)
    requires Tiles(p) && i <= k < |p| && m <= Common(p, i, k) && e <= p[k].end
    ensures FreeThroughout(p, m, p[i].begin, e)
  {
    hide IndexAt;
    if i > 0 { Ordered(p, 0, i); }
    if k < |p| - 1 { Ordered(p, k, |p| - 1); }
    forall t | p[i].begin <= t < e ensures m <= FreeAt(p, t) {
      var y := IndexAt(p, t);
      if y < i { Ordered(p, y, i); }
      if k < y { Ordered(p, k, y); }
      assert i <= y <= k;
    }
  }

  lemma SpotFits(p: Profile, from: nat, n: nat, walltime: real, sel: Selector)
    requires |p| > 0 && from <= |p| && FirstFit(p, from, n, walltime, sel).Some?
    ensures var Spot(i, k, u) := FirstFit(p, from, n, walltime, sel).value;
            |u| == n && (n > 0 ==> CanFit(sel, n, u))
  {
    hide CanFit;
    var Spot(i, k, u) := FirstFit(p, from, n, walltime, sel).value;
    FitContract(sel, n, Common(p, i, k));
  }

  /** The last slice holds no job; it is the one every job eventually fits in. */
  ghost predicate LastIsIdle(p: Profile) {
    |p| > 0 && p[|p| - 1].jobs == map[]
  }

  /** A request that fits on the machines in service, and whose walltime ends by the horizon when it starts with
      the last slice, always finds a place. */
  lemma FirstFitIsTotal(p: Profile, n: nat, walltime: real, sel: Selector, all: MachineSet, repair: MachineSet)
    requires Valid(p, all, repair) && LastIsIdle(p) && walltime > 0.0
    requires CanFit(sel, n, all - repair) && p[|p| - 1].begin + walltime <= Horizon(p)
    ensures FirstFit(p, 0, n, walltime, sel).Some?
  {
    hide Runs, CanFit, Holds;
    var l := |p| - 1;
    assert SliceOk(p[l], all, repair);
    IdleIsFree(p[l], all, repair);
    assert SpanEnd(p, l, l, walltime) == l;
    assert Anchor(p, l, n, walltime, sel);
    var i := FirstAnchor(p, 0, n, walltime, sel);
    assert i <= l;
  }

  lemma IdleIsFree(s: TimeSlice, all: MachineSet, repair: MachineSet)
    requires SliceOk(s, all, repair) && s.jobs == map[]
    ensures s.available == all - repair
  {
    assert s.busy == {};
  }

  lemma PlaceKeepsLastIdle(p: Profile, i: nat, k: nat, date: real, j: JobId, u: MachineSet, n: nat)
    requires Tiles(p) && LastIsIdle(p) && i <= k < |p| && p[k].begin < date < Horizon(p)
    ensures LastIsIdle(Place(p, i, k, date, j, u, n))
  {
    var s := Split(p, k, date);
    assert k < |s| - 1 && s[|s| - 1].jobs == p[|p| - 1].jobs;
  }

  /** Placing a job that ends before the horizon leaves the last slice idle. */
  lemma AddKeepsLastIdle(p: Profile, from: nat, job: Job, sel: Selector)
    requires Tiles(p) && LastIsIdle(p) && from < |p| && job.walltime > 0.0 && !Contains(p, job.id)
    requires p[|p| - 1].begin + job.walltime < Horizon(p)
    ensures LastIsIdle(Add(p, from, job, sel).profile)
  {
    hide FirstFit, Place, LastIsIdle;
    if FirstFit(p, from, job.res, job.walltime, sel).Some? {
      SpotIsPlaceable(p, from, job, sel);
      var Spot(i, k, u) := FirstFit(p, from, job.res, job.walltime, sel).value;
      if i < |p| - 1 { Ordered(p, i, |p| - 1); assert p[i].begin <= p[i].end; }
      PlaceKeepsLastIdle(p, i, k, p[i].begin + job.walltime, job.id, u, job.res);
    }
  }
}
