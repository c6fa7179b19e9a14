/** The run of a job: the slices it is in, and how the operations change where it begins and ends. Unlike the instants a
    job holds machines at, a run is there even while the present stands at its very end. */
module JobRuns {
  import opened Machines
  import opened Profiles
  import opened Placement
  import opened Removal
  import opened FirstFits
  import opened Slots

  /** What a job has been granted: the time of its run and its machines. */
  datatype Grant = Grant(begin: real, end: real, machines: MachineSet)

  /** The job is in exactly the slices f to l. */
  ghost predicate RunSpans(p: Profile, j: JobId, f: nat, l: nat) {
    f <= l < |p| && forall x :: 0 <= x < |p| ==> (j in p[x].jobs <==> f <= x <= l)
  }

  /** The slices f to l are the run of the job, with the times and machines of the grant. */
  ghost predicate RunIs(p: Profile, j: JobId, f: nat, l: nat, g: Grant) {
    && RunSpans(p, j, f, l)
    && p[f].begin == g.begin && p[l].end == g.end && p[l].jobs[j] == g.machines
  }

  /** The job occupies the profile as granted. */
  ghost predicate Occupies(p: Profile, j: JobId, g: Grant) {
    exists f: nat, l: nat :: RunIs(p, j, f, l, g)
  }

  lemma RunOf(p: Profile, j: JobId, g: Grant) returns (f: nat, l: nat)
    requires Occupies(p, j, g)
    ensures RunIs(p, j, f, l, g)
  {
    f, l :| RunIs(p, j, f, l, g);
  }

  // ---------------------------------------------------------------- what a run says

  /** A job occupies the profile in one way. */
  lemma OccupiesUnique(p: Profile, j: JobId, g: Grant, h: Grant)
    requires Occupies(p, j, g) && Occupies(p, j, h)
    ensures g == h
  {
    var f, l := RunOf(p, j, g);
    var f', l' := RunOf(p, j, h);
    assert j in p[f].jobs && j in p[l].jobs && j in p[f'].jobs && j in p[l'].jobs;
  }

  /** Every job of the profile occupies it somehow. */
  lemma ContainedOccupies(p: Profile, j: JobId) returns (g: Grant)
    requires Runs(p) && Contains(p, j)
    ensures Occupies(p, j, g)
  {
    var f := FirstOccurrence(p, j, 0);
    var l := f;
    while l + 1 < |p| && j in p[l + 1].jobs
      invariant f <= l < |p| && forall x :: f <= x <= l ==> j in p[x].jobs
    {
      l := l + 1;
    }
    g := Grant(p[f].begin, p[l].end, p[l].jobs[j]);
    assert forall x :: l < x < |p| && j in p[x].jobs ==> j in p[l + 1].jobs;
    assert RunIs(p, j, f, l, g);
  }

  lemma InSpan(p: Profile, j: JobId, f: nat, l: nat, x: nat, t: real)
    requires Tiles(p) && Runs(p) && RunSpans(p, j, f, l) && x < |p| && p[x].begin <= t < p[x].end
    ensures if p[f].begin <= t < p[l].end then j in p[x].jobs && p[x].jobs[j] == p[l].jobs[j] else j !in p[x].jobs
  {
    if x < f { Ordered(p, x, f); }
    if l < x { Ordered(p, l, x); }
    if f < x { Ordered(p, f, x); }
    if x < l { Ordered(p, x, l); }
  }

  /** At every instant the job holds its machines exactly when the instant lies within the grant. */
  lemma OccupiesAt(p: Profile, j: JobId, g: Grant, t: real)
    requires Tiles(p) && Runs(p) && Occupies(p, j, g) && Within(p, t)
    ensures if g.begin <= t < g.end then j in JobsAt(p, t) && JobsAt(p, t)[j] == g.machines else j !in JobsAt(p, t)
  {
    hide RunSpans, IndexAt, Runs;
    var f, l := RunOf(p, j, g);
    InSpan(p, j, f, l, IndexAt(p, t), t);
  }

  /** While the first slice is not empty, the grant is the job's slot. */
  lemma OccupiesSlot(p: Profile, j: JobId, g: Grant)
    requires Tiles(p) && Runs(p) && p[0].begin < p[0].end && Occupies(p, j, g)
    ensures Slot(p, j, g.begin, g.end, g.machines)
  {
    hide Runs, JobsAt;
    var f, l := RunOf(p, j, g);
    if f > 0 { Ordered(p, 0, f); }
    if l < |p| - 1 { Ordered(p, l, |p| - 1); }
    if f < l { Ordered(p, f, l); }
    forall t | Within(p, t)
      ensures if g.begin <= t < g.end then j in JobsAt(p, t) && JobsAt(p, t)[j] == g.machines else j !in JobsAt(p, t)
    {
      OccupiesAt(p, j, g, t);
    }
  }

  /** A job in the first slice ends with it or goes on in the second. */
  lemma RunningEnds(p: Profile, j: JobId, g: Grant)
    requires Tiles(p) && j in p[0].jobs && Occupies(p, j, g)
    ensures p[0].end <= g.end
    ensures p[0].end < g.end ==> |p| > 1 && j in p[1].jobs
  {
    var f, l := RunOf(p, j, g);
    if l > 0 { Ordered(p, 0, l); }
  }

  /** In normal form the first slice ends because some job ends or begins there. */
  lemma SomethingChanges(p: Profile) returns (j: JobId)
    requires Canonical(p) && |p| > 1
    ensures j in p[0].jobs <==> j !in p[1].jobs
  {
    if k :| k in p[0].jobs.Keys && k !in p[1].jobs.Keys {
      j := k;
    } else {
      j :| j in p[1].jobs.Keys && j !in p[0].jobs.Keys;
    }
  }

  // ---------------------------------------------------------------- placing

  lemma SplitKeepsOccupies(p: Profile, k: nat, date: real, o: JobId, g: Grant)
    requires k < |p| && Occupies(p, o, g)
    ensures Occupies(Split(p, k, date), o, g)
  {
    hide RunSpans, Split;
    var q := Split(p, k, date);
    if p[k].begin < date < p[k].end {
      var f, l := RunOf(p, o, g);
      SplitRun(p, k, date, o, f, l);
      var f', l' := if f <= k then f else f + 1, if l < k then l else l + 1;
      assert RunIs(q, o, f', l', g);
    } else {
      NoSplit(p, k, date);
    }
  }

  lemma NoSplit(p: Profile, k: nat, date: real)
    requires k < |p| && !(p[k].begin < date < p[k].end)
    ensures Split(p, k, date) == p
  {
  }

  /** Where slice y of the split profile comes from. */
  function Origin(k: nat, y: nat): int {
    if y <= k then y else y - 1
  }

  lemma SplitJobs(p: Profile, k: nat, date: real, y: nat)
    requires k < |p| && p[k].begin < date < p[k].end && y <= |p|
    ensures |Split(p, k, date)| == |p| + 1 && 0 <= Origin(k, y) < |p|
    ensures Split(p, k, date)[y].jobs == p[Origin(k, y)].jobs
    ensures y != k ==> Split(p, k, date)[y].end == p[Origin(k, y)].end
    ensures y != k + 1 ==> Split(p, k, date)[y].begin == p[Origin(k, y)].begin
  {
  }

  lemma SplitRun(p: Profile, k: nat, date: real, o: JobId, f: nat, l: nat)
    requires k < |p| && p[k].begin < date < p[k].end && RunSpans(p, o, f, l)
    ensures var q := Split(p, k, date);
            var f', l' := if f <= k then f else f + 1, if l < k then l else l + 1;
            RunSpans(q, o, f', l') && q[f'].begin == p[f].begin && q[l'].end == p[l].end && q[l'].jobs == p[l].jobs
  {
    hide Split;
    var q := Split(p, k, date);
    var f', l' := if f <= k then f else f + 1, if l < k then l else l + 1;
    SplitJobs(p, k, date, f');
    SplitJobs(p, k, date, l');
    forall y | 0 <= y < |q| ensures o in q[y].jobs <==> f' <= y <= l' {
      SplitJobs(p, k, date, y);
      assert o in p[Origin(k, y)].jobs <==> f <= Origin(k, y) <= l;
    }
  }

  lemma MarkKeepsOccupies(p: Profile, i: nat, k: nat, j: JobId, u: MachineSet, n: nat, o: JobId, g: Grant)
    requires Occupies(p, o, g) && o != j
    ensures Occupies(Mark(p, i, k, j, u, n), o, g)
  {
    var f, l := RunOf(p, o, g);
    assert RunIs(Mark(p, i, k, j, u, n), o, f, l, g);
  }

  lemma MarkOccupies(p: Profile, i: nat, k: nat, j: JobId, u: MachineSet, n: nat)
    requires i <= k < |p| && !Contains(p, j)
    ensures Occupies(Mark(p, i, k, j, u, n), j, Grant(p[i].begin, p[k].end, u))
  {
    assert RunIs(Mark(p, i, k, j, u, n), j, i, k, Grant(p[i].begin, p[k].end, u));
  }

  lemma SplitEnds(p: Profile, i: nat, k: nat, date: real, j: JobId)
    requires Placeable(p, i, k, date, j, {})
    ensures var q := Split(p, k, date);
            i <= k < |q| && q[i].begin == p[i].begin && q[k].end == date && !Contains(q, j)
  {
    var q := Split(p, k, date);
    assert forall y :: 0 <= y < |q| ==> q[y].jobs == p[if y <= k then y else y - (|q| - |p|)].jobs;
  }

  /** A placed job occupies exactly what it was placed in. */
  lemma PlaceOccupies(p: Profile, i: nat, k: nat, date: real, j: JobId, u: MachineSet, n: nat)
    requires Placeable(p, i, k, date, j, u)
    ensures Occupies(Place(p, i, k, date, j, u, n), j, Grant(p[i].begin, date, u))
  {
    hide Split, Mark, Occupies;
    SplitEnds(p, i, k, date, j);
    MarkOccupies(Split(p, k, date), i, k, j, u, n);
  }

  /** Placing a job leaves what every other job occupies alone. */
  lemma PlaceKeepsOccupies(p: Profile, i: nat, k: nat, date: real, j: JobId, u: MachineSet, n: nat, o: JobId, g: Grant)
    requires k < |p| && Occupies(p, o, g) && o != j
    ensures Occupies(Place(p, i, k, date, j, u, n), o, g)
  {
    hide Split, Mark, Occupies;
    SplitKeepsOccupies(p, k, date, o, g);
    MarkKeepsOccupies(Split(p, k, date), i, k, j, u, n, o, g);
  }

  /** First fit puts the job where it says, and every other job stays. */
  lemma AddOccupies(p: Profile, from: nat, job: Job, sel: Selector)
    requires Tiles(p) && from <= |p| && job.walltime > 0.0 && !Contains(p, job.id)
    requires FirstFit(p, from, job.res, job.walltime, sel).Some?
    ensures var Added(q, alloc) := Add(p, from, job, sel);
            Occupies(q, job.id, Grant(alloc.begin, alloc.begin + job.walltime, alloc.machines))
  {
    hide FirstFit, Place, Occupies, Contains;
    SpotIsPlaceable(p, from, job, sel);
    var Spot(i, k, u) := FirstFit(p, from, job.res, job.walltime, sel).value;
    PlaceOccupies(p, i, k, p[i].begin + job.walltime, job.id, u, job.res);
  }

  lemma AddKeepsOccupies(p: Profile, from: nat, job: Job, sel: Selector, o: JobId, g: Grant)
    requires Tiles(p) && from <= |p| && job.walltime > 0.0 && !Contains(p, job.id)
    requires Occupies(p, o, g) && o != job.id
    ensures Occupies(Add(p, from, job, sel).profile, o, g)
  {
    hide FirstFit, Place, Occupies, Contains;
    if FirstFit(p, from, job.res, job.walltime, sel).Some? {
      SpotIsPlaceable(p, from, job, sel);
      var Spot(i, k, u) := FirstFit(p, from, job.res, job.walltime, sel).value;
      PlaceKeepsOccupies(p, i, k, p[i].begin + job.walltime, job.id, u, job.res, o, g);
    }
  }

  // ---------------------------------------------------------------- removing

  /** A merge of slices with the same jobs leaves every run where it is. */
  lemma MergeKeepsOccupies(p: Profile, x: nat, all: MachineSet, repair: MachineSet, o: JobId, g: Grant)
    requires Valid(p, all, repair) && x < |p| && Occupies(p, o, g)
    ensures Occupies(MergeIfSame(p, x), o, g)
  {
    hide Valid;
    if x > 0 && SameJobs(p[x - 1], p[x]) {
      MergeNeverConflicts(p, x, all, repair);
      var q := MergeAt(p, x);
      var f, l := RunOf(p, o, g);
      var f', l' := if f < x then f else f - 1, if l < x then l else l - 1;
      assert forall y :: 0 <= y < |q| ==> q[y].jobs == p[if y < x - 1 then y else y + 1].jobs;
      assert RunSpans(q, o, f', l');
      assert RunIs(q, o, f', l', g);
    }
  }

  lemma EraseKeepsOccupies(p: Profile, x: nat, j: JobId, u: MachineSet, o: JobId, g: Grant)
    requires x < |p| && Occupies(p, o, g) && o != j
    ensures Occupies(p[x := EraseSlice(p[x], j, u)], o, g)
  {
    var q := p[x := EraseSlice(p[x], j, u)];
    var f, l := RunOf(p, o, g);
    assert RunIs(q, o, f, l, g);
  }

  lemma {:induction false} RemoveRunKeepsOccupies(p: Profile, x: nat, j: JobId, u: MachineSet, all: MachineSet,
                                                  repair: MachineSet, o: JobId, g: Grant)
    requires Valid(p, all, repair) && RunFrom(p, x, j, u) && Occupies(p, o, g) && o != j
    ensures Occupies(RemoveRun(p, x, j, u), o, g)
    decreases |p| - x
  {
    hide SliceOk, Runs, Tiles, Occupies, MergeIfSame, EraseSlice;
    if x < |p| {
      if j in p[x].jobs {
        var q := p[x := EraseSlice(p[x], j, u)];
        EraseFirstValid(p, x, j, all, repair);
        EraseKeepsOccupies(p, x, j, u, o, g);
        MergeKeepsOccupies(q, x, all, repair, o, g);
        EraseStepValid(p, x, j, u, all, repair);
        EraseStepRun(p, x, j, u);
        var r := EraseStep(p, x, j, u);
        RemoveRunKeepsOccupies(r, NextVisit(p, x, r), j, u, all, repair, o, g);
        RemoveRunNext(p, x, j, u);
      } else {
        MergeKeepsOccupies(p, x, all, repair, o, g);
      }
    }
  }

  lemma RemoveRunNext(p: Profile, x: nat, j: JobId, u: MachineSet)
    requires x < |p| && j in p[x].jobs
    ensures var r := EraseStep(p, x, j, u);
            && x <= NextVisit(p, x, r) <= |r|
            && RemoveRun(p, x, j, u) == RemoveRun(r, NextVisit(p, x, r), j, u)
  {
  }

  /** Removing a job leaves what every other job occupies alone. */
  lemma RemoveKeepsOccupies(p: Profile, j: JobId, all: MachineSet, repair: MachineSet, o: JobId, g: Grant)
    requires Valid(p, all, repair) && Occupies(p, o, g) && o != j
    ensures Occupies(Remove(p, j, repair), o, g)
  {
    hide Valid, Occupies, RemoveRun, Remove, RunFrom;
    if Contains(p, j) {
      RemoveIsRun(p, j, all, repair);
      var x := FirstOccurrence(p, j, 0);
      RemoveRunKeepsOccupies(p, x, j, p[x].jobs[j], all, repair, o, g);
    } else {
      RemoveAbsent(p, j, repair);
    }
  }

  // ---------------------------------------------------------------- moving the present

  /** What is left of a grant once the present has moved to the date. */
  function Since(g: Grant, date: real): Grant {
    if g.begin < date then g.(begin := date) else g
  }

  /** Moving the present, up to the very end of the first slice, leaves every job the rest of its grant. */
  lemma AdvanceOccupies(p: Profile, date: real, j: JobId, g: Grant)
    requires Tiles(p) && CanAdvance(p, date) && Occupies(p, j, g)
    ensures Occupies(Advance(p, date), j, Since(g, date))
  {
    var q := Advance(p, date);
    var f, l := RunOf(p, j, g);
    if f > 0 { Ordered(p, 0, f); }
    assert RunIs(q, j, f, l, Since(g, date));
  }
}
