/** Placing and removing jobs: what every operation on the profile keeps, what it changes at each instant,
    and that removing a job undoes its placement. */
module Placement {
  import opened Machines
  import opened Profiles

  // ---------------------------------------------------------------- helpers

  lemma Retimed(s: TimeSlice, b: real, e: real, all: MachineSet, repair: MachineSet)
    requires SliceOk(s, all, repair)
    ensures SliceOk(s.(begin := b, end := e, length := e - b), all, repair)
  {
    hide Holds;
  }

  lemma MoveToBusy(a: MachineSet, b: MachineSet, repair: MachineSet, all: MachineSet, u: MachineSet)
    requires Partition(a, b, repair, all) && u <= a
    ensures Partition(a - u, b + u, repair, all) && |a - u| == |a| - |u|
  {
    assert a - u + u == a;
    assert (a - u) + (b + u) == a + b;
  }

  lemma MoveToAvailable(a: MachineSet, b: MachineSet, repair: MachineSet, all: MachineSet, u: MachineSet)
    requires Partition(a, b, repair, all) && u <= b
    ensures Partition(a + u, b - u, repair, all) && |a + u| == |a| + |u|
  {
    assert (a + u) + (b - u) == a + b;
  }

  /** Repeating or dropping slices in order keeps every job in one run. */
  lemma RunsMapped(p: Profile, q: Profile, f: int -> int)
    requires Runs(p)
    requires forall i :: 0 <= i < |q| ==> 0 <= f(i) < |p| && q[i].jobs == p[f(i)].jobs
    requires forall i, k :: 0 <= i <= k < |q| ==> f(i) <= f(k)
    ensures Runs(q)
  {
    forall i, k, m, j | 0 <= i <= k <= m < |q| && j in q[i].jobs && j in q[m].jobs
      ensures j in q[k].jobs && q[k].jobs[j] == q[i].jobs[j]
    {
      assert j in p[f(i)].jobs && j in p[f(m)].jobs;
      assert j in p[f(k)].jobs && p[f(k)].jobs[j] == p[f(i)].jobs[j];
    }
  }

  // ---------------------------------------------------------------- splitting a slice

  lemma SplitTiles(p: Profile, k: nat, date: real)
    requires Tiles(p) && k < |p|
    ensures Tiles(Split(p, k, date))
  {
    var q := Split(p, k, date);
    if q != p {
      forall i | 0 < i < |q| ensures q[i].begin < q[i].end && q[i - 1].end == q[i].begin {
        if i > k + 1 { assert p[i - 1].begin < p[i - 1].end; }
      }
    }
  }

  lemma SplitValid(p: Profile, k: nat, date: real, all: MachineSet, repair: MachineSet)
    requires Valid(p, all, repair) && k < |p|
    ensures Valid(Split(p, k, date), all, repair)
  {
    hide SliceOk, Runs, Tiles;
    var q := Split(p, k, date);
    SplitTiles(p, k, date);
    if q != p {
      assert SliceOk(p[k], all, repair);
      Retimed(p[k], p[k].begin, date, all, repair);
      Retimed(p[k], date, p[k].end, all, repair);
      forall i | 0 <= i < |q| ensures SliceOk(q[i], all, repair) {
        if i > k + 1 { assert q[i] == p[i - 1]; }
      }
      RunsMapped(p, q, i => if i <= k then i else i - 1);
    }
  }

  lemma SplitJobsAt(p: Profile, k: nat, date: real, t: real)
    requires Tiles(p) && k < |p| && Within(p, t)
    ensures Tiles(Split(p, k, date)) && Within(Split(p, k, date), t)
    ensures JobsAt(Split(p, k, date), t) == JobsAt(p, t)
  {
    SplitTiles(p, k, date);
    var q := Split(p, k, date);
    if q != p {
      var i := IndexAt(p, t);
      IndexUnique(q, if i < k || (i == k && t < date) then i else i + 1, t);
    }
  }

  // ---------------------------------------------------------------- marking slices for a job

  lemma AllocHolds(jobs: map<JobId, MachineSet>, busy: MachineSet, j: JobId, u: MachineSet)
    requires Holds(jobs, busy) && u !! busy && j !in jobs
    ensures Holds(jobs[j := u], busy + u)
  {
    var r := jobs[j := u];
    forall m | m in busy + u ensures exists k :: k in r && m in r[k] {
      if m in u {
        assert m in r[j];
      } else {
        var k :| k in jobs && m in jobs[k];
        assert m in r[k];
      }
    }
  }

  lemma AllocSliceOk(s: TimeSlice, j: JobId, u: MachineSet, all: MachineSet, repair: MachineSet)
    requires SliceOk(s, all, repair) && u <= s.available && j !in s.jobs
    ensures SliceOk(AllocSlice(s, j, u, |u|), all, repair)
  {
    assert u !! s.busy by { hide Holds; }
    AllocHolds(s.jobs, s.busy, j, u);
    MoveToBusy(s.available, s.busy, repair, all, u);
    hide Holds, Partition;
  }

  lemma MarkRuns(p: Profile, i: nat, k: nat, j: JobId, u: MachineSet, n: nat)
    requires Runs(p) && !Contains(p, j)
    ensures Runs(Mark(p, i, k, j, u, n))
  {
    var q := Mark(p, i, k, j, u, n);
    forall a, b, c, l | 0 <= a <= b <= c < |q| && l in q[a].jobs && l in q[c].jobs
      ensures l in q[b].jobs && q[b].jobs[l] == q[a].jobs[l]
    {
      if l != j { assert l in p[a].jobs && l in p[c].jobs; }
    }
  }

  lemma MarkValid(p: Profile, i: nat, k: nat, j: JobId, u: MachineSet, all: MachineSet, repair: MachineSet)
    requires Valid(p, all, repair) && !Contains(p, j) && i <= k < |p|
    requires forall x :: i <= x <= k ==> u <= p[x].available
    ensures Valid(Mark(p, i, k, j, u, |u|), all, repair)
  {
    hide SliceOk, Runs;
    var q := Mark(p, i, k, j, u, |u|);
    forall x | 0 <= x < |q| ensures SliceOk(q[x], all, repair) {
      assert SliceOk(p[x], all, repair) && j !in p[x].jobs;
      if i <= x <= k { AllocSliceOk(p[x], j, u, all, repair); }
    }
    MarkRuns(p, i, k, j, u, |u|);
  }

  lemma MarkJobsAt(p: Profile, i: nat, k: nat, j: JobId, u: MachineSet, n: nat, t: real)
    requires Tiles(p) && Tiles(Mark(p, i, k, j, u, n)) && Within(p, t) && i <= k < |p|
    ensures Within(Mark(p, i, k, j, u, n), t)
    ensures JobsAt(Mark(p, i, k, j, u, n), t)
            == if p[i].begin <= t < p[k].end then JobsAt(p, t)[j := u] else JobsAt(p, t)
  {
    var x := IndexAt(p, t);
    IndexUnique(Mark(p, i, k, j, u, n), x, t);
    if x < i { Ordered(p, x, i); }
    if k < x { Ordered(p, k, x); }
    if i < x { Ordered(p, i, x); }
    if x < k { Ordered(p, x, k); }
  }

  // ---------------------------------------------------------------- placing a job

  /** What first fit guarantees of the place it found: machines free in slices i to k, and the end in slice k. */
  ghost predicate Placeable(p: Profile, i: nat, k: nat, date: real, j: JobId, u: MachineSet) {
    && i <= k < |p|
    && p[k].begin < date <= p[k].end
    && !Contains(p, j)
    && forall x :: i <= x <= k ==> u <= p[x].available
  }

  lemma PlaceValid(p: Profile, i: nat, k: nat, date: real, j: JobId, u: MachineSet, all: MachineSet, repair: MachineSet)
    requires Valid(p, all, repair) && Placeable(p, i, k, date, j, u)
    ensures Valid(Place(p, i, k, date, j, u, |u|), all, repair)
  {
    hide Valid;
    var q := Split(p, k, date);
    SplitValid(p, k, date, all, repair);
    assert !Contains(q, j) by {
      assert forall x :: 0 <= x < |q| ==> q[x].jobs == p[if x <= k then x else x - (|q| - |p|)].jobs;
    }
    MarkValid(q, i, k, j, u, all, repair);
  }

  /** Placing adds the job to exactly the instants of its interval and changes nothing else. */
  lemma PlaceJobsAt(p: Profile, i: nat, k: nat, date: real, j: JobId, u: MachineSet, all: MachineSet,
                    repair: MachineSet, t: real)
    requires Valid(p, all, repair) && Placeable(p, i, k, date, j, u) && Within(p, t)
    ensures Valid(Place(p, i, k, date, j, u, |u|), all, repair)
    ensures Within(Place(p, i, k, date, j, u, |u|), t)
    ensures JobsAt(Place(p, i, k, date, j, u, |u|), t)
            == if p[i].begin <= t < date then JobsAt(p, t)[j := u] else JobsAt(p, t)
  {
    hide SliceOk, Runs;
    PlaceValid(p, i, k, date, j, u, all, repair);
    SplitJobsAt(p, k, date, t);
    MarkJobsAt(Split(p, k, date), i, k, j, u, |u|, t);
  }

  lemma MarkCanonical(s: Profile, i: nat, k: nat, j: JobId, u: MachineSet, n: nat)
    requires i <= k < |s| && !Contains(s, j)
    requires forall x :: 0 < x < |s| && x != k + 1 ==> s[x - 1].jobs.Keys != s[x].jobs.Keys
    ensures Canonical(Mark(s, i, k, j, u, n))
  {
    var q := Mark(s, i, k, j, u, n);
    forall x | 0 < x < |q| ensures q[x - 1].jobs.Keys != q[x].jobs.Keys {
      var a, b := s[x - 1], s[x];
      assert j !in a.jobs && j !in b.jobs;
      if x == i || x == k + 1 {
        assert (j in q[x - 1].jobs.Keys) != (j in q[x].jobs.Keys);
      } else if i < x <= k {
        assert q[x - 1].jobs.Keys - {j} == a.jobs.Keys && q[x].jobs.Keys - {j} == b.jobs.Keys;
      }
    }
  }

  lemma PlaceCanonical(p: Profile, i: nat, k: nat, date: real, j: JobId, u: MachineSet, n: nat)
    requires Canonical(p) && Placeable(p, i, k, date, j, u)
    ensures Canonical(Place(p, i, k, date, j, u, n))
  {
    var s := Split(p, k, date);
    assert forall x :: 0 <= x < |s| ==> s[x].jobs == p[if x <= k then x else x - (|s| - |p|)].jobs;
    MarkCanonical(s, i, k, j, u, n);
  }

  // ---------------------------------------------------------------- merging

  /** The in-code check before a merge never fails: neighbours with the same jobs have the same free machines. */
  lemma MergeNeverConflicts(p: Profile, x: nat, all: MachineSet, repair: MachineSet)
    requires Valid(p, all, repair) && 0 < x < |p| && SameJobs(p[x - 1], p[x])
    ensures p[x - 1].jobs == p[x].jobs && p[x - 1].available == p[x].available
  {
    assert p[x - 1].jobs == p[x].jobs by {
      assert forall j :: j in p[x - 1].jobs ==> j in p[x].jobs && p[x].jobs[j] == p[x - 1].jobs[j];
    }
    hide Runs, Tiles;
    SameJobsSameFree(p[x - 1], p[x], all, repair);
  }

  lemma MergeTiles(p: Profile, x: nat)
    requires Tiles(p) && 0 < x < |p|
    ensures Tiles(MergeAt(p, x))
  {
    var q := MergeAt(p, x);
    forall i | 0 < i < |q| ensures q[i].begin < q[i].end && q[i - 1].end == q[i].begin {
      if i >= x - 1 { assert p[i + 1].begin < p[i + 1].end; }
      assert p[i].begin < p[i].end;
    }
  }

  lemma MergeValid(p: Profile, x: nat, all: MachineSet, repair: MachineSet)
    requires Valid(p, all, repair) && 0 < x < |p|
    ensures Valid(MergeAt(p, x), all, repair)
  {
    hide SliceOk, Runs, Tiles;
    var q := MergeAt(p, x);
    MergeTiles(p, x);
    assert SliceOk(p[x], all, repair);
    Retimed(p[x], p[x - 1].begin, p[x].end, all, repair);
    forall i | 0 <= i < |q| ensures SliceOk(q[i], all, repair) {
      if i != x - 1 { assert q[i] == p[if i < x - 1 then i else i + 1]; }
    }
    RunsMapped(p, q, i => if i < x - 1 then i else i + 1);
  }

  lemma MergeCovers(p: Profile, x: nat, i: nat, t: real)
    requires Tiles(p) && 0 < x < |p| && p[x - 1].jobs == p[x].jobs
    requires i < |p| && p[i].begin <= t < p[i].end
    ensures var y := if i < x then i else i - 1;
            y < |p| - 1 && MergeAt(p, x)[y].begin <= t < MergeAt(p, x)[y].end && MergeAt(p, x)[y].jobs == p[i].jobs
  {
    assert p[x].begin < p[x].end && p[x - 1].end == p[x].begin && p[x - 1].begin <= p[x - 1].end;
  }

  lemma MergeJobsAt(p: Profile, x: nat, all: MachineSet, repair: MachineSet, t: real)
    requires Valid(p, all, repair) && 0 < x < |p| && SameJobs(p[x - 1], p[x]) && Within(p, t)
    ensures Tiles(MergeAt(p, x)) && Within(MergeAt(p, x), t) && JobsAt(MergeAt(p, x), t) == JobsAt(p, t)
  {
    assert p[x - 1].jobs == p[x].jobs by { MergeNeverConflicts(p, x, all, repair); }
    var i := IndexAt(p, t);
    MergeCovers(p, x, i, t);
    MergeTiles(p, x);
    hide Valid, MergeAt, Tiles, IndexAt;
    IndexUnique(MergeAt(p, x), if i < x then i else i - 1, t);
  }

  // ---------------------------------------------------------------- removing a job

  lemma EraseHolds(jobs: map<JobId, MachineSet>, busy: MachineSet, j: JobId)
    requires Holds(jobs, busy) && j in jobs
    ensures Holds(jobs - {j}, busy - jobs[j])
  {
    var r := jobs - {j};
    forall m | m in busy - jobs[j] ensures exists k :: k in r && m in r[k] {
      var k :| k in jobs && m in jobs[k];
      assert k in r;
    }
  }

  lemma EraseSliceOk(s: TimeSlice, j: JobId, all: MachineSet, repair: MachineSet)
    requires SliceOk(s, all, repair) && j in s.jobs
    ensures SliceOk(EraseSlice(s, j, s.jobs[j]), all, repair)
  {
    var u := s.jobs[j];
    EraseHolds(s.jobs, s.busy, j);
    MoveToAvailable(s.available, s.busy, repair, all, u);
    hide Holds, Partition;
  }

  lemma EraseRuns(p: Profile, x: nat, j: JobId, s: TimeSlice)
    requires Runs(p) && x < |p| && s.jobs == p[x].jobs - {j}
    requires forall i :: 0 <= i < x ==> j !in p[i].jobs
    ensures Runs(p[x := s])
  {
    var q := p[x := s];
    forall a, b, c, l | 0 <= a <= b <= c < |q| && l in q[a].jobs && l in q[c].jobs
      ensures l in q[b].jobs && q[b].jobs[l] == q[a].jobs[l]
    {
      assert l in p[a].jobs && l in p[c].jobs;
      assert l in p[b].jobs && p[b].jobs[l] == p[a].jobs[l];
      if l == j { assert a > x; }
    }
  }

  /** Erasing a job from the first slice of its run keeps the profile valid. */
  lemma EraseFirstValid(p: Profile, x: nat, j: JobId, all: MachineSet, repair: MachineSet)
    requires Valid(p, all, repair) && x < |p| && j in p[x].jobs
    requires forall i :: 0 <= i < x ==> j !in p[i].jobs
    ensures Valid(p[x := EraseSlice(p[x], j, p[x].jobs[j])], all, repair)
  {
    hide SliceOk, Runs;
    var q := p[x := EraseSlice(p[x], j, p[x].jobs[j])];
    EraseSliceOk(p[x], j, all, repair);
    EraseRuns(p, x, j, q[x]);
    assert forall i :: 0 < i < |q| ==> p[i].begin < p[i].end && q[i - 1].end == q[i].begin;
  }

  lemma EraseFirstJobsAt(p: Profile, x: nat, j: JobId, u: MachineSet, t: real)
    requires Tiles(p) && x < |p| && j in p[x].jobs && Within(p, t)
    ensures Tiles(p[x := EraseSlice(p[x], j, u)]) && Within(p[x := EraseSlice(p[x], j, u)], t)
    ensures JobsAt(p[x := EraseSlice(p[x], j, u)], t) - {j} == JobsAt(p, t) - {j}
  {
    var i := IndexAt(p, t);
    var q := p[x := EraseSlice(p[x], j, u)];
    assert forall i :: 0 < i < |q| ==> p[i].begin < p[i].end && q[i - 1].end == q[i].begin;
    IndexUnique(q, i, t);
  }

  /** The state in which `RemoveRun` visits slice x: the rest of the job's run, if any, starts at x. */
  ghost predicate RunFrom(p: Profile, x: nat, j: JobId, u: MachineSet) {
    && x <= |p|
    && (forall i :: 0 <= i < x ==> j !in p[i].jobs)
    && (x < |p| && j !in p[x].jobs ==> !Contains(p, j))
    && (x < |p| && j in p[x].jobs ==> p[x].jobs[j] == u)
  }

  /** One visit of `RemoveRun` to a slice that holds the job. */
  function EraseStep(p: Profile, x: nat, j: JobId, u: MachineSet): Profile
    requires x < |p|
  {
    MergeIfSame(p[x := EraseSlice(p[x], j, u)], x)
  }

  lemma EraseStepValid(p: Profile, x: nat, j: JobId, u: MachineSet, all: MachineSet, repair: MachineSet)
    requires Valid(p, all, repair) && RunFrom(p, x, j, u) && x < |p| && j in p[x].jobs
    ensures Valid(EraseStep(p, x, j, u), all, repair)
  {
    hide Valid;
    var q := p[x := EraseSlice(p[x], j, u)];
    EraseFirstValid(p, x, j, all, repair);
    if x > 0 && SameJobs(q[x - 1], q[x]) {
      MergeValid(q, x, all, repair);
    }
  }

  /** The slice `RemoveRun` visits after slice x, in the profile that the visit left. */
  function NextVisit(p: Profile, x: nat, r: Profile): int {
    x + 1 + |r| - |p|
  }

  lemma EraseStepShape(p: Profile, x: nat, j: JobId, u: MachineSet)
    requires x < |p|
    ensures var r := EraseStep(p, x, j, u);
            var y := NextVisit(p, x, r);
            && (|r| == |p| || (x > 0 && |r| == |p| - 1))
            && r[y..] == p[x + 1..]
            && forall i :: 0 <= i < y ==> (i < x && r[i].jobs == p[i].jobs) || r[i].jobs == p[x].jobs - {j}
  {
  }

  lemma {:induction false} EraseStepRun(p: Profile, x: nat, j: JobId, u: MachineSet)
    requires Runs(p) && RunFrom(p, x, j, u) && x < |p| && j in p[x].jobs
    ensures var r := EraseStep(p, x, j, u);
            (|r| == |p| || (x > 0 && |r| == |p| - 1)) && r[NextVisit(p, x, r)..] == p[x + 1..]
            && RunFrom(r, NextVisit(p, x, r), j, u)
  {
    hide EraseStep;
    EraseStepShape(p, x, j, u);
    var r := EraseStep(p, x, j, u);
    var y := NextVisit(p, x, r);
    if y < |r| {
      assert r[y] == r[y..][0] == p[x + 1];
      if j in r[y].jobs {
        assert p[x + 1].jobs[j] == p[x].jobs[j];
      } else {
        forall i | y < i < |r| ensures j !in r[i].jobs {
          assert r[i] == r[y..][i - y] == p[x + 1..][i - y] == p[i + x + 1 - y];
          assert j in p[x].jobs && j !in p[x + 1].jobs;
        }
      }
    }
  }

  lemma EraseStepJobsAt(p: Profile, x: nat, j: JobId, u: MachineSet, all: MachineSet, repair: MachineSet, t: real)
    requires Valid(p, all, repair) && RunFrom(p, x, j, u) && x < |p| && j in p[x].jobs && Within(p, t)
    ensures Tiles(EraseStep(p, x, j, u)) && Within(EraseStep(p, x, j, u), t)
    ensures JobsAt(EraseStep(p, x, j, u), t) - {j} == JobsAt(p, t) - {j}
  {
    hide SliceOk, Runs;
    var q := p[x := EraseSlice(p[x], j, u)];
    EraseFirstValid(p, x, j, all, repair);
    EraseFirstJobsAt(p, x, j, u, t);
    if x > 0 && SameJobs(q[x - 1], q[x]) {
      MergeJobsAt(q, x, all, repair, t);
    }
  }

  /** Removal keeps the invariant and leaves the job nowhere. */
  lemma {:induction false} RemoveRunKeeps(p: Profile, x: nat, j: JobId, u: MachineSet, all: MachineSet,
                                          repair: MachineSet)
    requires Valid(p, all, repair) && RunFrom(p, x, j, u)
    ensures Valid(RemoveRun(p, x, j, u), all, repair)
    ensures !Contains(RemoveRun(p, x, j, u), j)
    decreases |p| - x
  {
    hide SliceOk, Runs, Tiles;
    if x < |p| {
      if j in p[x].jobs {
        EraseStepValid(p, x, j, u, all, repair);
        EraseStepRun(p, x, j, u);
        var r := EraseStep(p, x, j, u);
        RemoveRunKeeps(r, NextVisit(p, x, r), j, u, all, repair);
      } else if x > 0 && SameJobs(p[x - 1], p[x]) {
        MergeValid(p, x, all, repair);
        var q := MergeAt(p, x);
        assert forall i :: 0 <= i < |q| ==> q[i].jobs == p[if i < x - 1 then i else i + 1].jobs;
      }
    }
  }

  /** At every instant removal takes away the job and nothing else. */
  lemma {:induction false} RemoveRunJobsAt(p: Profile, x: nat, j: JobId, u: MachineSet, all: MachineSet,
                                           repair: MachineSet, t: real)
    requires Valid(p, all, repair) && RunFrom(p, x, j, u) && Within(p, t)
    ensures Tiles(RemoveRun(p, x, j, u)) && Within(RemoveRun(p, x, j, u), t)
    ensures JobsAt(RemoveRun(p, x, j, u), t) - {j} == JobsAt(p, t) - {j}
    decreases |p| - x
  {
    hide SliceOk, Runs, JobsAt, Within;
    if x < |p| {
      if j in p[x].jobs {
        EraseStepValid(p, x, j, u, all, repair);
        EraseStepJobsAt(p, x, j, u, all, repair, t);
        EraseStepRun(p, x, j, u);
        var r := EraseStep(p, x, j, u);
        RemoveRunJobsAt(r, NextVisit(p, x, r), j, u, all, repair, t);
      } else if x > 0 && SameJobs(p[x - 1], p[x]) {
        MergeJobsAt(p, x, all, repair, t);
      }
    }
  }
}
