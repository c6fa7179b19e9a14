/** Removal as a whole: its effect at every instant, the normal form it keeps, and that it undoes a placement. */
module Removal {
  import opened Machines
  import opened Profiles
  import opened Placement

  /** Two profiles over the same period. */
  ghost predicate SameSpan(p: Profile, q: Profile) {
    |p| > 0 && |q| > 0 && p[0].begin == q[0].begin && Horizon(p) == Horizon(q)
  }

  lemma {:induction false} RemoveRunSpan(p: Profile, x: nat, j: JobId, u: MachineSet)
    requires |p| > 0 && x <= |p|
    ensures SameSpan(p, RemoveRun(p, x, j, u))
    decreases |p| - x
  {
    if x < |p| && j in p[x].jobs {
      var r := EraseStep(p, x, j, u);
      assert SameSpan(p, r);
      hide EraseSlice;
      RemoveRunSpan(r, if |r| == |p| then x + 1 else x, j, u);
    }
  }

  lemma JobMachinesInService(s: TimeSlice, j: JobId, all: MachineSet, repair: MachineSet)
    requires SliceOk(s, all, repair) && j in s.jobs
    ensures s.jobs[j] <= s.busy && s.jobs[j] - repair == s.jobs[j] && s.jobs[j] <= all
  {
    assert s.jobs[j] <= s.busy;
    hide Holds;
  }

  /** Removing a job that is present erases its whole run. */
  lemma RemoveIsRun(p: Profile, j: JobId, all: MachineSet, repair: MachineSet)
    requires Valid(p, all, repair) && Contains(p, j)
    ensures var x := FirstOccurrence(p, j, 0);
            x < |p| && RunFrom(p, x, j, p[x].jobs[j]) && Remove(p, j, repair) == RemoveRun(p, x, j, p[x].jobs[j])
  {
    hide SliceOk, Runs, Tiles;
    var x := FirstOccurrence(p, j, 0);
    var i :| 0 <= i < |p| && j in p[i].jobs;
    assert x <= i;
    JobMachinesInService(p[x], j, all, repair);
  }

  lemma RemoveAbsent(p: Profile, j: JobId, repair: MachineSet)
    requires !Contains(p, j)
    ensures Remove(p, j, repair) == p
  {
  }

  /** Removing a job keeps the profile's invariant and period and leaves the job in no slice. */
  lemma RemoveKeeps(p: Profile, j: JobId, all: MachineSet, repair: MachineSet)
    requires Valid(p, all, repair)
    ensures Valid(Remove(p, j, repair), all, repair) && SameSpan(p, Remove(p, j, repair))
    ensures !Contains(Remove(p, j, repair), j)
  {
    hide SliceOk, Runs, RunFrom, RemoveRun, Remove;
    if Contains(p, j) {
      RemoveIsRun(p, j, all, repair);
      var x := FirstOccurrence(p, j, 0);
      RemoveRunKeeps(p, x, j, p[x].jobs[j], all, repair);
      RemoveRunSpan(p, x, j, p[x].jobs[j]);
    } else {
      RemoveAbsent(p, j, repair);
    }
  }

  /** At every instant, removing a job takes that job away and nothing else. */
  lemma RemoveJobsAt(p: Profile, j: JobId, all: MachineSet, repair: MachineSet, t: real)
    requires Valid(p, all, repair) && Within(p, t)
    ensures Tiles(Remove(p, j, repair)) && Within(Remove(p, j, repair), t)
    ensures JobsAt(Remove(p, j, repair), t) == JobsAt(p, t) - {j}
  {
    hide SliceOk, Runs, RunFrom, RemoveRun, Remove, IndexAt;
    var q := Remove(p, j, repair);
    RemoveKeeps(p, j, all, repair);
    if Contains(p, j) {
      RemoveIsRun(p, j, all, repair);
      var x := FirstOccurrence(p, j, 0);
      RemoveRunJobsAt(p, x, j, p[x].jobs[j], all, repair, t);
    } else {
      RemoveAbsent(p, j, repair);
    }
    NotAt(q, j, t);
  }

  // ---------------------------------------------------------------- the normal form

  /** Neighbours differ everywhere except, perhaps, at slice x and its predecessor. */
  ghost predicate CanonicalBut(p: Profile, x: nat) {
    forall i :: 0 < i < |p| && i != x ==> p[i - 1].jobs.Keys != p[i].jobs.Keys
  }

  lemma MergeCanonical(p: Profile, x: nat)
    requires x < |p|
    requires forall i :: 0 < i < |p| && i != x && i != x + 1 ==> p[i - 1].jobs.Keys != p[i].jobs.Keys
    ensures var r := MergeIfSame(p, x);
            CanonicalBut(r, x + 1 + |r| - |p|)
    ensures |p| - 1 <= |MergeIfSame(p, x)| <= |p|
  {
    var r := MergeIfSame(p, x);
    if r != p && |r| < |p| {
      assert forall i :: 0 <= i < |r| ==> r[i].jobs.Keys == p[if i < x then i else i + 1].jobs.Keys;
      forall i | 0 < i < |r| && i != x ensures r[i - 1].jobs.Keys != r[i].jobs.Keys {
        if i > x { assert r[i].jobs.Keys == p[i + 1].jobs.Keys && r[i - 1].jobs.Keys == p[i].jobs.Keys; }
      }
    }
  }

  lemma {:induction false} RemoveRunCanonical(p: Profile, x: nat, j: JobId, u: MachineSet)
    requires x <= |p| && CanonicalBut(p, x)
    ensures Canonical(RemoveRun(p, x, j, u))
    decreases |p| - x
  {
    if x < |p| {
      if j in p[x].jobs {
        var q := p[x := EraseSlice(p[x], j, u)];
        MergeCanonical(q, x);
        var r := MergeIfSame(q, x);
        RemoveRunCanonical(r, x + 1 + |r| - |p|, j, u);
      } else {
        MergeCanonical(p, x);
        var r := MergeIfSame(p, x);
        if |r| == |p| { assert CanonicalBut(p, x); }
      }
    }
  }

  /** A profile in normal form stays in normal form when a job is removed. */
  lemma RemoveCanonical(p: Profile, j: JobId, repair: MachineSet)
    requires Canonical(p)
    ensures Canonical(Remove(p, j, repair))
  {
    var x := FirstOccurrence(p, j, 0);
    if x < |p| {
      RemoveRunCanonical(p, x, j, p[x].jobs[j] - repair);
    }
  }

  // ---------------------------------------------------------------- removing undoes adding

  lemma EraseAlloc(s: TimeSlice, j: JobId, u: MachineSet)
    requires u <= s.available && u !! s.busy && j !in s.jobs
    ensures EraseSlice(AllocSlice(s, j, u, |u|), j, u) == s
  {
    var r := EraseSlice(AllocSlice(s, j, u, |u|), j, u);
    assert r.available == s.available;
    assert r.busy == s.busy;
    assert r.jobs == s.jobs;
  }

  /** Erasing the placed job from slice x, the slices before it being restored, restores slice x and merges nothing. */
  lemma RestoreOne(p: Profile, s: Profile, state: Profile, j: JobId, u: MachineSet, x: nat)
    requires Canonical(p) && x < |p| && x < |s| && x < |state| && state[..x] == p[..x]
    requires state[x] == AllocSlice(s[x], j, u, |u|) && s[x].jobs == p[x].jobs
    requires u <= s[x].available && u !! s[x].busy && j !in s[x].jobs
    ensures RemoveRun(state, x, j, u) == RemoveRun(state[x := s[x]], x + 1, j, u)
  {
    EraseAlloc(s[x], j, u);
    var next := state[x := s[x]];
    assert j in state[x].jobs;
    assert x > 0 ==> next[x - 1] == state[..x][x - 1] == p[x - 1];
  }

  lemma PlacedSlices(p: Profile, i: nat, k: nat, date: real, j: JobId, u: MachineSet, n: nat, x: nat)
    requires i <= x <= k < |p|
    ensures var q, s := Place(p, i, k, date, j, u, n), Split(p, k, date);
            && |q| == |s| && x < |s| && q[k + 1..] == s[k + 1..]
            && q[x] == AllocSlice(s[x], j, u, n)
            && s[x].jobs == p[x].jobs && s[x].available == p[x].available && s[x].busy == p[x].busy
            && (x < k ==> s[x] == p[x])
  {
  }

  lemma SwitchOver<T>(p: seq<T>, q: seq<T>, x: nat)
    requires x < |p| && x < |q|
    ensures (p[..x] + q[x..])[x := p[x]] == p[..x + 1] + q[x + 1..]
  {
  }

  lemma SwitchLast<T>(p: seq<T>, q: seq<T>, s: seq<T>, x: nat)
    requires x < |p| && x < |q| && x < |s| && q[x + 1..] == s[x + 1..]
    ensures (p[..x] + q[x..])[x := s[x]] == p[..x] + [s[x]] + s[x + 1..]
  {
  }

  /** `RemoveRun` on a freshly placed job, having already restored the slices before x. */
  lemma {:induction false} RestoreFrom(p: Profile, i: nat, k: nat, date: real, j: JobId, u: MachineSet, x: nat)
    requires Canonical(p) && Placeable(p, i, k, date, j, u) && i <= x <= k
    requires p[k].length == p[k].end - p[k].begin && forall y :: i <= y <= k ==> u !! p[y].busy
    requires x < |Place(p, i, k, date, j, u, |u|)|
    ensures RemoveRun(p[..x] + Place(p, i, k, date, j, u, |u|)[x..], x, j, u) == p
    decreases k - x
  {
    var q := Place(p, i, k, date, j, u, |u|);
    var s := Split(p, k, date);
    PlacedSlices(p, i, k, date, j, u, |u|, x);
    var state := p[..x] + q[x..];
    var next := state[x := s[x]];
    assert j !in p[x].jobs;
    hide Place, Split, AllocSlice, RemoveRun;
    RestoreOne(p, s, state, j, u, x);
    hide Canonical;
    if x < k {
      PlacedSlices(p, i, k, date, j, u, |u|, x + 1);
      SwitchOver(p, q, x);
      RestoreFrom(p, i, k, date, j, u, x + 1);
    } else {
      SwitchLast(p, q, s, k);
      RestoreLast(p, i, k, date, j, u, next);
    }
  }

  lemma RestoreLast(p: Profile, i: nat, k: nat, date: real, j: JobId, u: MachineSet, next: Profile)
    requires Canonical(p) && Placeable(p, i, k, date, j, u) && p[k].length == p[k].end - p[k].begin
    requires var s := Split(p, k, date); next == p[..k] + [s[k]] + s[k + 1..]
    ensures RemoveRun(next, k + 1, j, u) == p
  {
    var s := Split(p, k, date);
    if date < p[k].end {
      assert next == s;
      assert j !in p[k].jobs && next[k + 1].jobs == p[k].jobs == next[k].jobs;
      assert MergeAt(next, k + 1) == p;
    } else {
      assert next == p;
      if k + 1 < |p| {
        assert j !in p[k + 1].jobs;
        assert p[k].jobs.Keys != p[k + 1].jobs.Keys;
      }
    }
  }

  lemma PlacedRun(p: Profile, i: nat, k: nat, date: real, j: JobId, u: MachineSet, n: nat)
    requires Placeable(p, i, k, date, j, u)
    ensures var q := Place(p, i, k, date, j, u, n);
            i < |q| && q[..i] == p[..i] && FirstOccurrence(q, j, 0) == i && j in q[i].jobs && q[i].jobs[j] == u
  {
    var q := Place(p, i, k, date, j, u, n);
    assert forall y :: 0 <= y < i ==> q[y] == p[y];
    assert j in q[i].jobs;
    assert FirstOccurrence(q, j, 0) <= i;
  }

  lemma BusyApart(p: Profile, i: nat, k: nat, u: MachineSet, all: MachineSet, repair: MachineSet)
    requires Valid(p, all, repair) && i <= k < |p| && forall x :: i <= x <= k ==> u <= p[x].available
    ensures forall y :: i <= y <= k ==> u !! p[y].busy
    ensures p[k].length == p[k].end - p[k].begin && u - repair == u
  {
    hide Holds, Runs;
    assert forall y :: i <= y <= k ==> SliceOk(p[y], all, repair);
  }

  /** Removing a job right after placing it gives back exactly the profile in normal form it was placed in. */
  lemma RemoveUndoesPlace(p: Profile, i: nat, k: nat, date: real, j: JobId, u: MachineSet, all: MachineSet,
                          repair: MachineSet)
    requires Valid(p, all, repair) && Canonical(p) && Placeable(p, i, k, date, j, u)
    ensures Remove(Place(p, i, k, date, j, u, |u|), j, repair) == p
  {
    hide Place, Valid, RemoveRun, FirstOccurrence, Canonical;
    var q := Place(p, i, k, date, j, u, |u|);
    BusyApart(p, i, k, u, all, repair);
    PlacedRun(p, i, k, date, j, u, |u|);
    RestoreFrom(p, i, k, date, j, u, i);
    SamePrefix(p, q, i);
  }

  lemma SamePrefix<T>(p: seq<T>, q: seq<T>, i: nat)
    requires i <= |p| && i <= |q| && p[..i] == q[..i]
    ensures p[..i] + q[i..] == q
  {
  }

  lemma NotAt(p: Profile, j: JobId, t: real)
    requires Tiles(p) && Within(p, t) && !Contains(p, j)
    ensures j !in JobsAt(p, t) && JobsAt(p, t) - {j} == JobsAt(p, t)
  {
    var m := JobsAt(p, t);
    assert m - {j} == m;
  }

  lemma SameJobsAtSameFree(p: Profile, q: Profile, all: MachineSet, repair: MachineSet, t: real)
    requires Valid(p, all, repair) && Valid(q, all, repair) && Within(p, t) && Within(q, t)
    requires JobsAt(p, t) == JobsAt(q, t)
    ensures FreeAt(p, t) == FreeAt(q, t)
  {
    hide Runs, Tiles, SliceOk;
    SameJobsSameFree(p[IndexAt(p, t)], q[IndexAt(q, t)], all, repair);
  }

  /** Whatever the profile, removing what was just placed gives back the jobs and free machines of every instant. */
  lemma RemoveUndoesPlaceAt(p: Profile, i: nat, k: nat, date: real, j: JobId, u: MachineSet, all: MachineSet,
                            repair: MachineSet, t: real)
    requires Valid(p, all, repair) && Placeable(p, i, k, date, j, u) && Within(p, t)
    ensures var r := Remove(Place(p, i, k, date, j, u, |u|), j, repair);
            Valid(r, all, repair) && Within(r, t) && JobsAt(r, t) == JobsAt(p, t) && FreeAt(r, t) == FreeAt(p, t)
  {
    hide Remove, Place, SliceOk, Runs, Tiles, JobsAt, Within, Contains;
    var q := Place(p, i, k, date, j, u, |u|);
    var r := Remove(q, j, repair);
    NotAt(p, j, t);
    PlaceJobsAt(p, i, k, date, j, u, all, repair, t);
    RemoveJobsAt(q, j, all, repair, t);
    RemoveKeeps(q, j, all, repair);
    var before, with := JobsAt(p, t), JobsAt(q, t);
    assert with - {j} == before - {j};
    SameJobsAtSameFree(p, r, all, repair, t);
  }
}
