/** Which jobs a profile holds at all, and which ones run in its first slice, under each operation. */
module Membership {
  import opened Machines
  import opened Profiles
  import opened Placement
  import opened Removal
  import opened FirstFits

  /** All jobs of the profile, running or reserved. */
  ghost function JobSet(p: Profile): set<JobId> {
    set i, j | 0 <= i < |p| && j in p[i].jobs :: j
  }

  lemma JobSetContains(p: Profile, j: JobId)
    ensures j in JobSet(p) <==> Contains(p, j)
  {
  }

  lemma FreshIsValid(nbMachines: nat, date: real, horizon: real)
    requires date <= horizon
    ensures Valid(Fresh(nbMachines, date, horizon), AllMachines(nbMachines), {})
    ensures JobSet(Fresh(nbMachines, date, horizon)) == {}
  {
    var p := Fresh(nbMachines, date, horizon);
    assert SliceOk(p[0], AllMachines(nbMachines), {});
  }

  lemma MergeJobSet(p: Profile, x: nat)
    requires x < |p|
    ensures JobSet(MergeIfSame(p, x)) == JobSet(p)
  {
    var q := MergeIfSame(p, x);
    if x > 0 && SameJobs(p[x - 1], p[x]) {
      forall j | j in JobSet(q) ensures j in JobSet(p) {
        var i :| 0 <= i < |q| && j in q[i].jobs;
        assert q[i].jobs == p[if i < x - 1 then i else i + 1].jobs;
      }
      forall j | j in JobSet(p) ensures j in JobSet(q) {
        var i :| 0 <= i < |p| && j in p[i].jobs;
        assert j in p[i].jobs.Keys;
        assert q[if i < x then i else i - 1].jobs.Keys == p[i].jobs.Keys;
      }
    }
  }

  lemma EraseJobSet(p: Profile, x: nat, j: JobId, u: MachineSet)
    requires x < |p|
    ensures JobSet(p[x := EraseSlice(p[x], j, u)]) - {j} == JobSet(p) - {j}
  {
    var q := p[x := EraseSlice(p[x], j, u)];
    forall k | k != j ensures k in JobSet(q) <==> k in JobSet(p) {
      assert forall i :: 0 <= i < |p| ==> (k in q[i].jobs <==> k in p[i].jobs);
    }
  }

  lemma {:induction false} RemoveRunJobSet(p: Profile, x: nat, j: JobId, u: MachineSet)
    requires x <= |p|
    ensures JobSet(RemoveRun(p, x, j, u)) - {j} == JobSet(p) - {j}
    decreases |p| - x
  {
    hide JobSet, EraseSlice;
    if x < |p| {
      if j in p[x].jobs {
        var q := p[x := EraseSlice(p[x], j, u)];
        EraseJobSet(p, x, j, u);
        MergeJobSet(q, x);
        var r := MergeIfSame(q, x);
        RemoveRunJobSet(r, if |r| == |p| then x + 1 else x, j, u);
      } else {
        MergeJobSet(p, x);
      }
    }
  }

  lemma RemoveJobSet(p: Profile, j: JobId, all: MachineSet, repair: MachineSet)
    requires Valid(p, all, repair)
    ensures JobSet(Remove(p, j, repair)) == JobSet(p) - {j}
  {
    hide Valid, RemoveRun, JobSet;
    var x := FirstOccurrence(p, j, 0);
    RemoveKeeps(p, j, all, repair);
    JobSetContains(Remove(p, j, repair), j);
    JobSetContains(p, j);
    if x < |p| {
      RemoveRunJobSet(p, x, j, p[x].jobs[j] - repair);
    } else {
      RemoveAbsent(p, j, repair);
    }
  }

  lemma SplitJobSet(p: Profile, k: nat, date: real)
    requires k < |p|
    ensures JobSet(Split(p, k, date)) == JobSet(p)
  {
    var s := Split(p, k, date);
    var d := |s| - |p|;
    forall j | j in JobSet(s) ensures j in JobSet(p) {
      var i :| 0 <= i < |s| && j in s[i].jobs;
      assert s[i].jobs == p[if i <= k then i else i - d].jobs;
    }
    forall j | j in JobSet(p) ensures j in JobSet(s) {
      var i :| 0 <= i < |p| && j in p[i].jobs;
      assert s[if i <= k then i else i + d].jobs == p[i].jobs;
    }
  }

  lemma MarkJobSet(s: Profile, i: nat, k: nat, j: JobId, u: MachineSet, n: nat)
    requires i <= k < |s|
    ensures JobSet(Mark(s, i, k, j, u, n)) == JobSet(s) + {j}
  {
    var q := Mark(s, i, k, j, u, n);
    forall l ensures l in JobSet(q) <==> l in JobSet(s) + {j} {
      if l == j {
        assert j in q[i].jobs;
      } else {
        assert forall x :: 0 <= x < |s| ==> (l in q[x].jobs <==> l in s[x].jobs);
      }
    }
  }

  lemma PlaceJobSet(p: Profile, i: nat, k: nat, date: real, j: JobId, u: MachineSet, n: nat)
    requires i <= k < |p|
    ensures JobSet(Place(p, i, k, date, j, u, n)) == JobSet(p) + {j}
  {
    hide JobSet, Mark;
    SplitJobSet(p, k, date);
    MarkJobSet(Split(p, k, date), i, k, j, u, n);
  }

  lemma AddJobSet(p: Profile, job: Job, sel: Selector)
    ensures JobSet(Add(p, 0, job, sel).profile)
            == if FirstFit(p, 0, job.res, job.walltime, sel).Some? then JobSet(p) + {job.id} else JobSet(p)
  {
    hide FirstFit, Place, JobSet;
    if FirstFit(p, 0, job.res, job.walltime, sel).Some? {
      var Spot(i, k, u) := FirstFit(p, 0, job.res, job.walltime, sel).value;
      PlaceJobSet(p, i, k, p[i].begin + job.walltime, job.id, u, job.res);
    }
  }

  lemma AdvanceJobSet(p: Profile, date: real)
    requires |p| > 0
    ensures JobSet(Advance(p, date)) == JobSet(p)
    ensures |Advance(p, date)| > 0 && Advance(p, date)[0].jobs == p[0].jobs
  {
    var q := Advance(p, date);
    assert forall i :: 0 <= i < |p| ==> q[i].jobs == p[i].jobs;
  }

  // ---------------------------------------------------------------- the first slice

  lemma EraseStepPresent(p: Profile, x: nat, j: JobId, u: MachineSet, all: MachineSet, repair: MachineSet)
    requires Valid(p, all, repair) && RunFrom(p, x, j, u) && x < |p| && j in p[x].jobs
    ensures EraseStep(p, x, j, u)[0].jobs == p[0].jobs - {j}
  {
    hide SliceOk, Runs, Tiles;
    var q := p[x := EraseSlice(p[x], j, u)];
    EraseFirstValid(p, x, j, all, repair);
    if x > 0 {
      assert j !in p[0].jobs && p[0].jobs - {j} == p[0].jobs;
      if SameJobs(q[x - 1], q[x]) { MergeNeverConflicts(q, x, all, repair); }
    }
  }

  lemma {:induction false} RemoveRunPresent(p: Profile, x: nat, j: JobId, u: MachineSet, all: MachineSet,
                                            repair: MachineSet)
    requires Valid(p, all, repair) && RunFrom(p, x, j, u) && |p| > 0
    ensures |RemoveRun(p, x, j, u)| > 0 && RemoveRun(p, x, j, u)[0].jobs == p[0].jobs - {j}
    decreases |p| - x
  {
    hide SliceOk, Runs, Tiles, EraseSlice;
    if x < |p| && j in p[x].jobs {
      EraseStepPresent(p, x, j, u, all, repair);
      EraseStepValid(p, x, j, u, all, repair);
      EraseStepRun(p, x, j, u);
      var r := EraseStep(p, x, j, u);
      RemoveRunPresent(r, NextVisit(p, x, r), j, u, all, repair);
      assert p[0].jobs - {j} - {j} == p[0].jobs - {j};
    } else {
      assert x > 0 || j !in p[0].jobs;
      assert p[0].jobs - {j} == p[0].jobs;
      if 0 < x < |p| && SameJobs(p[x - 1], p[x]) { MergeNeverConflicts(p, x, all, repair); }
    }
  }

  /** Removing a job takes it out of the first slice and leaves the other running jobs on their machines. */
  lemma RemovePresent(p: Profile, j: JobId, all: MachineSet, repair: MachineSet)
    requires Valid(p, all, repair)
    ensures |Remove(p, j, repair)| > 0 && Remove(p, j, repair)[0].jobs == p[0].jobs - {j}
  {
    hide SliceOk, Runs, RemoveRun, Remove;
    RemoveKeeps(p, j, all, repair);
    if Contains(p, j) {
      RemoveIsRun(p, j, all, repair);
      var x := FirstOccurrence(p, j, 0);
      RemoveRunPresent(p, x, j, p[x].jobs[j], all, repair);
    } else {
      RemoveAbsent(p, j, repair);
      assert p[0].jobs - {j} == p[0].jobs;
    }
  }

  lemma PlaceNonempty(p: Profile, i: nat, k: nat, date: real, j: JobId, u: MachineSet, n: nat)
    requires i <= k < |p|
    ensures |Place(p, i, k, date, j, u, n)| > 0
  {
  }

  lemma PlacePresent(p: Profile, i: nat, k: nat, date: real, j: JobId, u: MachineSet, n: nat)
    requires i <= k < |p|
    ensures Place(p, i, k, date, j, u, n)[0].jobs == if i == 0 then p[0].jobs[j := u] else p[0].jobs
  {
  }

  /** An inserted job runs now exactly when it starts in the first slice; the other running jobs stay. */
  lemma AddPresent(p: Profile, job: Job, sel: Selector)
    requires |p| > 0
    ensures var a := Add(p, 0, job, sel);
            |a.profile| > 0 &&
            a.profile[0].jobs == if a.alloc.startedInFirstSlice then p[0].jobs[job.id := a.alloc.machines]
                                 else p[0].jobs
    ensures Add(p, 0, job, sel).alloc.hasBeenInserted <==> FirstFit(p, 0, job.res, job.walltime, sel).Some?
    ensures Add(p, 0, job, sel).alloc.startedInFirstSlice ==> Add(p, 0, job, sel).alloc.hasBeenInserted
  {
    hide FirstFit, Place;
    if FirstFit(p, 0, job.res, job.walltime, sel).Some? {
      var Spot(i, k, u) := FirstFit(p, 0, job.res, job.walltime, sel).value;
      PlaceNonempty(p, i, k, p[i].begin + job.walltime, job.id, u, job.res);
      PlacePresent(p, i, k, p[i].begin + job.walltime, job.id, u, job.res);
    }
  }

  /** Inserting a job and removing it at once gives back the profile in normal form. */
  lemma RemoveUndoesAdd(p: Profile, job: Job, sel: Selector, all: MachineSet, repair: MachineSet)
    requires Valid(p, all, repair) && Canonical(p) && job.walltime > 0.0 && !Contains(p, job.id)
    ensures Remove(Add(p, 0, job, sel).profile, job.id, repair) == p
  {
    hide FirstFit, Place, Remove, SliceOk, Runs, Canonical, Placeable, Contains;
    if FirstFit(p, 0, job.res, job.walltime, sel).Some? {
      SpotIsPlaceable(p, 0, job, sel);
      var Spot(i, k, u) := FirstFit(p, 0, job.res, job.walltime, sel).value;
      RemoveUndoesPlace(p, i, k, p[i].begin + job.walltime, job.id, u, all, repair);
    } else {
      RemoveAbsent(p, job.id, repair);
    }
  }
}
