/** The schedule as the schedulers use it: an object whose profile is updated in place, slice by slice. */
module Schedules {
  import opened Machines
  import opened Profiles
  import opened Placement
  import opened Removal
  import opened FirstFits
  import opened Slots
  import opened Ends
  import opened OpenJobs
  import opened Queries

  /** The end of the last slice: more seconds than have elapsed since the big bang. */
  const INFINITE_HORIZON: real := 10000000000000000000.0

  /** The last slice is idle, and the job would end before the horizon even if it began with it. */
  ghost predicate LeavesLastIdle(p: Profile, job: Job) {
    LastIsIdle(p) && job.hasWalltime && p[|p| - 1].begin + job.walltime < Horizon(p)
  }

  class Schedule {
    const nbMachines: nat
    var profile: Profile
    var size: int
    var nbJobs: int
    var repairMachines: MachineSet

    ghost predicate WellFormed()
      reads this
    {
      Valid(profile, AllMachines(nbMachines), repairMachines)
    }

    constructor (nbMachines: nat, initialTime: real)
      requires nbMachines > 0 && initialTime <= INFINITE_HORIZON
      ensures WellFormed() && Canonical(profile) && LastIsIdle(profile)
      ensures profile == Fresh(nbMachines, initialTime, INFINITE_HORIZON) && this.nbMachines == nbMachines
      ensures size == 0 && nbJobs == 0 && repairMachines == {}
    {
      this.nbMachines := nbMachines;
      profile := Fresh(nbMachines, initialTime, INFINITE_HORIZON);
      size, nbJobs, repairMachines := 0, 0, {};
    }

    method SplitSlice(k: nat, date: real) returns (split: bool)
      requires k < |profile|
      modifies this`profile
      ensures profile == Split(old(profile), k, date)
      ensures split <==> old(profile[k].begin) < date < old(profile[k].end)
    {
      if date > profile[k].begin && date < profile[k].end {
        var newSlice := profile[k].(begin := date, length := profile[k].end - date);
        profile := profile[k := profile[k].(end := date, length := date - profile[k].begin)];
        profile := profile[..k + 1] + [newSlice] + profile[k + 1..];
        return true;
      }
      return false;
    }

    /** Hand the machines to the job in the slices first to last - 1. */
    method AllocateSlices(first: nat, last: nat, job: Job, machines: MachineSet)
      requires first <= last < |profile|
      modifies this`profile
      ensures |profile| == |old(profile)|
      ensures forall x :: 0 <= x < |profile| ==>
                profile[x] == if first <= x < last then AllocSlice(old(profile)[x], job.id, machines, job.res)
                              else old(profile)[x]
    {
      var k := first;
      while k < last
        invariant first <= k <= last && |profile| == |old(profile)|
        invariant forall x :: 0 <= x < |profile| ==>
                    profile[x] == if first <= x < k then AllocSlice(old(profile)[x], job.id, machines, job.res)
                                  else old(profile)[x]
      {
        profile := profile[k := AllocSlice(profile[k], job.id, machines, job.res)];
        k := k + 1;
      }
    }

    /** Place the job from slice i on, ending at the date in slice k: the code allocates the slices before k,
        splits slice k at the date and allocates its first half. */
    method PlaceJob(i: nat, k: nat, date: real, job: Job, machines: MachineSet)
      requires i <= k < |profile|
      modifies this`profile
      ensures profile == Place(old(profile), i, k, date, job.id, machines, job.res)
    {
      AllocateSlices(i, k, job, machines);
      assert profile[k] == old(profile)[k];
      var split := SplitSlice(k, date);
      profile := profile[k := AllocSlice(profile[k], job.id, machines, job.res)];
    }

    method AddJobFirstFitAfterTimeSlice(job: Job, from: nat, sel: Selector) returns (alloc: JobAlloc)
      requires WellFormed() && from <= |profile|
      modifies this`profile, this`size, this`nbJobs
      ensures profile == AddAny(old(profile), from, job, sel).profile
      ensures alloc == AddAny(old(profile), from, job, sel).alloc
      ensures size == old(size) + (if alloc.hasBeenInserted then 1 else 0)
      ensures nbJobs == old(nbJobs) + (if alloc.hasBeenInserted then 1 else 0)
    {
      hide Valid, Place, FirstFit, OpenFit;
      size, nbJobs := size + 1, nbJobs + 1;
      var spot := FindSpotFor(profile, from, job, sel, AllMachines(nbMachines), repairMachines);
      if spot.Some? {
        var Spot(i, k, machines) := spot.value;
        var begin := profile[i].begin;
        var end := begin + WalltimeFrom(profile, i, job);
        alloc := JobAlloc(true, begin, if i == k then 0.0 else end, i == 0, job.id, machines);
        PlaceJob(i, k, end, job, machines);
        return;
      }
      size, nbJobs := size - 1, nbJobs - 1;
      alloc := FAILED_ALLOC;
    }

    method AddJobFirstFit(job: Job, sel: Selector) returns (alloc: JobAlloc)
      requires WellFormed() && !Contains(profile, job.id) && (job.hasWalltime ==> job.walltime > 0.0)
      modifies this`profile, this`size, this`nbJobs
      ensures profile == AddAny(old(profile), 0, job, sel).profile
      ensures alloc == AddAny(old(profile), 0, job, sel).alloc
      ensures WellFormed() && SameSpan(old(profile), profile) && (old(Canonical(profile)) ==> Canonical(profile))
      ensures old(LeavesLastIdle(profile, job)) ==> LastIsIdle(profile)
      ensures size == old(size) + (if alloc.hasBeenInserted then 1 else 0)
      ensures nbJobs == old(nbJobs) + (if alloc.hasBeenInserted then 1 else 0)
    {
      hide SliceOk, Runs, Tiles, Add, LastIsIdle, OpenFit;
      AddAnyKeeps(profile, 0, job, sel, AllMachines(nbMachines), repairMachines);
      if LeavesLastIdle(profile, job) {
        AddKeepsLastIdle(profile, 0, job, sel);
      }
      alloc := AddJobFirstFitAfterTimeSlice(job, 0, sel);
    }

    method FindFirstOccurenceOfJob(job: JobId, startingPoint: nat) returns (r: nat)
      requires startingPoint <= |profile|
      ensures r == FirstOccurrence(profile, job, startingPoint)
    {
      r := startingPoint;
      while r < |profile|
        invariant startingPoint <= r <= |profile|
        invariant FirstOccurrence(profile, job, startingPoint) == FirstOccurrence(profile, job, r)
      {
        if job in profile[r].jobs { return; }
        r := r + 1;
      }
    }

    /** The start of the last run of the job, found from the end of the profile backwards, or the number of slices. */
    method FindLastOccurenceOfJob(job: JobId, startingPoint: nat) returns (r: nat)
      requires startingPoint < |profile| && Runs(profile)
      ensures startingPoint <= r <= |profile|
      ensures r == |profile| <==> forall x :: startingPoint <= x < |profile| ==> job !in profile[x].jobs
      ensures r < |profile| ==> r == FirstOccurrence(profile, job, startingPoint)
    {
      var x := |profile|;
      var found := false;
      while true
        invariant startingPoint < x <= |profile|
        invariant found ==> x < |profile| && job in profile[x].jobs
        invariant !found ==> forall y :: x <= y < |profile| ==> job !in profile[y].jobs
        decreases x
      {
        x := x - 1;
        if job in profile[x].jobs {
          found := true;
        } else if found {
          r := x + 1;
          FirstAfterGap(profile, job, startingPoint, r);
          return;
        }
        if x == startingPoint { break; }
      }
      if found { return startingPoint; }
      return |profile|;
    }

    /** Let slice x absorb its predecessor when both hold the same jobs; the code checks then that both offer the
        same machines. */
    method MergeWithPrevious(x: nat) returns (merged: bool)
      requires WellFormed() && x < |profile|
      modifies this`profile
      ensures profile == MergeIfSame(old(profile), x)
      ensures merged <==> x > 0 && SameJobs(old(profile)[x - 1], old(profile)[x])
    {
      hide SliceOk, Runs, Tiles;
      merged := false;
      if x > 0 && profile[x - 1].jobs.Keys == profile[x].jobs.Keys {
        MergeNeverConflicts(profile, x, AllMachines(nbMachines), repairMachines);
        assert profile[x - 1].available == profile[x].available;
        profile := profile[x := profile[x].(begin := profile[x - 1].begin,
                                            length := profile[x].end - profile[x - 1].begin)];
        profile := profile[..x - 1] + profile[x..];
        merged := true;
      }
    }

    method RemoveJobInternal(job: JobId, removalPoint: nat)
      requires WellFormed() && removalPoint < |profile| && job in profile[removalPoint].jobs
      requires RunFrom(profile, removalPoint, job, profile[removalPoint].jobs[job])
      modifies this`profile, this`size, this`nbJobs
      ensures profile
                  == RemoveRun(old(profile), removalPoint, job, old(profile)[removalPoint].jobs[job] - repairMachines)
      ensures size == old(size) - 1 && nbJobs == old(nbJobs) - 1
    {
      hide SliceOk, Runs, Tiles, RunFrom, MergeIfSame;
      ghost var all := AllMachines(nbMachines);
      var machines := profile[removalPoint].jobs[job];
      JobMachinesInService(profile[removalPoint], job, all, repairMachines);
      machines := machines - repairMachines;
      size, nbJobs := size - 1, nbJobs - 1;
      var k := removalPoint;
      while k < |profile| && job in profile[k].jobs
        invariant k <= |profile| && WellFormed() && RunFrom(profile, k, job, machines)
        invariant size == old(size) - 1 && nbJobs == old(nbJobs) - 1
        invariant RemoveRun(profile, k, job, machines) == RemoveRun(old(profile), removalPoint, job, machines)
        decreases |profile| - k
      {
        ghost var before := profile;
        EraseAtRun(before, k, job, machines, all, repairMachines);
        profile := profile[k := EraseSlice(profile[k], job, machines)];
        var merged := MergeWithPrevious(k);
        RemoveRunStep(before, k, job, machines);
        if !merged { k := k + 1; }
      }
      if k < |profile| {
        RemoveRunEnd(profile, k, job, machines);
        var merged := MergeWithPrevious(k);
      } else {
        RemoveRunEnd(profile, k, job, machines);
      }
    }

    /** `remove_job`, which insists that the job is in the schedule. */
    method RemoveJob(job: JobId)
      requires WellFormed() && Contains(profile, job)
      modifies this`profile, this`size, this`nbJobs
      ensures profile == Remove(old(profile), job, repairMachines)
      ensures WellFormed() && SameSpan(old(profile), profile) && (old(Canonical(profile)) ==> Canonical(profile))
      ensures old(LastIsIdle(profile)) ==> LastIsIdle(profile)
      ensures size == old(size) - 1 && nbJobs == old(nbJobs) - 1
    {
      var removed := RemoveJobIfExists(job);
    }

    method RemoveJobIfExists(job: JobId) returns (removed: bool)
      requires WellFormed()
      modifies this`profile, this`size, this`nbJobs
      ensures removed <==> old(Contains(profile, job))
      ensures profile == Remove(old(profile), job, repairMachines)
      ensures WellFormed() && SameSpan(old(profile), profile) && (old(Canonical(profile)) ==> Canonical(profile))
      ensures old(LastIsIdle(profile)) ==> LastIsIdle(profile)
      ensures size == old(size) - (if removed then 1 else 0) && nbJobs == old(nbJobs) - (if removed then 1 else 0)
    {
      hide Valid, RemoveRun, RunFrom, Canonical, LastIsIdle;
      ghost var all := AllMachines(nbMachines);
      RemoveKeeps(profile, job, all, repairMachines);
      if Canonical(profile) { RemoveCanonical(profile, job, repairMachines); }
      if LastIsIdle(profile) { RemoveKeepsLastIdle(profile, job, repairMachines); }
      var x := FindFirstOccurenceOfJob(job, 0);
      if x < |profile| {
        RemoveIsRun(profile, job, all, repairMachines);
        RemoveJobInternal(job, x);
        return true;
      }
      RemoveAbsent(profile, job, repairMachines);
      return false;
    }

    /** `update_first_slice`, which tolerates a date a little outside the first slice: one before it does no harm,
        one after it breaks the invariant. */
    method UpdateFirstSlice(currentTime: real)
      requires WellFormed() && Tolerated(profile, currentTime)
      modifies this`profile
      ensures profile == Advance(old(profile), currentTime)
      ensures WellFormed() <==> currentTime <= old(profile)[0].end
      ensures old(Canonical(profile)) ==> Canonical(profile)
      ensures old(LastIsIdle(profile)) ==> LastIsIdle(profile)
    {
      hide SliceOk, Runs, Tiles;
      AdvanceKeepsIff(profile, currentTime, AllMachines(nbMachines), repairMachines);
      if LastIsIdle(profile) { AdvanceKeepsLastIdle(profile, currentTime); }
      var slice := profile[0];
      slice := slice.(begin := currentTime);
      slice := slice.(length := slice.end - slice.begin);
      profile := profile[0 := slice];
    }

    method AddRepairMachine(machine: MachineSet) returns (added: MachineSet)
      requires WellFormed() && machine <= AllMachines(nbMachines)
      modifies this`profile, this`repairMachines
      ensures added == machine - old(repairMachines) && repairMachines == old(repairMachines) + machine
      ensures profile == TakeOut(old(profile), added)
      ensures WellFormed() <==> forall i :: 0 <= i < |old(profile)| ==> added !! old(profile)[i].busy
    {
      hide SliceOk, Runs, Tiles;
      added := machine - repairMachines;
      ghost var before := profile;
      TakeOutKeepsIff(profile, added, AllMachines(nbMachines), repairMachines);
      assert repairMachines + machine == repairMachines + added;
      repairMachines := repairMachines + machine;
      if added != {} {
        var i := 0;
        while i < |profile|
          invariant 0 <= i <= |profile| == |before| && repairMachines == old(repairMachines) + machine
          invariant forall x :: 0 <= x < |profile| ==>
                      profile[x] == if x < i then TakeOut(before, added)[x] else before[x]
        {
          profile := profile[i := profile[i].(nbAvailable := profile[i].nbAvailable - |added|,
                                              available := profile[i].available - added)];
          i := i + 1;
        }
      } else {
        TakeOutNothing(profile);
      }
    }

    method RemoveRepairMachines(machines: MachineSet) returns (removed: MachineSet)
      requires WellFormed()
      modifies this`profile, this`repairMachines
      ensures removed == old(repairMachines) * machines && repairMachines == old(repairMachines) - machines
      ensures profile == PutBack(old(profile), removed)
      ensures WellFormed()
    {
      hide SliceOk, Runs, Tiles;
      removed := repairMachines * machines;
      ghost var before := profile;
      PutBackKeeps(profile, removed, AllMachines(nbMachines), repairMachines);
      assert repairMachines - machines == repairMachines - removed;
      repairMachines := repairMachines - machines;
      if removed != {} {
        var i := 0;
        while i < |profile|
          invariant 0 <= i <= |profile| == |before| && repairMachines == old(repairMachines) - machines
          invariant forall x :: 0 <= x < |profile| ==>
                      profile[x] == if x < i then PutBack(before, removed)[x] else before[x]
        {
          var both := profile[i].busy * removed;
          profile := profile[i := profile[i].(nbAvailable := profile[i].nbAvailable + (|removed| - |both|),
                                              available := profile[i].available + (removed - both))];
          i := i + 1;
        }
      } else {
        PutBackNothing(profile);
      }
    }
  }

  lemma FirstAfterGap(p: Profile, j: JobId, from: nat, r: nat)
    requires Runs(p) && from < r < |p| && j in p[r].jobs && j !in p[r - 1].jobs
    ensures FirstOccurrence(p, j, from) == r
  {
    var f := FirstOccurrence(p, j, from);
    if f < r - 1 { assert false; }
  }

  lemma EraseAtRun(p: Profile, x: nat, j: JobId, u: MachineSet, all: MachineSet, repair: MachineSet)
    requires Valid(p, all, repair) && RunFrom(p, x, j, u) && x < |p| && j in p[x].jobs
    ensures Valid(p[x := EraseSlice(p[x], j, u)], all, repair)
    ensures Valid(EraseStep(p, x, j, u), all, repair)
    ensures RunFrom(EraseStep(p, x, j, u), NextVisit(p, x, EraseStep(p, x, j, u)), j, u)
  {
    hide SliceOk, Runs;
    EraseFirstValid(p, x, j, all, repair);
    EraseStepValid(p, x, j, u, all, repair);
    EraseStepRun(p, x, j, u);
  }

  lemma RemoveRunStep(p: Profile, x: nat, j: JobId, u: MachineSet)
    requires x < |p| && j in p[x].jobs
    ensures var r := EraseStep(p, x, j, u);
            var q := p[x := EraseSlice(p[x], j, u)];
            if x > 0 && SameJobs(q[x - 1], q[x])
            then |r| == |p| - 1 && RemoveRun(p, x, j, u) == RemoveRun(r, x, j, u)
            else r == q && RemoveRun(p, x, j, u) == RemoveRun(r, x + 1, j, u)
  {
  }

  lemma RemoveRunEnd(p: Profile, x: nat, j: JobId, u: MachineSet)
    requires x <= |p| && (x < |p| ==> j !in p[x].jobs)
    ensures RemoveRun(p, x, j, u) == if x < |p| then MergeIfSame(p, x) else p
  {
  }

  lemma TakeOutNothing(p: Profile)
    ensures TakeOut(p, {}) == p
  {
    assert forall x :: 0 <= x < |p| ==> p[x].available - {} == p[x].available;
  }

  lemma PutBackNothing(p: Profile)
    ensures PutBack(p, {}) == p
  {
    assert forall x :: 0 <= x < |p| ==>
        p[x].available + ({} - p[x].busy * {}) == p[x].available && p[x].busy * {} == {};
  }
}
