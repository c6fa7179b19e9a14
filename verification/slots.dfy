/** The place of a job as seen over time, how the operations treat it, and the two operations that move the
    present and take machines out of service. */
module Slots {
  import opened Machines
  import opened Profiles
  import opened Placement
  import opened Removal
  import opened FirstFits

  /** Job j holds exactly the machines u, at exactly the instants from b up to e. */
  ghost predicate Slot(p: Profile, j: JobId, b: real, e: real, u: MachineSet) {
    && Tiles(p)
    && p[0].begin <= b < e <= Horizon(p)
    && forall t :: Within(p, t) ==>
         if b <= t < e then j in JobsAt(p, t) && JobsAt(p, t)[j] == u else j !in JobsAt(p, t)
  }

  lemma SlotAt(p: Profile, j: JobId, b: real, e: real, u: MachineSet, t: real)
    requires Slot(p, j, b, e, u) && Within(p, t)
    ensures Tiles(p)
    ensures if b <= t < e then j in JobsAt(p, t) && JobsAt(p, t)[j] == u else j !in JobsAt(p, t)
  {
  }

  lemma SlotBounds(p: Profile, j: JobId, b: real, e: real, u: MachineSet)
    requires Slot(p, j, b, e, u)
    ensures Tiles(p) && p[0].begin <= b < e <= Horizon(p)
  {
  }

  /** A job has at most one slot. */
  lemma SlotUnique(p: Profile, j: JobId, b: real, e: real, u: MachineSet, b': real, e': real, u': MachineSet)
    requires Slot(p, j, b, e, u) && Slot(p, j, b', e', u')
    ensures b == b' && e == e' && u == u'
  {
    hide JobsAt, Tiles, Slot;
    SlotBounds(p, j, b, e, u);
    SlotBounds(p, j, b', e', u');
    SlotAt(p, j, b, e, u, b); SlotAt(p, j, b', e', u', b);
    SlotAt(p, j, b, e, u, b'); SlotAt(p, j, b', e', u', b');
    if e < e' {
      SlotAt(p, j, b, e, u, e); SlotAt(p, j, b', e', u', e);
    } else if e' < e {
      SlotAt(p, j, b, e, u, e'); SlotAt(p, j, b', e', u', e');
    }
  }

  /** Two profiles over the same period that agree on a job at every instant give it the same slot. */
  lemma SlotCarries(p: Profile, q: Profile, j: JobId, b: real, e: real, u: MachineSet)
    requires Slot(p, j, b, e, u) && Tiles(q) && q[0].begin <= b && Horizon(p) == Horizon(q) && p[0].begin <= q[0].begin
    requires forall t :: Within(q, t) ==> Within(p, t) && (j in JobsAt(p, t) <==> j in JobsAt(q, t))
                                          && (j in JobsAt(p, t) ==> JobsAt(q, t)[j] == JobsAt(p, t)[j])
    ensures Slot(q, j, b, e, u)
  {
    hide JobsAt;
  }

  /** The first fit of a job is its slot. */
  lemma AddedSlot(p: Profile, from: nat, job: Job, sel: Selector, all: MachineSet, repair: MachineSet)
    requires Valid(p, all, repair) && from < |p| && job.walltime > 0.0 && !Contains(p, job.id)
    requires FirstFit(p, from, job.res, job.walltime, sel).Some?
    ensures var Spot(i, k, u) := FirstFit(p, from, job.res, job.walltime, sel).value;
            Slot(Add(p, from, job, sel).profile, job.id, p[i].begin, p[i].begin + job.walltime, u)
  {
    hide SliceOk, Runs, FirstFit, Placeable, Place, JobsAt, Contains;
    var Spot(i, k, u) := FirstFit(p, from, job.res, job.walltime, sel).value;
    var b := p[i].begin;
    var e := b + job.walltime;
    var q := Add(p, from, job, sel).profile;
    SpotIsPlaceable(p, from, job, sel);
    SpotEnd(p, i, k, e, job.id, u);
    PlaceValid(p, i, k, e, job.id, u, all, repair);
    PlaceSpan(p, i, k, e, job.id, u, |u|);
    if i > 0 { Ordered(p, 0, i); }
    if k < |p| - 1 { Ordered(p, k, |p| - 1); }
    forall t | Within(q, t)
      ensures if b <= t < e then job.id in JobsAt(q, t) && JobsAt(q, t)[job.id] == u else job.id !in JobsAt(q, t)
    {
      NotAt(p, job.id, t);
      PlaceJobsAt(p, i, k, e, job.id, u, all, repair, t);
    }
  }

  lemma SpotEnd(p: Profile, i: nat, k: nat, date: real, j: JobId, u: MachineSet)
    requires Placeable(p, i, k, date, j, u)
    ensures i <= k < |p| && p[k].begin < date <= p[k].end && !Contains(p, j)
  {
  }

  /** Inserting a job leaves every other job's slot alone. */
  lemma AddKeepsSlot(p: Profile, from: nat, job: Job, sel: Selector, all: MachineSet, repair: MachineSet,
                     j: JobId, b: real, e: real, u: MachineSet)
    requires Valid(p, all, repair) && from < |p| && job.walltime > 0.0 && !Contains(p, job.id)
    requires Slot(p, j, b, e, u) && j != job.id
    ensures Slot(Add(p, from, job, sel).profile, j, b, e, u)
  {
    hide SliceOk, Runs, FirstFit, Placeable, Place, JobsAt, Slot, Contains;
    var q := Add(p, from, job, sel).profile;
    if FirstFit(p, from, job.res, job.walltime, sel).Some? {
      var Spot(i, k, m) := FirstFit(p, from, job.res, job.walltime, sel).value;
      var d := p[i].begin + job.walltime;
      SpotIsPlaceable(p, from, job, sel);
      SlotBounds(p, j, b, e, u);
      PlaceSpan(p, i, k, d, job.id, m, |m|);
      PlaceValid(p, i, k, d, job.id, m, all, repair);
      forall t | Within(q, t)
        ensures Within(p, t) && (j in JobsAt(p, t) <==> j in JobsAt(q, t))
        ensures j in JobsAt(p, t) ==> JobsAt(q, t)[j] == JobsAt(p, t)[j]
      {
        PlaceJobsAt(p, i, k, d, job.id, m, all, repair, t);
      }
      SlotCarries(p, q, j, b, e, u);
    }
  }

  /** Removing a job leaves every other job's slot alone. */
  lemma RemoveKeepsSlot(p: Profile, k: JobId, all: MachineSet, repair: MachineSet, j: JobId, b: real, e: real,
                        u: MachineSet)
    requires Valid(p, all, repair) && Slot(p, j, b, e, u) && j != k
    ensures Slot(Remove(p, k, repair), j, b, e, u)
  {
    hide SliceOk, Runs, Remove, JobsAt, Slot, Contains;
    var q := Remove(p, k, repair);
    RemoveKeeps(p, k, all, repair);
    SlotBounds(p, j, b, e, u);
    forall t | Within(q, t)
      ensures Within(p, t) && (j in JobsAt(p, t) <==> j in JobsAt(q, t))
      ensures j in JobsAt(p, t) ==> JobsAt(q, t)[j] == JobsAt(p, t)[j]
    {
      RemoveJobsAt(p, k, all, repair, t);
    }
    SlotCarries(p, q, j, b, e, u);
  }

  lemma HeldIsFreeWithout(s: TimeSlice, r: TimeSlice, j: JobId, all: MachineSet, repair: MachineSet)
    requires SliceOk(s, all, repair) && SliceOk(r, all, repair) && r.jobs == s.jobs - {j} && j in s.jobs
    ensures s.jobs[j] <= r.available
  {
    JobMachinesInService(s, j, all, repair);
    forall m | m in s.jobs[j] ensures m in r.available {
      FreeIsRest(r, all, repair, m);
    }
  }

  /** Once a job is removed, the machines of its slot are free throughout the slot. */
  lemma RemoveFreesSlot(p: Profile, j: JobId, all: MachineSet, repair: MachineSet, b: real, e: real, u: MachineSet)
    requires Valid(p, all, repair) && Slot(p, j, b, e, u)
    ensures FreeThroughout(Remove(p, j, repair), u, b, e)
  {
    hide SliceOk, Runs, Remove, Slot, Contains, IndexAt;
    var q := Remove(p, j, repair);
    RemoveKeeps(p, j, all, repair);
    SlotBounds(p, j, b, e, u);
    forall t | b <= t < e ensures u <= FreeAt(q, t) {
      SlotAt(p, j, b, e, u, t);
      RemoveJobsAt(p, j, all, repair, t);
      HeldIsFreeWithout(p[IndexAt(p, t)], q[IndexAt(q, t)], j, all, repair);
    }
  }

  // ---------------------------------------------------------------- moving the present

  /** The date the present may move to: within the first slice, its end included. */
  predicate CanAdvance(p: Profile, date: real) {
    |p| > 0 && p[0].begin <= date <= p[0].end
  }

  lemma AdvanceTiles(p: Profile, date: real)
    requires Tiles(p) && CanAdvance(p, date)
    ensures Tiles(Advance(p, date)) && |Advance(p, date)| == |p|
    ensures Advance(p, date)[0].begin == date && Horizon(Advance(p, date)) == Horizon(p)
    ensures forall i :: 0 <= i < |p| ==>
              Advance(p, date)[i].jobs == p[i].jobs && (i > 0 ==> Advance(p, date)[i] == p[i])
  {
    var q := Advance(p, date);
    assert forall i :: 0 < i < |q| ==> p[i].begin < p[i].end && q[i - 1].end == q[i].begin;
  }

  lemma AdvanceKeeps(p: Profile, date: real, all: MachineSet, repair: MachineSet)
    requires Valid(p, all, repair) && CanAdvance(p, date)
    ensures Valid(Advance(p, date), all, repair) && Advance(p, date)[0].begin == date
    ensures Horizon(Advance(p, date)) == Horizon(p)
    ensures Canonical(p) ==> Canonical(Advance(p, date))
  {
    hide SliceOk, Runs, Tiles, Horizon;
    var q := Advance(p, date);
    AdvanceTiles(p, date);
    assert SliceOk(p[0], all, repair);
    Retimed(p[0], date, p[0].end, all, repair);
    RunsMapped(p, q, i => i);
  }

  /** How far outside the first slice `update_first_slice` lets the present lie. */
  const EPSILON: real := 0.0001

  predicate Tolerated(p: Profile, date: real) {
    |p| > 0 && p[0].begin - EPSILON <= date <= p[0].end + EPSILON
  }

  /** The tolerance lets the invariant go exactly when the present passes the end of the first slice. */
  lemma AdvanceKeepsIff(p: Profile, date: real, all: MachineSet, repair: MachineSet)
    requires Valid(p, all, repair) && Tolerated(p, date)
    ensures Valid(Advance(p, date), all, repair) <==> date <= p[0].end
    ensures |Advance(p, date)| == |p| && Advance(p, date)[0].begin == date && Horizon(Advance(p, date)) == Horizon(p)
    ensures Canonical(p) ==> Canonical(Advance(p, date))
  {
    hide SliceOk, Runs, Tiles;
    var q := Advance(p, date);
    assert SliceOk(p[0], all, repair);
    Retimed(p[0], date, p[0].end, all, repair);
    AdvanceTilesIff(p, date);
    RunsMapped(p, q, i => i);
  }

  lemma AdvanceTilesIff(p: Profile, date: real)
    requires Tiles(p)
    ensures Tiles(Advance(p, date)) <==> date <= p[0].end
    ensures |Advance(p, date)| == |p| && Advance(p, date)[0].begin == date && Horizon(Advance(p, date)) == Horizon(p)
    ensures forall i :: 0 <= i < |p| ==> Advance(p, date)[i].jobs == p[i].jobs
  {
    var q := Advance(p, date);
    assert forall i :: 0 < i < |q| ==> p[i].begin < p[i].end && q[i - 1].end == q[i].begin;
  }

  /** Moving the present changes nothing at any later instant. */
  lemma AdvanceJobsAt(p: Profile, date: real, t: real)
    requires Tiles(p) && CanAdvance(p, date) && Tiles(Advance(p, date)) && Within(Advance(p, date), t)
    ensures Within(p, t) && JobsAt(Advance(p, date), t) == JobsAt(p, t)
  {
    IndexUnique(p, IndexAt(Advance(p, date), t), t);
  }

  lemma AdvanceKeepsSlot(p: Profile, date: real, all: MachineSet, repair: MachineSet, j: JobId, b: real, e: real,
                         u: MachineSet)
    requires Valid(p, all, repair) && CanAdvance(p, date) && Slot(p, j, b, e, u) && date <= b
    ensures Slot(Advance(p, date), j, b, e, u)
  {
    hide SliceOk, Runs, JobsAt, Slot, Advance;
    var q := Advance(p, date);
    AdvanceKeeps(p, date, all, repair);
    SlotBounds(p, j, b, e, u);
    forall t | Within(q, t)
      ensures Within(p, t) && (j in JobsAt(p, t) <==> j in JobsAt(q, t))
      ensures j in JobsAt(p, t) ==> JobsAt(q, t)[j] == JobsAt(p, t)[j]
    {
      AdvanceJobsAt(p, date, t);
    }
    SlotCarries(p, q, j, b, e, u);
  }

  /** A job that is not in the first slice does not start before that slice ends. */
  lemma SlotAfterFirst(p: Profile, j: JobId, b: real, e: real, u: MachineSet)
    requires Slot(p, j, b, e, u) && j !in p[0].jobs
    ensures p[0].end <= b
  {
    if b < p[0].end {
      IndexUnique(p, 0, b);
    }
  }

  // ---------------------------------------------------------------- machines out of service

  /** Taking machines out of service keeps the invariant exactly when no job holds any of them:
      the counter of a slice where one is held drops without a machine leaving. */
  lemma TakeOutKeepsIff(p: Profile, added: MachineSet, all: MachineSet, repair: MachineSet)
    requires Valid(p, all, repair) && added <= all && added !! repair
    ensures Valid(TakeOut(p, added), all, repair + added) <==> forall i :: 0 <= i < |p| ==> added !! p[i].busy
  {
    hide SliceOk, Runs;
    var q := TakeOut(p, added);
    assert forall i :: 0 < i < |q| ==> p[i].begin < p[i].end && q[i - 1].end == q[i].begin;
    RunsMapped(p, q, i => i);
    forall i | 0 <= i < |p| ensures SliceOk(q[i], all, repair + added) <==> added !! p[i].busy {
      assert SliceOk(p[i], all, repair);
      TakeOutSlice(p[i], added, all, repair);
    }
    assert Tiles(q) && Runs(q);
  }

  /** A single machine that runs a job from 0 until the end. */
  function RunsUntil(end: real, horizon: real): Profile {
    Add(Fresh(1, 0.0, horizon), 0, Job("w!0", 1, end, true, end, 0.0), Basic).profile
  }

  lemma RunsUntilIs(end: real, horizon: real)
    requires 0.0 < end < horizon
    ensures var p, alloc := RunsUntil(end, horizon),
        Add(Fresh(1, 0.0, horizon), 0, Job("w!0", 1, end, true, end, 0.0), Basic).alloc;
            && Valid(p, AllMachines(1), {}) && |p| == 2
            && p[0].begin == 0.0 && p[0].end == end == p[1].begin && p[1].end == horizon
            && p[0].available == {} && p[0].busy == AllMachines(1) && p[0].nbAvailable == 0
            && p[0].jobs == map["w!0" := AllMachines(1)]
            && p[1].available == AllMachines(1) && p[1].jobs == map[]
            && alloc.hasBeenInserted && alloc.startedInFirstSlice && alloc.machines == AllMachines(1)
  {
    hide Valid, AllMachines, Left;
    var p, job := Fresh(1, 0.0, horizon), Job("w!0", 1, end, true, end, 0.0);
    assert Valid(p, AllMachines(1), {}) by { OneIdle(horizon); }
    AddKeeps(p, 0, job, Basic, AllMachines(1), {});
    assert SpanEnd(p, 0, 0, end) == 0 && Common(p, 0, 0) == AllMachines(1);
    assert Anchor(p, 0, 1, end, Basic);
    assert FirstAnchor(p, 0, 1, end, Basic) == 0;
    SubsetSize(Left(AllMachines(1), 1), AllMachines(1));
  }

  lemma OneIdle(horizon: real)
    requires 0.0 < horizon
    ensures Valid(Fresh(1, 0.0, horizon), AllMachines(1), {})
  {
    assert SliceOk(Fresh(1, 0.0, horizon)[0], AllMachines(1), {});
  }

  /** Taking the only machine out of service while it runs a job leaves a counter of -1. */
  lemma BusyTakeOutMiscounts()
    ensures var p, all := RunsUntil(5.0, 10.0), AllMachines(1);
            && Valid(p, all, {}) && !Valid(TakeOut(p, all), all, all)
            && TakeOut(p, all)[0].available == {} && TakeOut(p, all)[0].nbAvailable == -1
  {
    hide Valid, RunsUntil;
    var p, all := RunsUntil(5.0, 10.0), AllMachines(1);
    RunsUntilIs(5.0, 10.0);
    TakeOutKeepsIff(p, all, all, {});
    assert 0 in all && {} + all == all && {} - all == {};
  }

  /** A present within the tolerance, but past the end of the running job, leaves a slice that ends before it begins;
      the tolerance is a ten-thousandth of a second on either side. */
  lemma TolerancePassesTheEnd()
    ensures forall d :: Tolerated(RunsUntil(5.0, 10.0), d) <==> -0.0001 <= d <= 5.0001
    ensures var p, date := RunsUntil(5.0, 10.0), 5.00005;
            && Valid(p, AllMachines(1), {}) && Tolerated(p, date) && !Valid(Advance(p, date), AllMachines(1), {})
            && Advance(p, date)[0].begin == date && Advance(p, date)[0].end == 5.0
  {
    hide Valid, RunsUntil;
    RunsUntilIs(5.0, 10.0);
    AdvanceKeepsIff(RunsUntil(5.0, 10.0), 5.00005, AllMachines(1), {});
  }

  lemma TakeOutPartition(a: MachineSet, b: MachineSet, repair: MachineSet, all: MachineSet, added: MachineSet)
    requires Partition(a, b, repair, all) && added <= all && added !! repair && added !! b
    ensures added <= a && Partition(a - added, b, repair + added, all) && |a - added| == |a| - |added|
  {
    assert (a - added) + added == a;
  }

  lemma TakeOutSlice(s: TimeSlice, added: MachineSet, all: MachineSet, repair: MachineSet)
    requires SliceOk(s, all, repair) && added <= all && added !! repair
    ensures SliceOk(s.(available := s.available - added, nbAvailable := s.nbAvailable - |added|), all, repair + added)
            <==> added !! s.busy
  {
    hide Holds;
    if added !! s.busy {
      TakeOutPartition(s.available, s.busy, repair, all, added);
    }
  }

  /** Putting machines back keeps the invariant, and after a take-out of idle machines restores the profile. */
  lemma PutBackKeeps(p: Profile, removed: MachineSet, all: MachineSet, repair: MachineSet)
    requires Valid(p, all, repair) && removed <= repair
    ensures Valid(PutBack(p, removed), all, repair - removed)
  {
    hide SliceOk, Runs;
    var q := PutBack(p, removed);
    assert forall i :: 0 < i < |q| ==> p[i].begin < p[i].end && q[i - 1].end == q[i].begin;
    RunsMapped(p, q, i => i);
    forall i | 0 <= i < |p| ensures SliceOk(q[i], all, repair - removed) {
      assert SliceOk(p[i], all, repair);
      PutBackSlice(p[i], removed, all, repair);
    }
  }

  lemma PutBackPartition(a: MachineSet, b: MachineSet, repair: MachineSet, all: MachineSet, removed: MachineSet)
    requires Partition(a, b, repair, all) && removed <= repair
    ensures b * removed == {} && removed - {} == removed
    ensures Partition(a + removed, b, repair - removed, all) && |a + removed| == |a| + |removed|
  {
    assert (repair - removed) + removed == repair;
  }

  lemma PutBackSlice(s: TimeSlice, removed: MachineSet, all: MachineSet, repair: MachineSet)
    requires SliceOk(s, all, repair) && removed <= repair
    ensures SliceOk(s.(available := s.available + (removed - s.busy * removed),
                       nbAvailable := s.nbAvailable + (|removed| - |s.busy * removed|)), all, repair - removed)
  {
    hide Holds, Partition;
    PutBackPartition(s.available, s.busy, repair, all, removed);
  }

  lemma PutBackUndoesTakeOutSlice(s: TimeSlice, added: MachineSet, all: MachineSet, repair: MachineSet)
    requires SliceOk(s, all, repair) && added <= s.available
    ensures s.busy * added == {} && (s.available - added) + (added - s.busy * added) == s.available
  {
    hide Holds;
    assert s.busy * added == {};
    assert (s.available - added) + added == s.available;
    assert added - {} == added;
  }

  lemma PutBackUndoesTakeOut(p: Profile, added: MachineSet, all: MachineSet, repair: MachineSet)
    requires Valid(p, all, repair) && forall i :: 0 <= i < |p| ==> added <= p[i].available
    ensures PutBack(TakeOut(p, added), added) == p
  {
    hide SliceOk, Runs, Tiles;
    var q := PutBack(TakeOut(p, added), added);
    forall i | 0 <= i < |p| ensures q[i] == p[i] {
      assert SliceOk(p[i], all, repair);
      PutBackUndoesTakeOutSlice(p[i], added, all, repair);
    }
  }

  lemma {:induction false} RemoveRunKeepsOut(p: Profile, x: nat, j: JobId, u: MachineSet, out: MachineSet)
    requires x <= |p| && u !! out && forall i :: 0 <= i < |p| ==> p[i].available !! out
    ensures forall s :: s in RemoveRun(p, x, j, u) ==> s.available !! out
    decreases |p| - x
  {
    if x < |p| {
      if j in p[x].jobs {
        var q := p[x := EraseSlice(p[x], j, u)];
        assert forall i :: 0 <= i < |q| ==> q[i].available !! out;
        if x > 0 && SameJobs(q[x - 1], q[x]) {
          MergeKeepsOut(q, x, out);
          RemoveRunKeepsOut(MergeAt(q, x), x, j, u, out);
        } else {
          RemoveRunKeepsOut(q, x + 1, j, u, out);
        }
      } else if x > 0 && SameJobs(p[x - 1], p[x]) {
        MergeKeepsOut(p, x, out);
      }
    }
  }

  lemma MergeKeepsOut(p: Profile, x: nat, out: MachineSet)
    requires 0 < x < |p| && forall i :: 0 <= i < |p| ==> p[i].available !! out
    ensures forall i :: 0 <= i < |MergeAt(p, x)| ==> MergeAt(p, x)[i].available !! out
  {
    var q := MergeAt(p, x);
    assert forall i :: 0 <= i < |q| ==> q[i].available == p[if i < x - 1 then i else i + 1].available;
  }

  /** Machines out of service do not come back with the job that held them: whatever profile they left, removing a job
      makes none of them available. */
  lemma RemoveKeepsOut(p: Profile, j: JobId, repair: MachineSet)
    requires forall i :: 0 <= i < |p| ==> p[i].available !! repair
    ensures forall s :: s in Remove(p, j, repair) ==> s.available !! repair
  {
    hide RemoveRun;
    var x := FirstOccurrence(p, j, 0);
    if x < |p| { RemoveRunKeepsOut(p, x, j, p[x].jobs[j] - repair, repair); }
  }

  /** A machine that runs a job to the very end of the profile, breaks, loses the job and is repaired: no job holds
      it, but it is never available again. */
  lemma BusyRepairIsLost()
    ensures var p, all := Add(Fresh(1, 0.0, 10.0), 0, Job("w!0", 1, 10.0, true, 10.0, 0.0), Basic).profile,
        AllMachines(1);
            var r := PutBack(Remove(TakeOut(p, all), "w!0", all), all);
            Valid(p, all, {}) && |r| == 1 && r[0].jobs == map[] && r[0].available == {} && r[0].busy == all
  {
    hide Valid, AllMachines, Left;
    var p, all := Fresh(1, 0.0, 10.0), AllMachines(1);
    var job := Job("w!0", 1, 10.0, true, 10.0, 0.0);
    OneIdle(10.0);
    AddKeeps(p, 0, job, Basic, all, {});
    assert SpanEnd(p, 0, 0, 10.0) == 0 && Common(p, 0, 0) == all;
    assert Anchor(p, 0, 1, 10.0, Basic) && FirstAnchor(p, 0, 1, 10.0, Basic) == 0;
    SubsetSize(Left(all, 1), all);
    var a := Add(p, 0, job, Basic).profile;
    assert |a| == 1 && a[0].jobs == map["w!0" := all] && a[0].available == {} && a[0].busy == all;
    var b := TakeOut(a, all);
    assert b[0].jobs["w!0"] - all == {} && b[0].available == {} && b[0].busy == all;
    assert FirstOccurrence(b, "w!0", 0) == 0;
    var c := b[0 := EraseSlice(b[0], "w!0", {})];
    assert c[0].jobs == map[] && c[0].available == {} && c[0].busy == all;
    assert RemoveRun(b, 0, "w!0", {}) == RemoveRun(c, 1, "w!0", {}) == c;
    assert Remove(b, "w!0", all) == c;
    assert all - c[0].busy * all == {};
  }
}
