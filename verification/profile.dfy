/** The availability profile: contiguous time slices, each saying which machines are free and which jobs hold the
    others. This module holds the data and the pure form of every operation on it. */
module Profiles {
  import opened Machines

  type JobId = string

  /** `submitted` is the first of the job's submission times. */
  datatype Job = Job(id: JobId, res: nat, walltime: real, hasWalltime: bool, duration: real, submitted: real)

  datatype TimeSlice = TimeSlice(begin: real, end: real, length: real,
                                 available: MachineSet, busy: MachineSet, nbAvailable: int,
                                 jobs: map<JobId, MachineSet>)

  type Profile = seq<TimeSlice>

  // ---------------------------------------------------------------- the representation invariant

  /** The jobs of a slice hold disjoint machine sets that together are exactly the allocated machines. */
  ghost predicate Holds(jobs: map<JobId, MachineSet>, busy: MachineSet) {
    && (forall j :: j in jobs ==> jobs[j] <= busy)
    && (forall m :: m in busy ==> exists j :: j in jobs && m in jobs[j])
    && (forall j, k :: j in jobs && k in jobs && j != k ==> jobs[j] !! jobs[k])
  }

  /** The three sets split the platform. */
  ghost predicate Partition(available: MachineSet, busy: MachineSet, repair: MachineSet, all: MachineSet) {
    && available !! busy
    && available !! repair
    && busy !! repair
    && available + busy + repair == all
  }

  ghost predicate SliceOk(s: TimeSlice, all: MachineSet, repair: MachineSet) {
    && s.length == s.end - s.begin
    && Partition(s.available, s.busy, repair, all)
    && s.nbAvailable == |s.available|
    && Holds(s.jobs, s.busy)
  }

  /** Slices follow each other without gap. Only the first may be empty: the present can reach its end. */
  ghost predicate Tiles(p: Profile) {
    && |p| > 0
    && p[0].begin <= p[0].end
    && forall i :: 0 < i < |p| ==> p[i].begin < p[i].end && p[i - 1].end == p[i].begin
  }

  /** Every job occupies one run of consecutive slices, on the same machines in all of them. */
  ghost predicate Runs(p: Profile) {
    forall i, k, m, j :: 0 <= i <= k <= m < |p| && j in p[i].jobs && j in p[m].jobs ==>
      j in p[k].jobs && p[k].jobs[j] == p[i].jobs[j]
  }

  ghost predicate Valid(p: Profile, all: MachineSet, repair: MachineSet) {
    && Tiles(p)
    && (forall i :: 0 <= i < |p| ==> SliceOk(p[i], all, repair))
    && Runs(p)
  }

  /** No two neighbouring slices hold the same jobs. */
  ghost predicate Canonical(p: Profile) {
    forall i :: 0 < i < |p| ==> p[i - 1].jobs.Keys != p[i].jobs.Keys
  }

  ghost predicate Contains(p: Profile, j: JobId) {
    exists i :: 0 <= i < |p| && j in p[i].jobs
  }

  // ---------------------------------------------------------------- the operations

  function Horizon(p: Profile): real
    requires |p| > 0
  {
    p[|p| - 1].end
  }

  /** The constructor's profile: one slice with every machine free. */
  function Fresh(nbMachines: nat, initialTime: real, horizon: real): Profile {
    [TimeSlice(initialTime, horizon, horizon - initialTime, AllMachines(nbMachines), {}, nbMachines, map[])]
  }

  /** Cut slice k in two at the date, when the date lies strictly inside it. */
  function Split(p: Profile, k: nat, date: real): Profile
    requires k < |p|
  {
    if p[k].begin < date < p[k].end then
      p[..k] + [p[k].(end := date, length := date - p[k].begin),
                p[k].(begin := date, length := p[k].end - date)] + p[k + 1..]
    else p
  }

  function AllocSlice(s: TimeSlice, j: JobId, machines: MachineSet, n: nat): TimeSlice {
    s.(available := s.available - machines, busy := s.busy + machines,
       nbAvailable := s.nbAvailable - n, jobs := s.jobs[j := machines])
  }

  /** Give the machines to the job in slices i to k. */
  function Mark(p: Profile, i: nat, k: nat, j: JobId, machines: MachineSet, n: nat): Profile {
    seq(|p|, x requires 0 <= x < |p| => if i <= x <= k then AllocSlice(p[x], j, machines, n) else p[x])
  }

  /** Place a job from the start of slice i up to the date, which lies in slice k or at its end. */
  function Place(p: Profile, i: nat, k: nat, date: real, j: JobId, machines: MachineSet, n: nat): Profile
    requires k < |p|
  {
    Mark(Split(p, k, date), i, k, j, machines, n)
  }

  function EraseSlice(s: TimeSlice, j: JobId, machines: MachineSet): TimeSlice {
    s.(available := s.available + machines, busy := s.busy - machines,
       nbAvailable := s.nbAvailable + |machines|, jobs := s.jobs - {j})
  }

  predicate SameJobs(a: TimeSlice, b: TimeSlice) {
    a.jobs.Keys == b.jobs.Keys
  }

  /** Slice x absorbs its predecessor. */
  function MergeAt(p: Profile, x: nat): Profile
    requires 0 < x < |p|
  {
    p[..x - 1] + [p[x].(begin := p[x - 1].begin, length := p[x].end - p[x - 1].begin)] + p[x + 1..]
  }

  function MergeIfSame(p: Profile, x: nat): Profile
    requires x < |p|
  {
    if x > 0 && SameJobs(p[x - 1], p[x]) then MergeAt(p, x) else p
  }

  /** Erase the job's run that starts at slice x, merging each visited slice into its predecessor when both
      hold the same jobs; the slice after the run is the last one visited. */
  function RemoveRun(p: Profile, x: nat, j: JobId, machines: MachineSet): Profile
    requires x <= |p|
    decreases |p| - x
  {
    if x == |p| then p
    else if j in p[x].jobs then
      var q := p[x := EraseSlice(p[x], j, machines)];
      if x > 0 && SameJobs(q[x - 1], q[x]) then RemoveRun(MergeAt(q, x), x, j, machines)
      else RemoveRun(q, x + 1, j, machines)
    else MergeIfSame(p, x)
  }

  /** Index of the first slice from x on that holds the job, or the number of slices. */
  function FirstOccurrence(p: Profile, j: JobId, x: nat): (r: nat)
    requires x <= |p|
    ensures x <= r <= |p|
    ensures forall i :: x <= i < r ==> j !in p[i].jobs
    ensures r < |p| ==> j in p[r].jobs
    decreases |p| - x
  {
    if x == |p| || j in p[x].jobs then x else FirstOccurrence(p, j, x + 1)
  }

  /** `remove_job` on a job that is in the profile; without effect on any other job. */
  function Remove(p: Profile, j: JobId, repair: MachineSet): Profile {
    var x := FirstOccurrence(p, j, 0);
    if x == |p| then p else RemoveRun(p, x, j, p[x].jobs[j] - repair)
  }

  /** Move the present to the date. */
  function Advance(p: Profile, date: real): Profile
    requires |p| > 0
  {
    p[0 := p[0].(begin := date, length := p[0].end - date)]
  }

  function TakeOut(p: Profile, added: MachineSet): Profile {
    seq(|p|, x requires 0 <= x < |p| =>
      p[x].(available := p[x].available - added, nbAvailable := p[x].nbAvailable - |added|))
  }

  function PutBack(p: Profile, removed: MachineSet): Profile {
    seq(|p|, x requires 0 <= x < |p| =>
      p[x].(available := p[x].available + (removed - p[x].busy * removed),
            nbAvailable := p[x].nbAvailable + (|removed| - |p[x].busy * removed|)))
  }

  // ---------------------------------------------------------------- what a profile says about each instant

  ghost predicate Within(p: Profile, t: real) {
    |p| > 0 && p[0].begin <= t < Horizon(p)
  }

  ghost function IndexFrom(p: Profile, i: nat, t: real): (r: nat)
    requires Tiles(p) && i < |p| && p[i].begin <= t < Horizon(p)
    ensures i <= r < |p| && p[r].begin <= t < p[r].end
    decreases |p| - i
  {
    if t < p[i].end then i else IndexFrom(p, i + 1, t)
  }

  ghost function IndexAt(p: Profile, t: real): (r: nat)
    requires Tiles(p) && Within(p, t)
    ensures r < |p| && p[r].begin <= t < p[r].end
  {
    IndexFrom(p, 0, t)
  }

  /** The jobs that hold machines at instant t, with their machines. */
  ghost function JobsAt(p: Profile, t: real): map<JobId, MachineSet>
    requires Tiles(p) && Within(p, t)
  {
    p[IndexAt(p, t)].jobs
  }

  ghost function FreeAt(p: Profile, t: real): MachineSet
    requires Tiles(p) && Within(p, t)
  {
    p[IndexAt(p, t)].available
  }

  lemma {:induction false} Ordered(p: Profile, i: nat, k: nat)
    requires Tiles(p) && i < k < |p|
    ensures p[i].end <= p[k].begin
    decreases k
  {
    if i < k - 1 {
      Ordered(p, i, k - 1);
    }
  }

  /** At most one slice covers an instant. */
  lemma IndexUnique(p: Profile, k: nat, t: real)
    requires Tiles(p) && k < |p| && p[k].begin <= t < p[k].end
    ensures Within(p, t) && IndexAt(p, t) == k
  {
    if k > 0 { Ordered(p, 0, k); }
    if k < |p| - 1 { Ordered(p, k, |p| - 1); }
    var r := IndexAt(p, t);
    if r < k { Ordered(p, r, k); }
    if k < r { Ordered(p, k, r); }
  }

  /** A machine is free in a slice exactly when it is in service and no job of the slice holds it. */
  lemma FreeIsRest(s: TimeSlice, all: MachineSet, repair: MachineSet, m: nat)
    requires SliceOk(s, all, repair)
    ensures m in s.available <==> m in all && m !in repair && forall j :: j in s.jobs ==> m !in s.jobs[j]
  {
    assert m in s.available + s.busy + repair <==> m in all;
  }

  /** The jobs of two slices determine whether their free machines differ. */
  lemma SameJobsSameFree(a: TimeSlice, b: TimeSlice, all: MachineSet, repair: MachineSet)
    requires SliceOk(a, all, repair) && SliceOk(b, all, repair) && a.jobs == b.jobs
    ensures a.available == b.available && a.busy == b.busy && a.nbAvailable == b.nbAvailable
  {
    hide Holds, Partition;
    HeldIsBusy(a.jobs, a.busy);
    HeldIsBusy(b.jobs, b.busy);
    assert a.busy == b.busy;
    RestIsFree(a.available, a.busy, repair, all);
    RestIsFree(b.available, b.busy, repair, all);
  }

  lemma RestIsFree(available: MachineSet, busy: MachineSet, repair: MachineSet, all: MachineSet)
    requires Partition(available, busy, repair, all)
    ensures available == all - busy - repair
  {
  }

  lemma HeldIsBusy(jobs: map<JobId, MachineSet>, busy: MachineSet)
    requires Holds(jobs, busy)
    ensures forall m :: m in busy <==> exists j :: j in jobs && m in jobs[j]
  {
  }
}
