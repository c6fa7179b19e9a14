/** Which dates a call of the EASY scheduler may have, and that the head of the queue starts at the date reserved for
    it. */
module EasyBf2Starts {
  import opened Machines
  import opened Profiles
  import opened Removal
  import opened FirstFits
  import opened Slots
  import opened Vacancies
  import opened Membership
  import opened JobRuns
  import opened Ends
  import opened Queues
  import opened EasyBf2Model
  import opened EasyBf2Proofs
  import opened EasyBf2Accounts
  import opened EasyBf2Guarantee

  // ---------------------------------------------------------------- the end of the first slice

  /** Every running job but those that are gone has its machines until the date. */
  ghost predicate RunUntil(p: Profile, gone: seq<JobId>, date: real) {
    forall j, g :: j in Present(p) && j !in gone && Occupies(p, j, g) ==> date <= g.end
  }

  /** Every running job but those that are gone has its machines beyond the date. */
  ghost predicate RunBeyond(p: Profile, gone: seq<JobId>, date: real) {
    forall j, g :: j in Present(p) && j !in gone && Occupies(p, j, g) ==> date < g.end
  }

  /** The date lies in the present or later, no running job but those that are gone ends before it, and the head of the
      queue does not start before it. */
  ghost predicate OnTime(cfg: Config, st: State, gone: seq<JobId>, date: real) {
    && |st.profile| > 0 && st.profile[0].begin <= date <= Horizon(st.profile)
    && RunUntil(st.profile, gone, date)
    && forall b :: Reserved(cfg, st, b) ==> date <= b
  }

  lemma FirstSliceEndsBy(p: Profile, date: real)
    requires Tiles(p) && date <= p[0].end
    ensures RunUntil(p, [], date) && date <= Horizon(p)
  {
    hide Occupies;
    if |p| > 1 { Ordered(p, 0, |p| - 1); }
    forall j, g | j in Present(p) && Occupies(p, j, g) ensures date <= g.end {
      RunningEnds(p, j, g);
    }
  }

  lemma WaitingBegins(cfg: Config, st: State, j: JobId, b: real)
    requires Reserved(cfg, st, b) && |st.profile| > 1 && j in st.profile[1].jobs && j !in st.profile[0].jobs
    ensures j == st.queue[0].job.id && b <= st.profile[1].begin == st.profile[0].end
  {
    hide Valid, Canonical, QueueOk, JobsAt;
    var p := st.profile;
    GoodParts(cfg, p);
    assert j in JobSet(p);
    IndexUnique(p, 1, p[1].begin);
    assert j in JobsAt(p, p[1].begin) by { AtSlice(p, 1, p[1].begin); }
    var u :| Slot(p, j, b, b + st.queue[0].job.walltime, u);
    SlotAt(p, j, b, b + st.queue[0].job.walltime, u, p[1].begin);
  }

  lemma AtSlice(p: Profile, x: nat, t: real)
    requires Tiles(p) && x < |p| && Within(p, t) && IndexAt(p, t) == x
    ensures JobsAt(p, t) == p[x].jobs
  {
  }

  /** The present may move to a date, leaving the tolerance aside, exactly when no running job ends and the head does
      not start before it. */
  lemma CanAdvanceIff(cfg: Config, st: State, date: real, b: real)
    requires if st.queue == [] then Unreserved(cfg, st) else Reserved(cfg, st, b)
    ensures CanAdvance(st.profile, date) <==> OnTime(cfg, st, [], date)
  {
    hide Valid, QueueOk, Reservation, Occupies, RunUntil, Tiles;
    var p := st.profile;
    GoodParts(cfg, p);
    if CanAdvance(p, date) {
      FirstSliceEndsBy(p, date);
      forall c | Reserved(cfg, st, c) ensures date <= c {
        HeadNotPresent(cfg, st);
        ReservationBounds(cfg, p, st.queue[0].job, c);
      }
    } else if OnTime(cfg, st, [], date) && |p| > 1 {
      var j := SomethingChanges(p);
      if j in p[0].jobs {
        RunEndsInFirst(p, j, date);
      } else {
        assert j in JobSet(p) && j !in Present(p);
        WaitingBegins(cfg, st, j, b);
      }
    }
  }

  lemma RunEndsInFirst(p: Profile, j: JobId, date: real)
    requires Tiles(p) && Runs(p) && |p| > 1 && j in p[0].jobs && j !in p[1].jobs && RunUntil(p, [], date)
    ensures date <= p[0].end
  {
    hide Runs, Tiles, Occupies;
    var g := ContainedOccupies(p, j);
    RunningEnds(p, j, g);
  }

  // ---------------------------------------------------------------- jobs that ended

  /** The jobs that ended leave the profile, and nothing else of it changes for the running jobs. */
  lemma {:induction false} EndJobsPresent(cfg: Config, st: State, ended: seq<JobId>)
    requires Base(cfg, st) && (forall j :: j in ended ==> j !in QueueIds(st.queue)) && EndJobs(st, ended).Some?
    ensures var p := EndJobs(st, ended).value.profile;
            && |p| > 0 && SameSpan(st.profile, p)
            && forall j :: j in Present(p) <==> j in Present(st.profile) && j !in ended
    decreases |ended|
  {
    hide Good, QueueOk, Remove, Contains, JobSet, Present;
    BaseGood(cfg, st);
    GoodParts(cfg, st.profile);
    if ended != [] {
      GoodRemove(cfg, st.profile, ended[0]);
      EndOne(cfg, st, ended[0], 0.0);
      EndJobsPresent(cfg, st.(profile := Remove(st.profile, ended[0], {})), ended[1..]);
    }
  }

  lemma {:induction false} EndJobsOccupies(cfg: Config, st: State, ended: seq<JobId>, o: JobId, g: Grant)
    requires Base(cfg, st) && (forall j :: j in ended ==> j !in QueueIds(st.queue)) && EndJobs(st, ended).Some?
    requires o !in ended && Occupies(st.profile, o, g)
    ensures Occupies(EndJobs(st, ended).value.profile, o, g)
    decreases |ended|
  {
    hide Good, QueueOk, Remove, Contains, JobSet, Present, Occupies;
    if ended != [] {
      BaseGood(cfg, st);
      GoodParts(cfg, st.profile);
      RemoveKeepsOccupies(st.profile, ended[0], AllMachines(cfg.nbMachines), {}, o, g);
      EndOne(cfg, st, ended[0], 0.0);
      EndJobsOccupies(cfg, st.(profile := Remove(st.profile, ended[0], {})), ended[1..], o, g);
    }
  }

  /** A job that is still there after the jobs that ended left has what it had before. */
  lemma OccupiedBefore(cfg: Config, st: State, ended: seq<JobId>, o: JobId, g: Grant)
    requires Base(cfg, st) && (forall j :: j in ended ==> j !in QueueIds(st.queue)) && EndJobs(st, ended).Some?
    requires o in Present(EndJobs(st, ended).value.profile) && Occupies(EndJobs(st, ended).value.profile, o, g)
    ensures Occupies(st.profile, o, g)
  {
    hide Base, EndJobs, Valid, Occupies;
    EndJobsPresent(cfg, st, ended);
    BaseGood(cfg, st);
    GoodParts(cfg, st.profile);
    assert Contains(st.profile, o);
    var h := HeldBefore(cfg, st, o);
    EndJobsOccupies(cfg, st, ended, o, h);
    OccupiesUnique(EndJobs(st, ended).value.profile, o, g, h);
  }

  lemma HeldBefore(cfg: Config, st: State, o: JobId) returns (h: Grant)
    requires Base(cfg, st) && Contains(st.profile, o)
    ensures Occupies(st.profile, o, h)
  {
    hide Tiles, SliceOk, Occupies, Contains;
    BaseGood(cfg, st);
    h := ContainedOccupies(st.profile, o);
  }

  /** The jobs that stay run until the date exactly when they did before the others left. */
  lemma RunUntilAfter(cfg: Config, st: State, ended: seq<JobId>, date: real)
    requires Base(cfg, st) && (forall j :: j in ended ==> j !in QueueIds(st.queue)) && EndJobs(st, ended).Some?
    ensures RunUntil(EndJobs(st, ended).value.profile, [], date) <==> RunUntil(st.profile, ended, date)
    ensures RunBeyond(EndJobs(st, ended).value.profile, [], date) <==> RunBeyond(st.profile, ended, date)
  {
    hide Base, EndJobs, Occupies, Present;
    EndJobsPresent(cfg, st, ended);
    var p := EndJobs(st, ended).value.profile;
    forall j, g | j in Present(p) ensures Occupies(p, j, g) <==> Occupies(st.profile, j, g) {
      if Occupies(p, j, g) { OccupiedBefore(cfg, st, ended, j, g); }
      if Occupies(st.profile, j, g) { EndJobsOccupies(cfg, st, ended, j, g); }
    }
  }

  /** A call may have a date exactly when every running job that it does not end runs until then, and the head does not
      start before. */
  lemma DateIsFine(cfg: Config, st: State, call: Call, b: real)
    requires if st.queue == [] then Unreserved(cfg, st) else Reserved(cfg, st, b)
    requires CallOk(st, call) && EndJobs(st, call.ended).Some?
    ensures CanAdvance(EndJobs(st, call.ended).value.profile, call.date) <==> OnTime(cfg, st, call.ended, call.date)
  {
    hide Base, EndJobs, FreshJobs, Reservation, RunUntil, JobSet, Present;
    var r := EndJobs(st, call.ended).value;
    EndJobsKeep(cfg, st, call.ended, b);
    EndJobsPresent(cfg, st, call.ended);
    RunUntilAfter(cfg, st, call.ended, call.date);
    CanAdvanceIff(cfg, r, call.date, b);
    forall c ensures Reserved(cfg, r, c) <==> Reserved(cfg, st, c) {
      if Reserved(cfg, st, c) { EndJobsKeep(cfg, st, call.ended, c); }
      if Reserved(cfg, r, c) { ReservationUnique(cfg, r.profile, r.queue[0].job, b, c); }
    }
  }

  // ---------------------------------------------------------------- the head starts

  /** The head is the only job that begins with the second slice, at date b, and no job ends before that. */
  ghost predicate HeadIsNext(cfg: Config, st: State, b: real) {
    && Reserved(cfg, st, b)
    && |st.profile| > 1 && st.profile[0].end == b
    && st.profile[1].jobs.Keys == st.profile[0].jobs.Keys + {st.queue[0].job.id}
  }

  lemma HeadComesNext(cfg: Config, st: State, b: real)
    requires Reserved(cfg, st, b) && RunBeyond(st.profile, [], b) && CanAdvance(st.profile, b)
    ensures HeadIsNext(cfg, st, b)
  {
    hide Valid, QueueOk, Reservation, Occupies, Tiles;
    var p, h := st.profile, st.queue[0].job.id;
    GoodParts(cfg, p);
    HeadNotPresent(cfg, st);
    ReservationBounds(cfg, p, st.queue[0].job, b);
    assert h in JobSet(p);
    forall j | j in p[0].jobs ensures |p| > 1 && j in p[1].jobs { GoesIntoNext(p, j, b); }
    var x :| 0 <= x < |p| && h in p[x].jobs;
    var j := SomethingChanges(p);
    forall k | k in p[1].jobs && k !in p[0].jobs ensures k == h {
      assert k in JobSet(p);
    }
  }

  lemma GoesIntoNext(p: Profile, j: JobId, b: real)
    requires Tiles(p) && Runs(p) && j in p[0].jobs && RunBeyond(p, [], b) && p[0].end == b
    ensures |p| > 1 && j in p[1].jobs
  {
    hide Runs, Occupies;
    InFirstSlice(p, j);
    var g := ContainedOccupies(p, j);
    RunningEnds(p, j, g);
  }

  lemma InFirstSlice(p: Profile, j: JobId)
    requires |p| > 0 && j in p[0].jobs
    ensures Contains(p, j) && j in Present(p)
  {
  }

  /** With the present at the reserved date, removing the head's reservation makes one slice of the empty present and
      the slice after it. */
  lemma HeadMerges(cfg: Config, st: State, b: real)
    requires HeadIsNext(cfg, st, b) && st.profile[0].begin == b
    ensures var q := Remove(st.profile, st.queue[0].job.id, {}); |q| > 0 && q[0].begin == b < q[0].end
  {
    hide SliceOk, Runs, QueueOk, Reservation, JobSet, RemoveRun;
    var p, h := st.profile, st.queue[0].job.id;
    HeadNotPresent(cfg, st);
    var u := p[1].jobs[h];
    var q := p[1 := EraseSlice(p[1], h, u)];
    assert q[1].jobs.Keys == q[0].jobs.Keys;
    SecondErased(p, h);
    var r := MergeAt(q, 1);
    forall i, k | 0 <= i < k < |p| ensures p[i].end < p[k].end { Ordered(p, i, k); }
    assert forall i :: 0 <= i < |r| ==> r[i].end == p[i + 1].end;
    RemoveRunFirst(r, 1, h, u);
  }

  lemma SecondErased(p: Profile, h: JobId)
    requires |p| > 1 && h !in p[0].jobs && h in p[1].jobs && p[0].jobs.Keys == p[1].jobs.Keys - {h}
    ensures var u := p[1].jobs[h];
            Remove(p, h, {}) == RemoveRun(MergeAt(p[1 := EraseSlice(p[1], h, u)], 1), 1, h, u)
  {
    var u := p[1].jobs[h];
    assert u - {} == u;
    assert FirstOccurrence(p, h, 1) == 1 && FirstOccurrence(p, h, 0) == 1;
    var q := p[1 := EraseSlice(p[1], h, u)];
    assert SameJobs(q[0], q[1]);
  }

  /** With the present at the reserved date some machine is free, which the head will get or start beside. */
  lemma HeadFindsMachines(cfg: Config, st: State, b: real)
    requires HeadIsNext(cfg, st, b) && st.profile[0].begin == b
    ensures st.profile[0].available != {}
  {
    hide Canonical, QueueOk, JobsAt, Slot, CanFit, Tiles, Holds, Partition, Runs, JobSet, FreeThroughout;
    var p, job := st.profile, st.queue[0].job;
    var all := AllMachines(cfg.nbMachines);
    HeadNotPresent(cfg, st);
    GoodParts(cfg, p);
    assert SliceOk(p[0], all, {}) && SliceOk(p[1], all, {});
    var u :| Slot(p, job.id, b, b + job.walltime, u) && Suits(cfg, p, job, b, u);
    var m: nat;
    if AsksForNone(cfg, job) {
      m :| Vacant(p, m, b, b + job.walltime);
      VacantNext(p, m, b, b + job.walltime);
      FreeIsRest(p[1], all, {}, m);
      assert m in all && forall j :: j in p[0].jobs ==> m !in p[0].jobs[j] by { StaysTheSame(p, all); }
    } else {
      m :| m in u;
      SlotNext(p, job.id, b, b + job.walltime, u);
      HeldIsOwn(p[1], all, job.id, m);
      assert m in all && forall j :: j in p[0].jobs ==> m !in p[0].jobs[j] by { StaysTheSame(p, all); }
    }
    FreeIsRest(p[0], all, {}, m);
  }

  lemma StaysTheSame(p: Profile, all: MachineSet)
    requires Valid(p, all, {}) && |p| > 1 && p[0].jobs.Keys <= p[1].jobs.Keys
    ensures forall j :: j in p[0].jobs ==> j in p[1].jobs && p[1].jobs[j] == p[0].jobs[j]
  {
    hide SliceOk, Tiles;
    forall j | j in p[0].jobs ensures j in p[1].jobs && p[1].jobs[j] == p[0].jobs[j] {
      assert j in p[0].jobs.Keys;
    }
  }

  lemma VacantNext(p: Profile, m: nat, b: real, e: real)
    requires Vacant(p, m, b, e) && b < e && |p| > 1 && p[1].begin == b
    ensures m in p[1].available
  {
    hide IndexAt;
    IndexUnique(p, 1, b);
    assert {m} <= FreeAt(p, b);
  }

  lemma SlotNext(p: Profile, j: JobId, b: real, e: real, u: MachineSet)
    requires Slot(p, j, b, e, u) && |p| > 1 && p[1].begin == b
    ensures j in p[1].jobs && p[1].jobs[j] == u
  {
    hide IndexAt;
    IndexUnique(p, 1, b);
    assert Within(p, b);
    assert JobsAt(p, b) == p[1].jobs;
  }

  lemma HeldIsOwn(s: TimeSlice, all: MachineSet, j: JobId, m: nat)
    requires SliceOk(s, all, {}) && j in s.jobs && m in s.jobs[j]
    ensures m in all && forall k :: k in s.jobs && k != j ==> m !in s.jobs[k]
  {
  }

  /** The head, placed anew when the present has reached its reserved date, starts. */
  lemma HeadFitsNow(cfg: Config, st: State, b: real)
    requires HeadIsNext(cfg, st, b) && st.profile[0].begin == b
    requires Insertion(cfg, Remove(st.profile, st.queue[0].job.id, {}), st.queue[0].job).Some?
    ensures Insertion(cfg, Remove(st.profile, st.queue[0].job.id, {}), st.queue[0].job).value.alloc.startedInFirstSlice
  {
    hide Valid, Canonical, QueueOk, Reservation, JobSet, Remove, Place, FirstFit, Contains;
    var job := st.queue[0].job;
    var q := Remove(st.profile, job.id, {});
    HeadNotPresent(cfg, st);
    HeadMerges(cfg, st, b);
    ReplacedNoLater(cfg, st.profile, job, b);
    GoodRemove(cfg, st.profile, job.id);
    GoodParts(cfg, q);
    var i := FirstFit(q, 0, job.res, job.walltime, cfg.selector).value.first;
    if i > 0 { Ordered(q, 0, i); }
  }

  /** The traversal starts the head at its reserved date. */
  lemma TraverseStartsHead(cfg: Config, st: State, b: real)
    requires HeadIsNext(cfg, st, b) && st.profile[0].begin == b
    requires Traverse(cfg, st, 0, Head(st.queue)).Some?
    ensures st.queue[0].job.id in Present(Traverse(cfg, st, 0, Head(st.queue)).value.profile)
  {
    hide Good, QueueOk, JobOk, Insertion, Remove, JobSet, Present, Reservation, WithoutIndex, Contains, Accounted,
         Sorted;
    var job := st.queue[0].job;
    HeadNotPresent(cfg, st);
    BaseGood(cfg, st);
    DropReservation(cfg, {}, st, b, job.id, st.queue);
    HeadFitsNow(cfg, st, b);
    var s := st.(profile := Remove(st.profile, job.id, {}));
    var Added(p, alloc) := Insertion(cfg, s.profile, job).value;
    StartJob(cfg, {}, s, 0, job);
    TraverseFromHead(cfg, {}, State(p, WithoutIndex(st.queue, 0), st.decisions + [Execute(job.id, alloc.machines)]));
  }

  lemma ArriveHeadNext(cfg: Config, st: State, call: Call, b: real)
    requires Reserved(cfg, st, b) && CallOk(st, call) && Arrive(cfg, st, call).Some?
    requires call.date == b && RunBeyond(st.profile, call.ended, b)
    ensures var r := Arrive(cfg, st, call).value;
            HeadIsNext(cfg, r, b) && r.profile[0].begin == b && r.queue[0] == st.queue[0]
  {
    hide Base, EndJobs, ReleaseJobs, JobSet, Reservation, RunBeyond;
    ArriveKeeps(cfg, st, call, b);
    var s := EndJobs(st, call.ended).value;
    EndJobsKeep(cfg, st, call.ended, b);
    RunUntilAfter(cfg, st, call.ended, b);
    ReleasedProfile(cfg, s, call.released, b);
    HeadComesNext(cfg, s, b);
  }

  lemma {:induction false} ReleasedProfile(cfg: Config, st: State, released: seq<Job>, date: real)
    ensures ReleaseJobs(cfg, st, released, date).profile == st.profile
    decreases |released|
  {
    if released != [] {
      ReleasedProfile(cfg, ReleaseJob(cfg, st, released[0], date), released[1..], date);
    }
  }

  /** A call with completions at the date reserved for the head starts it, once every job that still runs goes on past
      that date and the sort puts no other job before the head. */
  lemma HeadStartsOnTime(cfg: Config, st: State, call: Call, b: real)
    requires Reserved(cfg, st, b) && CallOk(st, call) && Step(cfg, st, call).Some?
    requires call.date == b && call.ended != [] && RunBeyond(st.profile, call.ended, b)
    requires HeadAfterSort(cfg, st, call) == Head(st.queue)
    ensures st.queue[0].job.id in Present(Step(cfg, st, call).value.profile)
  {
    hide Base, Arrive, SortQueue, PlaceHead, Traverse, Reservation, JobSet, Present, Remove, RunBeyond;
    ArriveHeadNext(cfg, st, call, b);
    var s := Arrive(cfg, st, call).value;
    SortKeepsBase(cfg, s, b, b);
    var r := s.(queue := SortQueue(cfg.order, s.queue, b));
    HeadFindsMachines(cfg, r, b);
    TraverseStartsHead(cfg, r, b);
  }

  /** Over whole runs: a job that had the date b reserved and stayed the head starts at the latest at the call at b. */
  lemma EasyStarts(cfg: Config, states: seq<State>, calls: seq<Call>, job: Job, m: nat, n: nat, b: real)
    requires IsRun(cfg, states, calls) && m <= n < |calls|
    requires Reserved(cfg, states[m], b) && states[m].queue[0].job == job
    requires StaysHead(cfg, states, calls, job, m, n + 1)
    requires calls[n].date == b && calls[n].ended != [] && RunBeyond(states[n].profile, calls[n].ended, b)
    ensures job.id in Present(states[n + 1].profile)
  {
    hide Inv, CallOk, Step, HeadAfterSort, Base, JobSet, Reservation, RunBeyond;
    EasyGuarantee(cfg, states, calls, job, m, n, b);
    var st := states[n];
    RunKeepsInv(cfg, states, calls, n);
    RunStep(cfg, states, calls, n);
    HeadNotPresent(cfg, st) by { InvBase(cfg, st); }
    var c :| c <= b && Reserved(cfg, st, c) && st.queue[0].job == job;
    assert HeadAfterSort(cfg, st, calls[n]) == Some(job.id);
    HeadIsNotDelayed(cfg, st, calls[n], c);
    HeadStartsOnTime(cfg, st, calls[n], b);
  }
}
