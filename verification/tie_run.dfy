/** A run in first-come order in which a tie displaces the head: a job released at the head's own date, by a later call
    and with a smaller identifier, takes its place and its reserved machine. */
module TieRuns {
  import opened Machines
  import opened Profiles
  import opened FirstFits
  import opened Slots
  import opened Vacancies
  import opened Membership
  import opened JobRuns
  import opened Queues
  import opened EasyBf2Model
  import opened EasyBf2Proofs
  import opened EasyBf2Guarantee
  import opened EasyBf2Progress
  import opened EasyBf2Runs

  const ONE_MACHINE := Config(1, Basic, FCFS)

  /** Three jobs for the whole machine, handed over in this order, all at date 0. */
  const RUNNING := Job("w!0", 1, 10.0, true, 10.0, 0.0)
  const LATE := Job("w!2", 1, 10.0, true, 10.0, 0.0)
  const EARLY := Job("w!1", 1, 10.0, true, 10.0, 0.0)

  const CALLS := [Call(0.0, [], [RUNNING]), Call(0.0, [], [LATE]), Call(0.0, [], [EARLY])]

  const BUSY := RunsUntil(10.0, 100.0)

  const T0 := State(Fresh(1, 0.0, 100.0), [], [])
  const T1 := State(BUSY, [], [Execute("w!0", AllMachines(1))])
  const T2 := State(Add(BUSY, 0, LATE, Basic).profile, [Entry(LATE, 0.0)], T1.decisions)
  const T3 := State(Add(BUSY, 0, EARLY, Basic).profile, [Entry(EARLY, 0.0), Entry(LATE, 0.0)], T1.decisions)

  // ---------------------------------------------------------------- the profile

  lemma BusyIs()
    ensures |BUSY| == 2 && BUSY[0].begin == 0.0 && BUSY[0].jobs.Keys == {"w!0"} && BUSY[1].jobs == map[]
    ensures Good(ONE_MACHINE, BUSY) && JobSet(BUSY) == {"w!0"} && Present(BUSY).Keys == {"w!0"}
  {
    hide Valid, RunsUntil;
    RunsUntilIs(10.0, 100.0);
    assert "w!0" in BUSY[0].jobs;
  }

  /** A job for the whole machine, with a length of 10, has to wait until 10. */
  lemma WaitsUntilTen(job: Job)
    requires job.res == 1 && job.walltime == 10.0 && job.id != "w!0"
    ensures !Contains(BUSY, job.id) && Insertion(ONE_MACHINE, BUSY, job) == Some(Add(BUSY, 0, job, Basic))
    ensures var Added(p, alloc) := Add(BUSY, 0, job, Basic);
            && !alloc.startedInFirstSlice && alloc.begin == 10.0
            && |p| > 0 && p[0].available == {} && p[0].begin == 0.0 && p[0].jobs == BUSY[0].jobs
            && JobSet(p) == {"w!0", job.id}
  {
    hide Valid, RunsUntil, AllMachines, Place;
    RunsUntilIs(10.0, 100.0);
    BusyIs();
    JobSetContains(BUSY, job.id);
    assert SpanEnd(BUSY, 0, 0, 10.0) == 0 && SpanEnd(BUSY, 1, 1, 10.0) == 1;
    assert !Anchor(BUSY, 0, 1, 10.0, Basic) && Anchor(BUSY, 1, 1, 10.0, Basic);
    assert FirstAnchor(BUSY, 1, 1, 10.0, Basic) == 1 && FirstAnchor(BUSY, 0, 1, 10.0, Basic) == 1;
    var u := FirstFit(BUSY, 0, 1, 10.0, Basic).value.machines;
    PlacedLater(BUSY, 1, 1, 20.0, job.id, u, 1);
    AddJobSet(BUSY, job, Basic);
    assert {"w!0"} + {job.id} == {"w!0", job.id};
  }

  // ---------------------------------------------------------------- the three calls

  lemma ArriveOne(st: State, job: Job)
    requires Good(ONE_MACHINE, st.profile) && st.profile[0].begin == 0.0
    requires Accepts(ONE_MACHINE, job)
    ensures Arrive(ONE_MACHINE, st, Call(0.0, [], [job])) == Some(st.(queue := st.queue + [Entry(job, 0.0)]))
    ensures Accepted(ONE_MACHINE, [job]) == [job]
  {
    hide Canonical, Runs;
    assert SliceOk(st.profile[0], AllMachines(1), {});
    assert Advance(st.profile, 0.0) == st.profile;
    assert [job][1..] == [];
    assert ReleaseJobs(ONE_MACHINE, st, [job], 0.0) == st.(queue := st.queue + [Entry(job, 0.0)]);
  }

  /** The first job starts. */
  lemma FirstCall()
    ensures Step(ONE_MACHINE, T0, CALLS[0]) == Some(T1)
  {
    hide Good, SortQueue, Arrive, Add, Contains;
    InitialState(ONE_MACHINE, 0.0, 100.0);
    assert Good(ONE_MACHINE, T0.profile);
    ArriveOne(T0, RUNNING);
    assert T0.queue + [Entry(RUNNING, 0.0)] == [Entry(RUNNING, 0.0)];
    SortedStays([Entry(RUNNING, 0.0)], 0.0);
    RunsUntilIs(10.0, 100.0);
    assert !Contains(T0.profile, "w!0") by { NothingIn("w!0"); }
    assert Insertion(ONE_MACHINE, T0.profile, RUNNING) == Some(Add(T0.profile, 0, RUNNING, Basic));
    var s := T0.(queue := [Entry(RUNNING, 0.0)]);
    assert WithoutIndex(s.queue, 0) == [];
    assert T0.decisions + [Execute("w!0", AllMachines(1))] == T1.decisions;
    assert PlaceHead(ONE_MACHINE, s) == PlaceHead(ONE_MACHINE, T1) == Some(T1);
    BackfillNothing(ONE_MACHINE, T1, Accepted(ONE_MACHINE, CALLS[0].released), |T1.profile[0].available|);
  }

  lemma NothingIn(id: JobId)
    ensures !Contains(Fresh(1, 0.0, 100.0), id)
  {
  }

  /** With the busy machine and one job to place, the job is reserved and nothing is backfilled. */
  lemma PlacesAndStops(st: State, recent: seq<Job>)
    requires st.profile == BUSY && st.queue != [] && st.queue[0].job in [LATE, EARLY]
    ensures var r := st.(profile := Add(BUSY, 0, st.queue[0].job, Basic).profile);
            && PlaceHead(ONE_MACHINE, st) == Some(r) && |r.profile| > 0
            && BackfillNew(ONE_MACHINE, r, recent, |r.profile[0].available|) == Some(r)
  {
    hide Insertion, Add;
    WaitsUntilTen(st.queue[0].job);
  }

  /** The second job has to wait, and gets the date 10. */
  lemma SecondCall()
    ensures Step(ONE_MACHINE, T1, CALLS[1]) == Some(T2)
  {
    hide SortQueue, Arrive, Add, PlaceHead, BackfillNew, Good, Remove, RunsUntil, Contains, Insertion, JobSet, Present;
    BusyIs();
    WaitsUntilTen(LATE);
    ArriveOne(T1, LATE);
    assert T1.queue + [Entry(LATE, 0.0)] == [Entry(LATE, 0.0)];
    SortedStays([Entry(LATE, 0.0)], 0.0);
    PlacesAndStops(T1.(queue := [Entry(LATE, 0.0)]), [LATE]);
  }

  /** The third job has the smaller identifier, so the sort puts it first. */
  lemma SortTwo()
    ensures SortQueue(FCFS, [Entry(LATE, 0.0), Entry(EARLY, 0.0)], 0.0) == [Entry(EARLY, 0.0), Entry(LATE, 0.0)]
  {
    hide Sort, IdLess;
    var q, r := [Entry(LATE, 0.0), Entry(EARLY, 0.0)], [Entry(EARLY, 0.0), Entry(LATE, 0.0)];
    LastCharacter('1', '2');
    assert "w!" + ['1'] == "w!1" && "w!" + ['2'] == "w!2";
    assert AgedQueue(FCFS, q, 0.0) == q;
    SortPermutes(FCFS, q);
    SortSorts(FCFS, q);
    assert multiset(q) == multiset(r);
    SortIsUnique(FCFS, Sort(FCFS, q), r);
  }

  /** It takes the place of the second. */
  lemma ThirdCall()
    ensures Step(ONE_MACHINE, T2, CALLS[2]) == Some(T3)
  {
    hide SortQueue, Arrive, Add, PlaceHead, BackfillNew, Good, Remove, RunsUntil, Contains, JobSet, Present;
    BusyIs();
    WaitsUntilTen(LATE);
    GoodInsertion(ONE_MACHINE, BUSY, LATE);
    ArriveOne(T2, EARLY);
    assert T2.queue + [Entry(EARLY, 0.0)] == [Entry(LATE, 0.0), Entry(EARLY, 0.0)];
    SortTwo();
    PlacesAndStops(State(BUSY, [Entry(EARLY, 0.0), Entry(LATE, 0.0)], T1.decisions), [EARLY]);
  }

  // ---------------------------------------------------------------- the run

  lemma FirstCallIsOk()
    ensures CallOk(T0, CALLS[0])
  {
    hide JobSet, QueueIds;
    FreshIsValid(1, 0.0, 100.0);
    OneIsFresh(T0, RUNNING);
  }

  lemma SecondCallIsOk()
    ensures CallOk(T1, CALLS[1])
  {
    hide JobSet, QueueIds, RunsUntil, Good, Present;
    BusyIs();
    OneIsFresh(T1, LATE);
  }

  lemma ThirdCallIsOk()
    ensures CallOk(T2, CALLS[2])
  {
    hide JobSet, QueueIds, RunsUntil, Add, Contains, Insertion;
    WaitsUntilTen(LATE);
    OneQueued(LATE);
    OneIsFresh(T2, EARLY);
  }

  lemma OneIsFresh(st: State, job: Job)
    requires job.walltime > 0.0 && job.id !in JobSet(st.profile) && (st.queue == [] || job.id !in QueueIds(st.queue))
    ensures CallOk(st, Call(0.0, [], [job]))
  {
    hide JobSet;
  }

  lemma OneQueued(job: Job)
    ensures QueueIds([Entry(job, 0.0)]) == {job.id}
  {
    assert [Entry(job, 0.0)][0].job.id == job.id;
  }

  lemma RunIsFcfs()
    ensures IsFcfsRun(ONE_MACHINE, [T0, T1, T2, T3], CALLS)
  {
    hide Step, CallOk, Inv, RunsUntil, Add, Fresh;
    InitialState(ONE_MACHINE, 0.0, 100.0);
    FirstCall();
    SecondCall();
    ThirdCall();
    FirstCallIsOk();
    SecondCallIsOk();
    ThirdCallIsOk();
  }

  lemma TenIsReserved(st: State)
    requires st.profile == BUSY && st.queue != [] && st.queue[0].job in [LATE, EARLY]
    requires QueueOk(ONE_MACHINE, st.queue) && "w!0" !in QueueIds(st.queue)
    ensures Reserved(ONE_MACHINE, st.(profile := Add(BUSY, 0, st.queue[0].job, Basic).profile), 10.0)
  {
    hide Good, Add, QueueOk;
    BusyIs();
    WaitsUntilTen(st.queue[0].job);
    WaitingHeadReserved(ONE_MACHINE, st);
  }

  /** A run in first-come order from an idle machine: after the second call the job `w!2` is the head with the date 10
      reserved, after the third the job `w!1` is, and from 10 on it has the only machine. */
  lemma TieTakesThePlace()
    ensures IsFcfsRun(ONE_MACHINE, [T0, T1, T2, T3], CALLS)
    ensures Reserved(ONE_MACHINE, T2, 10.0) && T2.queue[0].job == LATE && Tied(ONE_MACHINE, T2, CALLS[2])
    ensures Reserved(ONE_MACHINE, T3, 10.0) && T3.queue[0].job == EARLY && T3.queue[1].job == LATE
    ensures Occupies(T3.profile, EARLY.id, Grant(10.0, 20.0, AllMachines(1)))
  {
    hide Reserved, Add, Occupies, IsFcfsRun, RunsUntil, Step, Place, QueueOk;
    RunIsFcfs();
    TwoWait();
    TenIsReserved(State(BUSY, [Entry(LATE, 0.0)], T1.decisions));
    TenIsReserved(State(BUSY, [Entry(EARLY, 0.0), Entry(LATE, 0.0)], T1.decisions));
    IsTied();
    HasTheMachine();
  }

  lemma TwoWait()
    ensures QueueOk(ONE_MACHINE, [Entry(LATE, 0.0)]) && QueueOk(ONE_MACHINE, [Entry(EARLY, 0.0), Entry(LATE, 0.0)])
    ensures "w!0" !in QueueIds([Entry(LATE, 0.0)]) && "w!0" !in QueueIds([Entry(EARLY, 0.0), Entry(LATE, 0.0)])
  {
  }

  lemma IsTied()
    ensures Tied(ONE_MACHINE, T2, CALLS[2])
  {
    hide IdLess, Add;
    LastCharacter('1', '2');
    assert "w!" + ['1'] == "w!1" && "w!" + ['2'] == "w!2";
    assert [EARLY][1..] == [];
    assert Accepted(ONE_MACHINE, CALLS[2].released) == [EARLY];
    assert EARLY in Accepted(ONE_MACHINE, CALLS[2].released);
  }

  lemma HasTheMachine()
    ensures Occupies(T3.profile, EARLY.id, Grant(10.0, 20.0, AllMachines(1)))
  {
    hide Valid, Occupies, Place, RunsUntil, FirstFit;
    RunsUntilIs(10.0, 100.0);
    WaitsUntilTen(EARLY);
    AddOccupies(BUSY, 0, EARLY, Basic) by { BusyTiles(); }
    var Spot(i, k, u) := FirstFit(BUSY, 0, 1, 10.0, Basic).value;
    SpotFits(BUSY, 0, 1, 10.0, Basic);
    SpotIsPlaceable(BUSY, 0, EARLY, Basic) by { BusyTiles(); }
    SubsetSize(u, AllMachines(1));
  }

  lemma BusyTiles()
    ensures Tiles(BUSY)
  {
    hide RunsUntil;
    RunsUntilIs(10.0, 100.0);
  }
}
