/** A run in which backfilled jobs delay the head of the queue: the spare machines that were noted with its shadow time
    are handed out twice. */
module HeadDelays {
  import opened Machines
  import opened Profiles
  import opened Queues
  import opened HeapSorts
  import opened EasyBf2Model
  import opened EasyBf2Accounts
  import opened EasyBf3Model
  import opened EasyBf3Proofs
  import opened EasyBf3Accounts

  const FOUR_MACHINES := Config(4, Basic, FCFS)

  /** Two machines until 10, three for the head, and two long jobs of one machine each. */
  const SHORT := Job("w!0", 2, 10.0, true, 10.0, 0.0)
  const HEAD := Job("w!1", 3, 10.0, true, 10.0, 0.0)
  const LONG_A := Job("w!2", 1, 20.0, true, 20.0, 0.0)
  const LONG_B := Job("w!3", 1, 20.0, true, 20.0, 0.0)

  const CALLS := [Call(0.0, [], [SHORT]), Call(0.0, [], [HEAD, LONG_A, LONG_B]), Call(10.0, ["w!0"], [])]

  const S0 := InitialFast(4)
  ghost const S1 := FastStep(FOUR_MACHINES, S0, CALLS[0])
  ghost const S2 := FastStep(FOUR_MACHINES, S1, CALLS[1])
  ghost const S3 := FastStep(FOUR_MACHINES, S2, CALLS[2])

  // ---------------------------------------------------------------- sorting

  lemma SortOne(job: Job)
    ensures SortQueue(FCFS, [Entry(job, 0.0)], 0.0) == [Entry(job, 0.0)] == SortQueue(FCFS, [Entry(job, 0.0)], 10.0)
  {
    SortedStays([Entry(job, 0.0)], 0.0);
    SortedStays([Entry(job, 0.0)], 10.0);
  }

  lemma SortThree()
    ensures var q := [Entry(HEAD, 0.0), Entry(LONG_A, 0.0), Entry(LONG_B, 0.0)]; SortQueue(FCFS, q, 0.0) == q
  {
    hide IdLess;
    var q := [Entry(HEAD, 0.0), Entry(LONG_A, 0.0), Entry(LONG_B, 0.0)];
    LastCharacter('1', '2');
    LastCharacter('1', '3');
    LastCharacter('2', '3');
    assert "w!" + ['1'] == "w!1" && "w!" + ['2'] == "w!2" && "w!" + ['3'] == "w!3";
    SortedStays(q, 0.0);
  }

  // ---------------------------------------------------------------- the three calls

  lemma OneJobSorts(j: ScheduledJob)
    ensures HeapSort([] + [j]) == [j]
  {
    HeapSortSorts([] + [j]);
    HeapSortMembers([] + [j]);
    var r := HeapSort([] + [j]);
    assert r[0] in r;
  }

  lemma ReleaseFirst(st: FastState, job: Job, rest: seq<Job>)
    requires Accepts(FOUR_MACHINES, job)
    ensures ReleaseAllFast(FOUR_MACHINES, st, [job] + rest, 0.0)
            == ReleaseAllFast(FOUR_MACHINES, st.(queue := st.queue + [Entry(job, 0.0)]), rest, 0.0)
    ensures Accepted(FOUR_MACHINES, [job] + rest) == [job] + Accepted(FOUR_MACHINES, rest)
  {
    assert ([job] + rest)[1..] == rest;
  }

  lemma ReleaseShort()
    ensures ArriveFast(FOUR_MACHINES, S0, CALLS[0]) == S0.(queue := [Entry(SHORT, 0.0)])
    ensures Accepted(FOUR_MACHINES, CALLS[0].released) == [SHORT]
  {
    ReleaseFirst(S0, SHORT, []);
    assert [SHORT] + [] == CALLS[0].released;
  }

  lemma ReleaseThree(st: FastState)
    requires st.queue == []
    ensures ArriveFast(FOUR_MACHINES, st, CALLS[1])
                == st.(queue := [Entry(HEAD, 0.0), Entry(LONG_A, 0.0), Entry(LONG_B, 0.0)])
    ensures Accepted(FOUR_MACHINES, CALLS[1].released) == [HEAD, LONG_A, LONG_B]
  {
    var a := st.(queue := [Entry(HEAD, 0.0)]);
    var b := st.(queue := [Entry(HEAD, 0.0), Entry(LONG_A, 0.0)]);
    ReleaseFirst(st, HEAD, [LONG_A, LONG_B]);
    ReleaseFirst(a, LONG_A, [LONG_B]);
    ReleaseFirst(b, LONG_B, []);
    assert [HEAD] + [LONG_A, LONG_B] == CALLS[1].released && [LONG_A] + [LONG_B] == [LONG_A, LONG_B]
           && [LONG_B] + [] == [LONG_B];
    assert st.queue + [Entry(HEAD, 0.0)] == a.queue && a.queue + [Entry(LONG_A, 0.0)] == b.queue;
  }

  /** With one job waiting that fits, placing heads starts it. */
  lemma PlaceOne(st: FastState, job: Job)
    requires st.queue == [Entry(job, 0.0)] && HeadCanRun(st, job)
    ensures PlaceHeadFast(st, 0.0) == Dequeue(ExecuteFast(NoteHead(st, job), job, 0.0), 0)
    ensures PlaceHeadFast(st, 0.0).queue == []
  {
    hide HeapSort, Left;
    var r := Dequeue(ExecuteFast(NoteHead(st, job), job, 0.0), 0);
    assert r.queue == [];
  }

  /** The first job starts at once. */
  lemma FirstCall()
    ensures S1.nbAvailable == 2 && S1.queue == [] && S1.priority.id == "w!0"
    ensures |S1.scheduled| == 1 && S1.scheduled[0].id == "w!0"
            && S1.scheduled[0].requestedResources == 2 && S1.scheduled[0].estFinishTime == 10.0
  {
    hide HeapSort, Left, SortQueue, ArriveFast, PlaceHeadFast, BackfillNewFast;
    ReleaseShort();
    var s := S0.(queue := [Entry(SHORT, 0.0)]);
    SortOne(SHORT);
    PlaceOne(s, SHORT);
    OneJobSorts(Running(SHORT, S0.available, 0.0));
    var r := PlaceHeadFast(s, 0.0);
    NotQueued(r, SHORT, [SHORT], r.nbAvailable);
    assert S1 == r;
  }

  lemma NotQueued(st: FastState, job: Job, recent: seq<Job>, nb: int)
    requires recent == [job] && job.id !in QueueIds(st.queue)
    ensures BackfillNewFast(st, recent, nb, 0.0) == st
  {
    hide QueueIds;
    assert recent[1..] == [];
  }

  /** The state once the head was noted: it will start at 10, with one machine to spare. */
  lemma HeadIsNoted()
    ensures var s := ArriveFast(FOUR_MACHINES, S1, CALLS[1]);
            var r := SortAndPlaceHeadFast(FOUR_MACHINES, s, None, 0.0);
            && r.queue == [Entry(HEAD, 0.0), Entry(LONG_A, 0.0), Entry(LONG_B, 0.0)]
            && r.scheduled == S1.scheduled && r.nbAvailable == 2
            && r.priority.id == "w!1" && r.priority.shadowTime == 10.0 && r.priority.extraResources == 1
  {
    hide SortQueue, ArriveFast, FastStep;
    FirstCall();
    ReleaseThree(S1);
    SortThree();
    var s := S1.(queue := [Entry(HEAD, 0.0), Entry(LONG_A, 0.0), Entry(LONG_B, 0.0)]);
    assert SortAndPlaceHeadFast(FOUR_MACHINES, s, None, 0.0) == ShadowHead(s, HEAD);
    assert S1.scheduled == [S1.scheduled[0]];
  }

  lemma InQueue(q: JobQueue, i: nat)
    requires Distinct(q) && i < |q|
    ensures q[i].job.id in QueueIds(q) && IndexOf(q, q[i].job.id, 0) == i
  {
  }

  /** Admitting one long job leaves the noted spare machines as they were. */
  lemma AdmitOne(st: FastState, job: Job, rest: seq<Job>, nb: nat)
    requires nb > 0 && |st.queue| > 1 && Distinct(st.queue) && st.queue[1].job == job
    requires job.res == 1 <= st.nbAvailable && job.duration == 20.0
    requires st.priority.shadowTime == 10.0 && st.priority.extraResources == 1
    ensures BackfillNewFast(st, [job] + rest, nb, 0.0)
            == BackfillNewFast(Dequeue(ExecuteFast(st, job, 0.0), 1), rest, nb - 1, 0.0)
  {
    hide ExecuteFast, IndexOf;
    InQueue(st.queue, 1);
    assert ([job] + rest)[1..] == rest;
  }

  /** The head waits with its shadow time noted, and both long jobs are started on its one spare machine. */
  lemma SecondCall()
    ensures S2.queue == [Entry(HEAD, 0.0)] && S2.nbAvailable == 0
    ensures S2.priority.id == "w!1" && S2.priority.shadowTime == 10.0
    ensures exists j :: j in S2.scheduled && j.id == "w!0" && j.requestedResources == 2
    ensures forall j :: j in S2.scheduled && j.id == "w!0" ==> j.requestedResources == 2
  {
    hide HeapSort, ArriveFast, SortAndPlaceHeadFast, BackfillNewFast, StartFast;
    FirstCall();
    ReleaseThree(S1);
    HeadIsNoted();
    var r := SortAndPlaceHeadFast(FOUR_MACHINES, ArriveFast(FOUR_MACHINES, S1, CALLS[1]), None, 0.0);
    SkipHead(r, [HEAD, LONG_A, LONG_B]);
    assert [HEAD, LONG_A, LONG_B][1..] == [LONG_A, LONG_B];
    BothLongJobsStart(r);
    assert S2 == BackfillNewFast(r, [LONG_A, LONG_B], 2, 0.0);
    assert S1.scheduled[0] in S2.scheduled;
  }

  lemma BothLongJobsStart(r: FastState)
    requires r.queue == [Entry(HEAD, 0.0), Entry(LONG_A, 0.0), Entry(LONG_B, 0.0)] && r.nbAvailable == 2
    requires r.priority.shadowTime == 10.0 && r.priority.extraResources == 1
    ensures var s := BackfillNewFast(r, [LONG_A, LONG_B], 2, 0.0);
            && s.queue == [Entry(HEAD, 0.0)] && s.nbAvailable == 0 && s.priority == r.priority
            && (forall j :: j in r.scheduled ==> j in s.scheduled)
            && forall j :: j in s.scheduled ==> j in r.scheduled || j.id == "w!2" || j.id == "w!3"
  {
    hide HeapSort, Left, BackfillNewFast;
    var a := Dequeue(ExecuteFast(r, LONG_A, 0.0), 1);
    assert [LONG_A, LONG_B] == [LONG_A] + [LONG_B];
    AdmitOne(r, LONG_A, [LONG_B], 2);
    assert a.queue == [Entry(HEAD, 0.0), Entry(LONG_B, 0.0)];
    var b := Dequeue(ExecuteFast(a, LONG_B, 0.0), 1);
    assert [LONG_B] == [LONG_B] + [];
    AdmitOne(a, LONG_B, [], 1);
    assert b.queue == [Entry(HEAD, 0.0)];
    NothingLeft(b);
    HeapSortMembers(r.scheduled + [Running(LONG_A, r.available, 0.0)]);
    HeapSortMembers(a.scheduled + [Running(LONG_B, a.available, 0.0)]);
  }

  lemma SkipHead(st: FastState, recent: seq<Job>)
    requires recent != [] && Head(st.queue) == Some(recent[0].id)
    ensures BackfillNewFast(st, recent, 2, 0.0) == BackfillNewFast(st, recent[1..], 2, 0.0)
  {
  }

  lemma NothingLeft(st: FastState)
    ensures BackfillNewFast(st, [], 0, 0.0) == st
  {
  }

  /** At its shadow time the head still finds too few machines. */
  lemma ThirdCall()
    ensures S3.queue == [Entry(HEAD, 0.0)] && S3.nbAvailable == 2
  {
    hide SortQueue, HeapSort, ShadowHead;
    SecondCall();
    var ended := CALLS[2].ended;
    assert ended[1..] == [];
    var s := ArriveFast(FOUR_MACHINES, S2, CALLS[2]);
    var i := FirstWithId(S2.scheduled, "w!0", 0);
    var j :| j in S2.scheduled && j.id == "w!0" && j.requestedResources == 2;
    assert i < |S2.scheduled|;
    assert S2.scheduled[i] in S2.scheduled;
    assert FinishJobs(FinishJob(S2, "w!0"), []) == FinishJob(S2, "w!0");
    assert s == FinishJob(S2, "w!0") && s.nbAvailable == 2 && s.queue == [Entry(HEAD, 0.0)];
    SortOne(HEAD);
    var r := SortAndPlaceHeadFast(FOUR_MACHINES, s, Some("w!1"), 10.0);
    assert r == s.(queue := [Entry(HEAD, 0.0)]);
    NotedHead();
    StaysBlocked(r);
  }

  lemma NotedHead()
    ensures S2.priority.requestedResources == 3
  {
    hide FastStep, FastInv;
    RunIsFresh();
    FreshRunIsRun(FOUR_MACHINES, [S0, S1, S2, S3], CALLS);
    SecondCall();
    var st := S2;
    assert FastInv(FOUR_MACHINES, [S0, S1, S2, S3][2]);
    InvNoted(st);
  }

  lemma InvNoted(st: FastState)
    requires FastInv(FOUR_MACHINES, st) && st.queue == [Entry(HEAD, 0.0)] && st.priority.id == "w!1"
    ensures st.priority.requestedResources == 3
  {
    hide PlatformOk, QueueFits;
    assert st.queue[0] in st.queue;
  }

  lemma StaysBlocked(st: FastState)
    requires st.queue == [Entry(HEAD, 0.0)] && st.nbAvailable == 2
    requires st.priority.id == "w!1" && st.priority.requestedResources == 3
    ensures var r := TraverseFast(st, 0, Some("w!1"), 10.0); r.queue == st.queue && r.nbAvailable == 2
  {
    hide ScanShadow;
    assert TraverseFast(ShadowHead(st, HEAD), 1, Some("w!1"), 10.0) == ShadowHead(st, HEAD);
  }

  lemma RunIsFresh()
    ensures IsFreshFastRun(FOUR_MACHINES, [S0, S1, S2, S3], CALLS)
  {
    hide FastStep, FreshRelease;
    CallsAreFresh();
  }

  lemma CallsAreFresh()
    ensures FreshRelease(CALLS, 0) && FreshRelease(CALLS, 1) && FreshRelease(CALLS, 2)
  {
    hide Ids;
    CallIds();
    assert Known(CALLS, 0) == {};
    assert Known(CALLS, 1) == {"w!0"};
    assert Known(CALLS, 2) == {"w!0", "w!1", "w!2", "w!3"};
  }

  lemma CallIds()
    ensures Ids(CALLS[0].released) == {"w!0"} && Ids(CALLS[1].released) == {"w!1", "w!2", "w!3"}
    ensures Ids(CALLS[2].released) == {}
  {
    var a, b := CALLS[0].released, CALLS[1].released;
    assert a[0].id == "w!0" && b[0].id == "w!1" && b[1].id == "w!2" && b[2].id == "w!3";
  }

  /** A run from four idle machines, with fresh jobs and each completion in time: after the second call the head waits,
      noted to start at 10; at 10 the job it waited for ends, and the head, which wants three machines, finds two and
      waits on. */
  lemma BackfillsDelayHead()
    ensures IsFastRun(FOUR_MACHINES, [S0, S1, S2, S3], CALLS)
    ensures S2.queue == [Entry(HEAD, 0.0)] && S2.priority.id == HEAD.id
    ensures S2.priority.shadowTime == CALLS[2].date == 10.0
    ensures S3.queue == [Entry(HEAD, 0.0)] && S3.nbAvailable == 2 < HEAD.res
  {
    hide FastStep, IsFastRun;
    RunIsFresh();
    FreshRunIsRun(FOUR_MACHINES, [S0, S1, S2, S3], CALLS);
    SecondCall();
    ThirdCall();
  }
}
