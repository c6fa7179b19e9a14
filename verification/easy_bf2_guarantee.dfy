/** The EASY guarantee: whatever is backfilled, the date reserved for the job at the head of the queue never moves back,
    over every run of the scheduler, and no call happens after it while the head waits. */
module EasyBf2Guarantee {
  import opened Machines
  import opened Profiles
  import opened Removal
  import opened Membership
  import opened Queues
  import opened EasyBf2Model
  import opened EasyBf2Proofs
  import opened EasyBf2Accounts

  /** Every running job goes on running on the same machines. */
  ghost predicate GoesOn(p: Profile, q: Profile) {
    forall j :: j in Present(p) ==> j in Present(q) && Present(q)[j] == Present(p)[j]
  }

  /** Running jobs go on, the accounts of the known jobs stay right, and the queue stays in order, gains no job, and
      loses only jobs that run now. */
  ghost predicate Proceeds(cfg: Config, known: set<JobId>, st: State, r: State) {
    && GoesOn(st.profile, r.profile)
    && (Accounted(st, known) ==> Accounted(r, known))
    && (Sorted(cfg.order, st.queue) ==> Sorted(cfg.order, r.queue))
    && (forall k :: k in r.queue ==> k in st.queue)
    && forall k :: k in st.queue ==> k in r.queue || k.job.id in Present(r.profile)
  }

  // ---------------------------------------------------------------- sorting

  lemma SortKeepsBase(cfg: Config, st: State, date: real, b: real)
    requires Base(cfg, st)
    ensures var r := st.(queue := SortQueue(cfg.order, st.queue, date));
            && Base(cfg, r) && |r.queue| == |st.queue|
            && (Unreserved(cfg, st) ==> Unreserved(cfg, r))
            && (Reserved(cfg, st, b) && Head(r.queue) == Head(st.queue) ==>
                Reserved(cfg, r, b) && r.queue[0].job == st.queue[0].job)
  {
    hide Good, JobSet, Reservation, Present, SortQueue, JobOk;
    SortQueueKeepsJobs(cfg.order, st.queue, date);
    SortQueueIds(cfg.order, st.queue, date);
    var q := SortQueue(cfg.order, st.queue, date);
    forall k | k in q ensures JobOk(cfg, k.job) {
      var i :| 0 <= i < |st.queue| && k.job == st.queue[i].job;
    }
    if st.queue != [] && Head(q) == Head(st.queue) {
      assert q[0] in q;
      var i :| 0 <= i < |st.queue| && q[0].job == st.queue[i].job;
      assert i == 0;
    }
  }

  // ---------------------------------------------------------------- starting a job

  /** A queued job that starts now joins the running jobs; the rest of the queue and of the running jobs stays. */
  lemma StartJob(cfg: Config, known: set<JobId>, st: State, i: nat, job: Job)
    requires Base(cfg, st) && i < |st.queue| && st.queue[i].job.id == job.id && JobOk(cfg, job)
    requires Insertion(cfg, st.profile, job).Some? && Insertion(cfg, st.profile, job).value.alloc.startedInFirstSlice
    ensures var Added(p, alloc) := Insertion(cfg, st.profile, job).value;
            var r := State(p, WithoutIndex(st.queue, i), st.decisions + [Execute(job.id, alloc.machines)]);
            && Base(cfg, r) && Proceeds(cfg, known, st, r) && job.id in Present(p)
            && Present(p).Keys == Present(st.profile).Keys + {job.id}
            && JobSet(p) == JobSet(st.profile) + {job.id}
  {
    hide Good, JobSet, Present, Insertion, JobOk, Accounted, Sorted;
    GoodInsertion(cfg, st.profile, job);
    WithoutIndexKeeps(st.queue, i);
    Waits(st.queue, i);
    var Added(p, alloc) := Insertion(cfg, st.profile, job).value;
    if Accounted(st, known) { StartAccounts(st, i, p, alloc.machines, known); }
    if Sorted(cfg.order, st.queue) { WithoutIndexSorted(cfg.order, st.queue, i); }
  }

  /** A place reserved for later changes nothing about the jobs that run now. */
  lemma ReserveProceeds(cfg: Config, known: set<JobId>, st: State, p: Profile)
    requires Present(p) == Present(st.profile)
    ensures Proceeds(cfg, known, st, st.(profile := p))
  {
    hide Present, Accounted, Sorted;
    if Accounted(st, known) { FewerRunning(st, p, known); }
  }

  lemma {:induction false} PlaceHeadKeeps(cfg: Config, known: set<JobId>, st: State)
    requires Unreserved(cfg, st) && PlaceHead(cfg, st).Some?
    ensures Inv(cfg, PlaceHead(cfg, st).value) && Proceeds(cfg, known, st, PlaceHead(cfg, st).value)
    decreases |st.queue|
  {
    hide Good, JobSet, Present, Insertion, JobOk, WithoutIndex, Reservation, Accounted, Sorted;
    if st.queue != [] {
      HeadNotPresent(cfg, st);
      var job := st.queue[0].job;
      var Added(p, alloc) := Insertion(cfg, st.profile, job).value;
      if alloc.startedInFirstSlice {
        StartJob(cfg, known, st, 0, job);
        FewerQueued(st.queue, 0);
        PlaceHeadKeeps(cfg, known,
                       State(p, WithoutIndex(st.queue, 0), st.decisions + [Execute(job.id, alloc.machines)]));
      } else {
        GoodInsertion(cfg, st.profile, job);
        InsertionReserves(cfg, st.profile, job);
        ReserveProceeds(cfg, known, st, p);
        WaitingIsFirm(cfg, st);
        assert Reserved(cfg, st.(profile := p), alloc.begin);
      }
    }
  }

  /** Dropping the reservation of a head that lost its position leaves only running jobs. */
  lemma DropReservation(cfg: Config, known: set<JobId>, st: State, b: real, h: JobId, q: JobQueue)
    requires Reserved(cfg, st, b) && st.queue[0].job.id == h && Base(cfg, st.(queue := q))
    ensures Unreserved(cfg, State(Remove(st.profile, h, {}), q, st.decisions))
    ensures Proceeds(cfg, known, st.(queue := q), State(Remove(st.profile, h, {}), q, st.decisions))
  {
    hide Good, JobSet, Present, Remove, QueueOk, Reservation, Accounted, Sorted;
    HeadNotPresent(cfg, st);
    GoodRemove(cfg, st.profile, h);
    var m := Present(st.profile);
    assert m - {h} == m;
    assert m.Keys + {h} - {h} == m.Keys;
    if Accounted(st.(queue := q), known) { FewerRunning(st.(queue := q), Remove(st.profile, h, {}), known); }
  }

  /** After the queue is sorted the head has a reservation; it is the old one when the head did not change, and then
      nothing else did. */
  lemma SortAndPlaceHeadKeeps(cfg: Config, known: set<JobId>, st: State, before: Option<JobId>, date: real, b: real)
    requires if before.None? then Unreserved(cfg, st) else Reserved(cfg, st, b) && before == Head(st.queue)
    requires SortAndPlaceHead(cfg, st, before, date).Some?
    ensures var r := SortAndPlaceHead(cfg, st, before, date).value;
            && (r.queue == [] ==> Unreserved(cfg, r)) && (r.queue != [] ==> exists c :: Reserved(cfg, r, c))
            && (before.None? || Firm(cfg, st) ==> Firm(cfg, r))
            && Proceeds(cfg, known, st.(queue := SortQueue(cfg.order, st.queue, date)), r)
            && (before.Some? && Head(SortQueue(cfg.order, st.queue, date)) == before ==>
                  Reserved(cfg, r, b) && r.queue[0].job == st.queue[0].job && r.profile == st.profile)
  {
    hide Base, SortQueue, PlaceHead, Remove, JobSet, Present, Reservation, Proceeds;
    SortKeepsBase(cfg, st, date, b);
    var sorted := st.(queue := SortQueue(cfg.order, st.queue, date));
    if Head(sorted.queue) == before {
      NothingHappens(cfg, known, sorted);
    } else if before.Some? {
      DropReservation(cfg, known, st, b, before.value, sorted.queue);
      PlaceHeadKeeps(cfg, known, sorted.(profile := Remove(st.profile, before.value, {})));
      ProceedsOn(cfg, known, sorted, sorted.(profile := Remove(st.profile, before.value, {})),
                 SortAndPlaceHead(cfg, st, before, date).value);
    } else {
      PlaceHeadKeeps(cfg, known, sorted);
    }
  }

  lemma NothingHappens(cfg: Config, known: set<JobId>, st: State)
    ensures Proceeds(cfg, known, st, st)
  {
  }

  lemma ProceedsOn(cfg: Config, known: set<JobId>, st: State, s: State, r: State)
    requires Proceeds(cfg, known, st, s) && Proceeds(cfg, known, s, r)
    ensures Proceeds(cfg, known, st, r)
  {
    hide Present, Accounted, Sorted;
  }

  // ---------------------------------------------------------------- backfilling

  lemma NotInProfile(cfg: Config, st: State, i: nat, b: real)
    requires Reserved(cfg, st, b) && 0 < i < |st.queue|
    ensures st.queue[i].job.id != st.queue[0].job.id && !Contains(st.profile, st.queue[i].job.id)
    ensures JobOk(cfg, st.queue[i].job)
  {
    hide Good, JobSet, Present, Reservation, JobOk;
    assert st.queue[i] in st.queue && st.queue[i].job.id in QueueIds(st.queue);
    JobSetContains(st.profile, st.queue[i].job.id);
  }

  /** Trying one job behind the head, at any position, leaves the head's reservation untouched:
      the job starts elsewhere, or it leaves no trace in the profile. */
  lemma TryBehindHead(cfg: Config, known: set<JobId>, st: State, i: nat, job: Job, b: real)
    requires Reserved(cfg, st, b) && Firm(cfg, st)
    requires 0 < i < |st.queue| && st.queue[i].job.id == job.id && JobOk(cfg, job)
    requires Insertion(cfg, st.profile, job).Some?
    ensures var Added(p, alloc) := Insertion(cfg, st.profile, job).value;
            if alloc.startedInFirstSlice then
              var r := State(p, WithoutIndex(st.queue, i), st.decisions + [Execute(job.id, alloc.machines)]);
              Reserved(cfg, r, b) && Firm(cfg, r) && r.queue[0] == st.queue[0] && Proceeds(cfg, known, st, r)
            else Remove(p, job.id, {}) == st.profile
  {
    hide Good, QueueOk, JobSet, Present, Insertion, JobOk, Reservation, Remove, Proceeds;
    NotInProfile(cfg, st, i, b);
    BaseGood(cfg, st);
    GoodInsertion(cfg, st.profile, job);
    if AsksForNone(cfg, st.queue[0].job) {
      FirmStartsNothing(cfg, st, job);
    } else {
      InsertionKeepsReservation(cfg, st.profile, job, st.queue[0].job, b);
    }
    var Added(p, alloc) := Insertion(cfg, st.profile, job).value;
    if alloc.startedInFirstSlice {
      StartJob(cfg, known, st, i, job);
      FewerQueued(st.queue, i);
      var h := st.queue[0].job.id;
      assert Present(st.profile).Keys + {h} + {job.id} == Present(st.profile).Keys + {job.id} + {h};
    }
  }

  lemma {:induction false} BackfillNewKeeps(cfg: Config, known: set<JobId>, st: State, recent: seq<Job>, nb: int,
                                            b: real)
    requires Reserved(cfg, st, b) && Firm(cfg, st) && BackfillNew(cfg, st, recent, nb).Some?
    requires forall k :: k in recent ==> JobOk(cfg, k)
    ensures var r := BackfillNew(cfg, st, recent, nb).value;
            Reserved(cfg, r, b) && Firm(cfg, r) && r.queue[0] == st.queue[0] && Proceeds(cfg, known, st, r)
    decreases |recent|
  {
    hide Base, JobOk, Insertion, Remove, JobSet, Present, Reservation, WithoutIndex, Accounted, Sorted;
    if recent != [] && nb > 0 {
      var job := recent[0];
      if job.id in QueueIds(st.queue) && Head(st.queue) != Some(job.id) && job.res <= nb {
        var i := IndexOf(st.queue, job.id, 0);
        IndexOfQueued(st.queue, job.id);
        TryBehindHead(cfg, known, st, i, job, b);
        var Added(p, alloc) := Insertion(cfg, st.profile, job).value;
        if alloc.startedInFirstSlice {
          var s := State(p, WithoutIndex(st.queue, i), st.decisions + [Execute(job.id, alloc.machines)]);
          BackfillNewKeeps(cfg, known, s, recent[1..], nb - job.res, b);
        } else {
          BackfillNewKeeps(cfg, known, st, recent[1..], nb, b);
        }
      } else {
        BackfillNewKeeps(cfg, known, st, recent[1..], nb, b);
      }
    }
  }

  lemma IndexOfQueued(q: JobQueue, id: JobId)
    requires id in QueueIds(q)
    ensures IndexOf(q, id, 0) < |q| && (Head(q) != Some(id) ==> IndexOf(q, id, 0) > 0)
  {
    var i :| 0 <= i < |q| && q[i].job.id == id;
  }

  lemma {:induction false} BackfillNothing(cfg: Config, st: State, recent: seq<Job>, nb: int)
    requires st.queue == []
    ensures BackfillNew(cfg, st, recent, nb) == Some(st)
    decreases |recent|
  {
    if recent != [] && nb > 0 {
      BackfillNothing(cfg, st, recent[1..], nb);
    }
  }

  lemma {:induction false} TraverseBehindHead(cfg: Config, known: set<JobId>, st: State, i: nat, b: real)
    requires Reserved(cfg, st, b) && Firm(cfg, st) && i > 0 && Traverse(cfg, st, i, Head(st.queue)).Some?
    ensures var r := Traverse(cfg, st, i, Head(st.queue)).value;
            Reserved(cfg, r, b) && Firm(cfg, r) && r.queue[0] == st.queue[0] && Proceeds(cfg, known, st, r)
    decreases |st.queue| - i
  {
    hide Base, JobOk, Insertion, Remove, JobSet, Present, Reservation, WithoutIndex, Contains, Accounted, Sorted;
    if i < |st.queue| {
      var job := st.queue[i].job;
      NotInProfile(cfg, st, i, b);
      RemoveAbsent(st.profile, job.id, {});
      TryBehindHead(cfg, known, st, i, job, b);
      var Added(p, alloc) := Insertion(cfg, st.profile, job).value;
      if alloc.startedInFirstSlice {
        FewerQueued(st.queue, i);
        TraverseBehindHead(cfg, known,
                           State(p, WithoutIndex(st.queue, i), st.decisions + [Execute(job.id, alloc.machines)]), i, b);
      } else {
        TraverseBehindHead(cfg, known, st, i + 1, b);
      }
    }
  }

  lemma {:induction false} TraverseFromHead(cfg: Config, known: set<JobId>, st: State)
    requires Unreserved(cfg, st) && Traverse(cfg, st, 0, Head(st.queue)).Some?
    ensures Inv(cfg, Traverse(cfg, st, 0, Head(st.queue)).value)
    ensures Proceeds(cfg, known, st, Traverse(cfg, st, 0, Head(st.queue)).value)
    decreases |st.queue|
  {
    hide Good, QueueOk, JobOk, Insertion, Remove, JobSet, Present, Reservation, WithoutIndex, Contains, Accounted,
         Sorted;
    if st.queue != [] {
      var job := st.queue[0].job;
      HeadNotPresent(cfg, st);
      JobSetContains(st.profile, job.id);
      RemoveAbsent(st.profile, job.id, {});
      var Added(p, alloc) := Insertion(cfg, st.profile, job).value;
      if alloc.startedInFirstSlice {
        StartJob(cfg, known, st, 0, job);
        FewerQueued(st.queue, 0);
        TraverseFromHead(cfg, known,
                         State(p, WithoutIndex(st.queue, 0), st.decisions + [Execute(job.id, alloc.machines)]));
      } else {
        GoodInsertion(cfg, st.profile, job);
        InsertionReserves(cfg, st.profile, job);
        ReserveProceeds(cfg, known, st, p);
        WaitingIsFirm(cfg, st);
        TraverseBehindHead(cfg, known, st.(profile := p), 1, alloc.begin);
      }
    }
  }

  /** The head has started, or is still the head with a reservation at b or earlier. */
  ghost predicate NotDelayed(cfg: Config, st: State, job: Job, b: real) {
    || job.id in Present(st.profile)
    || exists c :: c <= b && Reserved(cfg, st, c) && st.queue[0].job == job
  }

  lemma TraverseReserved(cfg: Config, known: set<JobId>, st: State, b: real)
    requires Reserved(cfg, st, b) && Traverse(cfg, st, 0, Head(st.queue)).Some?
    ensures var r := Traverse(cfg, st, 0, Head(st.queue)).value;
            Inv(cfg, r) && NotDelayed(cfg, r, st.queue[0].job, b) && Proceeds(cfg, known, st, r)
  {
    hide Good, QueueOk, JobOk, Insertion, Remove, JobSet, Present, Reservation, WithoutIndex, Contains, Accounted,
         Sorted;
    var job := st.queue[0].job;
    HeadNotPresent(cfg, st);
    BaseGood(cfg, st);
    DropReservation(cfg, known, st, b, job.id, st.queue);
    var s := st.(profile := Remove(st.profile, job.id, {}));
    ReplacedNoLater(cfg, st.profile, job, b);
    var Added(p, alloc) := Insertion(cfg, s.profile, job).value;
    if alloc.startedInFirstSlice {
      StartJob(cfg, known, s, 0, job);
      TraverseFromHead(cfg, known,
                       State(p, WithoutIndex(st.queue, 0), st.decisions + [Execute(job.id, alloc.machines)]));
    } else {
      GoodInsertion(cfg, s.profile, job);
      InsertionReserves(cfg, s.profile, job);
      ReserveProceeds(cfg, known, s, p);
      WaitingIsFirm(cfg, s);
      TraverseBehindHead(cfg, known, st.(profile := p), 1, alloc.begin);
    }
  }

  // ---------------------------------------------------------------- one call

  lemma {:induction false} AcceptedOk(cfg: Config, released: seq<Job>)
    requires forall i :: 0 <= i < |released| ==> released[i].hasWalltime ==> released[i].walltime > 0.0
    ensures forall k :: k in Accepted(cfg, released) ==> JobOk(cfg, k)
    decreases |released|
  {
    if released != [] {
      AcceptedOk(cfg, released[1..]);
    }
  }

  lemma BackfillKeeps(cfg: Config, known: set<JobId>, st: State, call: Call, b: real)
    requires (if st.queue == [] then Unreserved(cfg, st) else Reserved(cfg, st, b)) && Backfill(cfg, st, call).Some?
    requires call.ended == [] ==> Firm(cfg, st)
    requires forall k :: k in Accepted(cfg, call.released) ==> JobOk(cfg, k)
    ensures var r := Backfill(cfg, st, call).value;
            Inv(cfg, r) && Proceeds(cfg, known, st, r) && (st.queue != [] ==> NotDelayed(cfg, r, st.queue[0].job, b))
  {
    hide Base, JobOk, BackfillNew, Traverse, JobSet, Present, Reservation, Accounted, Sorted;
    if call.ended == [] {
      if st.queue == [] {
        BackfillNothing(cfg, st, Accepted(cfg, call.released), |st.profile[0].available|);
      } else {
        BackfillNewKeeps(cfg, known, st, Accepted(cfg, call.released), |st.profile[0].available|, b);
      }
    } else if |st.profile[0].available| > 0 {
      if st.queue == [] { TraverseFromHead(cfg, known, st); } else { TraverseReserved(cfg, known, st, b); }
    }
  }

  /** Arrivals without completions leave the machines taken that were taken. */
  lemma ArriveFirm(cfg: Config, st: State, call: Call)
    requires Base(cfg, st) && CallOk(st, call) && Arrive(cfg, st, call).Some?
    requires Firm(cfg, st) && st.queue != [] && call.ended == []
    ensures Firm(cfg, Arrive(cfg, st, call).value)
  {
    hide Good, QueueOk, JobSet, Present, ReleaseJobs;
    ReleaseJobsKeep(cfg, st, call.released, call.date, 0.0);
  }

  /** Every call keeps the invariant: the profile is valid and in normal form, and holds exactly the running jobs
      and a reservation for the head of the queue. */
  lemma StepKeepsInv(cfg: Config, st: State, call: Call)
    requires Inv(cfg, st) && CallOk(st, call) && Step(cfg, st, call).Some?
    ensures Inv(cfg, Step(cfg, st, call).value)
  {
    hide Base, JobOk, Arrive, SortAndPlaceHead, Backfill, Reservation, JobSet, Present, Proceeds, NotDelayed, Firm;
    var b: real :| if st.queue == [] then Unreserved(cfg, st) else Reserved(cfg, st, b);
    InvBase(cfg, st);
    ArriveKeeps(cfg, st, call, b);
    if st.queue != [] && call.ended == [] { ArriveFirm(cfg, st, call); }
    var s := Arrive(cfg, st, call).value;
    SortAndPlaceHeadKeeps(cfg, {}, s, Head(st.queue), call.date, b);
    var r := SortAndPlaceHead(cfg, s, Head(st.queue), call.date).value;
    AcceptedOk(cfg, call.released);
    var c: real :| if r.queue == [] then Unreserved(cfg, r) else Reserved(cfg, r, c);
    BackfillKeeps(cfg, {}, r, call, c);
  }

  lemma InvBase(cfg: Config, st: State)
    requires Inv(cfg, st)
    ensures Base(cfg, st)
  {
  }

  /** The head of the queue once the call's releases are queued and sorted. */
  ghost function HeadAfterSort(cfg: Config, st: State, call: Call): Option<JobId> {
    match Arrive(cfg, st, call)
    case None => None
    case Some(s) => Head(SortQueue(cfg.order, s.queue, call.date))
  }

  /** The EASY guarantee of one call: the head is never late, and unless the sort put another job before it, it has
      started or keeps a reservation no later than the one it had. */
  lemma HeadIsNotDelayed(cfg: Config, st: State, call: Call, b: real)
    requires Reserved(cfg, st, b) && Inv(cfg, st) && CallOk(st, call) && Step(cfg, st, call).Some?
    ensures call.date <= b
    ensures HeadAfterSort(cfg, st, call) == Head(st.queue) ==>
              NotDelayed(cfg, Step(cfg, st, call).value, st.queue[0].job, b)
  {
    hide Base, JobOk, Arrive, SortAndPlaceHead, Backfill, Reservation, JobSet, Present, Proceeds, NotDelayed, Firm;
    ArriveKeeps(cfg, st, call, b);
    if call.ended == [] { ArriveFirm(cfg, st, call); }
    var s := Arrive(cfg, st, call).value;
    SortAndPlaceHeadKeeps(cfg, {}, s, Head(st.queue), call.date, b);
    var r := SortAndPlaceHead(cfg, s, Head(st.queue), call.date).value;
    AcceptedOk(cfg, call.released);
    if HeadAfterSort(cfg, st, call) == Head(st.queue) {
      BackfillKeeps(cfg, {}, r, call, b);
    }
  }

  // ---------------------------------------------------------------- whole runs

  ghost predicate IsRun(cfg: Config, states: seq<State>, calls: seq<Call>) {
    && |states| == |calls| + 1
    && Inv(cfg, states[0])
    && forall i :: 0 <= i < |calls| ==>
        CallOk(states[i], calls[i]) && Step(cfg, states[i], calls[i]) == Some(states[i + 1])
  }

  lemma RunStep(cfg: Config, states: seq<State>, calls: seq<Call>, i: nat)
    requires IsRun(cfg, states, calls) && i < |calls|
    ensures CallOk(states[i], calls[i]) && Step(cfg, states[i], calls[i]) == Some(states[i + 1])
  {
    hide Inv, CallOk, Step;
  }

  lemma {:induction false} RunKeepsInv(cfg: Config, states: seq<State>, calls: seq<Call>, n: nat)
    requires IsRun(cfg, states, calls) && n <= |calls|
    ensures Inv(cfg, states[n])
    decreases n
  {
    hide Inv, CallOk, Step;
    if n > 0 {
      RunKeepsInv(cfg, states, calls, n - 1);
      RunStep(cfg, states, calls, n - 1);
      StepKeepsInv(cfg, states[n - 1], calls[n - 1]);
    }
  }

  /** The empty platform is a state runs can start from. */
  lemma InitialState(cfg: Config, date: real, horizon: real)
    requires cfg.nbMachines > 0 && date <= horizon
    ensures Inv(cfg, State(Fresh(cfg.nbMachines, date, horizon), [], []))
  {
    hide Valid, JobSet;
    FreshIsValid(cfg.nbMachines, date, horizon);
  }

  /** The job is at the head of the queue before each of the calls m to n - 1, and the sort keeps it there. */
  ghost predicate StaysHead(cfg: Config, states: seq<State>, calls: seq<Call>, job: Job, m: nat, n: nat)
    requires |states| == |calls| + 1 && n <= |calls|
  {
    forall i :: m <= i < n ==>
      states[i].queue != [] && states[i].queue[0].job == job && HeadAfterSort(cfg, states[i], calls[i]) == Some(job.id)
  }

  /** The EASY guarantee over whole runs: from the call after which a job at the head of the queue has the date b
      reserved, as long as it stays the head, every call happens by b and leaves it started or reserved by b. */
  lemma {:induction false} EasyGuarantee(cfg: Config, states: seq<State>, calls: seq<Call>, job: Job, m: nat, n: nat,
                                         b: real)
    requires IsRun(cfg, states, calls) && m <= n <= |calls|
    requires Reserved(cfg, states[m], b) && states[m].queue[0].job == job
    requires StaysHead(cfg, states, calls, job, m, n)
    ensures NotDelayed(cfg, states[n], job, b)
    ensures forall i :: m <= i < n ==> calls[i].date <= b
    decreases n
  {
    hide Inv, CallOk, Step, HeadAfterSort, Base, JobSet, Reservation;
    if m < n {
      EasyGuarantee(cfg, states, calls, job, m, n - 1, b);
      var st := states[n - 1];
      RunKeepsInv(cfg, states, calls, n - 1);
      HeadReserved(cfg, st);
      HeadNotPresent(cfg, st) by { InvBase(cfg, st); }
      var c :| c <= b && Reserved(cfg, st, c) && st.queue[0].job == job;
      RunStep(cfg, states, calls, n - 1);
      HeadIsNotDelayed(cfg, st, calls[n - 1], c);
      assert HeadAfterSort(cfg, st, calls[n - 1]) == Some(job.id);
      NotDelayedWeaken(cfg, states[n], job, c, b);
    }
  }

  lemma HeadReserved(cfg: Config, st: State)
    requires Inv(cfg, st) && st.queue != []
    ensures exists b :: Reserved(cfg, st, b)
  {
  }

  lemma NotDelayedWeaken(cfg: Config, st: State, job: Job, c: real, b: real)
    requires NotDelayed(cfg, st, job, c) && c <= b
    ensures NotDelayed(cfg, st, job, b)
  {
  }
}
