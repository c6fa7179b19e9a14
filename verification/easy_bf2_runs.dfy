/** Whole runs of the EASY scheduler: no job is lost or started twice, and in first-come order the head of the queue
    starts by the date reserved for it, unless a tie displaces it. */
module EasyBf2Runs {
  import opened Profiles
  import opened Membership
  import opened Queues
  import opened EasyBf2Model
  import opened EasyBf2Proofs
  import opened EasyBf2Accounts
  import opened EasyBf2Guarantee
  import opened EasyBf2Starts

  // ---------------------------------------------------------------- accounts

  lemma {:induction false} EndJobsAccounts(cfg: Config, st: State, ended: seq<JobId>, known: set<JobId>)
    requires Base(cfg, st) && (forall j :: j in ended ==> j !in QueueIds(st.queue)) && EndJobs(st, ended).Some?
    requires Accounted(st, known)
    ensures Accounted(EndJobs(st, ended).value, known)
    decreases |ended|
  {
    hide Good, QueueOk, Remove, Contains, JobSet, Present, Accounted;
    if ended != [] {
      GoodRemove(cfg, st.profile, ended[0]);
      EndOne(cfg, st, ended[0], 0.0);
      FewerRunning(st, Remove(st.profile, ended[0], {}), known);
      EndJobsAccounts(cfg, st.(profile := Remove(st.profile, ended[0], {})), ended[1..], known);
    }
  }

  lemma ArriveAccounts(cfg: Config, st: State, call: Call, known: set<JobId>)
    requires Base(cfg, st) && CallOk(st, call) && Arrive(cfg, st, call).Some?
    requires Accounted(st, known) && Ids(call.released) !! known
    ensures Accounted(Arrive(cfg, st, call).value, known + Ids(call.released))
  {
    hide Base, Accounted, EndJobs, ReleaseJobs, QueueIds, JobSet, Advance;
    EndJobsAccounts(cfg, st, call.ended, known);
    var s := EndJobs(st, call.ended).value;
    ReleaseAllAccounts(cfg, s, call.released, call.date, known);
    var r := ReleaseJobs(cfg, s, call.released, call.date);
    AdvanceJobSet(r.profile, call.date);
    FewerRunning(r, Advance(r.profile, call.date), known + Ids(call.released));
  }

  /** A call takes its released jobs into the accounts and loses no other; it leaves the queue in order, with the jobs
      that were there on arrival but for those that it started. */
  lemma StepAccounts(cfg: Config, st: State, call: Call, known: set<JobId>)
    requires Inv(cfg, st) && CallOk(st, call) && Step(cfg, st, call).Some?
    ensures var r := Step(cfg, st, call).value;
            && (Accounted(st, known) && Ids(call.released) !! known ==> Accounted(r, known + Ids(call.released)))
            && Sorted(cfg.order, r.queue)
            && (forall k :: k in r.queue ==> k in SortQueue(cfg.order, Arrive(cfg, st, call).value.queue, call.date))
            && forall k :: k in SortQueue(cfg.order, Arrive(cfg, st, call).value.queue, call.date) ==>
                 k in r.queue || k.job.id in Present(r.profile)
  {
    hide Base, Accounted, Arrive, SortAndPlaceHead, Backfill, Reservation, JobSet, NotDelayed, SortQueue, Sorted, JobOk,
         Firm;
    var b: real :| if st.queue == [] then Unreserved(cfg, st) else Reserved(cfg, st, b);
    InvBase(cfg, st);
    ArriveKeeps(cfg, st, call, b);
    if st.queue != [] && call.ended == [] { ArriveFirm(cfg, st, call); }
    var all := known + Ids(call.released);
    var s := Arrive(cfg, st, call).value;
    var sorted := s.(queue := SortQueue(cfg.order, s.queue, call.date));
    SortAndPlaceHeadKeeps(cfg, all, s, Head(st.queue), call.date, b);
    var r := SortAndPlaceHead(cfg, s, Head(st.queue), call.date).value;
    AcceptedOk(cfg, call.released);
    var c: real :| if r.queue == [] then Unreserved(cfg, r) else Reserved(cfg, r, c);
    BackfillKeeps(cfg, all, r, call, c);
    assert Distinct(s.queue) by { BaseGood(cfg, s); }
    QueueSorted(cfg.order, s.queue, call.date);
    if Accounted(st, known) && Ids(call.released) !! known {
      ArriveAccounts(cfg, st, call, known);
      SortAccounts(cfg, s, call.date, all);
    }
  }

  /** A run from the empty platform in which no identifier is used twice. */
  ghost predicate IsFreshRun(cfg: Config, states: seq<State>, calls: seq<Call>) {
    && IsRun(cfg, states, calls)
    && Accounted(states[0], {})
    && forall i :: 0 <= i < |calls| ==> Ids(calls[i].released) !! Known(calls, i)
  }

  /** Nothing is known of any job on the empty platform. */
  lemma InitialAccounts(nbMachines: nat, date: real, horizon: real)
    ensures Accounted(State(Fresh(nbMachines, date, horizon), [], []), {})
  {
    assert Decided([]) == {} && QueueIds([]) == {};
  }

  /** After every call each job released so far is waiting or was decided on exactly once, never both, and every
      running job runs on the machines of its decision. */
  lemma {:induction false} NoJobIsLost(cfg: Config, states: seq<State>, calls: seq<Call>, n: nat)
    requires IsFreshRun(cfg, states, calls) && n <= |calls|
    ensures Accounted(states[n], Known(calls, n))
    decreases n
  {
    hide Inv, CallOk, Step, Accounted;
    if n > 0 {
      NoJobIsLost(cfg, states, calls, n - 1);
      RunKeepsInv(cfg, states, calls, n - 1);
      RunStep(cfg, states, calls, n - 1);
      StepAccounts(cfg, states[n - 1], calls[n - 1], Known(calls, n - 1));
    }
  }

  // ---------------------------------------------------------------- first come, first served

  function Queued(jobs: seq<Job>, date: real): (q: JobQueue)
    ensures |q| == |jobs| && forall k :: 0 <= k < |q| ==> q[k] == Entry(jobs[k], date)
  {
    seq(|jobs|, k requires 0 <= k < |jobs| => Entry(jobs[k], date))
  }

  lemma {:induction false} ReleaseQueue(cfg: Config, st: State, released: seq<Job>, date: real)
    ensures ReleaseJobs(cfg, st, released, date).queue == st.queue + Queued(Accepted(cfg, released), date)
    decreases |released|
  {
    if released != [] {
      ReleaseQueue(cfg, ReleaseJob(cfg, st, released[0], date), released[1..], date);
    }
  }

  /** The accepted jobs of a call join the end of the queue. */
  lemma ArriveQueue(cfg: Config, st: State, call: Call)
    requires Base(cfg, st) && CallOk(st, call) && Arrive(cfg, st, call).Some?
    ensures Arrive(cfg, st, call).value.queue == st.queue + Queued(Accepted(cfg, call.released), call.date)
  {
    hide Base, EndJobs, ReleaseJobs, Advance, JobSet, Queued;
    EndJobsKeep(cfg, st, call.ended, 0.0);
    ReleaseQueue(cfg, EndJobs(st, call.ended).value, call.released, call.date);
  }

  /** In first-come order sorting rearranges the queue without changing its entries. */
  lemma FcfsSort(q: JobQueue, date: real)
    requires Distinct(q)
    ensures var r := SortQueue(FCFS, q, date);
            Sorted(FCFS, r) && |r| == |q| && forall k :: k in r <==> k in q
  {
    hide Sorted, Distinct, Sort;
    var a := AgedQueue(FCFS, q, date);
    assert a == q;
    SortPermutes(FCFS, q);
    QueueSorted(FCFS, q, date);
    forall k ensures k in Sort(FCFS, q) <==> k in q {
      assert k in multiset(Sort(FCFS, q)) <==> k in multiset(q);
    }
  }

  lemma FcfsFirst(q: JobQueue, h: SortableJob, r: JobQueue)
    requires Sorted(FCFS, r) && h in r && r[0] in q
    requires forall k :: k in q && k != h ==> Before(FCFS, h, k)
    ensures r[0] == h
  {
    hide Before;
    var i :| 0 <= i < |r| && r[i] == h;
    if i > 0 && r[0] != h {
      assert Before(FCFS, r[0], r[i]) && Before(FCFS, h, r[0]);
      BeforeAsymmetric(FCFS, h, r[0]);
    }
  }

  /** A job accepted at the date at which the head was released comes before it by its identifier. */
  ghost predicate Tied(cfg: Config, st: State, call: Call) {
    st.queue != [] && st.queue[0].releaseDate == call.date
    && exists k :: k in Accepted(cfg, call.released) && IdLess(k.id, st.queue[0].job.id)
  }

  lemma HeadComesFirst(cfg: Config, st: State, call: Call, k: SortableJob)
    requires Sorted(FCFS, st.queue) && st.queue != [] && st.queue[0].releaseDate <= call.date && !Tied(cfg, st, call)
    requires k in st.queue + Queued(Accepted(cfg, call.released), call.date) && k.job.id != st.queue[0].job.id
    ensures Before(FCFS, st.queue[0], k)
  {
    hide IdLess;
    var added := Queued(Accepted(cfg, call.released), call.date);
    var q := st.queue + added;
    var i :| 0 <= i < |q| && q[i] == k;
    if i < |st.queue| {
      assert st.queue[i] == k;
    } else {
      assert k.job == Accepted(cfg, call.released)[i - |st.queue|];
      IdLessTotal(k.job.id, st.queue[0].job.id);
    }
  }

  /** In first-come order the head keeps its place exactly when no job accepted at its own release date has a smaller
      identifier. */
  lemma FcfsKeepsHeadIff(cfg: Config, st: State, call: Call)
    requires cfg.order == FCFS && Inv(cfg, st) && Sorted(FCFS, st.queue) && st.queue != []
    requires CallOk(st, call) && Arrive(cfg, st, call).Some? && st.queue[0].releaseDate <= call.date
    ensures HeadAfterSort(cfg, st, call) == Head(st.queue) <==> !Tied(cfg, st, call)
  {
    hide Base, Arrive, SortQueue, JobSet, Before, IdLess, Sorted;
    InvBase(cfg, st);
    ArriveKeeps(cfg, st, call, 0.0);
    ArriveQueue(cfg, st, call);
    var q, h := Arrive(cfg, st, call).value.queue, st.queue[0];
    assert Distinct(q) by { BaseGood(cfg, Arrive(cfg, st, call).value); }
    FcfsSort(q, call.date);
    var r := SortQueue(FCFS, q, call.date);
    assert q[0] == h && h in q && h in r && r[0] in r && r[0] in q;
    if Tied(cfg, st, call) {
      TieDisplaces(cfg, st, call, r);
    } else {
      forall k | k in q && k != h ensures Before(FCFS, h, k) {
        SameEntry(q, k);
        HeadComesFirst(cfg, st, call, k);
      }
      FcfsFirst(q, h, r);
    }
  }

  lemma SameEntry(q: JobQueue, k: SortableJob)
    requires Distinct(q) && q != [] && k in q && k != q[0]
    ensures k.job.id != q[0].job.id
  {
  }

  lemma TieDisplaces(cfg: Config, st: State, call: Call, r: JobQueue)
    requires Tied(cfg, st, call) && Sorted(FCFS, r) && r != []
    requires var q := st.queue + Queued(Accepted(cfg, call.released), call.date);
             Distinct(q) && forall k :: k in r <==> k in q
    ensures r[0].job.id != st.queue[0].job.id
  {
    hide IdLess, Distinct;
    var h, jobs := st.queue[0], Accepted(cfg, call.released);
    var q := st.queue + Queued(jobs, call.date);
    var j :| j in jobs && IdLess(j.id, h.job.id);
    var i :| 0 <= i < |jobs| && jobs[i] == j;
    var k := Entry(j, call.date);
    assert k == q[|st.queue| + i] && k in q && k in r;
    var x :| 0 <= x < |r| && r[x] == k;
    IdLessTotal(j.id, h.job.id);
    assert q[0] == h && r[0] in q;
    if r[0].job.id == h.job.id {
      if r[0] != q[0] { SameEntry(q, r[0]); }
    }
  }

  ghost predicate ReleasedBy(q: JobQueue, date: real) {
    forall k :: k in q ==> k.releaseDate <= date
  }

  lemma StepDates(cfg: Config, st: State, call: Call)
    requires cfg.order == FCFS && Inv(cfg, st) && CallOk(st, call) && Step(cfg, st, call).Some?
    requires ReleasedBy(st.queue, call.date)
    ensures ReleasedBy(Step(cfg, st, call).value.queue, call.date)
  {
    hide Base, Arrive, SortQueue, JobSet, Accounted, SortAndPlaceHead, Backfill, Sorted;
    InvBase(cfg, st);
    StepAccounts(cfg, st, call, {});
    ArriveKeeps(cfg, st, call, 0.0);
    ArriveQueue(cfg, st, call);
    var q := Arrive(cfg, st, call).value.queue;
    assert Distinct(q) by { BaseGood(cfg, Arrive(cfg, st, call).value); }
    FcfsSort(q, call.date);
    forall k | k in Step(cfg, st, call).value.queue ensures k.releaseDate <= call.date {
      assert k in q;
      var i :| 0 <= i < |q| && q[i] == k;
      if i < |st.queue| { assert st.queue[i] == k; }
    }
  }

  /** A run in first-come order from an empty queue. Several calls may share a date. */
  ghost predicate IsFcfsRun(cfg: Config, states: seq<State>, calls: seq<Call>) {
    && cfg.order == FCFS
    && IsRun(cfg, states, calls)
    && states[0].queue == []
    && forall i, k :: 0 <= i < k < |calls| ==> calls[i].date <= calls[k].date
  }

  lemma {:induction false} FcfsQueue(cfg: Config, states: seq<State>, calls: seq<Call>, n: nat)
    requires IsFcfsRun(cfg, states, calls) && n <= |calls|
    ensures Sorted(FCFS, states[n].queue)
    ensures n > 0 ==> ReleasedBy(states[n].queue, calls[n - 1].date)
    decreases n
  {
    hide Inv, CallOk, Step, Accounted, ReleasedBy;
    if n > 0 {
      FcfsQueue(cfg, states, calls, n - 1);
      RunKeepsInv(cfg, states, calls, n - 1);
      RunStep(cfg, states, calls, n - 1);
      StepAccounts(cfg, states[n - 1], calls[n - 1], {});
      assert ReleasedBy(states[n - 1].queue, calls[n - 1].date) by {
        if n > 1 {
          Later(states[n - 1].queue, calls[n - 2].date, calls[n - 1].date);
        } else {
          NoneReleased(calls[0].date);
        }
      }
      StepDates(cfg, states[n - 1], calls[n - 1]);
    }
  }

  lemma Later(q: JobQueue, a: real, b: real)
    requires ReleasedBy(q, a) && a <= b
    ensures ReleasedBy(q, b)
  {
  }

  lemma NoneReleased(date: real)
    ensures ReleasedBy([], date)
  {
  }

  ghost predicate StillHead(cfg: Config, st: State, job: Job, b: real) {
    exists c :: c <= b && Reserved(cfg, st, c) && st.queue[0].job == job
  }

  /** The head was released by the next call. */
  lemma HeadReleased(cfg: Config, states: seq<State>, calls: seq<Call>, n: nat)
    requires IsFcfsRun(cfg, states, calls) && n < |calls| && states[n].queue != []
    ensures states[n].queue[0].releaseDate <= calls[n].date
  {
    hide Inv, CallOk, Step, Sorted;
    FcfsQueue(cfg, states, calls, n);
    assert states[n].queue[0] in states[n].queue;
  }

  lemma StepArrives(cfg: Config, st: State, call: Call)
    requires Step(cfg, st, call).Some?
    ensures Arrive(cfg, st, call).Some?
  {
  }

  lemma FcfsCall(cfg: Config, states: seq<State>, calls: seq<Call>, job: Job, n: nat, b: real)
    requires IsFcfsRun(cfg, states, calls) && n < |calls| && StillHead(cfg, states[n], job, b)
    ensures calls[n].date <= b
    ensures job.id in Present(states[n + 1].profile) || StillHead(cfg, states[n + 1], job, b)
            || Tied(cfg, states[n], calls[n])
  {
    hide Inv, CallOk, Step, HeadAfterSort, Base, JobSet, Reservation, Sorted, ReleasedBy, Present, Tied;
    var st, call := states[n], calls[n];
    var c :| c <= b && Reserved(cfg, st, c) && st.queue[0].job == job;
    RunKeepsInv(cfg, states, calls, n);
    RunStep(cfg, states, calls, n);
    FcfsQueue(cfg, states, calls, n);
    HeadReleased(cfg, states, calls, n);
    StepArrives(cfg, st, call);
    FcfsKeepsHeadIff(cfg, st, call);
    HeadIsNotDelayed(cfg, st, call, c);
    assert Tied(cfg, st, call) || NotDelayed(cfg, states[n + 1], job, c);
  }

  /** In first-come order the guarantee needs no condition on the queue: once a job is at the head with the date b
      reserved, it has started at a call no later than b, or is still the head with a date no later than b reserved,
      unless a tie displaced it: a job accepted at the head's own release date, with a smaller identifier. */
  lemma {:induction false} FcfsGuarantee(cfg: Config, states: seq<State>, calls: seq<Call>, job: Job, m: nat, n: nat,
                                         b: real)
    requires |states| == |calls| + 1 && m <= n <= |calls| && IsFcfsRun(cfg, states, calls)
    requires Reserved(cfg, states[m], b) && states[m].queue[0].job == job
    ensures || (exists k :: m < k <= n && job.id in Present(states[k].profile) && calls[k - 1].date <= b)
            || StillHead(cfg, states[n], job, b)
            || (exists k :: m <= k < n && StillHead(cfg, states[k], job, b) && Tied(cfg, states[k], calls[k]))
    decreases n
  {
    hide Inv, CallOk, Step, Base, JobSet, Reservation, Present, Tied;
    if m < n {
      FcfsGuarantee(cfg, states, calls, job, m, n - 1, b);
      if StillHead(cfg, states[n - 1], job, b) {
        FcfsCall(cfg, states, calls, job, n - 1, b);
      }
    }
  }

  /** Each call has a later date than the one before. */
  ghost predicate LaterDates(calls: seq<Call>) {
    forall i :: 0 < i < |calls| ==> calls[i - 1].date < calls[i].date
  }

  /** No tie can displace a head that was released before the call, so with a later date at each call the guarantee is
      unconditional. */
  lemma FcfsGuaranteeLaterDates(cfg: Config, states: seq<State>, calls: seq<Call>, job: Job, m: nat, n: nat, b: real)
    requires |states| == |calls| + 1 && m <= n <= |calls| && IsFcfsRun(cfg, states, calls)
    requires LaterDates(calls)
    requires Reserved(cfg, states[m], b) && states[m].queue[0].job == job
    ensures || (exists k :: m < k <= n && job.id in Present(states[k].profile) && calls[k - 1].date <= b)
            || StillHead(cfg, states[n], job, b)
  {
    hide IsFcfsRun, LaterDates, Reserved, StillHead, Tied, Present;
    FcfsGuarantee(cfg, states, calls, job, m, n, b);
    forall k | m <= k < n && StillHead(cfg, states[k], job, b) ensures !Tied(cfg, states[k], calls[k]) {
      NoTieLater(cfg, states, calls, job, k, b);
    }
  }

  lemma NoTieLater(cfg: Config, states: seq<State>, calls: seq<Call>, job: Job, n: nat, b: real)
    requires IsFcfsRun(cfg, states, calls) && n < |calls| && StillHead(cfg, states[n], job, b)
    requires LaterDates(calls)
    ensures !Tied(cfg, states[n], calls[n])
  {
    hide Inv, CallOk, Step, Base, JobSet, Reservation;
    HeadReleasedBefore(cfg, states, calls, n);
  }

  lemma HeadReleasedBefore(cfg: Config, states: seq<State>, calls: seq<Call>, n: nat)
    requires IsFcfsRun(cfg, states, calls) && n < |calls| && states[n].queue != []
    requires LaterDates(calls)
    ensures states[n].queue[0].releaseDate < calls[n].date
  {
    hide Inv, CallOk, Step, Sorted;
    FcfsQueue(cfg, states, calls, n);
    assert states[n].queue[0] in states[n].queue;
  }

  /** Call n is later than b, or it has the date b and completions, and every job that still runs goes on past b. */
  ghost predicate MustHaveStarted(st: State, call: Call, b: real) {
    || b < call.date
    || (call.date == b && call.ended != [] && RunBeyond(st.profile, call.ended, b))
  }

  lemma FcfsDueCall(cfg: Config, states: seq<State>, calls: seq<Call>, job: Job, n: nat, b: real)
    requires IsFcfsRun(cfg, states, calls) && n < |calls| && StillHead(cfg, states[n], job, b)
    requires MustHaveStarted(states[n], calls[n], b) && !Tied(cfg, states[n], calls[n])
    ensures job.id in Present(states[n + 1].profile) && calls[n].date == b
  {
    hide Inv, CallOk, Step, HeadAfterSort, Base, JobSet, Reservation, Sorted, Present, Tied, RunBeyond;
    var st, call := states[n], calls[n];
    FcfsCall(cfg, states, calls, job, n, b);
    var c :| c <= b && Reserved(cfg, st, c) && st.queue[0].job == job;
    RunKeepsInv(cfg, states, calls, n);
    RunStep(cfg, states, calls, n);
    FcfsQueue(cfg, states, calls, n);
    HeadReleased(cfg, states, calls, n);
    StepArrives(cfg, st, call);
    FcfsKeepsHeadIff(cfg, st, call);
    HeadIsNotDelayed(cfg, st, call, c);
    HeadStartsOnTime(cfg, st, call, b);
  }

  /** In first-come order the head starts: once the run has a call after the date b reserved for it, or a call at b with
      completions after which every running job goes on past b, the head has started at a call no later than b, unless a
      tie displaced it. */
  lemma FcfsStarts(cfg: Config, states: seq<State>, calls: seq<Call>, job: Job, m: nat, n: nat, b: real)
    requires |states| == |calls| + 1 && m <= n < |calls| && IsFcfsRun(cfg, states, calls)
    requires Reserved(cfg, states[m], b) && states[m].queue[0].job == job
    requires MustHaveStarted(states[n], calls[n], b)
    ensures || (exists k :: m < k <= n + 1 && job.id in Present(states[k].profile) && calls[k - 1].date <= b)
            || (exists k :: m <= k <= n && StillHead(cfg, states[k], job, b) && Tied(cfg, states[k], calls[k]))
  {
    hide Inv, CallOk, Step, Base, JobSet, Reservation, Present, Tied, StillHead, MustHaveStarted;
    FcfsGuarantee(cfg, states, calls, job, m, n, b);
    if StillHead(cfg, states[n], job, b) && !Tied(cfg, states[n], calls[n]) {
      FcfsDueCall(cfg, states, calls, job, n, b);
    }
  }

  /** With a later date at each call no tie comes in between, and the head starts by the date reserved for it. */
  lemma FcfsStartsLaterDates(cfg: Config, states: seq<State>, calls: seq<Call>, job: Job, m: nat, n: nat, b: real)
    requires |states| == |calls| + 1 && m <= n < |calls| && IsFcfsRun(cfg, states, calls)
    requires LaterDates(calls)
    requires Reserved(cfg, states[m], b) && states[m].queue[0].job == job
    requires MustHaveStarted(states[n], calls[n], b)
    ensures exists k :: m < k <= n + 1 && job.id in Present(states[k].profile) && calls[k - 1].date <= b
  {
    hide IsFcfsRun, LaterDates, Reserved, StillHead, Tied, Present, MustHaveStarted;
    FcfsStarts(cfg, states, calls, job, m, n, b);
    forall k | m <= k <= n && StillHead(cfg, states[k], job, b) ensures !Tied(cfg, states[k], calls[k]) {
      NoTieLater(cfg, states, calls, job, k, b);
    }
  }
}
