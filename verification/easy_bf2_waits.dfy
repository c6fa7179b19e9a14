/** How long a job waits: in first-come order no job starves, whatever is backfilled. */
module EasyBf2Waits {
  import opened Machines
  import opened Profiles
  import opened Membership
  import opened Queues
  import opened EasyBf2Model
  import opened EasyBf2Proofs
  import opened EasyBf2Accounts
  import opened EasyBf2Guarantee
  import opened EasyBf2Runs
  import opened EasyBf2Progress

  // ---------------------------------------------------------------- the head's date

  /** The room before the horizon is still there when calls come later, as long as it is kept free. */
  lemma CalmLater(cfg: Config, lim: Limits, st: State, last: real)
    requires Calm(cfg, lim, st) && lim.last <= last && last + 3.0 * lim.longest <= lim.horizon
    ensures Calm(cfg, lim.(last := last), st)
  {
    hide Reserved, Unreserved, QuietBut, Firm;
    var later := lim.(last := last);
    if st.queue == [] {
      QuietLater(st.profile, {}, Busy(lim), Busy(later));
    } else {
      var c :| Held(cfg, lim, st, c);
      QuietLater(st.profile, {st.queue[0].job.id}, Busy(lim), Busy(later));
      QuietLater(st.profile, {}, Busy(lim) + lim.longest, Busy(later) + lim.longest);
      assert Held(cfg, later, st, c);
    }
  }

  /** The head is reserved within the longest walltime from the last call. */
  lemma ReservedSoon(cfg: Config, lim: Limits, st: State, b: real)
    requires Calm(cfg, lim, st) && Reserved(cfg, st, b)
    ensures b <= lim.last + lim.longest
  {
    hide Base, JobSet, Reservation, QuietBut, Firm, Room;
    var c :| Held(cfg, lim, st, c);
    ReservationUnique(cfg, st.profile, st.queue[0].job, b, c);
  }

  /** From the start on every call comes within the limits, and so does every walltime. */
  ghost predicate InRoomThroughout(cfg: Config, lim: Limits, start: real, states: seq<State>, calls: seq<Call>)
    requires |states| == |calls| + 1
  {
    && Calm(cfg, lim.(last := start), states[0]) && lim.last + 3.0 * lim.longest <= lim.horizon
    && (forall i :: 0 <= i < |calls| ==> start <= calls[i].date <= lim.last)
    && forall i, k :: 0 <= i < |calls| && k in calls[i].released ==> k.walltime <= lim.longest
  }

  lemma {:induction false} CalmAfter(cfg: Config, lim: Limits, start: real, states: seq<State>, calls: seq<Call>,
                                     n: nat)
    requires |states| == |calls| + 1 && IsFcfsRun(cfg, states, calls) && 0 < n <= |calls|
    requires InRoomThroughout(cfg, lim, start, states, calls)
    ensures Calm(cfg, lim.(last := calls[n - 1].date), states[n])
    decreases n
  {
    hide Calm, CallOk, Step, Inv;
    var date := calls[n - 1].date;
    if n == 1 {
      CalmLater(cfg, lim.(last := start), states[0], date) by { RoomLeft(lim, date); }
    } else {
      CalmAfter(cfg, lim, start, states, calls, n - 1);
      CalmLater(cfg, lim.(last := calls[n - 2].date), states[n - 1], date) by { RoomLeft(lim, date); }
    }
    RunStep(cfg, states, calls, n - 1);
    CallSucceedsIff(cfg, lim.(last := date), states[n - 1], calls[n - 1]);
  }

  lemma RoomLeft(lim: Limits, date: real)
    requires lim.last + 3.0 * lim.longest <= lim.horizon && date <= lim.last
    ensures date + 3.0 * lim.longest <= lim.horizon
  {
  }

  // ---------------------------------------------------------------- the jobs ahead

  /** The entries of the queue that come before this one. */
  ghost function Ahead(q: JobQueue, e: SortableJob): set<SortableJob> {
    set k | k in q && Before(FCFS, k, e)
  }

  /** In first-come order a call leaves a waiting job waiting or starts it, and puts no job before it that was released
      later. */
  lemma StepLeaves(cfg: Config, st: State, call: Call, e: SortableJob)
    requires cfg.order == FCFS && Inv(cfg, st) && CallOk(st, call) && Step(cfg, st, call).Some?
    requires e in st.queue && e.releaseDate < call.date
    ensures var r := Step(cfg, st, call).value;
            && (e in r.queue || e.job.id in Present(r.profile))
            && Ahead(r.queue, e) <= Ahead(st.queue, e)
  {
    hide Base, Arrive, SortQueue, JobSet, Accounted, SortAndPlaceHead, Backfill, Sorted, Inv, CallOk;
    InvBase(cfg, st);
    StepAccounts(cfg, st, call, {});
    ArriveKeeps(cfg, st, call, 0.0);
    ArriveQueue(cfg, st, call);
    var q := Arrive(cfg, st, call).value.queue;
    assert Distinct(q) by { BaseGood(cfg, Arrive(cfg, st, call).value); }
    FcfsSort(q, call.date);
    var r := Step(cfg, st, call).value;
    forall k | k in r.queue && Before(FCFS, k, e) ensures k in st.queue {
      var i :| 0 <= i < |q| && q[i] == k;
      if i < |st.queue| { assert st.queue[i] == k; }
    }
  }

  /** A job that waits was released before every later call. */
  lemma WaitsSince(cfg: Config, states: seq<State>, calls: seq<Call>, m: nat, e: SortableJob, i: nat)
    requires |states| == |calls| + 1 && IsFcfsRun(cfg, states, calls) && LaterDates(calls)
    requires m <= i < |calls| && e in states[m].queue
    ensures e.releaseDate < calls[i].date
  {
    hide Inv, CallOk, Step, Sorted;
    FcfsQueue(cfg, states, calls, m);
  }

  /** Until it starts, a waiting job waits on with no more jobs ahead of it. */
  lemma {:induction false} WaitsOrRuns(cfg: Config, states: seq<State>, calls: seq<Call>, m: nat, e: SortableJob,
                                       i: nat)
    requires |states| == |calls| + 1 && IsFcfsRun(cfg, states, calls) && LaterDates(calls)
    requires m <= i <= |calls| && e in states[m].queue
    ensures || (exists j :: m < j <= i && e.job.id in Present(states[j].profile))
            || (e in states[i].queue && Ahead(states[i].queue, e) <= Ahead(states[m].queue, e))
    decreases i
  {
    hide Inv, CallOk, Step, LaterDates, Ahead, Present;
    if m < i {
      WaitsOrRuns(cfg, states, calls, m, e, i - 1);
      if e in states[i - 1].queue {
        WaitsSince(cfg, states, calls, m, e, i - 1);
        RunKeepsInv(cfg, states, calls, i - 1);
        RunStep(cfg, states, calls, i - 1);
        StepLeaves(cfg, states[i - 1], calls[i - 1], e);
      }
    }
  }

  lemma HeadIsAhead(q: JobQueue, e: SortableJob)
    requires Sorted(FCFS, q) && e in q && e != q[0]
    ensures q[0] in Ahead(q, e)
  {
    hide Before;
    var i :| 0 <= i < |q| && q[i] == e;
    assert Before(FCFS, q[0], q[i]);
  }

  lemma {:induction false} AheadIsPosition(q: JobQueue, k: nat)
    requires Sorted(FCFS, q) && k < |q|
    ensures |Ahead(q, q[k])| <= k
  {
    hide Before;
    var front := set i | 0 <= i < k :: q[i];
    forall x | x in Ahead(q, q[k]) ensures x in front {
      var i :| 0 <= i < |q| && q[i] == x;
      if i > k { BeforeAsymmetric(FCFS, q[i], q[k]); }
      if i == k { BeforeAsymmetric(FCFS, q[k], q[k]); }
    }
    FrontSize(q, k);
    SubsetSize(Ahead(q, q[k]), front);
  }

  lemma {:induction false} FrontSize(q: JobQueue, k: nat)
    requires k <= |q|
    ensures |set i | 0 <= i < k :: q[i]| <= k
    decreases k
  {
    var front := set i | 0 <= i < k :: q[i];
    if k > 0 {
      FrontSize(q, k - 1);
      assert front == (set i | 0 <= i < k - 1 :: q[i]) + {q[k - 1]};
    }
  }

  // ---------------------------------------------------------------- no job starves

  /** The job runs after some call from m to n - 1, dated d at the latest. */
  ghost predicate StartsBy(states: seq<State>, calls: seq<Call>, m: nat, n: nat, id: JobId, d: real)
    requires |states| == |calls| + 1 && n <= |calls|
  {
    exists i :: m < i <= n && id in Present(states[i].profile) && calls[i - 1].date <= d
  }

  /** The time that a number of jobs of the longest walltime take one after the other. */
  function Turns(n: nat, longest: real): real {
    n as real * longest
  }

  lemma FcfsKeepsInv(cfg: Config, states: seq<State>, calls: seq<Call>, n: nat)
    requires IsFcfsRun(cfg, states, calls) && n <= |calls|
    ensures Inv(cfg, states[n]) && IsRun(cfg, states, calls)
  {
    hide IsRun;
    RunKeepsInv(cfg, states, calls, n);
  }

  /** The head starts within the longest walltime from the last call. */
  lemma HeadStartsSoon(cfg: Config, lim: Limits, start: real, states: seq<State>, calls: seq<Call>, m: nat, n: nat)
    requires |states| == |calls| + 1 && IsFcfsRun(cfg, states, calls) && LaterDates(calls)
    requires InRoomThroughout(cfg, lim, start, states, calls) && 0 < m <= n < |calls| && states[m].queue != []
    requires calls[m - 1].date + lim.longest < calls[n].date
    ensures StartsBy(states, calls, m, n, states[m].queue[0].job.id, calls[m - 1].date + lim.longest)
  {
    hide *;
    FcfsKeepsInv(cfg, states, calls, m);
    HeadReserved(cfg, states[m]);
    var b :| Reserved(cfg, states[m], b);
    CalmAfter(cfg, lim, start, states, calls, m);
    ReservedSoon(cfg, lim.(last := calls[m - 1].date), states[m], b);
    StartsByItsDate(cfg, states, calls, m, n, b);
    StartsByLater(states, calls, m, n, states[m].queue[0].job.id, b, calls[m - 1].date + lim.longest);
  }

  lemma StartsByItsDate(cfg: Config, states: seq<State>, calls: seq<Call>, m: nat, n: nat, b: real)
    requires |states| == |calls| + 1 && IsFcfsRun(cfg, states, calls) && LaterDates(calls)
    requires m <= n < |calls| && states[m].queue != [] && Reserved(cfg, states[m], b) && b < calls[n].date
    ensures StartsBy(states, calls, m, n, states[m].queue[0].job.id, b)
  {
    hide IsFcfsRun, LaterDates, Reserved, Present;
    FcfsStartsLaterDates(cfg, states, calls, states[m].queue[0].job, m, n, b);
    var i :| m < i <= n + 1 && states[m].queue[0].job.id in Present(states[i].profile) && calls[i - 1].date <= b;
    assert i <= n;
  }

  lemma StartsByLater(states: seq<State>, calls: seq<Call>, m: nat, n: nat, id: JobId, b: real, d: real)
    requires |states| == |calls| + 1 && n <= |calls| && StartsBy(states, calls, m, n, id, b) && b <= d
    ensures StartsBy(states, calls, m, n, id, d)
  {
    hide Present;
  }

  /** With k jobs ahead of it a job starts within k + 1 times the longest walltime from the last call, in a run that
      goes on beyond that time. */
  lemma {:induction false} StartsInTurn(cfg: Config, lim: Limits, start: real, states: seq<State>, calls: seq<Call>,
                                        m: nat, e: SortableJob, k: nat, n: nat)
    requires |states| == |calls| + 1 && IsFcfsRun(cfg, states, calls) && LaterDates(calls)
    requires InRoomThroughout(cfg, lim, start, states, calls) && 0 < m <= n < |calls|
    requires e in states[m].queue && |Ahead(states[m].queue, e)| <= k
    requires lim.longest >= 0.0 && calls[m - 1].date + Turns(k + 1, lim.longest) < calls[n].date
    ensures StartsBy(states, calls, m, n, e.job.id, calls[m - 1].date + Turns(k + 1, lim.longest))
    decreases k
  {
    hide Inv, IsFcfsRun, Present, InRoomThroughout, LaterDates, Ahead, Sorted, Turns;
    var q, t := states[m].queue, calls[m - 1].date;
    FcfsQueue(cfg, states, calls, m);
    var d := t + Turns(k + 1, lim.longest);
    OneTurn(k, lim.longest);
    HeadStartsSoon(cfg, lim, start, states, calls, m, n);
    if e == q[0] {
      StartsByLater(states, calls, m, n, e.job.id, t + lim.longest, d);
    } else {
      HeadIsAhead(q, e);
      var i :| m < i <= n && q[0].job.id in Present(states[i].profile) && calls[i - 1].date <= t + lim.longest;
      WaitsOrRuns(cfg, states, calls, m, e, i);
      if e in states[i].queue && Ahead(states[i].queue, e) <= Ahead(q, e) {
        HeadHasLeft(cfg, states, calls, i, q[0]) by { FcfsKeepsInv(cfg, states, calls, i); }
        FewerAhead(states[i].queue, q, e);
        TurnsAddUp(k, lim.longest);
        StartsInTurn(cfg, lim, start, states, calls, i, e, k - 1, n);
      } else {
        var j :| m < j <= i && e.job.id in Present(states[j].profile);
        EarlierDate(cfg, states, calls, j, i);
      }
    }
  }

  lemma HeadHasLeft(cfg: Config, states: seq<State>, calls: seq<Call>, i: nat, h: SortableJob)
    requires IsRun(cfg, states, calls) && i <= |calls| && h.job.id in Present(states[i].profile)
    ensures h !in states[i].queue
  {
    hide CallOk, Step, Present;
    RunKeepsInv(cfg, states, calls, i);
    BaseApart(cfg, states[i]);
  }

  lemma BaseApart(cfg: Config, st: State)
    requires Inv(cfg, st)
    ensures forall k :: k in st.queue ==> k.job.id !in Present(st.profile)
  {
    hide Good, QueueOk, Present;
    InvBase(cfg, st);
    forall k | k in st.queue ensures k.job.id in QueueIds(st.queue) {
      var i :| 0 <= i < |st.queue| && st.queue[i] == k;
    }
  }

  lemma FewerAhead(r: JobQueue, q: JobQueue, e: SortableJob)
    requires q != [] && Ahead(r, e) <= Ahead(q, e) && q[0] in Ahead(q, e) && q[0] !in r
    ensures |Ahead(r, e)| < |Ahead(q, e)|
  {
    SubsetSize(Ahead(r, e), Ahead(q, e) - {q[0]});
  }

  lemma TurnsAddUp(k: nat, longest: real)
    requires k > 0
    ensures Turns(k + 1, longest) == longest + Turns(k, longest)
  {
  }

  lemma OneTurn(k: nat, longest: real)
    requires longest >= 0.0
    ensures longest <= Turns(k + 1, longest)
  {
  }

  lemma EarlierDate(cfg: Config, states: seq<State>, calls: seq<Call>, j: nat, i: nat)
    requires IsFcfsRun(cfg, states, calls) && 0 < j <= i <= |calls|
    ensures calls[j - 1].date <= calls[i - 1].date
  {
  }

  /** No job starves: in first-come order with a later date at each call, the job at position k of the queue starts
      within k + 1 times the longest walltime from the last call, whatever is released and backfilled meanwhile, in
      every run that goes on beyond that time. */
  lemma NoStarvation(cfg: Config, lim: Limits, start: real, states: seq<State>, calls: seq<Call>, m: nat, k: nat,
                     n: nat)
    requires |states| == |calls| + 1 && IsFcfsRun(cfg, states, calls) && LaterDates(calls)
    requires InRoomThroughout(cfg, lim, start, states, calls) && 0 < m <= n < |calls| && k < |states[m].queue|
    requires calls[m - 1].date + Turns(k + 1, lim.longest) < calls[n].date
    ensures StartsBy(states, calls, m, n, states[m].queue[k].job.id, calls[m - 1].date + Turns(k + 1, lim.longest))
  {
    hide IsFcfsRun, Calm, LaterDates, Ahead, Sorted, Turns;
    FcfsQueue(cfg, states, calls, m);
    AheadIsPosition(states[m].queue, k);
    LongestIsPositive(cfg, lim.(last := start), states[0]);
    StartsInTurn(cfg, lim, start, states, calls, m, states[m].queue[k], k, n);
  }

  lemma LongestIsPositive(cfg: Config, lim: Limits, st: State)
    requires Calm(cfg, lim, st)
    ensures lim.longest >= 0.0
  {
    hide Reserved, Unreserved, QuietBut, Firm;
  }
}
