/** The backfills of one call of the rewritten scheduler, and whether they leave the head its machines at the shadow
    time that the same call computed. */
module Backfills {
  import opened Machines
  import opened Profiles
  import opened Queues
  import opened EasyBf2Model
  import opened EasyBf3Model
  import opened EasyBf3Proofs
  import opened Shadows

  /** From the first state to the second these jobs were started at the date, each admitted by the backfilling test,
      and nothing else happened but that they left the queue; the head stayed. */
  ghost predicate Backfilled(st: FastState, r: FastState, starts: seq<Start>, date: real) {
    && Admitted(st, starts)
    && r == StartAll(st, starts).(queue := r.queue)
    && Head(r.queue) == Head(st.queue)
    && forall i :: 0 <= i < |starts| ==> starts[i].date == date
  }

  // ---------------------------------------------------------------- the loops

  lemma {:induction false} StartAllQueue(st: FastState, q: JobQueue, starts: seq<Start>)
    ensures StartAll(st.(queue := q), starts) == StartAll(st, starts).(queue := q)
    ensures Admitted(st.(queue := q), starts) <==> Admitted(st, starts)
    decreases |starts|
  {
    if starts != [] {
      var s := ExecuteFast(st, starts[0].job, starts[0].date);
      ExecuteElsewhere(st, q, starts[0].job, starts[0].date);
      StartAllQueue(s, q, starts[1..]);
    }
  }

  lemma ExecuteElsewhere(st: FastState, q: JobQueue, job: Job, date: real)
    ensures ExecuteFast(st.(queue := q), job, date) == ExecuteFast(st, job, date).(queue := q)
  {
  }

  /** One more backfill before others. */
  lemma BackfilledFirst(st: FastState, i: nat, job: Job, date: real, r: FastState, rest: seq<Start>)
    requires 0 < i < |st.queue| && CanBackfill(st, job, date)
    requires Backfilled(Dequeue(ExecuteFast(st, job, date), i), r, rest, date)
    ensures Backfilled(st, r, [Start(job, date)] + rest, date)
  {
    hide ExecuteFast, CanBackfill;
    ExecuteQueue(st, job, date);
    var s := ExecuteFast(st, job, date);
    StartAllQueue(s, WithoutIndex(st.queue, i), rest);
    FewerQueued(st.queue, i);
    var starts := [Start(job, date)] + rest;
    assert starts[1..] == rest;
  }

  lemma NoBackfill(st: FastState, date: real)
    ensures Backfilled(st, st, [], date)
  {
  }

  /** The loop over the recently queued jobs backfills. */
  lemma {:induction false} NewBackfills(st: FastState, recent: seq<Job>, nb: int, date: real)
    returns (starts: seq<Start>)
    ensures Backfilled(st, BackfillNewFast(st, recent, nb, date), starts, date)
    decreases |recent|
  {
    hide Backfilled, ExecuteFast, CanBackfill, WithoutIndex, QueueIds;
    starts := [];
    if recent == [] || nb <= 0 {
      NoBackfill(st, date);
    } else {
      var job := recent[0];
      var i := IndexOf(st.queue, job.id, 0);
      if job.id in QueueIds(st.queue) && Head(st.queue) != Some(job.id) && job.res <= nb
         && CanBackfill(st, job, date) && i < |st.queue| {
        ExecuteQueue(st, job, date);
        var rest := NewBackfills(Dequeue(ExecuteFast(st, job, date), i), recent[1..], nb - job.res, date);
        BackfilledFirst(st, i, job, date, BackfillNewFast(st, recent, nb, date), rest);
        starts := [Start(job, date)] + rest;
      } else {
        starts := NewBackfills(st, recent[1..], nb, date);
      }
    }
  }

  /** The traversal behind the head backfills. */
  lemma {:induction false} BehindBackfills(st: FastState, i: nat, date: real) returns (starts: seq<Start>)
    requires Distinct(st.queue) && i > 0
    ensures Backfilled(st, TraverseFast(st, i, Head(st.queue), date), starts, date)
    decreases |st.queue| - i
  {
    hide Backfilled, ExecuteFast, CanBackfill, WithoutIndex, HeadCanRun, ShadowHead, NoteHead;
    starts := [];
    if i >= |st.queue| {
      NoBackfill(st, date);
    } else {
      var job := st.queue[i].job;
      assert Head(st.queue) != Some(job.id);
      if CanBackfill(st, job, date) {
        ExecuteQueue(st, job, date);
        WithoutIndexKeeps(st.queue, i);
        FewerQueued(st.queue, i);
        var rest := BehindBackfills(Dequeue(ExecuteFast(st, job, date), i), i, date);
        BackfilledFirst(st, i, job, date, TraverseFast(st, i, Head(st.queue), date), rest);
        starts := [Start(job, date)] + rest;
      } else {
        starts := BehindBackfills(st, i + 1, date);
      }
    }
  }

  // ---------------------------------------------------------------- the check of the head

  /** A traversal from the head places the head as the sort does, and goes on behind it. */
  lemma {:induction false} TraversePlacesHead(st: FastState, date: real)
    ensures var c := PlaceHeadFast(st, date);
            TraverseFast(st, 0, Head(st.queue), date)
                == if c.queue == [] then c else TraverseFast(c, 1, Head(c.queue), date)
    decreases |st.queue|
  {
    hide ExecuteFast, WithoutIndex, Noted, ScanShadow;
    if st.queue != [] {
      var job := st.queue[0].job;
      if HeadCanRun(st, job) {
        ExecuteQueue(NoteHead(st, job), job, date);
        NoteQueue(st, job);
        FewerQueued(st.queue, 0);
        TraversePlacesHead(Dequeue(ExecuteFast(NoteHead(st, job), job, date), 0), date);
      }
    }
  }

  /** Placing the head ends with a check that finds its shadow time, unless every job of the queue started. */
  lemma {:induction false} PlaceHeadFindsShadow(cfg: Config, st: FastState, date: real)
    requires FastOk(cfg, st)
    ensures var c := PlaceHeadFast(st, date); c.queue != [] ==> ShadowIsRight(c, c.queue[0].job)
    decreases |st.queue|
  {
    hide PlatformOk, QueueFits, PriorityOk, WithoutIndex, Noted, ScanShadow, FastOk, ShadowIsRight;
    if st.queue != [] {
      var job := st.queue[0].job;
      FastParts(cfg, st);
      NotedRequest(st, 0);
      NoteKeeps(cfg, st, 0);
      if HeadCanRun(st, job) {
        ExecuteKeeps(cfg, NoteHead(st, job), 0, date);
        FewerQueued(st.queue, 0);
        PlaceHeadFindsShadow(cfg, Dequeue(ExecuteFast(NoteHead(st, job), job, date), 0), date);
      } else {
        CheckFindsShadow(cfg, st);
      }
    }
  }

  // ---------------------------------------------------------------- one call

  /** The queue of the call once it is sorted, with the head placed if it is a new one. */
  ghost function SettledFast(cfg: Config, st: FastState, call: Call): FastState {
    SortAndPlaceHeadFast(cfg, ArriveFast(cfg, st, call), Head(st.queue), call.date)
  }

  /** The call traverses the queue. */
  ghost predicate Traverses(cfg: Config, st: FastState, call: Call) {
    call.ended != [] && SettledFast(cfg, st, call).nbAvailable > 0
  }

  /** The call checks the head: the sort put a new job there, or the queue is traversed. */
  ghost predicate ChecksHead(cfg: Config, st: FastState, call: Call) {
    || Head(SortQueue(cfg.order, ArriveFast(cfg, st, call).queue, call.date)) != Head(st.queue)
    || Traverses(cfg, st, call)
  }

  /** The state of the call right after its last check of the head. */
  ghost function Checked(cfg: Config, st: FastState, call: Call): FastState {
    var r := SettledFast(cfg, st, call);
    if Traverses(cfg, st, call) then PlaceHeadFast(r, call.date) else r
  }

  lemma CheckedIsRight(cfg: Config, st: FastState, call: Call)
    requires FastInv(cfg, st) && FastCallOk(st, call) && ChecksHead(cfg, st, call)
    ensures var c := Checked(cfg, st, call);
            Distinct(c.queue) && (c.queue != [] ==> ShadowIsRight(c, c.queue[0].job))
  {
    hide FastOk, FastCallOk, ArriveFast, PlaceHeadFast, HeadBlocked, ShadowIsRight, SortQueue;
    SettleKeeps(cfg, st, call);
    var s, r := ArriveFast(cfg, st, call), SettledFast(cfg, st, call);
    if Traverses(cfg, st, call) {
      PlaceHeadFastKeeps(cfg, r, call.date);
      PlaceHeadFindsShadow(cfg, r, call.date);
    } else {
      ArriveKeepsFast(cfg, st, call);
      SortKeepsFast(cfg, s, call.date);
      PlaceHeadFindsShadow(cfg, s.(queue := SortQueue(cfg.order, s.queue, call.date)), call.date);
    }
    FastDistinct(cfg, Checked(cfg, st, call));
  }

  /** All that a call does after its last check of the head is to backfill. */
  lemma CallBackfills(cfg: Config, st: FastState, call: Call) returns (starts: seq<Start>)
    requires FastInv(cfg, st) && FastCallOk(st, call) && ChecksHead(cfg, st, call)
    ensures Backfilled(Checked(cfg, st, call), FastStep(cfg, st, call), starts, call.date)
  {
    hide FastInv, FastCallOk, SortAndPlaceHeadFast, ArriveFast, BackfillNewFast, TraverseFast, PlaceHeadFast,
         Backfilled;
    CheckedIsRight(cfg, st, call);
    var r, c := SettledFast(cfg, st, call), Checked(cfg, st, call);
    if call.ended == [] {
      starts := NewBackfills(r, Accepted(cfg, call.released), r.nbAvailable, call.date);
    } else if r.nbAvailable > 0 {
      TraversePlacesHead(r, call.date);
      if c.queue == [] {
        NoBackfill(c, call.date);
        starts := [];
      } else {
        starts := BehindBackfills(c, 1, call.date);
      }
    } else {
      NoBackfill(c, call.date);
      starts := [];
    }
  }

  /** The jobs started that run past the date. */
  function PastCount(starts: seq<Start>, date: real): nat {
    if starts == [] then 0
    else (if starts[0].date + starts[0].job.duration <= date then 0 else 1) + PastCount(starts[1..], date)
  }

  lemma {:induction false} OnePastIsSpare(st: FastState, starts: seq<Start>)
    requires Admitted(st, starts) && PastCount(starts, st.priority.shadowTime) <= 1
    ensures TakenPast(starts, st.priority.shadowTime) <= if st.priority.extraResources < 0 then 0
                                                         else st.priority.extraResources
    decreases |starts|
  {
    hide ExecuteFast;
    if starts != [] {
      ExecuteQueue(st, starts[0].job, starts[0].date);
      if starts[0].date + starts[0].job.duration <= st.priority.shadowTime {
        OnePastIsSpare(ExecuteFast(st, starts[0].job, starts[0].date), starts[1..]);
      } else {
        NonePast(starts[1..], st.priority.shadowTime);
      }
    }
  }

  lemma {:induction false} NonePast(starts: seq<Start>, date: real)
    requires PastCount(starts, date) == 0
    ensures TakenPast(starts, date) == 0
    decreases |starts|
  {
    if starts != [] { NonePast(starts[1..], date); }
  }

  /** A call that checks its head and finds it blocked: the shadow time it notes is right, the head stays the head, and
      after the jobs the call backfills the head still has its machines by the shadow time exactly when those of them
      that run past it together take no more than was spare; in particular when at most one of them does. */
  lemma CallIsSafeIff(cfg: Config, st: FastState, call: Call) returns (starts: seq<Start>)
    requires FastInv(cfg, st) && FastCallOk(st, call) && ChecksHead(cfg, st, call) && Checked(cfg, st, call).queue != []
    ensures var c, r := Checked(cfg, st, call), FastStep(cfg, st, call);
            var head, shadow := c.queue[0].job, c.priority.shadowTime;
            && ShadowIsRight(c, head) && Backfilled(c, r, starts, call.date)
            && (FreeBy(r, shadow) >= head.res <==> TakenPast(starts, shadow) <= FreeBy(c, shadow) - head.res)
            && (PastCount(starts, shadow) <= 1 ==> FreeBy(r, shadow) >= head.res)
  {
    hide FastInv, FastCallOk, FastStep, ChecksHead, Checked, FreeBy;
    starts := CallBackfills(cfg, st, call);
    CheckedIsRight(cfg, st, call);
    var c, r := Checked(cfg, st, call), FastStep(cfg, st, call);
    BackfillsAreSafeIff(c, c.queue[0].job, starts);
    SameFree(StartAll(c, starts), r, c.priority.shadowTime);
    if PastCount(starts, c.priority.shadowTime) <= 1 { OnePastIsSpare(c, starts); }
  }

  lemma SameFree(st: FastState, r: FastState, date: real)
    requires r == st.(queue := r.queue)
    ensures FreeBy(r, date) == FreeBy(st, date)
  {
  }
}
