/** A call of the rewritten EASY scheduler leaves no job waiting that its admission rule would let start: what it
    refuses lacks machines now, or would run past the shadow time on more machines than were noted as spare. */
module EasyBf3Packs {
  import opened Machines
  import opened Profiles
  import opened Queues
  import opened HeapSorts
  import opened EasyBf2Model
  import opened EasyBf3Model
  import opened EasyBf3Proofs
  import opened Shadows
  import opened Backfills

  /** The job asks for more machines than are free, or, running past the shadow time, for more than were spare. */
  predicate RefusedFast(st: FastState, job: Job, date: real) {
    || job.res > st.nbAvailable
    || (date + job.duration > st.priority.shadowTime && job.res > st.priority.extraResources)
  }

  /** The jobs at positions 1 to n - 1 are refused. */
  ghost predicate RefusedUpTo(st: FastState, n: int, date: real) {
    forall i :: 0 < i < n && i < |st.queue| ==> RefusedFast(st, st.queue[i].job, date)
  }

  // ---------------------------------------------------------------- the traversal

  lemma NotAdmitted(st: FastState, job: Job, date: real)
    ensures CanBackfill(st, job, date) <==> !RefusedFast(st, job, date)
  {
  }

  lemma ExecuteTakes(st: FastState, job: Job, date: real)
    ensures var r := ExecuteFast(st, job, date);
            r.nbAvailable == st.nbAvailable - job.res && r.priority == st.priority && r.queue == st.queue
  {
  }

  lemma StartKeepsRefused(st: FastState, i: nat, job: Job, n: int, date: real)
    requires 0 < i < |st.queue| && n <= i && RefusedUpTo(st, n, date)
    ensures RefusedUpTo(Dequeue(ExecuteFast(st, job, date), i), n, date)
  {
    hide ExecuteFast;
    ExecuteTakes(st, job, date);
    var r := Dequeue(ExecuteFast(st, job, date), i);
    forall k | 0 < k < n && k < |r.queue| ensures RefusedFast(r, r.queue[k].job, date) {
      assert r.queue[k] == st.queue[k];
    }
  }

  lemma {:induction false} BehindPacks(st: FastState, i: nat, date: real)
    requires Distinct(st.queue) && i > 0 && RefusedUpTo(st, i, date)
    ensures var r := TraverseFast(st, i, Head(st.queue), date); RefusedUpTo(r, |r.queue|, date)
    decreases |st.queue| - i
  {
    hide RefusedUpTo, RefusedFast, ExecuteFast, CanBackfill, WithoutIndex, HeadCanRun, ShadowHead, NoteHead;
    if i < |st.queue| {
      var job := st.queue[i].job;
      assert Head(st.queue) != Some(job.id);
      NotAdmitted(st, job, date);
      if CanBackfill(st, job, date) {
        ExecuteTakes(st, job, date);
        WithoutIndexKeeps(st.queue, i);
        FewerQueued(st.queue, i);
        StartKeepsRefused(st, i, job, i, date);
        BehindPacks(Dequeue(ExecuteFast(st, job, date), i), i, date);
      } else {
        OneMore(st, i, date);
        BehindPacks(st, i + 1, date);
      }
    } else {
      AllOf(st, i, date);
    }
  }

  lemma OneMore(st: FastState, i: nat, date: real)
    requires RefusedUpTo(st, i, date) && i < |st.queue| && RefusedFast(st, st.queue[i].job, date)
    ensures RefusedUpTo(st, i + 1, date)
  {
  }

  lemma AllOf(st: FastState, i: nat, date: real)
    requires RefusedUpTo(st, i, date) && i >= |st.queue|
    ensures RefusedUpTo(st, |st.queue|, date)
  {
  }

  // ---------------------------------------------------------------- the new jobs

  /** Every job of the list that still waits behind the head is refused. */
  ghost predicate NewRefused(r: FastState, recent: seq<Job>, date: real) {
    forall k :: k in recent && k.res > 0 && k.id in QueueIds(r.queue) && Head(r.queue) != Some(k.id) ==>
      RefusedFast(r, k, date)
  }

  lemma {:induction false} NewPacks(st: FastState, recent: seq<Job>, date: real)
    requires Distinct(st.queue)
    ensures var r := BackfillNewFast(st, recent, st.nbAvailable, date);
            && NewRefused(r, recent, date) && r.nbAvailable <= st.nbAvailable && r.priority == st.priority
            && Head(r.queue) == Head(st.queue) && QueueIds(r.queue) <= QueueIds(st.queue)
    decreases |recent|
  {
    hide RefusedFast, ExecuteFast, CanBackfill, WithoutIndex, QueueIds, NewRefused;
    var nb := st.nbAvailable;
    if recent == [] || nb <= 0 {
      NothingFree(st, recent, date);
    } else {
      var job, rest := recent[0], recent[1..];
      var i := IndexOf(st.queue, job.id, 0);
      NotAdmitted(st, job, date);
      if job.id in QueueIds(st.queue) { QueuedIndex(st.queue, job.id); }
      if job.id in QueueIds(st.queue) && Head(st.queue) != Some(job.id) && job.res <= nb && CanBackfill(st, job, date) {
        ExecuteTakes(st, job, date);
        WithoutIndexKeeps(st.queue, i);
        FewerQueued(st.queue, i);
        var s := Dequeue(ExecuteFast(st, job, date), i);
        NewPacks(s, rest, date);
        FirstIsRefused(BackfillNewFast(s, rest, s.nbAvailable, date), recent, date);
      } else {
        NewPacks(st, rest, date);
        var r := BackfillNewFast(st, rest, nb, date);
        if job.res > nb { TooFew(st, job, date); }
        if RefusedFast(st, job, date) { RefusedStays(st, r, job, date); }
        FirstIsRefused(r, recent, date);
      }
    }
  }

  lemma QueuedIndex(q: JobQueue, id: JobId)
    requires id in QueueIds(q)
    ensures IndexOf(q, id, 0) < |q| && (Head(q) != Some(id) ==> IndexOf(q, id, 0) > 0)
  {
    var i :| 0 <= i < |q| && q[i].job.id == id;
  }

  lemma TooFew(st: FastState, job: Job, date: real)
    requires job.res > st.nbAvailable
    ensures RefusedFast(st, job, date)
  {
  }

  lemma RefusedStays(st: FastState, r: FastState, job: Job, date: real)
    requires RefusedFast(st, job, date) && r.nbAvailable <= st.nbAvailable && r.priority == st.priority
    ensures RefusedFast(r, job, date)
  {
  }

  lemma NothingFree(st: FastState, recent: seq<Job>, date: real)
    requires recent == [] || st.nbAvailable <= 0
    ensures NewRefused(st, recent, date)
  {
  }

  lemma FirstIsRefused(r: FastState, recent: seq<Job>, date: real)
    requires recent != [] && NewRefused(r, recent[1..], date)
    requires || recent[0].id !in QueueIds(r.queue) || Head(r.queue) == Some(recent[0].id)
             || RefusedFast(r, recent[0], date)
    ensures NewRefused(r, recent, date)
  {
    hide RefusedFast, QueueIds;
    assert recent == [recent[0]] + recent[1..];
  }

  // ---------------------------------------------------------------- one call

  /** After a call with completions every waiting job that asks for machines is refused, the head for lack of machines;
      after one without, every new job is. */
  lemma FastStepPacks(cfg: Config, st: FastState, call: Call)
    requires FastInv(cfg, st) && FastCallOk(st, call)
    ensures var r := FastStep(cfg, st, call);
            && (r.queue != [] ==> r.queue[0].job.res > r.nbAvailable)
            && (call.ended != [] ==> forall i :: 0 < i < |r.queue| && r.queue[i].job.res > 0 ==>
                  RefusedFast(r, r.queue[i].job, call.date))
            && (call.ended == [] ==> NewRefused(r, Accepted(cfg, call.released), call.date))
  {
    hide FastOk, FastCallOk, ArriveFast, SortAndPlaceHeadFast, BackfillNewFast, TraverseFast, ForAll, NewRefused,
         RefusedUpTo;
    FastStepKeepsInv(cfg, st, call);
    SettleKeeps(cfg, st, call);
    var s := SettledFast(cfg, st, call);
    FastDistinct(cfg, s);
    if call.ended == [] {
      NewPacks(s, Accepted(cfg, call.released), call.date);
    } else if s.nbAvailable > 0 {
      PlaceHeadFastKeeps(cfg, s, call.date);
      TraversalPacks(cfg, s, call.date);
      UpToAll(FastStep(cfg, st, call), call.date);
    }
  }

  lemma TraversalPacks(cfg: Config, st: FastState, date: real)
    requires FastOk(cfg, st)
    ensures var r := TraverseFast(st, 0, Head(st.queue), date); RefusedUpTo(r, |r.queue|, date)
  {
    hide FastOk, TraverseFast, PlaceHeadFast;
    TraversePlacesHead(st, date);
    PlaceHeadFastKeeps(cfg, st, date);
    var c := PlaceHeadFast(st, date);
    if c.queue != [] {
      FastDistinct(cfg, c);
      BehindPacks(c, 1, date);
    }
  }

  lemma UpToAll(r: FastState, date: real)
    requires RefusedUpTo(r, |r.queue|, date)
    ensures forall i :: 0 < i < |r.queue| ==> RefusedFast(r, r.queue[i].job, date)
  {
  }

  /** A call without completions that keeps the head does not look at it again: what was noted of it stays as it was. */
  lemma FastStepKeepsNote(cfg: Config, st: FastState, call: Call)
    requires FastInv(cfg, st) && FastCallOk(st, call) && call.ended == []
    requires Head(SortQueue(cfg.order, ArriveFast(cfg, st, call).queue, call.date)) == Head(st.queue)
    ensures FastStep(cfg, st, call).priority == st.priority
  {
    hide FastOk, FastCallOk, SortQueue, PlaceHeadFast, BackfillNewFast, ForAll, NewRefused, ReleaseAllFast;
    SettleKeeps(cfg, st, call);
    var s := SettledFast(cfg, st, call);
    FastDistinct(cfg, s);
    ReleasesKeepNote(cfg, FinishJobs(st, []), call.released, call.date);
    NewPacks(s, Accepted(cfg, call.released), call.date);
  }

  lemma {:induction false} ReleasesKeepNote(cfg: Config, st: FastState, released: seq<Job>, date: real)
    ensures ReleaseAllFast(cfg, st, released, date).priority == st.priority
    decreases |released|
  {
    if released != [] { ReleasesKeepNote(cfg, ReleaseFast(cfg, st, released[0], date), released[1..], date); }
  }

  /** A start keeps the other running jobs and adds a record of the job: its request, its dates, and as many of the
      lowest free machines. */
  lemma StartRecords(st: FastState, job: Job, date: real)
    requires job.res <= |st.available|
    ensures var r := ExecuteFast(st, job, date);
            var added := multiset(r.scheduled) - multiset(st.scheduled);
            exists j :: added == multiset{j} && Records(j, job, date) && multiset(st.scheduled) <= multiset(r.scheduled)
                        && j.machines <= st.available && |j.machines| == job.res
                        && (forall x, y :: x in j.machines && y in st.available && y !in j.machines ==> x < y)
                        && r.available == st.available - j.machines
                        && r.decisions == st.decisions + [Execute(job.id, j.machines)]
  {
    hide HeapSort;
    var j := Running(job, st.available, date);
    HeapSortSorts(st.scheduled + [j]);
    assert Records(j, job, date);
  }

  predicate Records(j: ScheduledJob, job: Job, date: real) {
    && j.id == job.id && j.requestedResources == job.res && j.wallTime == job.walltime
    && j.startTime == date && j.runTime == job.duration && j.estFinishTime == date + job.duration
  }

  // ---------------------------------------------------------------- what the noted numbers are

  /** The scan stopped at the running job i, with which the head has enough machines and not before, and noted what is
      left over of the machines counted so far. */
  ghost predicate StoppedAt(st: FastState, job: Job, i: nat) {
    && i < |st.scheduled|
    && st.nbAvailable + Prefix(st.scheduled, i) < job.res <= st.nbAvailable + Prefix(st.scheduled, i + 1)
    && st.priority.id == job.id && st.priority.requestedResources == job.res
    && st.priority.shadowTime == st.scheduled[i].estFinishTime
    && st.priority.estFinishTime == st.scheduled[i].estFinishTime + job.duration
    && st.priority.extraResources == st.nbAvailable + Prefix(st.scheduled, i + 1) - job.res
  }

  lemma {:induction false} ScanStops(st: FastState, p: PriorityJob, job: Job, from: nat) returns (i: nat)
    requires from <= |st.scheduled| && p.requestedResources == job.res && p.id == job.id
    requires var s := st.scheduled;
             st.nbAvailable + Prefix(s, from) < job.res <= st.nbAvailable + Prefix(s, |s|)
    ensures var s := st.scheduled;
            StoppedAt(st.(priority := ScanShadow(p, job, s, from, st.nbAvailable + Prefix(s, from))), job, i)
    decreases |st.scheduled| - from
  {
    hide Prefix;
    PrefixNext(st.scheduled, from);
    if st.nbAvailable + Prefix(st.scheduled, from + 1) < job.res {
      i := ScanStops(st, p, job, from + 1);
    } else {
      i := from;
    }
  }

  /** A check of a head that does not fit notes the finish of the first running job with which it fits, and the machines
      left over then. */
  lemma CheckStops(cfg: Config, st: FastState) returns (i: nat)
    requires FastInv(cfg, st) && st.queue != []
    ensures StoppedAt(ShadowHead(st, st.queue[0].job), st.queue[0].job, i)
  {
    hide PlatformOk, Prefix, StoppedAt;
    assert st.queue[0] in st.queue;
    AllComeBack(AllMachines(cfg.nbMachines), st);
    NotedRequest(st, 0);
    PrefixNone(st.scheduled);
    i := ScanStops(st, Noted(st.priority, st.queue[0].job), st.queue[0].job, 0);
  }

  lemma {:induction false} FrontIsDue(s: seq<ScheduledJob>, i: nat, date: real)
    requires i <= |s| && forall k :: 0 <= k < i ==> s[k].estFinishTime <= date
    ensures DueBy(s[..i], date) == Prefix(s, i)
    decreases i
  {
    if i > 0 {
      FrontIsDue(s[1..], i - 1, date);
      assert s[..i][1..] == s[1..][..i - 1];
    }
  }

  lemma {:induction false} NoneDueIff(s: seq<ScheduledJob>, date: real)
    ensures DueBy(s, date) == 0 <==> forall j :: j in s && j.estFinishTime <= date ==> j.requestedResources == 0
    decreases |s|
  {
    if s != [] {
      NoneDueIff(s[1..], date);
      assert s == [s[0]] + s[1..];
    }
  }

  /** The noted number is all that is spare at the shadow time exactly when no later job of the list finishes then
      too. */
  lemma SpareIsAllIff(st: FastState, job: Job, i: nat)
    requires SortedByFinish(st.scheduled) && StoppedAt(st, job, i)
    ensures st.priority.extraResources == FreeBy(st, st.priority.shadowTime) - job.res <==>
              forall j :: j in st.scheduled[i + 1..] && j.estFinishTime == st.priority.shadowTime ==>
                  j.requestedResources == 0
  {
    hide DueBy, Prefix;
    var s, shadow := st.scheduled, st.priority.shadowTime;
    FrontIsDue(s, i + 1, shadow);
    DueSplit(s[..i + 1], s[i + 1..], shadow);
    assert s == s[..i + 1] + s[i + 1..];
    NoneDueIff(s[i + 1..], shadow);
    forall j | j in s[i + 1..] ensures shadow <= j.estFinishTime {
      var k :| 0 <= k < |s[i + 1..]| && s[i + 1..][k] == j;
      assert s[i + 1 + k] == j;
    }
  }

  /** Where the noted number is all that is spare, a refused job does not fit now, or would leave the head too few
      machines at the shadow time: after a call that checked its head, no backfill was missed that keeps the head on
      time. */
  lemma RefusedWouldDelay(cfg: Config, st: FastState, call: Call, job: Job)
    requires FastInv(cfg, st) && FastCallOk(st, call) && ChecksHead(cfg, st, call) && Checked(cfg, st, call).queue != []
    requires var c := Checked(cfg, st, call);
             c.priority.extraResources == FreeBy(c, c.priority.shadowTime) - c.queue[0].job.res
    requires RefusedFast(FastStep(cfg, st, call), job, call.date)
    ensures var c, r := Checked(cfg, st, call), FastStep(cfg, st, call);
            || job.res > r.nbAvailable
            || FreeBy(ExecuteFast(r, job, call.date), c.priority.shadowTime) < c.queue[0].job.res
  {
    hide FastInv, FastCallOk, FastStep, ChecksHead, Checked, FreeBy, ExecuteFast, TakenPast;
    var c, r := Checked(cfg, st, call), FastStep(cfg, st, call);
    var starts := CallBackfills(cfg, st, call);
    StartAllFreeBy(c, starts, c.priority.shadowTime);
    SameFree(StartAll(c, starts), r, c.priority.shadowTime);
    StartFreeBy(r, job, call.date, c.priority.shadowTime);
  }
}
