/** The shadow time: what the scan over the running jobs finds, and what backfilling does to it. */
module Shadows {
  import opened Machines
  import opened Profiles
  import opened HeapSorts
  import opened EasyBf2Model
  import opened EasyBf3Model
  import opened EasyBf3Proofs

  /** Machines held by the jobs that finish by the date. */
  function DueBy(s: seq<ScheduledJob>, date: real): nat {
    if s == [] then 0
    else (if s[0].estFinishTime <= date then s[0].requestedResources else 0) + DueBy(s[1..], date)
  }

  /** Machines free by the date if every running job finishes as estimated. */
  function FreeBy(st: FastState, date: real): int {
    st.nbAvailable + DueBy(st.scheduled, date)
  }

  // ---------------------------------------------------------------- sums over the running jobs

  lemma {:induction false} DueSplit(a: seq<ScheduledJob>, b: seq<ScheduledJob>, date: real)
    ensures DueBy(a + b, date) == DueBy(a, date) + DueBy(b, date)
    decreases |a|
  {
    if a == [] {
      assert a + b == b;
    } else {
      assert (a + b)[1..] == a[1..] + b;
      DueSplit(a[1..], b, date);
    }
  }

  lemma WithoutMultiset(b: seq<ScheduledJob>, i: nat)
    requires i < |b|
    ensures multiset(b[..i] + b[i + 1..]) == multiset(b) - multiset{b[i]}
  {
    assert b == b[..i] + [b[i]] + b[i + 1..];
  }

  lemma DueAt(b: seq<ScheduledJob>, i: nat, date: real)
    requires i < |b|
    ensures DueBy(b, date) == DueBy([b[i]], date) + DueBy(b[..i] + b[i + 1..], date)
  {
    hide DueBy;
    DueSplit(b[..i], b[i + 1..], date);
    DueSplit(b[..i] + [b[i]], b[i + 1..], date);
    DueSplit(b[..i], [b[i]], date);
    assert b == b[..i] + [b[i]] + b[i + 1..];
  }

  lemma {:induction false} DuePermutes(a: seq<ScheduledJob>, b: seq<ScheduledJob>, date: real)
    requires multiset(a) == multiset(b)
    ensures DueBy(a, date) == DueBy(b, date)
    decreases |a|
  {
    hide DueBy;
    if a == [] {
      assert |b| == |multiset(b)| == 0;
    } else {
      var i := Counterpart(a, b);
      DueAt(a, 0, date);
      DueAt(b, i, date);
      DuePermutes(a[..0] + a[1..], b[..i] + b[i + 1..], date);
    }
  }

  /** The first job of a list within a rearrangement of it; the rest is a rearrangement of the rest. */
  lemma Counterpart(a: seq<ScheduledJob>, b: seq<ScheduledJob>) returns (i: nat)
    requires multiset(a) == multiset(b) && a != []
    ensures i < |b| && b[i] == a[0]
    ensures multiset(a[..0] + a[1..]) == multiset(b[..i] + b[i + 1..]) && |a[..0] + a[1..]| == |a| - 1
  {
    assert a[0] in multiset(b);
    i :| 0 <= i < |b| && b[i] == a[0];
    WithoutMultiset(a, 0);
    WithoutMultiset(b, i);
  }

  /** In a sorted list, before the finish of position i only earlier positions are due; at it, the first i + 1 are. */
  lemma {:induction false} DueInOrder(s: seq<ScheduledJob>, i: nat, date: real)
    requires SortedByFinish(s) && i <= |s|
    ensures (i < |s| && date < s[i].estFinishTime) || i == |s| ==> DueBy(s, date) <= Prefix(s, i)
    ensures i > 0 && s[i - 1].estFinishTime <= date ==> DueBy(s, date) >= Prefix(s, i)
    decreases |s|
  {
    if s != [] {
      assert SortedByFinish(s[1..]);
      if i == 0 {
        if date < s[0].estFinishTime { NothingDue(s, date); }
      } else {
        DueInOrder(s[1..], i - 1, date);
        if i == 1 { assert Prefix(s[1..], 0) == 0; }
      }
    }
  }

  lemma {:induction false} NothingDue(s: seq<ScheduledJob>, date: real)
    requires SortedByFinish(s) && s != [] && date < s[0].estFinishTime
    ensures DueBy(s, date) == 0
    decreases |s|
  {
    if |s| > 1 {
      assert SortedByFinish(s[1..]);
      NothingDue(s[1..], date);
    }
  }

  /** Machines held by the first i jobs of the list. */
  function Prefix(s: seq<ScheduledJob>, i: nat): nat
    requires i <= |s|
  {
    if i == 0 then 0 else s[0].requestedResources + Prefix(s[1..], i - 1)
  }

  lemma {:induction false} PrefixNext(s: seq<ScheduledJob>, i: nat)
    requires i < |s|
    ensures Prefix(s, i + 1) == Prefix(s, i) + s[i].requestedResources
    decreases i
  {
    if i > 0 { PrefixNext(s[1..], i - 1); }
  }

  // ---------------------------------------------------------------- all machines come back

  /** The free machines together with those of the jobs that finish by the date. */
  ghost function FreedBy(free: MachineSet, s: seq<ScheduledJob>, date: real): MachineSet {
    if s == [] then free
    else (if s[0].estFinishTime <= date then s[0].machines else {}) + FreedBy(free, s[1..], date)
  }

  lemma {:induction false} FreedMembers(free: MachineSet, s: seq<ScheduledJob>, date: real, m: nat)
    ensures m in FreedBy(free, s, date) <==>
              m in free || exists j :: j in s && j.estFinishTime <= date && m in j.machines
    decreases |s|
  {
    if s != [] {
      FreedMembers(free, s[1..], date, m);
      assert s == [s[0]] + s[1..];
    }
  }

  lemma {:induction false} FreedCount(free: MachineSet, s: seq<ScheduledJob>, date: real)
    requires Apart(s) && forall j :: j in s ==> j.machines !! free && |j.machines| == j.requestedResources
    ensures |FreedBy(free, s, date)| == |free| + DueBy(s, date)
    decreases |s|
  {
    if s != [] {
      FreedCount(free, s[1..], date);
      if s[0].estFinishTime <= date {
        forall m | m in s[0].machines ensures m !in FreedBy(free, s[1..], date) {
          FreedMembers(free, s[1..], date, m);
          forall j | j in s[1..] ensures m !in j.machines {
            var k :| 0 <= k < |s[1..]| && s[1..][k] == j;
            assert s[k + 1].machines !! s[0].machines;
          }
        }
      }
    }
  }

  lemma AllFreed(all: MachineSet, free: MachineSet, s: seq<ScheduledJob>, date: real)
    requires Conserved(all, free, s) && forall j :: j in s ==> j.estFinishTime <= date
    ensures FreedBy(free, s, date) == all
  {
    hide FreedBy;
    forall m ensures m in FreedBy(free, s, date) <==> m in all {
      FreedMembers(free, s, date, m);
    }
  }

  lemma LastFinish(s: seq<ScheduledJob>) returns (date: real)
    requires SortedByFinish(s)
    ensures forall j :: j in s ==> j.estFinishTime <= date
    ensures s != [] ==> date == s[|s| - 1].estFinishTime
  {
    date := if s == [] then 0.0 else s[|s| - 1].estFinishTime;
  }

  /** With every running job finished, every machine is free. */
  lemma AllComeBack(all: MachineSet, st: FastState)
    requires PlatformOk(all, st)
    ensures st.nbAvailable + Prefix(st.scheduled, |st.scheduled|) == |all|
  {
    hide Apart, FreedBy, DueBy, Prefix;
    var s := st.scheduled;
    var date := LastFinish(s);
    FreedCount(st.available, s, date);
    AllFreed(all, st.available, s, date);
    DueInOrder(s, |s|, date);
    if s == [] { EmptyPrefix(s, date); }
  }

  lemma EmptyPrefix(s: seq<ScheduledJob>, date: real)
    requires s == []
    ensures Prefix(s, |s|) == 0 && DueBy(s, date) == 0
  {
  }

  // ---------------------------------------------------------------- the scan

  /** The shadow time is the earliest date by which the head's machines are free, and the spare machines noted
      with it are really spare then. */
  ghost predicate ShadowIsRight(st: FastState, job: Job) {
    && FreeBy(st, st.priority.shadowTime) >= job.res
    && (forall date :: date < st.priority.shadowTime ==> FreeBy(st, date) < job.res)
    && 0 <= st.priority.extraResources <= FreeBy(st, st.priority.shadowTime) - job.res
    && exists i :: 0 <= i < |st.scheduled| && st.priority.shadowTime == st.scheduled[i].estFinishTime
  }

  lemma {:induction false} ScanIsRight(st: FastState, p: PriorityJob, job: Job, i: nat)
    requires SortedByFinish(st.scheduled) && i <= |st.scheduled| && p.requestedResources == job.res
    requires st.nbAvailable + Prefix(st.scheduled, i) < job.res <= st.nbAvailable + Prefix(st.scheduled, |st.scheduled|)
    ensures ShadowIsRight(st.(priority := ScanShadow(p, job, st.scheduled, i,
                                                     st.nbAvailable + Prefix(st.scheduled, i))), job)
    decreases |st.scheduled| - i
  {
    var s := st.scheduled;
    PrefixNext(s, i);
    if st.nbAvailable + Prefix(s, i + 1) < job.res {
      ScanIsRight(st, p, job, i + 1);
    } else {
      var r := st.(priority := ScanShadow(p, job, s, i, st.nbAvailable + Prefix(s, i)));
      assert r.priority.shadowTime == s[i].estFinishTime;
      DueInOrder(s, i + 1, s[i].estFinishTime);
      forall date | date < r.priority.shadowTime ensures FreeBy(r, date) < job.res {
        DueInOrder(s, i, date);
      }
    }
  }

  /** Checking a head that does not fit finds its shadow time: some running job finishes then, enough machines are
      free from then on and not before, and `extra_resources` does not overstate what is left over. */
  lemma CheckFindsShadow(cfg: Config, st: FastState)
    requires FastInv(cfg, st) && st.queue != []
    ensures ShadowIsRight(ShadowHead(st, st.queue[0].job), st.queue[0].job)
    ensures PlatformOk(AllMachines(cfg.nbMachines), ShadowHead(st, st.queue[0].job))
  {
    hide PlatformOk, Prefix, DueBy, ShadowIsRight;
    var job := st.queue[0].job;
    assert st.queue[0] in st.queue;
    AllComeBack(AllMachines(cfg.nbMachines), st);
    NotedRequest(st, 0);
    PlatformSorted(AllMachines(cfg.nbMachines), st);
    assert Prefix(st.scheduled, 0) == 0 by { PrefixNone(st.scheduled); }
    ScanIsRight(st, Noted(st.priority, job), job, 0);
    PlatformQueueFree(AllMachines(cfg.nbMachines), st, ShadowHead(st, job));
  }

  lemma PrefixNone(s: seq<ScheduledJob>)
    ensures Prefix(s, 0) == 0
  {
  }

  lemma PlatformSorted(all: MachineSet, st: FastState)
    requires PlatformOk(all, st)
    ensures SortedByFinish(st.scheduled)
  {
  }

  // ---------------------------------------------------------------- backfilling against the shadow time

  /** Starting a job takes its machines until it finishes. */
  lemma StartFreeBy(st: FastState, job: Job, date: real, t: real)
    ensures FreeBy(ExecuteFast(st, job, date), t)
            == FreeBy(st, t) - (if date + job.duration <= t then 0 else job.res)
  {
    hide HeapSort, Left, Running;
    var j := Running(job, st.available, date);
    assert j.requestedResources == job.res && j.estFinishTime == date + job.duration by { RunningIs(st, job, date); }
    var s := st.scheduled + [j];
    HeapSortSorts(s);
    DuePermutes(HeapSort(s), s, t);
    DueSplit(st.scheduled, [j], t);
    assert DueBy([j], t) == if date + job.duration <= t then job.res else 0;
  }

  lemma RunningIs(st: FastState, job: Job, date: real)
    ensures Running(job, st.available, date).requestedResources == job.res
    ensures Running(job, st.available, date).estFinishTime == date + job.duration
  {
  }

  /** One backfill admitted right after the shadow time was computed leaves the head enough machines at it. */
  lemma OneBackfillIsSafe(st: FastState, head: Job, job: Job, date: real)
    requires ShadowIsRight(st, head) && CanBackfill(st, job, date)
    ensures FreeBy(ExecuteFast(st, job, date), st.priority.shadowTime) >= head.res
  {
    hide ExecuteFast, FreeBy;
    StartFreeBy(st, job, date, st.priority.shadowTime);
  }

  datatype Start = Start(job: Job, date: real)

  /** The jobs started one after the other, each admitted by the backfilling test. */
  ghost predicate Admitted(st: FastState, starts: seq<Start>)
    decreases |starts|
  {
    starts == [] || (CanBackfill(st, starts[0].job, starts[0].date)
                     && Admitted(ExecuteFast(st, starts[0].job, starts[0].date), starts[1..]))
  }

  function StartAll(st: FastState, starts: seq<Start>): FastState
    decreases |starts|
  {
    if starts == [] then st else StartAll(ExecuteFast(st, starts[0].job, starts[0].date), starts[1..])
  }

  /** Machines taken by those of the started jobs that run past the date. */
  function TakenPast(starts: seq<Start>, date: real): nat {
    if starts == [] then 0
    else (if starts[0].date + starts[0].job.duration <= date then 0
          else starts[0].job.res) + TakenPast(starts[1..], date)
  }

  lemma {:induction false} StartAllFreeBy(st: FastState, starts: seq<Start>, t: real)
    ensures FreeBy(StartAll(st, starts), t) == FreeBy(st, t) - TakenPast(starts, t)
    ensures StartAll(st, starts).priority == st.priority
    decreases |starts|
  {
    hide ExecuteFast, FreeBy;
    if starts != [] {
      StartFreeBy(st, starts[0].job, starts[0].date, t);
      ExecuteQueue(st, starts[0].job, starts[0].date);
      StartAllFreeBy(ExecuteFast(st, starts[0].job, starts[0].date), starts[1..], t);
    }
  }

  /** Any number of backfills between two checks of the head: the head still gets its machines at the shadow time
      exactly when the backfills that run past it together take no more machines than were spare. The admission test
      compares each of them alone with `extra_resources`, which no backfill reduces, so this is not implied. */
  lemma BackfillsAreSafeIff(st: FastState, head: Job, starts: seq<Start>)
    requires ShadowIsRight(st, head)
    ensures FreeBy(StartAll(st, starts), st.priority.shadowTime) >= head.res
            <==> TakenPast(starts, st.priority.shadowTime) <= FreeBy(st, st.priority.shadowTime) - head.res
  {
    hide FreeBy, StartAll, TakenPast;
    StartAllFreeBy(st, starts, st.priority.shadowTime);
  }
}
