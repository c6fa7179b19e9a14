/** The waiting queue: the orders it can be kept in, and the list operations of the schedulers. */
module Queues {
  import opened Machines
  import opened Profiles

  datatype SortableJob = SortableJob(job: Job, releaseDate: real, slowdown: real, boundedSlowdown: real)

  type JobQueue = seq<SortableJob>

  /** A bound on the length of a job, by which waiting times are divided. The program only ever sets 1. */
  type Length = x: real | x > 0.0 witness 1.0

  datatype Order =
    | FCFS
    | OriginalFCFS
    | LCFS
    | DescendingBoundedSlowdown(minJobLength: Length)
    | DescendingSlowdown
    | AscendingSize
    | DescendingSize
    | AscendingWalltime
    | DescendingWalltime

  // ---------------------------------------------------------------- the orders

  /** Lexicographic order of job identifiers, character by character. */
  predicate IdLess(a: JobId, b: JobId) {
    if b == "" then false
    else if a == "" then true
    else if a[0] == b[0] then IdLess(a[1..], b[1..])
    else a[0] < b[0]
  }

  /** The quantity an order compares first; a lower rank goes first. */
  function Rank(order: Order, j: SortableJob): real {
    match order
    case FCFS => j.releaseDate
    case OriginalFCFS => j.job.submitted
    case LCFS => -j.releaseDate
    case DescendingBoundedSlowdown(_) => -j.boundedSlowdown
    case DescendingSlowdown => -j.slowdown
    case AscendingSize => j.job.res as real
    case DescendingSize => -(j.job.res as real)
    case AscendingWalltime => j.job.walltime
    case DescendingWalltime => -j.job.walltime
  }

  /** `compare`: by rank, and by identifier between equal ranks. */
  predicate Before(order: Order, a: SortableJob, b: SortableJob) {
    if Rank(order, a) == Rank(order, b) then IdLess(a.job.id, b.job.id) else Rank(order, a) < Rank(order, b)
  }

  lemma {:induction false} IdLessTransitive(a: JobId, b: JobId, c: JobId)
    requires IdLess(a, b) && IdLess(b, c)
    ensures IdLess(a, c)
  {
    if a != "" && b != "" && c != "" && a[0] == b[0] == c[0] {
      IdLessTransitive(a[1..], b[1..], c[1..]);
    }
  }

  lemma {:induction false} IdLessTotal(a: JobId, b: JobId)
    ensures a != b ==> IdLess(a, b) || IdLess(b, a)
    ensures !(IdLess(a, b) && IdLess(b, a))
  {
    if a != "" && b != "" && a[0] == b[0] {
      IdLessTotal(a[1..], b[1..]);
      assert a == [a[0]] + a[1..] && b == [b[0]] + b[1..];
    }
  }

  lemma BeforeTransitive(order: Order, a: SortableJob, b: SortableJob, c: SortableJob)
    requires Before(order, a, b) && Before(order, b, c)
    ensures Before(order, a, c)
  {
    hide IdLess;
    if IdLess(a.job.id, b.job.id) && IdLess(b.job.id, c.job.id) {
      IdLessTransitive(a.job.id, b.job.id, c.job.id);
    }
  }

  // ---------------------------------------------------------------- the queue as a list

  /** The entry of a job that joins the queue at the date. */
  function Entry(job: Job, date: real): SortableJob {
    SortableJob(job, date, 0.0, 0.0)
  }

  ghost function QueueIds(q: JobQueue): set<JobId> {
    set i | 0 <= i < |q| :: q[i].job.id
  }

  ghost predicate Distinct(q: JobQueue) {
    forall i, k :: 0 <= i < k < |q| ==> q[i].job.id != q[k].job.id
  }

  /** `updateJob` at the current date, for the orders that age their jobs. */
  function Aged(order: Order, j: SortableJob, now: real): SortableJob {
    match order
    case DescendingBoundedSlowdown(least) => j.(boundedSlowdown := (now - j.releaseDate) / least)
    case DescendingSlowdown => j.(slowdown := now - j.releaseDate)
    case _ => j
  }

  function AgedQueue(order: Order, q: JobQueue, now: real): JobQueue {
    seq(|q|, i requires 0 <= i < |q| => Aged(order, q[i], now))
  }

  function Insert(order: Order, q: JobQueue, j: SortableJob): JobQueue {
    if q == [] then [j]
    else if Before(order, j, q[0]) then [j] + q
    else [q[0]] + Insert(order, q[1..], j)
  }

  /** The list's sort. `SortIsUnique` shows that any correct sort gives this result. */
  function Sort(order: Order, q: JobQueue): JobQueue {
    if q == [] then [] else Insert(order, Sort(order, q[..|q| - 1]), q[|q| - 1])
  }

  function SortQueue(order: Order, q: JobQueue, now: real): JobQueue {
    Sort(order, AgedQueue(order, q, now))
  }

  ghost predicate Sorted(order: Order, q: JobQueue) {
    forall i, k :: 0 <= i < k < |q| ==> Before(order, q[i], q[k])
  }

  lemma {:induction false} InsertKeeps(order: Order, q: JobQueue, j: SortableJob)
    ensures multiset(Insert(order, q, j)) == multiset(q) + multiset{j}
    ensures |Insert(order, q, j)| == |q| + 1
    ensures forall k :: k in Insert(order, q, j) <==> k in q || k == j
  {
    if q != [] && !Before(order, j, q[0]) {
      InsertKeeps(order, q[1..], j);
      assert q == [q[0]] + q[1..];
    }
  }

  /** Sorting rearranges the queue. */
  lemma {:induction false} SortPermutes(order: Order, q: JobQueue)
    ensures multiset(Sort(order, q)) == multiset(q) && |Sort(order, q)| == |q|
  {
    if q != [] {
      var n := |q| - 1;
      SortPermutes(order, q[..n]);
      InsertKeeps(order, Sort(order, q[..n]), q[n]);
      assert q == q[..n] + [q[n]];
    }
  }

  lemma SortedCons(order: Order, x: SortableJob, q: JobQueue)
    requires Sorted(order, q) && forall k :: k in q ==> Before(order, x, k)
    ensures Sorted(order, [x] + q)
  {
    hide Before;
  }

  lemma HeadIsFirst(order: Order, q: JobQueue, j: SortableJob)
    requires Sorted(order, q) && q != [] && Before(order, j, q[0])
    ensures forall k :: k in q ==> Before(order, j, k)
  {
    hide Before;
    forall i | 0 <= i < |q| ensures Before(order, j, q[i]) {
      if i > 0 { BeforeTransitive(order, j, q[0], q[i]); }
    }
  }

  lemma BeforeTotal(order: Order, a: SortableJob, b: SortableJob)
    requires a.job.id != b.job.id
    ensures Before(order, a, b) || Before(order, b, a)
  {
    IdLessTotal(a.job.id, b.job.id);
  }

  lemma {:induction false} InsertSorts(order: Order, q: JobQueue, j: SortableJob)
    requires Sorted(order, q) && forall k :: k in q ==> k.job.id != j.job.id
    ensures Sorted(order, Insert(order, q, j))
  {
    hide Before;
    if q != [] {
      if Before(order, j, q[0]) {
        HeadIsFirst(order, q, j);
        SortedCons(order, j, q);
      } else {
        BeforeTotal(order, q[0], j);
        InsertSorts(order, q[1..], j);
        InsertKeeps(order, q[1..], j);
        SortedCons(order, q[0], Insert(order, q[1..], j));
      }
    }
  }

  lemma {:induction false} InsertDistinct(order: Order, q: JobQueue, j: SortableJob)
    requires Distinct(q) && forall k :: k in q ==> k.job.id != j.job.id
    ensures Distinct(Insert(order, q, j))
  {
    hide Before;
    if q != [] && !Before(order, j, q[0]) {
      InsertDistinct(order, q[1..], j);
      InsertKeeps(order, q[1..], j);
      var r := Insert(order, q[1..], j);
      forall k | 0 <= k < |r| ensures q[0].job.id != r[k].job.id {
        assert r[k] in r;
      }
    }
  }

  lemma LastIsOther(q: JobQueue, r: JobQueue)
    requires Distinct(q) && q != [] && multiset(r) == multiset(q[..|q| - 1])
    ensures Distinct(q[..|q| - 1]) && forall k :: k in r ==> k.job.id != q[|q| - 1].job.id
  {
    forall k | k in r ensures k.job.id != q[|q| - 1].job.id {
      assert k in multiset(q[..|q| - 1]);
    }
  }

  /** Sorting a queue of distinct jobs puts it in strict order. */
  lemma {:induction false} SortSorts(order: Order, q: JobQueue)
    requires Distinct(q)
    ensures Sorted(order, Sort(order, q)) && Distinct(Sort(order, q))
  {
    hide Insert, Before;
    if q != [] {
      var n := |q| - 1;
      SortSorts(order, q[..n]);
      SortPermutes(order, q[..n]);
      LastIsOther(q, Sort(order, q[..n]));
      InsertSorts(order, Sort(order, q[..n]), q[n]);
      InsertDistinct(order, Sort(order, q[..n]), q[n]);
    }
  }

  lemma SameTail(a: JobQueue, b: JobQueue)
    requires a != [] && b != [] && a[0] == b[0] && multiset(a) == multiset(b)
    ensures multiset(a[1..]) == multiset(b[1..])
  {
    TailMultiset(a);
    TailMultiset(b);
  }

  lemma TailMultiset(a: JobQueue)
    requires a != []
    ensures multiset(a[1..]) == multiset(a) - multiset{a[0]}
  {
    assert a == [a[0]] + a[1..];
  }

  lemma SameEmptiness(a: JobQueue, b: JobQueue)
    requires multiset(a) == multiset(b)
    ensures a == [] <==> b == []
  {
    if a != [] { assert a[0] in multiset(b); }
    if b != [] { assert b[0] in multiset(a); }
  }

  lemma SortedTail(order: Order, q: JobQueue)
    requires Sorted(order, q) && q != []
    ensures Sorted(order, q[1..])
  {
    hide Before;
  }

  lemma SameHead(order: Order, a: JobQueue, b: JobQueue)
    requires Sorted(order, a) && Sorted(order, b) && multiset(a) == multiset(b) && a != [] && b != []
    ensures a[0] == b[0]
  {
    hide Before;
    assert a[0] in multiset(b) && b[0] in multiset(a);
    var i :| 0 <= i < |b| && b[i] == a[0];
    var k :| 0 <= k < |a| && a[k] == b[0];
    if i > 0 && k > 0 {
      BeforeAsymmetric(order, b[0], a[0]);
    }
  }

  lemma BeforeAsymmetric(order: Order, a: SortableJob, b: SortableJob)
    ensures !(Before(order, a, b) && Before(order, b, a))
  {
    IdLessTotal(a.job.id, b.job.id);
  }

  /** Two rearrangements of the same jobs that are both in strict order are equal. */
  lemma {:induction false} SortIsUnique(order: Order, a: JobQueue, b: JobQueue)
    requires Sorted(order, a) && Sorted(order, b) && multiset(a) == multiset(b)
    ensures a == b
  {
    hide Sorted;
    SameEmptiness(a, b);
    if a != [] {
      SameHead(order, a, b);
      SortedTail(order, a);
      SortedTail(order, b);
      SameTail(a, b);
      SortIsUnique(order, a[1..], b[1..]);
      assert a == [a[0]] + a[1..] && b == [b[0]] + b[1..];
    }
  }

  /** A queue in first-come order is left as it is. */
  lemma SortedStays(q: JobQueue, now: real)
    requires Distinct(q) && Sorted(FCFS, q)
    ensures SortQueue(FCFS, q, now) == q
  {
    hide Sort, Sorted, Distinct;
    assert AgedQueue(FCFS, q, now) == q;
    SortPermutes(FCFS, q);
    SortSorts(FCFS, q);
    SortIsUnique(FCFS, Sort(FCFS, q), q);
  }

  lemma LastCharacter(a: char, b: char)
    requires a < b
    ensures IdLess("w!" + [a], "w!" + [b])
  {
    var x, y := "w!" + [a], "w!" + [b];
    assert x[1..][1..] == [a] && y[1..][1..] == [b];
    assert IdLess([a], [b]);
    assert IdLess(x[1..], y[1..]);
  }

  ghost predicate HasJob(q: JobQueue, job: Job) {
    exists i :: 0 <= i < |q| && q[i].job == job
  }

  /** Sorting keeps exactly the jobs of the queue, each once. */
  lemma SortQueueKeepsJobs(order: Order, q: JobQueue, now: real)
    requires Distinct(q)
    ensures var r := SortQueue(order, q, now);
            && Distinct(r) && |r| == |q|
            && (forall j :: j in r ==> HasJob(q, j.job))
            && (forall i :: 0 <= i < |q| ==> HasJob(r, q[i].job))
  {
    hide Sort, Sorted, Distinct, AgedQueue;
    var a := AgedQueue(order, q, now);
    AgedKeepsJobs(order, q, now);
    SortPermutes(order, a);
    SortSorts(order, a);
    PermutedJobs(q, a, Sort(order, a));
  }

  lemma PermutedJobs(q: JobQueue, a: JobQueue, r: JobQueue)
    requires |a| == |q| && (forall i :: 0 <= i < |q| ==> a[i].job == q[i].job) && multiset(r) == multiset(a)
    ensures forall j :: j in r ==> HasJob(q, j.job)
    ensures forall i :: 0 <= i < |q| ==> HasJob(r, q[i].job)
  {
    forall j | j in r ensures HasJob(q, j.job) {
      var i := FoundIn(r, a, j);
    }
    forall i | 0 <= i < |q| ensures HasJob(r, q[i].job) {
      assert a[i] in a;
      var k := FoundIn(a, r, a[i]);
    }
  }

  lemma AgedKeepsJobs(order: Order, q: JobQueue, now: real)
    ensures var a := AgedQueue(order, q, now);
            && |a| == |q| && (forall i :: 0 <= i < |q| ==> a[i].job == q[i].job)
            && (Distinct(q) ==> Distinct(a))
  {
  }

  lemma FoundIn(a: JobQueue, b: JobQueue, j: SortableJob) returns (i: nat)
    requires multiset(a) == multiset(b) && j in a
    ensures i < |b| && b[i] == j
  {
    assert j in multiset(b);
    i :| 0 <= i < |b| && b[i] == j;
  }

  /** What each order promises of two entries, in the fields of the jobs: which of them goes first, and that entries
      with equal keys go by identifier. A longer wait is an earlier release, so both slowdown orders go by release
      date. */
  ghost predicate GoesFirst(order: Order, a: SortableJob, b: SortableJob) {
    match order
    case FCFS => ByKey(a.releaseDate, b.releaseDate, a, b)
    case OriginalFCFS => ByKey(a.job.submitted, b.job.submitted, a, b)
    case LCFS => ByKey(b.releaseDate, a.releaseDate, a, b)
    case DescendingBoundedSlowdown(_) => ByKey(a.releaseDate, b.releaseDate, a, b)
    case DescendingSlowdown => ByKey(a.releaseDate, b.releaseDate, a, b)
    case AscendingSize => ByKey(a.job.res as real, b.job.res as real, a, b)
    case DescendingSize => ByKey(b.job.res as real, a.job.res as real, a, b)
    case AscendingWalltime => ByKey(a.job.walltime, b.job.walltime, a, b)
    case DescendingWalltime => ByKey(b.job.walltime, a.job.walltime, a, b)
  }

  ghost predicate ByKey(x: real, y: real, a: SortableJob, b: SortableJob) {
    x < y || (x == y && SmallerText(a.job.id, b.job.id))
  }

  /** The texts differ first at some character, where the first text has a smaller one or ends. */
  ghost predicate SmallerText(a: string, b: string) {
    exists k: nat :: k <= |a| && k < |b| && a[..k] == b[..k] && (k == |a| || a[k] < b[k])
  }

  lemma {:induction false} IdLessIff(a: JobId, b: JobId)
    ensures IdLess(a, b) <==> SmallerText(a, b)
    decreases |a|
  {
    if a == "" && b != "" {
      assert a[..0] == b[..0];
    } else if a != "" && b != "" && a[0] == b[0] {
      IdLessIff(a[1..], b[1..]);
      if IdLess(a[1..], b[1..]) {
        var k: nat :| k < |a| && k < |b| - 1 && a[1..][..k] == b[1..][..k]
                      && (k == |a| - 1 || a[1..][k] < b[1..][k]);
        assert a[..k + 1] == [a[0]] + a[1..][..k] && b[..k + 1] == [b[0]] + b[1..][..k];
      } else if k: nat :| k <= |a| && k < |b| && a[..k] == b[..k] && (k == |a| || a[k] < b[k]) {
        TailsDiffer(a, b, k);
      }
    } else if a != "" && b != "" {
      if a[0] < b[0] { assert a[..0] == b[..0]; }
      if k: nat :| 0 < k <= |a| && k < |b| && a[..k] == b[..k] { assert a[..k][0] == b[..k][0]; }
    }
  }

  lemma TailsDiffer(a: string, b: string, k: nat)
    requires a != "" && b != "" && a[0] == b[0]
    requires k <= |a| && k < |b| && a[..k] == b[..k] && (k == |a| || a[k] < b[k])
    ensures SmallerText(a[1..], b[1..])
  {
    assert k > 0;
    assert a[1..][..k - 1] == a[..k][1..] && b[1..][..k - 1] == b[..k][1..];
  }

  /** The entries of an aged queue that the order puts in order are in the order promised. */
  lemma BeforeMeans(order: Order, a: SortableJob, b: SortableJob, now: real)
    ensures Before(order, Aged(order, a, now), Aged(order, b, now)) <==> GoesFirst(order, a, b)
  {
    hide IdLess, SmallerText;
    IdLessIff(a.job.id, b.job.id);
    match order
    case DescendingBoundedSlowdown(least) => DividedOrder(now - a.releaseDate, now - b.releaseDate, least);
    case _ =>
  }

  lemma DividedOrder(x: real, y: real, d: Length)
    ensures x / d < y / d <==> x < y
    ensures x / d == y / d <==> x == y
  {
  }

  /** Sorting keeps the job and the release date of every entry, and puts the entries in the order promised. */
  lemma SortQueueOrders(order: Order, q: JobQueue, now: real)
    requires Distinct(q)
    ensures var r := SortQueue(order, q, now);
            && (forall e :: e in r ==> HasEntry(q, e))
            && (forall e :: e in q ==> HasEntry(r, e))
            && forall i, k :: 0 <= i < k < |r| ==> GoesFirst(order, r[i], r[k])
  {
    hide Sort, Distinct, AgedQueue, Before, GoesFirst;
    var a, r := AgedQueue(order, q, now), SortQueue(order, q, now);
    AgedKeepsJobs(order, q, now);
    SortPermutes(order, a);
    SortSorts(order, a);
    AgedEntries(order, q, now);
    forall e | e in r ensures HasEntry(q, e) {
      var i := FoundIn(r, a, e);
    }
    forall e | e in q ensures HasEntry(r, e) {
      var i :| 0 <= i < |q| && q[i] == e;
      assert a[i] in a;
      var k := FoundIn(a, r, a[i]);
    }
    forall i, k | 0 <= i < k < |r| ensures GoesFirst(order, r[i], r[k]) {
      var x := FoundIn(r, a, r[i]);
      var y := FoundIn(r, a, r[k]);
      assert Before(order, r[i], r[k]);
      BeforeMeans(order, q[x], q[y], now);
      SameFirst(order, q[x], q[y], r[i], r[k]);
    }
  }

  ghost predicate HasEntry(q: JobQueue, e: SortableJob) {
    exists i :: 0 <= i < |q| && q[i].job == e.job && q[i].releaseDate == e.releaseDate
  }

  lemma AgedEntries(order: Order, q: JobQueue, now: real)
    ensures var a := AgedQueue(order, q, now);
            |a| == |q| && forall i :: 0 <= i < |q| ==>
              a[i] == Aged(order, q[i], now) && a[i].job == q[i].job && a[i].releaseDate == q[i].releaseDate
  {
  }

  lemma SameFirst(order: Order, a: SortableJob, b: SortableJob, x: SortableJob, y: SortableJob)
    requires GoesFirst(order, a, b)
    requires a.job == x.job && a.releaseDate == x.releaseDate && b.job == y.job && b.releaseDate == y.releaseDate
    ensures GoesFirst(order, x, y)
  {
    hide SmallerText;
  }

  lemma AppendIds(q: JobQueue, j: SortableJob)
    ensures QueueIds(q + [j]) == QueueIds(q) + {j.job.id}
  {
    var r := q + [j];
    assert r[|q|] == j;
    forall x | x in QueueIds(q) ensures x in QueueIds(r) {
      var i :| 0 <= i < |q| && q[i].job.id == x;
      assert r[i] == q[i];
    }
  }

  lemma SortQueueIds(order: Order, q: JobQueue, now: real)
    requires Distinct(q)
    ensures QueueIds(SortQueue(order, q, now)) == QueueIds(q)
  {
    hide SortQueue;
    SortQueueKeepsJobs(order, q, now);
    var r := SortQueue(order, q, now);
    forall id | id in QueueIds(q) ensures id in QueueIds(r) {
      var i :| 0 <= i < |q| && q[i].job.id == id;
      var k :| 0 <= k < |r| && r[k].job == q[i].job;
    }
    forall id | id in QueueIds(r) ensures id in QueueIds(q) {
      var k :| 0 <= k < |r| && r[k].job.id == id;
      assert r[k] in r;
      var i :| 0 <= i < |q| && r[k].job == q[i].job;
    }
  }

  /** `first_job_or_nullptr`. */
  function Head(q: JobQueue): Option<JobId> {
    if q == [] then None else Some(q[0].job.id)
  }

  function WithoutIndex(q: JobQueue, i: nat): JobQueue
    requires i < |q|
  {
    q[..i] + q[i + 1..]
  }

  /** Position of the job in the queue, or the queue's length. */
  function IndexOf(q: JobQueue, id: JobId, from: nat): (r: nat)
    requires from <= |q|
    ensures from <= r <= |q|
    ensures forall k :: from <= k < r ==> q[k].job.id != id
    ensures r < |q| ==> q[r].job.id == id
    decreases |q| - from
  {
    if from == |q| || q[from].job.id == id then from else IndexOf(q, id, from + 1)
  }

  /** Without one entry the queue is one shorter, has no new entry, and keeps a head that is not the one. */
  lemma FewerQueued(q: JobQueue, i: nat)
    requires i < |q|
    ensures |WithoutIndex(q, i)| == |q| - 1
    ensures forall k :: k in WithoutIndex(q, i) ==> k in q
    ensures i > 0 ==> WithoutIndex(q, i)[0] == q[0]
  {
  }

  lemma WithoutIndexKeeps(q: JobQueue, i: nat)
    requires Distinct(q) && i < |q|
    ensures Distinct(WithoutIndex(q, i))
    ensures QueueIds(WithoutIndex(q, i)) == QueueIds(q) - {q[i].job.id}
    ensures i > 0 ==> WithoutIndex(q, i)[0] == q[0]
  {
    var r := WithoutIndex(q, i);
    assert forall k :: 0 <= k < |r| ==> r[k] == q[if k < i then k else k + 1];
    forall id | id in QueueIds(q) && id != q[i].job.id ensures id in QueueIds(r) {
      var k :| 0 <= k < |q| && q[k].job.id == id;
      assert r[if k < i then k else k - 1] == q[k];
    }
  }

  lemma AppendKeeps(q: JobQueue, j: SortableJob)
    requires Distinct(q) && j.job.id !in QueueIds(q)
    ensures Distinct(q + [j]) && QueueIds(q + [j]) == QueueIds(q) + {j.job.id}
  {
    var r := q + [j];
    assert forall k :: 0 <= k < |q| ==> r[k] == q[k] && q[k].job.id in QueueIds(q);
    assert r[|q|] == j;
  }

  /** The queue as the schedulers hold it: a list kept in one order. */
  class Queue {
    const order: Order
    var jobs: JobQueue

    constructor (order: Order)
      ensures jobs == [] && this.order == order
    {
      this.order := order;
      jobs := [];
    }

    method AppendJob(job: Job, currentDate: real)
      modifies this
      ensures jobs == old(jobs) + [Entry(job, currentDate)]
      ensures jobs[|jobs| - 1].job == job && jobs[|jobs| - 1].releaseDate == currentDate
    {
      jobs := jobs + [Entry(job, currentDate)];
    }

    method FindJob(id: JobId) returns (i: nat)
      ensures i == IndexOf(jobs, id, 0)
    {
      i := 0;
      while i < |jobs|
        invariant 0 <= i <= |jobs| && IndexOf(jobs, id, 0) == IndexOf(jobs, id, i)
      {
        if jobs[i].job.id == id { return; }
        i := i + 1;
      }
    }

    method RemoveJob(id: JobId)
      requires IndexOf(jobs, id, 0) < |jobs|
      modifies this
      ensures jobs == WithoutIndex(old(jobs), IndexOf(old(jobs), id, 0))
    {
      var i := FindJob(id);
      RemoveJobAt(i);
    }

    method RemoveJobAt(i: nat)
      requires i < |jobs|
      modifies this
      ensures jobs == WithoutIndex(old(jobs), i)
    {
      jobs := jobs[..i] + jobs[i + 1..];
    }

    method SortJobs(currentDate: real)
      modifies this
      ensures jobs == SortQueue(order, old(jobs), currentDate)
      ensures old(Distinct(jobs)) ==> forall i, k :: 0 <= i < k < |jobs| ==> GoesFirst(order, jobs[i], jobs[k])
    {
      hide Sort, GoesFirst;
      if Distinct(jobs) { SortQueueOrders(order, jobs, currentDate); }
      var i := 0;
      while i < |jobs|
        invariant 0 <= i <= |jobs| == |old(jobs)|
        invariant forall k :: 0 <= k < |jobs| ==>
                    jobs[k] == if k < i then Aged(order, old(jobs)[k], currentDate) else old(jobs)[k]
      {
        jobs := jobs[i := Aged(order, jobs[i], currentDate)];
        i := i + 1;
      }
      assert jobs == AgedQueue(order, old(jobs), currentDate);
      jobs := Sort(order, jobs);
    }

    method FirstJobOrNull() returns (first: Option<JobId>)
      ensures first == Head(jobs)
    {
      first := if |jobs| == 0 then None else Some(jobs[0].job.id);
    }

    method ContainsJob(id: JobId) returns (found: bool)
      ensures found <==> id in QueueIds(jobs)
    {
      var i := FindJob(id);
      found := i < |jobs|;
    }
  }
}
