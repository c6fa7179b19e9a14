/** The recursive in-place heap sort that keeps the running jobs in order of their estimated finish times. */
module HeapSorts {
  import opened Machines
  import opened Profiles

  datatype ScheduledJob = ScheduledJob(id: JobId, requestedResources: nat, wallTime: real, startTime: real,
                                       runTime: real, estFinishTime: real, machines: MachineSet)

  function Swap<T>(s: seq<T>, i: nat, k: nat): seq<T>
    requires i < |s| && k < |s|
  {
    s[i := s[k]][k := s[i]]
  }

  /** The root or the later of its children within the heap, whichever finishes last. */
  function Latest(s: seq<ScheduledJob>, root: nat, size: nat): (max: nat)
    requires size <= |s|
    ensures max == root || (max < size && (max == 2 * root + 1 || max == 2 * root + 2))
  {
    var left := 2 * root + 1;
    var right := left + 1;
    var m := if left < size && s[left].estFinishTime > s[root].estFinishTime then left else root;
    if right < size && s[right].estFinishTime > s[m].estFinishTime then right else m
  }

  /** `max_heap`. */
  function SiftDown(s: seq<ScheduledJob>, root: nat, size: nat): (r: seq<ScheduledJob>)
    requires size <= |s|
    ensures |r| == |s|
    decreases size - root
  {
    var max := Latest(s, root, size);
    if max == root then s else SiftDown(Swap(s, root, max), max, size)
  }

  function BuildHeap(s: seq<ScheduledJob>, i: int): (r: seq<ScheduledJob>)
    ensures |r| == |s|
    decreases i
  {
    if i < 0 then s else BuildHeap(SiftDown(s, i, |s|), i - 1)
  }

  function ExtractAll(s: seq<ScheduledJob>, i: int): (r: seq<ScheduledJob>)
    requires i < |s|
    ensures |r| == |s|
    decreases i
  {
    if i <= 0 then s else ExtractAll(SiftDown(Swap(s, 0, i), 0, i), i - 1)
  }

  /** `schedule_heap_sort` on the whole list. */
  function HeapSort(s: seq<ScheduledJob>): seq<ScheduledJob> {
    ExtractAll(BuildHeap(s, |s| / 2), |s| - 1)
  }

  // ---------------------------------------------------------------- permutation

  lemma SwapPermutes<T>(s: seq<T>, i: nat, k: nat)
    requires i < |s| && k < |s|
    ensures multiset(Swap(s, i, k)) == multiset(s)
  {
  }

  lemma {:induction false} SiftPermutes(s: seq<ScheduledJob>, root: nat, size: nat)
    requires size <= |s|
    ensures multiset(SiftDown(s, root, size)) == multiset(s)
    ensures forall k :: size <= k < |s| ==> SiftDown(s, root, size)[k] == s[k]
    decreases size - root
  {
    var max := Latest(s, root, size);
    if max != root {
      SwapPermutes(s, root, max);
      SiftPermutes(Swap(s, root, max), max, size);
    }
  }

  lemma {:induction false} BuildPermutes(s: seq<ScheduledJob>, i: int)
    ensures multiset(BuildHeap(s, i)) == multiset(s)
    decreases i
  {
    if i >= 0 {
      SiftPermutes(s, i, |s|);
      BuildPermutes(SiftDown(s, i, |s|), i - 1);
    }
  }

  lemma {:induction false} ExtractPermutes(s: seq<ScheduledJob>, i: int)
    requires i < |s|
    ensures multiset(ExtractAll(s, i)) == multiset(s)
    decreases i
  {
    if i > 0 {
      SwapPermutes(s, 0, i);
      SiftPermutes(Swap(s, 0, i), 0, i);
      ExtractPermutes(SiftDown(Swap(s, 0, i), 0, i), i - 1);
    }
  }

  // ---------------------------------------------------------------- heap order

  predicate ChildOf(c: int, k: int) {
    c == 2 * k + 1 || c == 2 * k + 2
  }

  /** Every job from position lo on finishes no earlier than its children. */
  ghost predicate Heap(s: seq<ScheduledJob>, lo: int, size: int)
    requires size <= |s|
  {
    forall k, c :: lo <= k && 0 <= k && c < size && ChildOf(c, k) ==> s[k].estFinishTime >= s[c].estFinishTime
  }

  /** A heap except at the root of the sift, whose children still finish no later than its parent. */
  ghost predicate HeapBut(s: seq<ScheduledJob>, root: int, lo: int, size: int)
    requires size <= |s|
  {
    && (forall k, c :: lo <= k && 0 <= k && k != root && c < size && ChildOf(c, k) ==>
        s[k].estFinishTime >= s[c].estFinishTime)
    && (forall g, c :: lo <= g && 0 <= g && c < size && ChildOf(root, g) && ChildOf(c, root) ==>
        s[g].estFinishTime >= s[c].estFinishTime)
  }

  lemma SiftStep(s: seq<ScheduledJob>, root: nat, lo: int, size: nat)
    requires size <= |s| && lo <= root && HeapBut(s, root, lo, size) && Latest(s, root, size) != root
    ensures HeapBut(Swap(s, root, Latest(s, root, size)), Latest(s, root, size), lo, size)
  {
    var max := Latest(s, root, size);
    var t := Swap(s, root, max);
    forall k, c | lo <= k && 0 <= k && k != max && c < size && ChildOf(c, k)
      ensures t[k].estFinishTime >= t[c].estFinishTime
    {
      assert c != root || ChildOf(root, k);
      assert ChildOf(max, root);
    }
    forall g, c | lo <= g && 0 <= g && c < size && ChildOf(max, g) && ChildOf(c, max)
      ensures t[g].estFinishTime >= t[c].estFinishTime
    {
      assert g == root;
    }
  }

  lemma {:induction false} SiftRestores(s: seq<ScheduledJob>, root: nat, lo: int, size: nat)
    requires size <= |s| && lo <= root && HeapBut(s, root, lo, size)
    ensures Heap(SiftDown(s, root, size), lo, size)
    decreases size - root
  {
    var max := Latest(s, root, size);
    if max != root {
      SiftStep(s, root, lo, size);
      SiftRestores(Swap(s, root, max), max, lo, size);
    }
  }

  lemma {:induction false} BuildMakesHeap(s: seq<ScheduledJob>, i: int)
    requires -1 <= i && Heap(s, i + 1, |s|)
    ensures Heap(BuildHeap(s, i), 0, |s|)
    decreases i
  {
    if i >= 0 {
      SiftRestores(s, i, i, |s|);
      BuildMakesHeap(SiftDown(s, i, |s|), i - 1);
    }
  }

  lemma {:induction false} RootIsLatest(s: seq<ScheduledJob>, size: nat, k: nat)
    requires size <= |s| && Heap(s, 0, size) && k < size
    ensures s[0].estFinishTime >= s[k].estFinishTime
    decreases k
  {
    if k > 0 {
      var g := (k - 1) / 2;
      assert ChildOf(k, g);
      RootIsLatest(s, size, g);
    }
  }

  ghost predicate AllBy(s: seq<ScheduledJob>, size: nat, date: real)
    requires size <= |s|
  {
    forall k :: 0 <= k < size ==> s[k].estFinishTime <= date
  }

  lemma {:induction false} SiftKeepsBound(s: seq<ScheduledJob>, root: nat, size: nat, date: real)
    requires size <= |s| && AllBy(s, size, date)
    ensures AllBy(SiftDown(s, root, size), size, date)
    decreases size - root
  {
    var max := Latest(s, root, size);
    if max != root {
      SiftKeepsBound(Swap(s, root, max), max, size, date);
    }
  }

  ghost predicate SortedByFinish(s: seq<ScheduledJob>) {
    forall i, k :: 0 <= i < k < |s| ==> s[i].estFinishTime <= s[k].estFinishTime
  }

  /** The part after position i is sorted and finishes after everything before it. */
  ghost predicate SortedAfter(s: seq<ScheduledJob>, i: int)
    requires -1 <= i < |s|
  {
    forall a, b :: 0 <= a < b < |s| && i < b ==> s[a].estFinishTime <= s[b].estFinishTime
  }

  lemma ExtractOne(s: seq<ScheduledJob>, i: nat)
    requires 0 < i < |s| && Heap(s, 0, i + 1) && SortedAfter(s, i)
    ensures var r := SiftDown(Swap(s, 0, i), 0, i); Heap(r, 0, i) && SortedAfter(r, i - 1)
  {
    var t := Swap(s, 0, i);
    var r := SiftDown(t, 0, i);
    forall k | 0 <= k < i ensures t[k].estFinishTime <= t[i].estFinishTime {
      RootIsLatest(s, i + 1, if k == 0 then i else k);
    }
    assert HeapBut(t, 0, 0, i);
    SiftRestores(t, 0, 0, i);
    SiftPermutes(t, 0, i);
    SiftKeepsBound(t, 0, i, t[i].estFinishTime);
    forall b | i < b < |s| ensures AllBy(r, i, r[b].estFinishTime) {
      assert t[b] == s[b] && t[i] == s[0] && s[0].estFinishTime <= s[b].estFinishTime;
    }
  }

  lemma {:induction false} ExtractSorts(s: seq<ScheduledJob>, i: int)
    requires -1 <= i < |s| && Heap(s, 0, i + 1) && SortedAfter(s, i)
    ensures SortedByFinish(ExtractAll(s, i))
    decreases i
  {
    if i > 0 {
      ExtractOne(s, i);
      ExtractSorts(SiftDown(Swap(s, 0, i), 0, i), i - 1);
    }
  }

  /** The heap sort rearranges the jobs into ascending estimated finish time, for every length. */
  lemma HeapSortSorts(s: seq<ScheduledJob>)
    ensures SortedByFinish(HeapSort(s)) && multiset(HeapSort(s)) == multiset(s) && |HeapSort(s)| == |s|
  {
    var n := |s|;
    assert Heap(s, n / 2 + 1, n);
    BuildMakesHeap(s, n / 2);
    BuildPermutes(s, n / 2);
    var h := BuildHeap(s, n / 2);
    ExtractSorts(h, n - 1);
    ExtractPermutes(h, n - 1);
  }

  /** Sorting again changes nothing about which jobs finish when. */
  lemma HeapSortMembers(s: seq<ScheduledJob>)
    ensures forall j :: j in HeapSort(s) <==> j in s
  {
    hide HeapSort;
    HeapSortSorts(s);
    forall j ensures j in HeapSort(s) <==> j in s {
      assert j in HeapSort(s) <==> j in multiset(HeapSort(s));
      assert j in s <==> j in multiset(s);
    }
  }
}
