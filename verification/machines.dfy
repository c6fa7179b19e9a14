/** Machine sets and the two resource selectors that decide which machines a job gets. */
module Machines {

  datatype Option<+T> = None | Some(value: T)

  type MachineSet = set<nat>

  /** Machines `0 .. n-1`, the whole platform. */
  function AllMachines(n: nat): (s: MachineSet)
    ensures forall x: nat :: x in s <==> x < n
    ensures |s| == n
  {
    if n == 0 then {} else AllMachines(n - 1) + {n - 1}
  }

  lemma SubsetSize<T>(a: set<T>, b: set<T>)
    requires a <= b
    ensures |a| <= |b|
    ensures |a| == |b| ==> a == b
  {
    assert b == a + (b - a);
  }

  lemma {:induction false} LeastElement(s: MachineSet) returns (m: nat)
    requires s != {}
    ensures m in s && forall x :: x in s ==> m <= x
  {
    var y :| y in s;
    var rest := s - {y};
    assert forall x :: x in s ==> x == y || x in rest;
    if rest == {} {
      m := y;
    } else {
      var least := LeastElement(rest);
      m := if y < least then y else least;
    }
  }

  lemma MinExists(s: MachineSet)
    requires s != {}
    ensures exists m :: m in s && forall x :: x in s ==> m <= x
  {
    var m := LeastElement(s);
  }

  function Min(s: MachineSet): (m: nat)
    requires s != {}
    ensures m in s && forall x :: x in s ==> m <= x
  {
    MinExists(s);
    var m :| m in s && forall x :: x in s ==> m <= x;
    m
  }

  /** `IntervalSet::left(n)`: the n lowest-numbered machines of the set. */
  function Left(s: MachineSet, n: nat): (l: MachineSet)
    requires n <= |s|
    ensures l <= s && |l| == n
    ensures forall x, y :: x in l && y in s && y !in l ==> x < y
    decreases n
  {
    if n == 0 then {}
    else
      var m := Min(s);
      {m} + Left(s - {m}, n - 1)
  }

  /** The block of n consecutive machines starting at a. */
  function Block(a: nat, n: nat): (s: MachineSet)
    ensures forall x: nat :: x in s <==> a <= x < a + n
    ensures |s| == n
  {
    if n == 0 then {} else Block(a, n - 1) + {a + n - 1}
  }

  /** The machines from which a block of n free machines starts. */
  function BlockStarts(n: nat, available: MachineSet): MachineSet {
    set a | a in available && Block(a, n) <= available
  }

  datatype Selector = Basic | Contiguous

  /** What a selector answers for a request of n machines: the machines it allocates, if it can. */
  function Fit(sel: Selector, n: nat, available: MachineSet): Option<MachineSet> {
    match sel
    case Basic => if n <= |available| then Some(Left(available, n)) else None
    case Contiguous =>
      var starts := BlockStarts(n, available);
      if starts == {} then None else Some(Block(Min(starts), n))
  }

  /** Whether the free machines contain an allocation of the shape the selector hands out. */
  predicate CanFit(sel: Selector, n: nat, free: MachineSet) {
    match sel
    case Basic => n <= |free|
    case Contiguous => exists a :: a in free && Block(a, n) <= free
  }

  /** A fit answers exactly when an allocation exists, and answers with n machines that are available. */
  lemma FitContract(sel: Selector, n: nat, available: MachineSet)
    ensures Fit(sel, n, available).Some? <==> CanFit(sel, n, available)
    ensures Fit(sel, n, available).Some? ==>
              var u := Fit(sel, n, available).value;
              u <= available && |u| == n && (n > 0 ==> CanFit(sel, n, u))
    ensures Fit(sel, n, available).Some? ==> n <= |available|
  {
    if sel.Contiguous? && CanFit(sel, n, available) {
      var a :| a in available && Block(a, n) <= available;
      assert a in BlockStarts(n, available);
      var m := Min(BlockStarts(n, available));
      SubsetSize(Block(m, n), available);
      if n > 0 {
        assert m in Block(m, n) && Block(m, n) <= Block(m, n);
      }
    }
  }

  /** The basic selector grants the lowest free machines; the contiguous one grants the lowest block of consecutive free
      machines. */
  lemma FitIsLowest(n: nat, available: MachineSet)
    ensures Fit(Basic, n, available).Some? ==>
              forall x, y :: x in Fit(Basic, n, available).value && y in available - Fit(Basic, n, available).value
                ==> x < y
    ensures Fit(Contiguous, n, available).Some? ==>
              exists a :: a in available
                && (forall x: nat :: x in Fit(Contiguous, n, available).value <==> a <= x < a + n)
                && forall b :: b in available && (forall x: nat :: b <= x < b + n ==> x in available) ==> a <= b
  {
    if Fit(Contiguous, n, available).Some? {
      var starts := BlockStarts(n, available);
      var a := Min(starts);
      forall b | b in available && forall x: nat :: b <= x < b + n ==> x in available ensures a <= b {
        assert Block(b, n) <= available;
        assert b in starts;
      }
      assert a in starts;
    }
  }

  /** More free machines never turn a fit into a failure. */
  lemma FitMonotone(sel: Selector, n: nat, a: MachineSet, b: MachineSet)
    requires a <= b && CanFit(sel, n, a)
    ensures CanFit(sel, n, b)
  {
    SubsetSize(a, b);
  }

  /** `BasicResourceSelector::fit`. */
  method BasicFit(n: nat, available: MachineSet) returns (r: Option<MachineSet>)
    ensures r == Fit(Basic, n, available)
  {
    if n <= |available| {
      r := Some(Left(available, n));
    } else {
      r := None;
    }
  }

  datatype Interval = Interval(lower: nat, upper: nat)

  /** An interval set as the code stores it: ascending closed intervals with a gap between neighbours. */
  ghost predicate Normal(ivs: seq<Interval>) {
    && (forall i :: 0 <= i < |ivs| ==> ivs[i].lower <= ivs[i].upper)
    && (forall i, k :: 0 <= i < k < |ivs| ==> ivs[i].upper + 1 < ivs[k].lower)
  }

  ghost predicate InIntervals(ivs: seq<Interval>, x: nat) {
    exists i :: 0 <= i < |ivs| && ivs[i].lower <= x <= ivs[i].upper
  }

  ghost predicate Stores(ivs: seq<Interval>, s: MachineSet) {
    Normal(ivs) && forall x: nat :: x in s <==> InIntervals(ivs, x)
  }

  /** A free block never spans two stored intervals. */
  lemma {:induction false} BlockInOneInterval(ivs: seq<Interval>, s: MachineSet, a: nat, n: nat, i: int)
    requires Stores(ivs, s) && n > 0 && Block(a, n) <= s
    requires 0 <= i < |ivs| && ivs[i].lower <= a <= ivs[i].upper
    ensures a + n - 1 <= ivs[i].upper
  {
    if n > 1 {
      assert Block(a, n - 1) <= Block(a, n);
      BlockInOneInterval(ivs, s, a, n - 1, i);
      assert a + n - 1 in Block(a, n);
      var k :| 0 <= k < |ivs| && ivs[k].lower <= a + n - 1 <= ivs[k].upper;
    }
  }

  /** The n lowest machines are the only n machines below all others. */
  lemma LeftUnique(s: MachineSet, n: nat, l: MachineSet)
    requires n <= |s| && l <= s && |l| == n
    requires forall x, y :: x in l && y in s && y !in l ==> x < y
    ensures Left(s, n) == l
  {
    var k := Left(s, n);
    if x, y :| x in k && x !in l && y in l && y !in k {
      assert false;
    } else if x :| x in k && x !in l {
      assert l <= k;
      SubsetSize(l, k);
    } else {
      SubsetSize(k, l);
    }
  }

  lemma LeftOfBlock(a: nat, m: nat, n: nat)
    requires n <= m
    ensures Left(Block(a, m), n) == Block(a, n)
  {
    hide Left;
    LeftUnique(Block(a, m), n, Block(a, n));
  }

  /** `ContiguousResourceSelector::fit`: scan the maximal free intervals upwards. */
  method ContiguousFit(n: nat, available: MachineSet, ivs: seq<Interval>) returns (r: Option<MachineSet>)
    requires Stores(ivs, available)
    ensures r == Fit(Contiguous, n, available)
  {
    for i := 0 to |ivs|
      invariant forall k :: 0 <= k < i ==> ivs[k].upper - ivs[k].lower + 1 < n
    {
      var length := ivs[i].upper - ivs[i].lower + 1;
      if n <= length {
        LeftOfBlock(ivs[i].lower, length, n);
        r := Some(Left(Block(ivs[i].lower, length), n));
        FirstLongInterval(n, available, ivs, i);
        return;
      }
    }
    NoLongInterval(n, available, ivs, |ivs|);
    r := None;
  }

  /** A block start always lies in an interval long enough for the block. */
  lemma NoLongInterval(n: nat, available: MachineSet, ivs: seq<Interval>, i: int)
    requires Stores(ivs, available) && 0 <= i <= |ivs|
    requires forall k :: 0 <= k < i ==> ivs[k].upper - ivs[k].lower + 1 < n
    ensures forall a :: a in BlockStarts(n, available) ==>
              exists k :: i <= k < |ivs| && ivs[k].lower <= a <= ivs[k].upper
  {
    forall a | a in BlockStarts(n, available)
      ensures exists k :: i <= k < |ivs| && ivs[k].lower <= a <= ivs[k].upper
    {
      assert InIntervals(ivs, a);
      var k :| 0 <= k < |ivs| && ivs[k].lower <= a <= ivs[k].upper;
      if k < i {
        BlockInOneInterval(ivs, available, a, n, k);
      }
    }
  }

  lemma IntervalIsFree(available: MachineSet, ivs: seq<Interval>, i: int, n: nat)
    requires Stores(ivs, available) && 0 <= i < |ivs| && n <= ivs[i].upper - ivs[i].lower + 1
    ensures ivs[i].lower in available && Block(ivs[i].lower, n) <= available
  {
    hide Block;
    assert InIntervals(ivs, ivs[i].lower);
    forall x | x in Block(ivs[i].lower, n) ensures x in available {
      assert InIntervals(ivs, x);
    }
  }

  lemma FirstLongInterval(n: nat, available: MachineSet, ivs: seq<Interval>, i: int)
    requires Stores(ivs, available) && 0 <= i < |ivs|
    requires forall k :: 0 <= k < i ==> ivs[k].upper - ivs[k].lower + 1 < n
    requires n <= ivs[i].upper - ivs[i].lower + 1
    ensures BlockStarts(n, available) != {} && Min(BlockStarts(n, available)) == ivs[i].lower
  {
    hide Block;
    var a := ivs[i].lower;
    assert a in BlockStarts(n, available) by { IntervalIsFree(available, ivs, i, n); }
    forall b | b in BlockStarts(n, available) ensures a <= b {
      NoLongInterval(n, available, ivs, i);
      hide Stores, BlockStarts;
      var k :| i <= k < |ivs| && ivs[k].lower <= b <= ivs[k].upper;
      assert k == i || a <= ivs[k].lower by { assert Normal(ivs); }
    }
  }
}
