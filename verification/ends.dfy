/** The first and the last slice of a profile under every operation: the present does not run dry, and the end of the
    profile stays idle. */
module Ends {
  import opened Machines
  import opened Profiles
  import opened FirstFits

  // ---------------------------------------------------------------- the first slice

  lemma {:induction false} RemoveRunFirst(p: Profile, x: nat, j: JobId, u: MachineSet)
    requires x <= |p| && |p| > 0 && p[0].begin < p[0].end && EndsGrow(p)
    ensures var q := RemoveRun(p, x, j, u); |q| > 0 && q[0].begin == p[0].begin < q[0].end
    decreases |p| - x
  {
    hide EraseSlice;
    if x < |p| && j in p[x].jobs {
      var q := p[x := EraseSlice(p[x], j, u)];
      assert q[x].begin == p[x].begin && q[x].end == p[x].end by { EraseTimes(p[x], j, u); }
      var r := MergeIfSame(q, x);
      MergeEnds(q, x);
      RemoveRunFirst(r, if |r| == |p| then x + 1 else x, j, u);
    }
  }

  lemma EraseTimes(s: TimeSlice, j: JobId, u: MachineSet)
    ensures EraseSlice(s, j, u).begin == s.begin && EraseSlice(s, j, u).end == s.end
  {
  }

  ghost predicate EndsGrow(p: Profile) {
    forall i, k :: 0 <= i < k < |p| ==> p[i].end < p[k].end
  }

  lemma MergeEnds(p: Profile, x: nat)
    requires x < |p| && EndsGrow(p)
    ensures EndsGrow(MergeIfSame(p, x))
    ensures p[0].begin < p[0].end ==> MergeIfSame(p, x)[0].begin == p[0].begin < MergeIfSame(p, x)[0].end
  {
    var r := MergeIfSame(p, x);
    if |r| < |p| {
      assert forall i :: 0 <= i < |r| ==> r[i].end == p[if i < x - 1 then i else i + 1].end;
    }
  }

  /** Removing a job does not empty the first slice. */
  lemma RemovedFirst(p: Profile, j: JobId, all: MachineSet)
    requires Valid(p, all, {}) && p[0].begin < p[0].end
    ensures var q := Remove(p, j, {}); |q| > 0 && q[0].begin == p[0].begin < q[0].end
  {
    hide SliceOk, Runs, RemoveRun;
    forall i, k | 0 <= i < k < |p| ensures p[i].end < p[k].end { Ordered(p, i, k); }
    var x := FirstOccurrence(p, j, 0);
    if x < |p| { RemoveRunFirst(p, x, j, p[x].jobs[j] - {}); }
  }

  // ---------------------------------------------------------------- the last slice

  lemma {:induction false} RemoveRunKeepsLastIdle(p: Profile, x: nat, j: JobId, u: MachineSet)
    requires LastIsIdle(p) && x <= |p|
    ensures LastIsIdle(RemoveRun(p, x, j, u))
    decreases |p| - x
  {
    if x < |p| && j in p[x].jobs {
      var q := p[x := EraseSlice(p[x], j, u)];
      assert LastIsIdle(q);
      if x > 0 && SameJobs(q[x - 1], q[x]) {
        RemoveRunKeepsLastIdle(MergeAt(q, x), x, j, u);
      } else {
        RemoveRunKeepsLastIdle(q, x + 1, j, u);
      }
    }
  }

  /** A removal leaves the last slice idle. */
  lemma RemoveKeepsLastIdle(p: Profile, j: JobId, repair: MachineSet)
    requires LastIsIdle(p)
    ensures LastIsIdle(Remove(p, j, repair))
  {
    hide RemoveRun;
    var x := FirstOccurrence(p, j, 0);
    if x < |p| {
      RemoveRunKeepsLastIdle(p, x, j, p[x].jobs[j] - repair);
    }
  }

  /** Moving the present leaves the last slice idle. */
  lemma AdvanceKeepsLastIdle(p: Profile, date: real)
    requires LastIsIdle(p)
    ensures LastIsIdle(Advance(p, date))
  {
  }
}
