/** Requests for no machine: the contiguous selector grants them only while some machine is free, so what keeps such a
    request feasible is a machine that stays free without being taken. */
module Vacancies {
  import opened Machines
  import opened Profiles
  import opened Placement
  import opened Removal
  import opened FirstFits
  import opened Slots

  /** The machine is free at every instant from b up to e. */
  ghost predicate Vacant(p: Profile, m: nat, b: real, e: real) {
    FreeThroughout(p, {m}, b, e)
  }

  ghost predicate SomeVacant(p: Profile, b: real, e: real) {
    exists m :: Vacant(p, m, b, e)
  }

  lemma FreeIsUnheld(p: Profile, all: MachineSet, m: nat, t: real)
    requires Valid(p, all, {}) && Within(p, t)
    ensures Tiles(p)
    ensures m in FreeAt(p, t) <==> m in all && forall j :: j in JobsAt(p, t) ==> m !in JobsAt(p, t)[j]
  {
    hide Runs, IndexAt, Horizon;
    var s := p[IndexAt(p, t)];
    assert SliceOk(s, all, {});
    FreeIsRest(s, all, {}, m);
    assert JobsAt(p, t) == s.jobs && FreeAt(p, t) == s.available;
  }

  /** A machine that no job holds in the second profile unless one held it in the first stays vacant. */
  lemma VacantCarries(p: Profile, q: Profile, all: MachineSet, m: nat, b: real, e: real)
    requires Valid(p, all, {}) && Valid(q, all, {}) && Vacant(p, m, b, e)
    requires q[0].begin <= b && e <= Horizon(q)
    requires forall t, j :: b <= t < e && Within(p, t) && Within(q, t) && j in JobsAt(q, t) && m in JobsAt(q, t)[j]
               ==> j in JobsAt(p, t) && m in JobsAt(p, t)[j]
    ensures Vacant(q, m, b, e)
  {
    hide SliceOk, Runs, JobsAt, FreeAt;
    FreeEnd(p, {m}, b, e);
    forall t | b <= t < e ensures {m} <= FreeAt(q, t) {
      assert Within(p, t) && Within(q, t);
      FreeIsUnheld(p, all, m, t);
      FreeIsUnheld(q, all, m, t);
      assert m in {m} && {m} <= FreeAt(p, t);
    }
  }

  /** Removing a job leaves a vacant machine vacant. */
  lemma RemoveKeepsVacant(p: Profile, k: JobId, all: MachineSet, m: nat, b: real, e: real)
    requires Valid(p, all, {}) && Vacant(p, m, b, e)
    ensures Vacant(Remove(p, k, {}), m, b, e)
  {
    hide SliceOk, Runs, JobsAt, Remove, FreeThroughout;
    var q := Remove(p, k, {});
    RemoveKeeps(p, k, all, {});
    FreeEnd(p, {m}, b, e);
    forall t, j | b <= t < e && Within(p, t) && Within(q, t) && j in JobsAt(q, t) && m in JobsAt(q, t)[j]
      ensures j in JobsAt(p, t) && m in JobsAt(p, t)[j]
    {
      RemoveJobsAt(p, k, all, {}, t);
    }
    VacantCarries(p, q, all, m, b, e);
  }

  /** Moving the present leaves a vacant machine vacant. */
  lemma AdvanceKeepsVacant(p: Profile, date: real, all: MachineSet, m: nat, b: real, e: real)
    requires Valid(p, all, {}) && CanAdvance(p, date) && Vacant(p, m, b, e) && date <= b
    ensures Vacant(Advance(p, date), m, b, e)
  {
    hide SliceOk, Runs, JobsAt, FreeThroughout, Advance;
    var q := Advance(p, date);
    AdvanceKeeps(p, date, all, {});
    FreeEnd(p, {m}, b, e);
    forall t, j | b <= t < e && Within(p, t) && Within(q, t) && j in JobsAt(q, t) && m in JobsAt(q, t)[j]
      ensures j in JobsAt(p, t) && m in JobsAt(p, t)[j]
    {
      AdvanceJobsAt(p, date, t);
    }
    VacantCarries(p, q, all, m, b, e);
  }

  /** Where first fit places a request for no machine with the contiguous selector, a machine is vacant, and remains so
      once the request is placed. */
  lemma EmptySpotIsVacant(p: Profile, job: Job, all: MachineSet) returns (m: nat)
    requires Valid(p, all, {}) && job.res == 0 && job.walltime > 0.0 && !Contains(p, job.id)
    requires FirstFit(p, 0, 0, job.walltime, Contiguous).Some?
    ensures var Added(q, alloc) := Add(p, 0, job, Contiguous);
            alloc.machines == {} && Vacant(q, m, alloc.begin, alloc.begin + job.walltime)
  {
    hide SliceOk, Runs, JobsAt, FirstAnchor, Place, Contains, FreeThroughout;
    var Spot(i, k, u) := FirstFit(p, 0, 0, job.walltime, Contiguous).value;
    FitContract(Contiguous, 0, Common(p, i, k));
    m :| m in Common(p, i, k);
    var b, e := p[i].begin, p[i].begin + job.walltime;
    SpotIsPlaceable(p, 0, job, Contiguous);
    assert u == {};
    CommonIsFree(p, i, k, {m}, e);
    var q := Add(p, 0, job, Contiguous).profile;
    AddKeeps(p, 0, job, Contiguous, all, {});
    FreeEnd(p, {m}, b, e);
    forall t, j | b <= t < e && Within(p, t) && Within(q, t) && j in JobsAt(q, t) && m in JobsAt(q, t)[j]
      ensures j in JobsAt(p, t) && m in JobsAt(p, t)[j]
    {
      PlaceJobsAt(p, i, k, e, job.id, u, all, {}, t);
    }
    VacantCarries(p, q, all, m, b, e);
  }

  /** A vacant machine lets the contiguous selector grant a request for no machine. */
  lemma VacantFits(m: nat)
    ensures CanFit(Contiguous, 0, {m})
  {
    assert m in {m} && Block(m, 0) <= {m};
  }

  /** With every machine taken now, the contiguous selector starts nothing now. */
  lemma NothingStarts(p: Profile, job: Job)
    requires |p| > 0 && p[0].available == {}
    ensures !Add(p, 0, job, Contiguous).alloc.startedInFirstSlice
  {
    hide SpanEnd, Place;
  }

  /** When all jobs of the profile run now, a machine that is free now stays free. */
  lemma FreeNowStays(p: Profile, all: MachineSet, x: nat)
    requires Valid(p, all, {}) && x < |p| && forall j :: j in p[x].jobs ==> j in p[0].jobs
    ensures p[0].available <= p[x].available
  {
    hide Tiles, Holds, Partition;
    assert SliceOk(p[0], all, {}) && SliceOk(p[x], all, {});
    forall m | m in p[0].available ensures m in p[x].available {
      FreeIsRest(p[0], all, {}, m);
      FreeIsRest(p[x], all, {}, m);
    }
  }

  /** When all jobs of the profile run now, a request for no machine waits only because every machine is taken. */
  lemma WaitsForAnyMachine(p: Profile, job: Job, all: MachineSet)
    requires Valid(p, all, {}) && job.res == 0 && job.walltime > 0.0 && !Contains(p, job.id)
    requires forall i, j :: 0 <= i < |p| && j in p[i].jobs ==> j in p[0].jobs
    requires var alloc := Add(p, 0, job, Contiguous).alloc; alloc.hasBeenInserted && !alloc.startedInFirstSlice
    ensures |p| > 0 && p[0].available == {}
    ensures var q := Add(p, 0, job, Contiguous).profile; |q| > 0 && q[0].available == {}
  {
    hide SliceOk, Runs, Place, Contains, Horizon;
    var Spot(i, k, u) := FirstFit(p, 0, 0, job.walltime, Contiguous).value;
    var e := SpanEnd(p, 0, 0, job.walltime);
    Ordered(p, 0, i);
    assert e < |p| by { assert p[k].end - p[i].begin >= job.walltime; assert p[k].end - p[0].begin >= job.walltime; }
    assert !Anchor(p, 0, 0, job.walltime, Contiguous);
    if m :| m in p[0].available {
      forall x | 0 <= x <= e ensures {m} <= p[x].available { FreeNowStays(p, all, x); }
      CommonIsGreatest(p, 0, e, {m});
    }
    PlacedLater(p, i, k, p[i].begin + job.walltime, job.id, u, 0);
  }

  lemma PlacedLater(p: Profile, i: nat, k: nat, date: real, j: JobId, u: MachineSet, n: nat)
    requires 0 < i <= k < |p|
    ensures |Place(p, i, k, date, j, u, n)| > 0 && Place(p, i, k, date, j, u, n)[0] == p[0]
  {
  }
}
