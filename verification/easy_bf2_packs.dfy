/** A call of the EASY scheduler leaves no job waiting that it could start: what it refuses has no machines now, or none
    that stay free for its walltime beside the head's reservation. */
module EasyBf2Packs {
  import opened Machines
  import opened Profiles
  import opened Placement
  import opened Removal
  import opened FirstFits
  import opened Slots
  import opened Vacancies
  import opened Membership
  import opened Queues
  import opened EasyBf2Model
  import opened EasyBf2Proofs
  import opened EasyBf2Accounts
  import opened EasyBf2Guarantee
  import opened EasyBf2Starts
  import opened EasyBf2Runs

  /** No machines that are free now and stay free for the job's walltime could serve it. */
  ghost predicate Refused(cfg: Config, p: Profile, job: Job) {
    |p| > 0 && forall m :: m <= p[0].available && CanFit(cfg.selector, job.res, m) ==>
                 !FreeThroughout(p, m, p[0].begin, p[0].begin + job.walltime)
  }

  // ---------------------------------------------------------------- one profile

  lemma AnchorsNow(p: Profile, n: nat, walltime: real, sel: Selector, m: MachineSet)
    requires |p| > 0 && walltime > 0.0 && FreeThroughout(p, m, p[0].begin, p[0].begin + walltime)
    requires m <= p[0].available && CanFit(sel, n, m)
    ensures Anchor(p, 0, n, walltime, sel)
  {
    hide CanFit, IndexAt;
    var k := SpanEnd(p, 0, 0, walltime);
    assert k < |p| by { assert p[|p| - 1].end - p[0].begin >= walltime; }
    forall x | 0 <= x <= k ensures m <= p[x].available {
      if x > 0 {
        Ordered(p, 0, x);
        assert p[x - 1].end == p[x].begin && p[x].begin < p[x].end && p[x - 1].end - p[0].begin < walltime;
        IndexUnique(p, x, p[x].begin);
        assert m <= FreeAt(p, p[x].begin);
      }
    }
    CommonIsGreatest(p, 0, k, m);
    FitMonotone(sel, n, m, Common(p, 0, k));
  }

  /** An insertion that does not start now was refused now. */
  lemma RefusedNow(cfg: Config, p: Profile, job: Job)
    requires Good(cfg, p) && JobOk(cfg, job) && Insertion(cfg, p, job).Some?
    requires !Insertion(cfg, p, job).value.alloc.startedInFirstSlice
    ensures Refused(cfg, p, job)
  {
    hide Valid, Canonical, Anchor, FreeThroughout, CanFit, Place, Contains;
    GoodParts(cfg, p);
    forall m | m <= p[0].available && CanFit(cfg.selector, job.res, m)
      ensures !FreeThroughout(p, m, p[0].begin, p[0].begin + job.walltime)
    {
      if FreeThroughout(p, m, p[0].begin, p[0].begin + job.walltime) {
        AnchorsNow(p, job.res, job.walltime, cfg.selector, m);
      }
    }
  }

  /** Every job of the first map is in the second, on the same machines. */
  ghost predicate HeldOn(a: map<JobId, MachineSet>, b: map<JobId, MachineSet>) {
    forall j :: j in a ==> j in b && b[j] == a[j]
  }

  /** What is refused stays refused when later the same jobs and more hold their machines. */
  lemma RefusedCarries(cfg: Config, p: Profile, q: Profile, job: Job)
    requires var all := AllMachines(cfg.nbMachines); Valid(p, all, {}) && Valid(q, all, {})
    requires p[0].begin <= q[0].begin && Horizon(p) == Horizon(q) && HeldOn(p[0].jobs, q[0].jobs) && job.walltime > 0.0
    requires forall t :: Within(p, t) && t < q[0].begin ==> JobsAt(p, t) == p[0].jobs
    requires forall t :: Within(p, t) && Within(q, t) ==> HeldOn(JobsAt(p, t), JobsAt(q, t))
    requires Refused(cfg, p, job)
    ensures Refused(cfg, q, job)
  {
    hide SliceOk, Runs, JobsAt, FreeAt, CanFit, FreeThroughout;
    var b, d := p[0].begin, q[0].begin;
    forall m | m <= q[0].available && CanFit(cfg.selector, job.res, m)
      ensures !FreeThroughout(q, m, d, d + job.walltime)
    {
      if FreeThroughout(q, m, d, d + job.walltime) {
        FreeBefore(cfg, p, q, m, job.walltime);
      }
    }
  }

  lemma FreeBefore(cfg: Config, p: Profile, q: Profile, m: MachineSet, walltime: real)
    requires var all := AllMachines(cfg.nbMachines); Valid(p, all, {}) && Valid(q, all, {})
    requires p[0].begin <= q[0].begin && Horizon(p) == Horizon(q) && HeldOn(p[0].jobs, q[0].jobs) && walltime > 0.0
    requires forall t :: Within(p, t) && t < q[0].begin ==> JobsAt(p, t) == p[0].jobs
    requires forall t :: Within(p, t) && Within(q, t) ==> HeldOn(JobsAt(p, t), JobsAt(q, t))
    requires m <= q[0].available && FreeThroughout(q, m, q[0].begin, q[0].begin + walltime)
    ensures m <= p[0].available && FreeThroughout(p, m, p[0].begin, p[0].begin + walltime)
  {
    hide Runs, JobsAt, FreeAt, Holds, Partition;
    var all := AllMachines(cfg.nbMachines);
    var b, d := p[0].begin, q[0].begin;
    FreeEnd(q, m, d, d + walltime);
    assert SliceOk(p[0], all, {}) && SliceOk(q[0], all, {});
    forall x | x in m ensures x in p[0].available {
      FreeIsRest(p[0], all, {}, x);
      FreeIsRest(q[0], all, {}, x);
    }
    forall t | b <= t < b + walltime ensures m <= FreeAt(p, t) {
      assert Within(p, t);
      forall x | x in m ensures x in FreeAt(p, t) {
        FreeIsUnheld(p, all, x, t);
        if t < d {
          FreeIsRest(p[0], all, {}, x);
        } else {
          assert Within(q, t) && m <= FreeAt(q, t);
          FreeIsUnheld(q, all, x, t);
        }
      }
    }
  }

  // ---------------------------------------------------------------- what the operations keep refused

  lemma AddedJobsAt(cfg: Config, p: Profile, job: Job, t: real)
    requires Good(cfg, p) && JobOk(cfg, job) && Insertion(cfg, p, job).Some? && Within(p, t)
    ensures var q := Insertion(cfg, p, job).value.profile;
            && Tiles(p) && Tiles(q) && Within(q, t) && job.id !in JobsAt(p, t)
            && JobsAt(q, t) - {job.id} == JobsAt(p, t)
            && HeldOn(JobsAt(p, t), JobsAt(q, t))
  {
    hide Valid, Canonical, JobsAt, FirstFit, Place, Placeable, Contains;
    var all := AllMachines(cfg.nbMachines);
    GoodParts(cfg, p);
    SpotIsPlaceable(p, 0, job, cfg.selector);
    var Spot(i, k, u) := FirstFit(p, 0, job.res, job.walltime, cfg.selector).value;
    NotAt(p, job.id, t);
    PlaceJobsAt(p, i, k, p[i].begin + job.walltime, job.id, u, all, {}, t);
    ValidTiles(Insertion(cfg, p, job).value.profile, all);
  }

  lemma ValidTiles(p: Profile, all: MachineSet)
    requires Valid(p, all, {})
    ensures Tiles(p)
  {
  }

  /** Another job's insertion. */
  lemma InsertionKeepsRefused(cfg: Config, p: Profile, job: Job, other: Job)
    requires Good(cfg, p) && JobOk(cfg, job) && Insertion(cfg, p, job).Some? && Refused(cfg, p, other)
    requires other.walltime > 0.0
    ensures Refused(cfg, Insertion(cfg, p, job).value.profile, other)
  {
    hide Valid, Canonical, JobsAt, Insertion, Refused, JobSet, Present;
    var q := Insertion(cfg, p, job).value.profile;
    GoodParts(cfg, p);
    GoodInsertion(cfg, p, job);
    GoodParts(cfg, q);
    FirstHeld(cfg, p, job);
    forall t | Within(p, t) && Within(q, t) ensures HeldOn(JobsAt(p, t), JobsAt(q, t)) {
      AddedJobsAt(cfg, p, job, t);
    }
    RefusedCarries(cfg, p, q, other);
  }

  lemma FirstHeld(cfg: Config, p: Profile, job: Job)
    requires Good(cfg, p) && JobOk(cfg, job) && Insertion(cfg, p, job).Some?
    ensures var q := Insertion(cfg, p, job).value.profile;
            |p| > 0 && |q| > 0 && q[0].jobs - {job.id} == p[0].jobs && HeldOn(p[0].jobs, q[0].jobs)
  {
    hide Valid, Canonical, Insertion, JobSet, Contains;
    GoodParts(cfg, p);
    GoodInsertion(cfg, p, job);
    GoodParts(cfg, Insertion(cfg, p, job).value.profile);
    assert job.id !in p[0].jobs by { NotIn(p, job.id); }
  }

  lemma NotIn(p: Profile, j: JobId)
    requires !Contains(p, j) && |p| > 0
    ensures j !in p[0].jobs
  {
  }

  /** Another job's insertion, beside a reservation that is set aside. */
  lemma InsertionKeepsAside(cfg: Config, p: Profile, job: Job, h: JobId, other: Job)
    requires Good(cfg, p) && JobOk(cfg, job) && Insertion(cfg, p, job).Some? && h != job.id
    requires Refused(cfg, Remove(p, h, {}), other) && other.walltime > 0.0
    ensures Refused(cfg, Remove(Insertion(cfg, p, job).value.profile, h, {}), other)
  {
    hide Valid, Canonical, JobsAt, Insertion, Refused, JobSet, Remove, Contains;
    var q := Insertion(cfg, p, job).value.profile;
    var a, c := Remove(p, h, {}), Remove(q, h, {});
    GoodParts(cfg, p);
    GoodInsertion(cfg, p, job);
    GoodParts(cfg, q);
    GoodRemove(cfg, p, h);
    GoodRemove(cfg, q, h);
    GoodParts(cfg, a);
    GoodParts(cfg, c);
    FirstHeld(cfg, p, job);
    WithoutHeld(p[0].jobs, q[0].jobs, h);
    forall t | Within(a, t) && Within(c, t) ensures HeldOn(JobsAt(a, t), JobsAt(c, t)) {
      AddedJobsAt(cfg, p, job, t);
      AsideJobsAt(cfg, p, h, t);
      AsideJobsAt(cfg, q, h, t);
      WithoutHeld(JobsAt(p, t), JobsAt(q, t), h);
    }
    RefusedCarries(cfg, a, c, other);
  }

  lemma WithoutHeld(a: map<JobId, MachineSet>, b: map<JobId, MachineSet>, h: JobId)
    requires HeldOn(a, b)
    ensures HeldOn(a - {h}, b - {h})
  {
  }

  lemma AdvancedJobsAt(p: Profile, date: real, all: MachineSet, t: real)
    requires Valid(p, all, {}) && CanAdvance(p, date) && Within(p, t)
    ensures Tiles(p) && Tiles(Advance(p, date))
    ensures t < date ==> JobsAt(p, t) == p[0].jobs
    ensures date <= t ==> Within(Advance(p, date), t) && JobsAt(Advance(p, date), t) == JobsAt(p, t)
  {
    hide SliceOk, Runs;
    AdvanceTiles(p, date);
    if t < date { IndexUnique(p, 0, t); } else { AdvanceJobsAt(p, date, t); }
  }

  /** Time passing within the first slice. */
  lemma AdvanceKeepsRefused(cfg: Config, p: Profile, date: real, other: Job)
    requires Good(cfg, p) && CanAdvance(p, date) && Refused(cfg, p, other) && other.walltime > 0.0
    ensures Refused(cfg, Advance(p, date), other)
  {
    hide Valid, Canonical, JobsAt, Refused, Advance;
    var all := AllMachines(cfg.nbMachines);
    var q := Advance(p, date);
    GoodParts(cfg, p);
    AdvanceKeeps(p, date, all, {});
    AdvanceJobSet(p, date);
    ValidTiles(q, all);
    forall t | Within(p, t) && t < date ensures JobsAt(p, t) == p[0].jobs { AdvancedJobsAt(p, date, all, t); }
    forall t | Within(p, t) && Within(q, t) ensures HeldOn(JobsAt(p, t), JobsAt(q, t)) {
      AdvancedJobsAt(p, date, all, t);
    }
    RefusedCarries(cfg, p, q, other);
  }

  /** The same beside a reservation that is set aside. */
  lemma AdvanceKeepsAside(cfg: Config, p: Profile, date: real, h: JobId, other: Job)
    requires Good(cfg, p) && CanAdvance(p, date) && h !in Present(p)
    requires Refused(cfg, Remove(p, h, {}), other) && other.walltime > 0.0
    ensures Refused(cfg, Remove(Advance(p, date), h, {}), other)
  {
    hide Valid, Canonical, JobsAt, Refused, Advance, Remove, JobSet;
    var all := AllMachines(cfg.nbMachines);
    var q := Advance(p, date);
    var a, c := Remove(p, h, {}), Remove(q, h, {});
    GoodParts(cfg, p);
    AdvanceKeeps(p, date, all, {});
    AdvanceJobSet(p, date);
    GoodRemove(cfg, p, h);
    GoodRemove(cfg, q, h);
    GoodParts(cfg, a);
    GoodParts(cfg, c);
    GoodParts(cfg, q);
    assert p[0].jobs - {h} == p[0].jobs;
    forall t | Within(a, t) && t < date ensures JobsAt(a, t) == a[0].jobs {
      AdvancedJobsAt(p, date, all, t);
      AsideJobsAt(cfg, p, h, t);
    }
    forall t | Within(a, t) && Within(c, t) ensures HeldOn(JobsAt(a, t), JobsAt(c, t)) {
      AdvancedJobsAt(p, date, all, t);
      AsideJobsAt(cfg, p, h, t);
      AsideJobsAt(cfg, q, h, t);
    }
    RefusedCarries(cfg, a, c, other);
  }

  /** Removal takes away the job and nothing else, at every instant. */
  lemma AsideJobsAt(cfg: Config, p: Profile, h: JobId, t: real)
    requires Good(cfg, p) && Within(p, t)
    ensures Tiles(p) && Tiles(Remove(p, h, {})) && Within(Remove(p, h, {}), t)
    ensures JobsAt(Remove(p, h, {}), t) == JobsAt(p, t) - {h}
  {
    hide Valid, Canonical, JobsAt, Remove;
    GoodParts(cfg, p);
    RemoveJobsAt(p, h, AllMachines(cfg.nbMachines), {}, t);
  }

  // ---------------------------------------------------------------- the queue

  /** The head could not start now, its own reservation set aside. */
  ghost predicate HeadRefused(cfg: Config, st: State) {
    st.queue != [] && st.queue[0].job.res > 0 ==>
      Refused(cfg, Remove(st.profile, st.queue[0].job.id, {}), st.queue[0].job)
  }

  /** The jobs at positions 1 to n - 1 could not start now beside the reservation. */
  ghost predicate RefusedUpTo(cfg: Config, st: State, n: int) {
    forall i :: 0 < i < n && i < |st.queue| && st.queue[i].job.res > 0 ==> Refused(cfg, st.profile, st.queue[i].job)
  }

  /** No waiting job that asks for machines could start now. */
  ghost predicate Packed(cfg: Config, st: State) {
    HeadRefused(cfg, st) && RefusedUpTo(cfg, st, |st.queue|)
  }

  /** Whatever was refused before is refused after. */
  ghost predicate Tightens(cfg: Config, p: Profile, q: Profile) {
    forall k: Job :: k.walltime > 0.0 && Refused(cfg, p, k) ==> Refused(cfg, q, k)
  }

  /** Starting another job leaves refused what was refused, the head included. */
  lemma StartTightens(cfg: Config, st: State, i: nat, job: Job, b: real)
    requires Reserved(cfg, st, b) && 0 < i < |st.queue| && st.queue[i].job.id == job.id && JobOk(cfg, job)
    requires Insertion(cfg, st.profile, job).Some? && HeadRefused(cfg, st)
    ensures var p := Insertion(cfg, st.profile, job).value.profile;
            && Tightens(cfg, st.profile, p)
            && HeadRefused(cfg, State(p, WithoutIndex(st.queue, i), st.decisions))
  {
    hide Good, QueueOk, JobSet, Insertion, Reservation, Remove, Refused;
    BaseGood(cfg, st);
    HeadNotPresent(cfg, st);
    NotInProfile(cfg, st, i, b);
    FewerQueued(st.queue, i);
    var p := Insertion(cfg, st.profile, job).value.profile;
    forall k: Job | k.walltime > 0.0 && Refused(cfg, st.profile, k) ensures Refused(cfg, p, k) {
      InsertionKeepsRefused(cfg, st.profile, job, k);
    }
    if st.queue[0].job.res > 0 {
      InsertionKeepsAside(cfg, st.profile, job, st.queue[0].job.id, st.queue[0].job);
    }
  }

  lemma FewerRefused(cfg: Config, st: State, r: State, i: nat)
    requires 0 < i < |st.queue| && r.queue == WithoutIndex(st.queue, i) && QueueOk(cfg, st.queue)
    requires RefusedUpTo(cfg, st, i) && Tightens(cfg, st.profile, r.profile)
    ensures RefusedUpTo(cfg, r, i)
  {
    hide Refused;
    forall k | 0 < k < i && k < |r.queue| && r.queue[k].job.res > 0 ensures Refused(cfg, r.profile, r.queue[k].job) {
      assert r.queue[k] == st.queue[k] && st.queue[k] in st.queue;
    }
  }

  lemma {:induction false} TraverseBehindPacks(cfg: Config, st: State, i: nat, b: real)
    requires Reserved(cfg, st, b) && Firm(cfg, st) && i > 0 && Traverse(cfg, st, i, Head(st.queue)).Some?
    requires HeadRefused(cfg, st) && RefusedUpTo(cfg, st, i)
    ensures Packed(cfg, Traverse(cfg, st, i, Head(st.queue)).value)
    decreases |st.queue| - i
  {
    hide Good, JobSet, JobOk, Insertion, Remove, Present, Reservation, WithoutIndex, Contains, Refused, RefusedUpTo,
         HeadRefused, Proceeds, Firm, Tightens;
    if i < |st.queue| {
      var job := st.queue[i].job;
      NotInProfile(cfg, st, i, b);
      RemoveAbsent(st.profile, job.id, {});
      TryBehindHead(cfg, {}, st, i, job, b);
      BaseGood(cfg, st);
      var Added(p, alloc) := Insertion(cfg, st.profile, job).value;
      if alloc.startedInFirstSlice {
        var s := State(p, WithoutIndex(st.queue, i), st.decisions + [Execute(job.id, alloc.machines)]);
        FewerQueued(st.queue, i);
        StartTightens(cfg, st, i, job, b);
        FewerRefused(cfg, st, s, i);
        HeadRefusedSame(cfg, State(p, WithoutIndex(st.queue, i), st.decisions), s);
        TraverseBehindPacks(cfg, s, i, b);
      } else {
        RefusedNow(cfg, st.profile, job);
        OneMoreRefused(cfg, st, i);
        TraverseBehindPacks(cfg, st, i + 1, b);
      }
    } else {
      AllRefused(cfg, st, i);
    }
  }

  lemma HeadRefusedSame(cfg: Config, st: State, r: State)
    requires HeadRefused(cfg, st) && r.profile == st.profile && r.queue == st.queue
    ensures HeadRefused(cfg, r)
  {
    hide Refused, Remove;
  }

  lemma OneMoreRefused(cfg: Config, st: State, i: nat)
    requires RefusedUpTo(cfg, st, i) && i < |st.queue| && Refused(cfg, st.profile, st.queue[i].job)
    ensures RefusedUpTo(cfg, st, i + 1)
  {
    hide Refused;
  }

  lemma AllRefused(cfg: Config, st: State, i: nat)
    requires RefusedUpTo(cfg, st, i) && i >= |st.queue|
    ensures RefusedUpTo(cfg, st, |st.queue|)
  {
    hide Refused;
  }

  /** A head placed anew that does not start now was refused. */
  lemma PlacedHeadRefused(cfg: Config, st: State, q: Profile)
    requires Unreserved(cfg, st) && st.queue != [] && Insertion(cfg, st.profile, st.queue[0].job).Some?
    requires !Insertion(cfg, st.profile, st.queue[0].job).value.alloc.startedInFirstSlice
    requires q == Insertion(cfg, st.profile, st.queue[0].job).value.profile
    ensures Reserved(cfg, st.(profile := q), Insertion(cfg, st.profile, st.queue[0].job).value.alloc.begin)
    ensures Firm(cfg, st.(profile := q)) && HeadRefused(cfg, st.(profile := q))
  {
    hide Good, QueueOk, JobOk, Insertion, JobSet, Present, Reservation, Refused, Remove, Firm;
    var job := st.queue[0].job;
    HeadNotPresent(cfg, st);
    GoodInsertion(cfg, st.profile, job);
    InsertionReserves(cfg, st.profile, job);
    RefusedNow(cfg, st.profile, job);
    WaitingIsFirm(cfg, st);
  }

  lemma NoneBehind(cfg: Config, st: State)
    ensures RefusedUpTo(cfg, st, 1)
  {
  }

  lemma {:induction false} TraverseFromHeadPacks(cfg: Config, st: State)
    requires Unreserved(cfg, st) && Traverse(cfg, st, 0, Head(st.queue)).Some?
    ensures Packed(cfg, Traverse(cfg, st, 0, Head(st.queue)).value)
    decreases |st.queue|
  {
    hide Good, QueueOk, JobOk, Insertion, Remove, JobSet, Present, Reservation, WithoutIndex, Contains, Refused,
         Proceeds, RefusedUpTo, Firm;
    if st.queue == [] {
      NothingQueued(cfg, st);
    } else {
      var job := st.queue[0].job;
      HeadNotPresent(cfg, st);
      JobSetContains(st.profile, job.id);
      RemoveAbsent(st.profile, job.id, {});
      var Added(p, alloc) := Insertion(cfg, st.profile, job).value;
      if alloc.startedInFirstSlice {
        StartJob(cfg, {}, st, 0, job);
        FewerQueued(st.queue, 0);
        TraverseFromHeadPacks(cfg,
                              State(p, WithoutIndex(st.queue, 0), st.decisions + [Execute(job.id, alloc.machines)]));
      } else {
        PlacedHeadRefused(cfg, st, p);
        NoneBehind(cfg, st.(profile := p));
        TraverseBehindPacks(cfg, st.(profile := p), 1, alloc.begin);
      }
    }
  }

  lemma NothingQueued(cfg: Config, st: State)
    requires st.queue == []
    ensures Packed(cfg, st)
  {
  }

  /** A traversal of the queue leaves no job waiting that could start. */
  lemma TraversePacks(cfg: Config, st: State, b: real)
    requires Reserved(cfg, st, b) && Traverse(cfg, st, 0, Head(st.queue)).Some?
    ensures Packed(cfg, Traverse(cfg, st, 0, Head(st.queue)).value)
  {
    hide Good, QueueOk, JobOk, Insertion, Remove, JobSet, Present, Reservation, WithoutIndex, Contains, Refused,
         Proceeds, RefusedUpTo, Firm;
    var job := st.queue[0].job;
    HeadNotPresent(cfg, st);
    BaseGood(cfg, st);
    DropReservation(cfg, {}, st, b, job.id, st.queue);
    var s := st.(profile := Remove(st.profile, job.id, {}));
    var Added(p, alloc) := Insertion(cfg, s.profile, job).value;
    if alloc.startedInFirstSlice {
      StartJob(cfg, {}, s, 0, job);
      TraverseFromHeadPacks(cfg, State(p, WithoutIndex(st.queue, 0), st.decisions + [Execute(job.id, alloc.machines)]));
    } else {
      PlacedHeadRefused(cfg, s, p);
      NoneBehind(cfg, st.(profile := p));
      TraverseBehindPacks(cfg, st.(profile := p), 1, alloc.begin);
    }
  }

  // ---------------------------------------------------------------- calls without completions

  /** With fewer machines free than it asks for, a job is refused. */
  lemma TooFewRefuse(cfg: Config, p: Profile, job: Job)
    requires |p| > 0 && |p[0].available| < job.res
    ensures Refused(cfg, p, job)
  {
    hide CanFit;
    forall m | m <= p[0].available ensures !CanFit(cfg.selector, job.res, m) {
      FitContract(cfg.selector, job.res, m);
      SubsetSize(m, p[0].available);
    }
  }

  /** A start takes as many of the free machines as the job asks for. */
  lemma StartTakes(cfg: Config, p: Profile, job: Job)
    requires Good(cfg, p) && JobOk(cfg, job) && Insertion(cfg, p, job).Some?
    requires Insertion(cfg, p, job).value.alloc.startedInFirstSlice
    ensures var q := Insertion(cfg, p, job).value.profile;
            |p| > 0 && |q| > 0 && |q[0].available| == |p[0].available| - job.res
  {
    hide Valid, Canonical, FirstFit, CanFit, Contains;
    GoodParts(cfg, p);
    SpotIsPlaceable(p, 0, job, cfg.selector);
    var Spot(i, k, u) := FirstFit(p, 0, job.res, job.walltime, cfg.selector).value;
    PlacedNow(p, k, p[i].begin + job.walltime, job.id, u, job.res);
  }

  lemma PlacedNow(p: Profile, k: nat, date: real, j: JobId, u: MachineSet, n: nat)
    requires k < |p| && u <= p[0].available
    ensures var q := Place(p, 0, k, date, j, u, n); |q| > 0 && |q[0].available| == |p[0].available| - |u|
  {
    var q := Place(p, 0, k, date, j, u, n);
    assert q[0].available == p[0].available - u;
  }

  /** A job of the list that still waits behind the head is refused. */
  ghost predicate NewRefused(cfg: Config, r: State, recent: seq<Job>) {
    forall k :: k in recent && k.res > 0 && k.id in QueueIds(r.queue) && Head(r.queue) != Some(k.id) ==>
      Refused(cfg, r.profile, k)
  }

  lemma {:induction false} BackfillNewPacks(cfg: Config, st: State, recent: seq<Job>, nb: int, b: real)
    requires Reserved(cfg, st, b) && Firm(cfg, st) && BackfillNew(cfg, st, recent, nb).Some? && HeadRefused(cfg, st)
    requires (forall k :: k in recent ==> JobOk(cfg, k)) && nb == |st.profile[0].available|
    ensures var r := BackfillNew(cfg, st, recent, nb).value;
            && HeadRefused(cfg, r) && Tightens(cfg, st.profile, r.profile) && NewRefused(cfg, r, recent)
            && Head(r.queue) == Head(st.queue) && QueueIds(r.queue) <= QueueIds(st.queue)
    decreases |recent|
  {
    hide Good, JobSet, Insertion, Remove, Present, Reservation, WithoutIndex, Refused, Proceeds, Firm, HeadRefused,
         QueueIds, NewRefused, Tightens, Valid, Canonical;
    BaseGood(cfg, st);
    GoodParts(cfg, st.profile);
    if recent == [] || nb <= 0 {
      NoneTight(cfg, st.profile);
      NothingFreeRefuses(cfg, st, recent);
    } else {
      var job := recent[0];
      assert recent == [job] + recent[1..];
      assert JobOk(cfg, job) && forall k :: k in recent[1..] ==> k in recent;
      if job.id in QueueIds(st.queue) && Head(st.queue) != Some(job.id) && job.res <= nb {
        var i := IndexOf(st.queue, job.id, 0);
        IndexOfQueued(st.queue, job.id);
        TryBehindHead(cfg, {}, st, i, job, b);
        var Added(p, alloc) := Insertion(cfg, st.profile, job).value;
        if alloc.startedInFirstSlice {
          var s := State(p, WithoutIndex(st.queue, i), st.decisions + [Execute(job.id, alloc.machines)]);
          StartTightens(cfg, st, i, job, b);
          HeadRefusedSame(cfg, State(p, WithoutIndex(st.queue, i), st.decisions), s);
          StartTakes(cfg, st.profile, job);
          WithoutIndexKeeps(st.queue, i);
          BackfillNewPacks(cfg, s, recent[1..], nb - job.res, b);
          var r := BackfillNew(cfg, s, recent[1..], nb - job.res).value;
          TightensOn(cfg, st.profile, p, r.profile);
          GoneIsRefused(cfg, r, recent);
        } else {
          RefusedNow(cfg, st.profile, job);
          BackfillNewPacks(cfg, st, recent[1..], nb, b);
          var r := BackfillNew(cfg, st, recent[1..], nb).value;
          LaterRefused(cfg, st.profile, r, recent);
        }
      } else {
        BackfillNewPacks(cfg, st, recent[1..], nb, b);
        var r := BackfillNew(cfg, st, recent[1..], nb).value;
        if job.res > nb {
          TooFewRefuse(cfg, st.profile, job);
          LaterRefused(cfg, st.profile, r, recent);
        } else {
          GoneIsRefused(cfg, r, recent);
        }
      }
    }
  }

  lemma NoneTight(cfg: Config, p: Profile)
    ensures Tightens(cfg, p, p)
  {
  }

  lemma TightensOn(cfg: Config, p: Profile, q: Profile, r: Profile)
    requires Tightens(cfg, p, q) && Tightens(cfg, q, r)
    ensures Tightens(cfg, p, r)
  {
    hide Refused;
  }

  lemma NothingFreeRefuses(cfg: Config, st: State, recent: seq<Job>)
    requires recent == [] || (|st.profile| > 0 && |st.profile[0].available| == 0)
    ensures NewRefused(cfg, st, recent)
  {
    hide Refused;
    forall k | k in recent && k.res > 0 ensures Refused(cfg, st.profile, k) { TooFewRefuse(cfg, st.profile, k); }
  }

  /** The first job of the list no longer waits behind the head. */
  lemma GoneIsRefused(cfg: Config, r: State, recent: seq<Job>)
    requires recent != [] && NewRefused(cfg, r, recent[1..])
    requires recent[0].id !in QueueIds(r.queue) || Head(r.queue) == Some(recent[0].id)
    ensures NewRefused(cfg, r, recent)
  {
    hide Refused, QueueIds;
    assert recent == [recent[0]] + recent[1..];
  }

  lemma LaterRefused(cfg: Config, p: Profile, r: State, recent: seq<Job>)
    requires recent != [] && NewRefused(cfg, r, recent[1..]) && recent[0].walltime > 0.0
    requires Refused(cfg, p, recent[0]) && Tightens(cfg, p, r.profile)
    ensures NewRefused(cfg, r, recent)
  {
    hide Refused, QueueIds;
    assert recent == [recent[0]] + recent[1..];
  }

  // ---------------------------------------------------------------- one call

  /** The first head that is not started was refused. */
  lemma {:induction false} PlaceHeadPacks(cfg: Config, st: State)
    requires Unreserved(cfg, st) && PlaceHead(cfg, st).Some?
    ensures HeadRefused(cfg, PlaceHead(cfg, st).value)
    decreases |st.queue|
  {
    hide Good, JobSet, Present, Insertion, JobOk, WithoutIndex, Reservation, Proceeds, Refused, Remove;
    if st.queue != [] {
      HeadNotPresent(cfg, st);
      var job := st.queue[0].job;
      var Added(p, alloc) := Insertion(cfg, st.profile, job).value;
      if alloc.startedInFirstSlice {
        StartJob(cfg, {}, st, 0, job);
        FewerQueued(st.queue, 0);
        PlaceHeadPacks(cfg, State(p, WithoutIndex(st.queue, 0), st.decisions + [Execute(job.id, alloc.machines)]));
      } else {
        PlacedHeadRefused(cfg, st, p);
      }
    }
  }

  lemma SortAndPlaceHeadPacks(cfg: Config, st: State, before: Option<JobId>, date: real, b: real)
    requires if before.None? then Unreserved(cfg, st) else Reserved(cfg, st, b) && before == Head(st.queue)
    requires SortAndPlaceHead(cfg, st, before, date).Some?
    requires Head(SortQueue(cfg.order, st.queue, date)) == before ==> HeadRefused(cfg, st)
    ensures HeadRefused(cfg, SortAndPlaceHead(cfg, st, before, date).value)
  {
    hide Base, SortQueue, PlaceHead, Remove, JobSet, Present, Reservation, Proceeds, Refused;
    SortKeepsBase(cfg, st, date, b);
    var sorted := st.(queue := SortQueue(cfg.order, st.queue, date));
    if Head(sorted.queue) != before {
      if before.Some? {
        DropReservation(cfg, {}, st, b, before.value, sorted.queue);
        PlaceHeadPacks(cfg, sorted.(profile := Remove(st.profile, before.value, {})));
      } else {
        PlaceHeadPacks(cfg, sorted);
      }
    }
  }

  /** With no machine free, every job that asks for some is refused, the head included. */
  lemma NoneFreePacks(cfg: Config, st: State, b: real)
    requires st.queue == [] || Reserved(cfg, st, b)
    requires |st.profile| > 0 && |st.profile[0].available| == 0
    ensures Packed(cfg, st)
  {
    hide Valid, Canonical, QueueOk, JobSet, Remove, Reservation, Refused;
    forall i | 0 < i < |st.queue| && st.queue[i].job.res > 0 ensures Refused(cfg, st.profile, st.queue[i].job) {
      TooFewRefuse(cfg, st.profile, st.queue[i].job);
    }
    if st.queue != [] && st.queue[0].job.res > 0 {
      var h, q := st.queue[0].job.id, Remove(st.profile, st.queue[0].job.id, {});
      HeadNotPresent(cfg, st);
      GoodRemove(cfg, st.profile, h);
      GoodParts(cfg, st.profile);
      GoodParts(cfg, q);
      assert q[0].jobs == st.profile[0].jobs - {h} == st.profile[0].jobs;
      FirstsOk(st.profile, q, AllMachines(cfg.nbMachines));
      TooFewRefuse(cfg, q, st.queue[0].job);
    }
  }

  lemma FirstsOk(p: Profile, q: Profile, all: MachineSet)
    requires Valid(p, all, {}) && Valid(q, all, {}) && p[0].jobs == q[0].jobs
    ensures p[0].available == q[0].available
  {
    hide SliceOk, Runs;
    assert SliceOk(p[0], all, {}) && SliceOk(q[0], all, {});
    SameJobsSameFree(p[0], q[0], all, {});
  }

  lemma BackfillAfterEnds(cfg: Config, st: State, call: Call, b: real)
    requires if st.queue == [] then Unreserved(cfg, st) else Reserved(cfg, st, b)
    requires call.ended != [] && Backfill(cfg, st, call).Some?
    ensures Packed(cfg, Backfill(cfg, st, call).value)
  {
    hide Base, Traverse, JobSet, Present, Reservation, Packed;
    if |st.profile[0].available| > 0 {
      if st.queue == [] { TraverseFromHeadPacks(cfg, st); } else { TraversePacks(cfg, st, b); }
    } else {
      NoneFreePacks(cfg, st, b);
    }
  }

  /** Arriving without completions only lets time pass and jobs queue up. */
  lemma ArriveTightens(cfg: Config, st: State, call: Call)
    requires Base(cfg, st) && CallOk(st, call) && Arrive(cfg, st, call).Some? && call.ended == []
    ensures var s := Arrive(cfg, st, call).value;
            && Tightens(cfg, st.profile, s.profile)
            && (st.queue != [] && HeadRefused(cfg, st) ==> HeadRefused(cfg, s))
  {
    hide Good, QueueOk, JobSet, ReleaseJobs, Advance, Refused, Remove;
    ReleasedProfile(cfg, st, call.released, call.date);
    ArriveKeeps(cfg, st, call, 0.0);
    BaseGood(cfg, st);
    var p := st.profile;
    forall k: Job | k.walltime > 0.0 && Refused(cfg, p, k) ensures Refused(cfg, Advance(p, call.date), k) {
      AdvanceKeepsRefused(cfg, p, call.date, k);
    }
    if st.queue != [] {
      HeadNotPresent(cfg, st);
      if HeadRefused(cfg, st) && st.queue[0].job.res > 0 {
        AdvanceKeepsAside(cfg, p, call.date, st.queue[0].job.id, st.queue[0].job);
      }
    }
  }

  lemma BackfillWithoutEnds(cfg: Config, st: State, call: Call, b: real)
    requires if st.queue == [] then Unreserved(cfg, st) else Reserved(cfg, st, b) && Firm(cfg, st)
    requires call.ended == [] && Backfill(cfg, st, call).Some? && HeadRefused(cfg, st)
    requires forall k :: k in Accepted(cfg, call.released) ==> JobOk(cfg, k)
    ensures var r := Backfill(cfg, st, call).value;
            && HeadRefused(cfg, r) && Tightens(cfg, st.profile, r.profile)
            && NewRefused(cfg, r, Accepted(cfg, call.released))
  {
    hide Base, BackfillNew, JobSet, Present, Reservation, JobOk, Refused, Firm, HeadRefused;
    var recent := Accepted(cfg, call.released);
    if st.queue == [] {
      BackfillNothing(cfg, st, recent, |st.profile[0].available|);
    } else {
      BackfillNewPacks(cfg, st, recent, |st.profile[0].available|, b);
    }
  }

  /** A call with completions leaves no job waiting that could start now. One without completions leaves no new job so,
      and no job at all unless the sort put another job before the head. */
  lemma StepPacks(cfg: Config, st: State, call: Call)
    requires Inv(cfg, st) && CallOk(st, call) && Step(cfg, st, call).Some?
    ensures var r := Step(cfg, st, call).value;
            && (call.ended != [] ==> Packed(cfg, r))
            && (HeadRefused(cfg, st) ==> HeadRefused(cfg, r))
            && (call.ended == [] && HeadRefused(cfg, st) ==> NewRefused(cfg, r, Accepted(cfg, call.released)))
  {
    hide Base, JobOk, Arrive, SortAndPlaceHead, Backfill, Reservation, JobSet, Present, Proceeds, Firm, HeadRefused,
         RefusedUpTo, NewRefused, Tightens, SortQueue;
    var b: real :| if st.queue == [] then Unreserved(cfg, st) else Reserved(cfg, st, b);
    InvBase(cfg, st);
    ArriveKeeps(cfg, st, call, b);
    if st.queue != [] && call.ended == [] { ArriveFirm(cfg, st, call); }
    var s := Arrive(cfg, st, call).value;
    SortAndPlaceHeadKeeps(cfg, {}, s, Head(st.queue), call.date, b);
    var r := SortAndPlaceHead(cfg, s, Head(st.queue), call.date).value;
    AcceptedOk(cfg, call.released);
    var c: real :| if r.queue == [] then Unreserved(cfg, r) else Reserved(cfg, r, c);
    if call.ended != [] {
      BackfillAfterEnds(cfg, r, call, c);
    } else if HeadRefused(cfg, st) {
      SettledHeadRefused(cfg, st, call, b);
      BackfillWithoutEnds(cfg, r, call, c);
    }
  }

  lemma SettledHeadRefused(cfg: Config, st: State, call: Call, b: real)
    requires if st.queue == [] then Unreserved(cfg, st) else Reserved(cfg, st, b)
    requires CallOk(st, call) && Arrive(cfg, st, call).Some? && call.ended == [] && HeadRefused(cfg, st)
    requires SortAndPlaceHead(cfg, Arrive(cfg, st, call).value, Head(st.queue), call.date).Some?
    ensures HeadRefused(cfg, SortAndPlaceHead(cfg, Arrive(cfg, st, call).value, Head(st.queue), call.date).value)
  {
    hide Base, Arrive, SortAndPlaceHead, Reservation, JobSet, Present, Refused, Tightens, SortQueue, Remove;
    ArriveKeeps(cfg, st, call, b);
    ArriveTightens(cfg, st, call);
    var s := Arrive(cfg, st, call).value;
    if st.queue == [] && Head(SortQueue(cfg.order, s.queue, call.date)) == None { SortedNothing(cfg, s, call.date); }
    SortAndPlaceHeadPacks(cfg, s, Head(st.queue), call.date, b);
  }

  lemma SortedNothing(cfg: Config, st: State, date: real)
    requires Base(cfg, st) && SortQueue(cfg.order, st.queue, date) == []
    ensures st.queue == []
  {
    hide Good, JobOk, SortQueue;
    SortQueueKeepsJobs(cfg.order, st.queue, date);
  }

  // ---------------------------------------------------------------- a head that stays

  /** The jobs behind the head, after a call without completions that keeps the head: each waited before or is new. */
  lemma BehindIsOldOrNew(cfg: Config, st: State, call: Call, i: nat)
    requires Inv(cfg, st) && CallOk(st, call) && Step(cfg, st, call).Some? && 0 < i < |Step(cfg, st, call).value.queue|
    ensures var e := Step(cfg, st, call).value.queue[i];
            e.job in Accepted(cfg, call.released) || HasJob(st.queue, e.job)
  {
    hide Base, Arrive, SortQueue, JobSet, Accounted, SortAndPlaceHead, Backfill, Sorted, JobOk;
    InvBase(cfg, st);
    StepAccounts(cfg, st, call, {});
    ArriveKeeps(cfg, st, call, 0.0);
    ArriveQueue(cfg, st, call);
    var q := Arrive(cfg, st, call).value.queue;
    assert Distinct(q) by { BaseGood(cfg, Arrive(cfg, st, call).value); }
    SortQueueKeepsJobs(cfg.order, q, call.date);
    var r := Step(cfg, st, call).value;
    assert r.queue[i] in r.queue;
    var x :| 0 <= x < |q| && q[x].job == r.queue[i].job;
    if x < |st.queue| {
      assert st.queue[x] == q[x];
    } else {
      assert q[x].job == Accepted(cfg, call.released)[x - |st.queue|];
    }
  }

  /** The profile of a call without completions that keeps the head only fills up. */
  lemma StepTightens(cfg: Config, st: State, call: Call)
    requires Inv(cfg, st) && CallOk(st, call) && Step(cfg, st, call).Some? && call.ended == [] && HeadRefused(cfg, st)
    requires st.queue != [] && HeadAfterSort(cfg, st, call) == Head(st.queue)
    ensures Tightens(cfg, st.profile, Step(cfg, st, call).value.profile)
    ensures Step(cfg, st, call).value.queue != [] && Head(Step(cfg, st, call).value.queue) == Head(st.queue)
  {
    hide Base, JobOk, Arrive, Backfill, Reservation, JobSet, Present, Proceeds, Firm, HeadRefused, Tightens, SortQueue,
         NewRefused;
    var b: real :| Reserved(cfg, st, b);
    InvBase(cfg, st);
    ArriveKeeps(cfg, st, call, b);
    ArriveFirm(cfg, st, call);
    ArriveTightens(cfg, st, call);
    var s := Arrive(cfg, st, call).value;
    SortAndPlaceHeadKeeps(cfg, {}, s, Head(st.queue), call.date, b);
    var r := SortAndPlaceHead(cfg, s, Head(st.queue), call.date).value;
    AcceptedOk(cfg, call.released);
    SettledHeadRefused(cfg, st, call, b);
    BackfillWithoutEnds(cfg, r, call, b);
    BackfillKeepsHead(cfg, r, call, b);
    TightensOn(cfg, st.profile, s.profile, Step(cfg, st, call).value.profile);
  }

  lemma BackfillKeepsHead(cfg: Config, st: State, call: Call, b: real)
    requires Reserved(cfg, st, b) && Firm(cfg, st) && call.ended == [] && Backfill(cfg, st, call).Some?
    requires forall k :: k in Accepted(cfg, call.released) ==> JobOk(cfg, k)
    ensures var r := Backfill(cfg, st, call).value; r.queue != [] && Head(r.queue) == Head(st.queue)
  {
    hide Base, BackfillNew, JobSet, Present, Reservation, JobOk, Proceeds, Firm;
    BackfillNewKeeps(cfg, {}, st, Accepted(cfg, call.released), |st.profile[0].available|, b);
  }

  /** When no waiting job could start before a call, none can after it, unless the sort put another job before the head
      in a call without completions. */
  lemma StepKeepsPacked(cfg: Config, st: State, call: Call)
    requires Inv(cfg, st) && CallOk(st, call) && Step(cfg, st, call).Some? && Packed(cfg, st)
    requires call.ended != [] || st.queue == [] || HeadAfterSort(cfg, st, call) == Head(st.queue)
    ensures Packed(cfg, Step(cfg, st, call).value)
  {
    hide Base, JobOk, Arrive, Step, Reservation, JobSet, Present, Firm, HeadRefused, Tightens, Refused, NewRefused;
    StepPacks(cfg, st, call);
    if call.ended == [] {
      var r := Step(cfg, st, call).value;
      StepKeepsInv(cfg, st, call);
      InvBase(cfg, r);
      InvBase(cfg, st);
      if st.queue != [] { StepTightens(cfg, st, call); }
      forall i | 0 < i < |r.queue| && r.queue[i].job.res > 0 ensures Refused(cfg, r.profile, r.queue[i].job) {
        BehindIsOldOrNew(cfg, st, call, i);
        if r.queue[i].job in Accepted(cfg, call.released) {
          NewIsRefused(cfg, r, Accepted(cfg, call.released), i);
        } else {
          OldIsRefused(cfg, st, r, i);
        }
      }
    }
  }

  lemma NewIsRefused(cfg: Config, r: State, recent: seq<Job>, i: nat)
    requires Base(cfg, r) && NewRefused(cfg, r, recent) && 0 < i < |r.queue|
    requires r.queue[i].job in recent && r.queue[i].job.res > 0
    ensures Refused(cfg, r.profile, r.queue[i].job)
  {
    hide Good, Refused, JobOk, Present;
    assert r.queue[i].job.id in QueueIds(r.queue);
  }

  lemma OldIsRefused(cfg: Config, st: State, r: State, i: nat)
    requires Base(cfg, st) && Base(cfg, r) && Packed(cfg, st) && Tightens(cfg, st.profile, r.profile)
    requires 0 < i < |r.queue| && Head(r.queue) == Head(st.queue) && HasJob(st.queue, r.queue[i].job)
    requires r.queue[i].job.res > 0
    ensures Refused(cfg, r.profile, r.queue[i].job)
  {
    hide Good, Refused, Present, HeadRefused;
    var x :| 0 <= x < |st.queue| && st.queue[x].job == r.queue[i].job;
    assert r.queue[0].job.id != r.queue[i].job.id;
    assert x > 0 && st.queue[x] in st.queue;
  }

  // ---------------------------------------------------------------- whole runs

  /** Over every run from an empty queue, for every order: no head waits that could start, a call with completions
      leaves no job waiting that could start, and one without leaves no new job so. */
  lemma {:induction false} RunPacks(cfg: Config, states: seq<State>, calls: seq<Call>, n: nat)
    requires IsRun(cfg, states, calls) && states[0].queue == [] && n <= |calls|
    ensures HeadRefused(cfg, states[n])
    ensures n > 0 && calls[n - 1].ended != [] ==> Packed(cfg, states[n])
    ensures n > 0 && calls[n - 1].ended == [] ==> NewRefused(cfg, states[n], Accepted(cfg, calls[n - 1].released))
    decreases n
  {
    hide Inv, CallOk, Step, Refused, Packed, NewRefused;
    if n > 0 {
      RunPacks(cfg, states, calls, n - 1);
      RunKeepsInv(cfg, states, calls, n - 1);
      RunStep(cfg, states, calls, n - 1);
      StepPacks(cfg, states[n - 1], calls[n - 1]);
    }
  }

  /** In first-come order with a later date at each call, no job that could start waits after any call. */
  lemma {:induction false} FcfsPacked(cfg: Config, states: seq<State>, calls: seq<Call>, n: nat)
    requires |states| == |calls| + 1 && IsFcfsRun(cfg, states, calls) && LaterDates(calls) && n <= |calls|
    ensures Packed(cfg, states[n])
    decreases n
  {
    hide Inv, CallOk, Step, Packed, HeadAfterSort, LaterDates, Tied;
    if n == 0 {
      NothingQueued(cfg, states[0]);
    } else {
      FcfsPacked(cfg, states, calls, n - 1);
      RunKeepsInv(cfg, states, calls, n - 1);
      RunStep(cfg, states, calls, n - 1);
      if states[n - 1].queue != [] { HeadStays(cfg, states, calls, n - 1); }
      StepKeepsPacked(cfg, states[n - 1], calls[n - 1]);
    }
  }

  lemma HeadStays(cfg: Config, states: seq<State>, calls: seq<Call>, n: nat)
    requires |states| == |calls| + 1 && IsFcfsRun(cfg, states, calls) && LaterDates(calls) && n < |calls|
    requires states[n].queue != []
    ensures HeadAfterSort(cfg, states[n], calls[n]) == Head(states[n].queue)
  {
    hide Inv, CallOk, Step, HeadAfterSort, LaterDates, Sorted;
    FcfsQueue(cfg, states, calls, n);
    RunKeepsInv(cfg, states, calls, n);
    RunStep(cfg, states, calls, n);
    HeadReleasedBefore(cfg, states, calls, n);
    StepArrives(cfg, states[n], calls[n]);
    FcfsKeepsHeadIff(cfg, states[n], calls[n]);
  }
}
