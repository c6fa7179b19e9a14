/** The EASY scheduler never aborts: while the horizon is far enough away, every insertion finds a place, and a call
    fails only when its caller breaks the rules. */
module EasyBf2Progress {
  import opened Machines
  import opened Profiles
  import opened Placement
  import opened Removal
  import opened FirstFits
  import opened Slots
  import opened Membership
  import opened Queues
  import opened EasyBf2Model
  import opened EasyBf2Proofs
  import opened EasyBf2Accounts
  import opened EasyBf2Guarantee
  import opened EasyBf2Starts

  /** From date b on no jobs but these hold machines. */
  ghost predicate QuietBut(p: Profile, jobs: set<JobId>, b: real) {
    Tiles(p) && forall t :: Within(p, t) && b <= t ==> JobsAt(p, t).Keys <= jobs
  }

  // ---------------------------------------------------------------- the profile

  lemma QuietIsFree(p: Profile, all: MachineSet, b: real, e: real)
    requires Valid(p, all, {}) && QuietBut(p, {}, b) && p[0].begin <= b && e <= Horizon(p)
    ensures FreeThroughout(p, all, b, e)
  {
    hide Valid, JobsAt, FreeAt, Horizon;
    forall t | b <= t < e ensures all <= FreeAt(p, t) {
      assert Within(p, t);
      assert JobsAt(p, t) == map[];
      IdleAt(p, all, t);
    }
  }

  lemma IdleAt(p: Profile, all: MachineSet, t: real)
    requires Valid(p, all, {}) && Within(p, t) && Tiles(p) && JobsAt(p, t) == map[]
    ensures FreeAt(p, t) == all
  {
    hide Runs, Tiles, IndexAt, Holds, Partition, Horizon;
    var s := p[IndexAt(p, t)];
    assert SliceOk(s, all, {});
    IdleIsFree(s, all, {});
    assert all - {} == all;
  }

  lemma WholeFits(cfg: Config, n: nat)
    requires n <= cfg.nbMachines && 0 < cfg.nbMachines
    ensures CanFit(cfg.selector, n, AllMachines(cfg.nbMachines))
  {
    assert 0 in AllMachines(cfg.nbMachines) && Block(0, n) <= AllMachines(cfg.nbMachines);
  }

  lemma AddQuiet(p: Profile, job: Job, sel: Selector, all: MachineSet, jobs: set<JobId>, b: real)
    requires Valid(p, all, {}) && job.walltime > 0.0 && !Contains(p, job.id) && QuietBut(p, jobs, b)
    requires FirstFit(p, 0, job.res, job.walltime, sel).Some?
    ensures var Added(q, alloc) := Add(p, 0, job, sel);
            && QuietBut(q, jobs + {job.id}, b)
            && (alloc.begin + job.walltime <= b ==> QuietBut(q, jobs, b))
  {
    hide SliceOk, Runs, FirstFit, Placeable, Place, JobsAt, Contains;
    var Spot(i, k, u) := FirstFit(p, 0, job.res, job.walltime, sel).value;
    var e := p[i].begin + job.walltime;
    var q := Add(p, 0, job, sel).profile;
    SpotIsPlaceable(p, 0, job, sel);
    PlaceValid(p, i, k, e, job.id, u, all, {});
    PlaceSpan(p, i, k, e, job.id, u, |u|);
    forall t | Within(q, t) && b <= t
      ensures JobsAt(q, t).Keys <= jobs + {job.id} && (e <= b ==> JobsAt(q, t).Keys <= jobs)
    {
      assert Within(p, t);
      PlaceJobsAt(p, i, k, e, job.id, u, all, {}, t);
    }
  }

  lemma RemoveQuiet(p: Profile, j: JobId, all: MachineSet, jobs: set<JobId>, b: real)
    requires Valid(p, all, {}) && QuietBut(p, jobs, b)
    ensures QuietBut(Remove(p, j, {}), jobs - {j}, b)
  {
    hide Valid, JobsAt, Remove;
    var q := Remove(p, j, {});
    RemoveKeeps(p, j, all, {});
    RemainsValid(q, all);
    forall t | Within(q, t) && b <= t ensures JobsAt(q, t).Keys <= jobs - {j} {
      assert Within(p, t);
      RemoveJobsAt(p, j, all, {}, t);
    }
  }

  lemma RemainsValid(q: Profile, all: MachineSet)
    requires Valid(q, all, {})
    ensures Tiles(q)
  {
  }

  /** A request that fits the platform finds a place that begins by the time the profile is quiet. */
  lemma QuietFits(cfg: Config, p: Profile, job: Job, b: real)
    requires Good(cfg, p) && JobOk(cfg, job) && !Contains(p, job.id)
    requires QuietBut(p, {}, b) && |p| > 0 && p[0].begin <= b && b + job.walltime <= Horizon(p)
    ensures Insertion(cfg, p, job).Some?
    ensures var Added(q, alloc) := Insertion(cfg, p, job).value; alloc.begin <= b
  {
    hide Valid, Canonical, QuietBut, FreeThroughout, CanFit, FirstFit, Place, Contains;
    var all := AllMachines(cfg.nbMachines);
    GoodParts(cfg, p);
    QuietIsFree(p, all, b, b + job.walltime);
    WholeFits(cfg, job.res);
    FirstFitIsEarliest(p, 0, job.res, job.walltime, cfg.selector, all, b);
  }

  lemma InsertionQuiet(cfg: Config, p: Profile, job: Job, jobs: set<JobId>, b: real)
    requires Good(cfg, p) && JobOk(cfg, job) && Insertion(cfg, p, job).Some? && QuietBut(p, jobs, b)
    ensures var Added(q, alloc) := Insertion(cfg, p, job).value;
            && QuietBut(q, jobs + {job.id}, b)
            && (alloc.begin + job.walltime <= b ==> QuietBut(q, jobs, b))
            && (alloc.startedInFirstSlice ==> |p| > 0 && alloc.begin == p[0].begin)
  {
    hide Valid, Canonical, QuietBut, FirstFit, Place, Contains;
    GoodParts(cfg, p);
    AddQuiet(p, job, cfg.selector, AllMachines(cfg.nbMachines), jobs, b);
  }

  // ---------------------------------------------------------------- the state

  ghost predicate Room(lim: Limits, st: State) {
    && lim.longest >= 0.0 && lim.last + 3.0 * lim.longest <= lim.horizon
    && |st.profile| > 0 && st.profile[0].begin <= lim.last && Horizon(st.profile) == lim.horizon
    && forall k :: k in st.queue ==> k.job.walltime <= lim.longest
  }

  /** The date by which every running job ends. */
  function Busy(lim: Limits): real {
    lim.last + lim.longest
  }

  ghost predicate Idle(cfg: Config, lim: Limits, st: State) {
    Unreserved(cfg, st) && Room(lim, st) && QuietBut(st.profile, {}, Busy(lim))
  }

  ghost predicate Held(cfg: Config, lim: Limits, st: State, c: real) {
    && Reserved(cfg, st, c) && Room(lim, st) && c <= Busy(lim)
    && QuietBut(st.profile, {st.queue[0].job.id}, Busy(lim))
    && QuietBut(st.profile, {}, Busy(lim) + lim.longest)
  }

  /** The invariant between calls: beyond the reservation of the head, the profile is quiet well before the horizon. */
  ghost predicate Calm(cfg: Config, lim: Limits, st: State) {
    Settled(cfg, lim, st) && Firm(cfg, st)
  }

  ghost predicate Settled(cfg: Config, lim: Limits, st: State) {
    if st.queue == [] then Idle(cfg, lim, st) else exists c :: Held(cfg, lim, st, c)
  }

  lemma RoomAfter(lim: Limits, st: State, r: State)
    requires Room(lim, st) && SameSpan(st.profile, r.profile) && forall k :: k in r.queue ==> k in st.queue
    ensures Room(lim, r)
  {
  }

  lemma QuietLater(p: Profile, jobs: set<JobId>, b: real, c: real)
    requires QuietBut(p, jobs, b) && b <= c
    ensures QuietBut(p, jobs, c)
  {
    hide JobsAt, Tiles;
  }

  lemma InRoom(lim: Limits, st: State, i: nat)
    requires Room(lim, st) && i < |st.queue|
    ensures st.queue[i].job.walltime <= lim.longest
    ensures |st.profile| > 0 && st.profile[0].begin <= lim.last && Horizon(st.profile) == lim.horizon
    ensures lim.longest >= 0.0 && lim.last + 3.0 * lim.longest <= lim.horizon
  {
    assert st.queue[i] in st.queue;
  }

  lemma HeadFits(cfg: Config, lim: Limits, st: State)
    requires Idle(cfg, lim, st) && st.queue != []
    ensures var job := st.queue[0].job;
            && JobOk(cfg, job) && !Contains(st.profile, job.id) && Insertion(cfg, st.profile, job).Some?
            && Insertion(cfg, st.profile, job).value.alloc.begin <= Busy(lim)
            && 0.0 <= lim.longest && job.walltime <= lim.longest && |st.profile| > 0
            && st.profile[0].begin + lim.longest <= Busy(lim)
  {
    hide Good, QueueOk, JobOk, Insertion, JobSet, Present, Contains, QuietBut, Room;
    var job := st.queue[0].job;
    HeadNotPresent(cfg, st);
    JobSetContains(st.profile, job.id);
    InRoom(lim, st, 0);
    QuietFits(cfg, st.profile, job, Busy(lim));
  }

  lemma HeadStarts(cfg: Config, lim: Limits, st: State)
    requires Idle(cfg, lim, st) && st.queue != [] && Insertion(cfg, st.profile, st.queue[0].job).Some?
    requires Insertion(cfg, st.profile, st.queue[0].job).value.alloc.startedInFirstSlice
    ensures var job := st.queue[0].job;
            var Added(p, alloc) := Insertion(cfg, st.profile, job).value;
            Idle(cfg, lim, State(p, WithoutIndex(st.queue, 0), st.decisions + [Execute(job.id, alloc.machines)]))
  {
    hide Good, QueueOk, JobOk, Insertion, JobSet, Present, WithoutIndex, Contains, QuietBut, Room, Accounted, Sorted;
    var job := st.queue[0].job;
    HeadFits(cfg, lim, st);
    InsertionQuiet(cfg, st.profile, job, {}, Busy(lim));
    GoodInsertion(cfg, st.profile, job);
    StartJob(cfg, {}, st, 0, job);
    FewerQueued(st.queue, 0);
    var Added(p, alloc) := Insertion(cfg, st.profile, job).value;
    RoomAfter(lim, st, State(p, WithoutIndex(st.queue, 0), st.decisions + [Execute(job.id, alloc.machines)]));
  }

  lemma HeadWaits(cfg: Config, lim: Limits, st: State)
    requires Idle(cfg, lim, st) && st.queue != [] && Insertion(cfg, st.profile, st.queue[0].job).Some?
    requires !Insertion(cfg, st.profile, st.queue[0].job).value.alloc.startedInFirstSlice
    ensures var Added(p, alloc) := Insertion(cfg, st.profile, st.queue[0].job).value;
            Held(cfg, lim, st.(profile := p), alloc.begin) && Firm(cfg, st.(profile := p))
  {
    hide Reserved, Unreserved, JobOk, Insertion, Contains, QuietBut, Room, Firm;
    var job := st.queue[0].job;
    HeadFits(cfg, lim, st);
    WaitingHeadReserved(cfg, st);
    WaitingIsFirm(cfg, st);
    InsertionQuiet(cfg, st.profile, job, {}, Busy(lim));
    QuietLater(st.profile, {}, Busy(lim), Busy(lim) + lim.longest);
    InsertionQuiet(cfg, st.profile, job, {}, Busy(lim) + lim.longest);
    assert {} + {job.id} == {job.id};
    RoomAfter(lim, st, st.(profile := Insertion(cfg, st.profile, job).value.profile));
  }

  lemma WaitingHeadReserved(cfg: Config, st: State)
    requires Unreserved(cfg, st) && st.queue != [] && Insertion(cfg, st.profile, st.queue[0].job).Some?
    requires !Insertion(cfg, st.profile, st.queue[0].job).value.alloc.startedInFirstSlice
    ensures var Added(p, alloc) := Insertion(cfg, st.profile, st.queue[0].job).value;
            Reserved(cfg, st.(profile := p), alloc.begin) && SameSpan(st.profile, p)
    ensures Good(cfg, st.profile)
  {
    hide Good, QueueOk, JobOk, Insertion, JobSet, Present, Reservation, Contains;
    HeadNotPresent(cfg, st);
    GoodInsertion(cfg, st.profile, st.queue[0].job);
    InsertionReserves(cfg, st.profile, st.queue[0].job);
  }

  /** Without a reservation the head always finds a place: it starts, or has a reservation well before the horizon. */
  lemma HeadPlaced(cfg: Config, lim: Limits, st: State)
    requires Idle(cfg, lim, st) && st.queue != []
    ensures var job := st.queue[0].job;
            && !Contains(st.profile, job.id)
            && Insertion(cfg, st.profile, job).Some?
            && var Added(p, alloc) := Insertion(cfg, st.profile, job).value;
               if alloc.startedInFirstSlice
               then Idle(cfg, lim,
                         State(p, WithoutIndex(st.queue, 0), st.decisions + [Execute(job.id, alloc.machines)]))
               else Held(cfg, lim, st.(profile := p), alloc.begin) && Firm(cfg, st.(profile := p))
  {
    hide Idle, Held, Insertion, WithoutIndex, Contains;
    HeadFits(cfg, lim, st);
    if Insertion(cfg, st.profile, st.queue[0].job).value.alloc.startedInFirstSlice {
      HeadStarts(cfg, lim, st);
    } else {
      HeadWaits(cfg, lim, st);
    }
  }

  lemma {:induction false} PlaceHeadCalm(cfg: Config, lim: Limits, st: State)
    requires Idle(cfg, lim, st)
    ensures PlaceHead(cfg, st).Some? && Calm(cfg, lim, PlaceHead(cfg, st).value)
    decreases |st.queue|
  {
    hide Idle, Held, Insertion, WithoutIndex;
    if st.queue != [] {
      HeadPlaced(cfg, lim, st);
      var job := st.queue[0].job;
      var Added(p, alloc) := Insertion(cfg, st.profile, job).value;
      if alloc.startedInFirstSlice {
        FewerQueued(st.queue, 0);
        PlaceHeadCalm(cfg, lim, State(p, WithoutIndex(st.queue, 0), st.decisions + [Execute(job.id, alloc.machines)]));
      }
    }
  }

  /** With a reservation in place any other job finds a place too, after it if need be. */
  lemma OtherPlaced(cfg: Config, lim: Limits, st: State, i: nat, job: Job, c: real)
    requires Held(cfg, lim, st, c) && Firm(cfg, st) && 0 < i < |st.queue| && st.queue[i].job.id == job.id
    requires JobOk(cfg, job)
    requires job.walltime <= lim.longest
    ensures !Contains(st.profile, job.id) && Insertion(cfg, st.profile, job).Some?
    ensures var Added(p, alloc) := Insertion(cfg, st.profile, job).value;
            if alloc.startedInFirstSlice
            then
              var r := State(p, WithoutIndex(st.queue, i), st.decisions + [Execute(job.id, alloc.machines)]);
              Held(cfg, lim, r, c) && Firm(cfg, r)
            else Remove(p, job.id, {}) == st.profile
  {
    hide Good, QueueOk, JobOk, Insertion, JobSet, Present, Reservation, WithoutIndex, Contains, QuietBut, Room,
         Accounted, Sorted, Remove;
    var h := st.queue[0].job.id;
    NotInProfile(cfg, st, i, c);
    BaseGood(cfg, st);
    InRoom(lim, st, i);
    QuietFits(cfg, st.profile, job, Busy(lim) + lim.longest);
    TryBehindHead(cfg, {}, st, i, job, c);
    var Added(p, alloc) := Insertion(cfg, st.profile, job).value;
    if alloc.startedInFirstSlice {
      InsertionQuiet(cfg, st.profile, job, {h}, Busy(lim));
      InsertionQuiet(cfg, st.profile, job, {}, Busy(lim) + lim.longest);
      GoodInsertion(cfg, st.profile, job);
      FewerQueued(st.queue, i);
      RoomAfter(lim, st, State(p, WithoutIndex(st.queue, i), st.decisions + [Execute(job.id, alloc.machines)]));
    }
  }

  lemma {:induction false} BackfillNewCalm(cfg: Config, lim: Limits, st: State, recent: seq<Job>, nb: int, c: real)
    requires Held(cfg, lim, st, c) && Firm(cfg, st)
    requires forall k :: k in recent ==> JobOk(cfg, k) && k.walltime <= lim.longest
    ensures BackfillNew(cfg, st, recent, nb).Some? && Calm(cfg, lim, BackfillNew(cfg, st, recent, nb).value)
    decreases |recent|
  {
    hide Idle, JobOk, Insertion, WithoutIndex, Remove, Contains, Reserved, QuietBut, Room;
    if recent != [] && nb > 0 {
      var job := recent[0];
      if job.id in QueueIds(st.queue) && Head(st.queue) != Some(job.id) && job.res <= nb {
        var i := IndexOf(st.queue, job.id, 0);
        IndexOfQueued(st.queue, job.id);
        OtherPlaced(cfg, lim, st, i, job, c);
        var Added(p, alloc) := Insertion(cfg, st.profile, job).value;
        if alloc.startedInFirstSlice {
          var s := State(p, WithoutIndex(st.queue, i), st.decisions + [Execute(job.id, alloc.machines)]);
          BackfillNewCalm(cfg, lim, s, recent[1..], nb - job.res, c);
        } else {
          BackfillNewCalm(cfg, lim, st, recent[1..], nb, c);
        }
      } else {
        BackfillNewCalm(cfg, lim, st, recent[1..], nb, c);
      }
    } else {
      HeldIsCalm(cfg, lim, st, c);
    }
  }

  lemma HeldIsCalm(cfg: Config, lim: Limits, st: State, c: real)
    requires Held(cfg, lim, st, c) && Firm(cfg, st)
    ensures Calm(cfg, lim, st)
  {
    hide Idle, Room, QuietBut;
  }

  lemma {:induction false} TraverseBehindCalm(cfg: Config, lim: Limits, st: State, i: nat, c: real)
    requires Held(cfg, lim, st, c) && Firm(cfg, st) && i > 0
    ensures Traverse(cfg, st, i, Head(st.queue)).Some? && Calm(cfg, lim, Traverse(cfg, st, i, Head(st.queue)).value)
    decreases |st.queue| - i
  {
    hide Idle, JobOk, Insertion, WithoutIndex, Remove, Contains, Base, Reservation, JobSet, QuietBut, Room;
    if i < |st.queue| {
      var job := st.queue[i].job;
      NotInProfile(cfg, st, i, c);
      InRoom(lim, st, i);
      RemoveAbsent(st.profile, job.id, {});
      OtherPlaced(cfg, lim, st, i, job, c);
      var Added(p, alloc) := Insertion(cfg, st.profile, job).value;
      if alloc.startedInFirstSlice {
        FewerQueued(st.queue, i);
        TraverseBehindCalm(cfg, lim,
                           State(p, WithoutIndex(st.queue, i), st.decisions + [Execute(job.id, alloc.machines)]), i, c);
      } else {
        TraverseBehindCalm(cfg, lim, st, i + 1, c);
      }
    } else {
      HeldIsCalm(cfg, lim, st, c);
    }
  }

  lemma {:induction false} TraverseCalm(cfg: Config, lim: Limits, st: State)
    requires Idle(cfg, lim, st)
    ensures Traverse(cfg, st, 0, Head(st.queue)).Some? && Calm(cfg, lim, Traverse(cfg, st, 0, Head(st.queue)).value)
    decreases |st.queue|
  {
    hide Idle, Held, JobOk, Insertion, WithoutIndex, Remove, Contains;
    if st.queue != [] {
      var job := st.queue[0].job;
      HeadPlaced(cfg, lim, st);
      RemoveAbsent(st.profile, job.id, {});
      var Added(p, alloc) := Insertion(cfg, st.profile, job).value;
      if alloc.startedInFirstSlice {
        FewerQueued(st.queue, 0);
        TraverseCalm(cfg, lim, State(p, WithoutIndex(st.queue, 0), st.decisions + [Execute(job.id, alloc.machines)]));
      } else {
        TraverseBehindCalm(cfg, lim, st.(profile := p), 1, alloc.begin);
      }
    }
  }

  /** Dropping the head's reservation, whatever becomes of the queue's order. */
  lemma DropCalm(cfg: Config, lim: Limits, st: State, c: real, q: JobQueue)
    requires Held(cfg, lim, st, c) && Base(cfg, st.(queue := q))
    requires forall k :: k in q ==> k.job.walltime <= lim.longest
    ensures Idle(cfg, lim, State(Remove(st.profile, st.queue[0].job.id, {}), q, st.decisions))
  {
    hide Good, QueueOk, JobSet, Present, Reservation, Remove, QuietBut, Accounted, Sorted;
    var h := st.queue[0].job.id;
    DropReservation(cfg, {}, st, c, h, q);
    GoodRemove(cfg, st.profile, h);
    GoodParts(cfg, st.profile);
    RemoveQuiet(st.profile, h, AllMachines(cfg.nbMachines), {h}, Busy(lim));
    assert {h} - {h} == {};
  }

  /** A traversal from the head first drops the head's reservation. */
  lemma TraverseHeldCalm(cfg: Config, lim: Limits, st: State, c: real)
    requires Held(cfg, lim, st, c)
    ensures Traverse(cfg, st, 0, Head(st.queue)).Some? && Calm(cfg, lim, Traverse(cfg, st, 0, Head(st.queue)).value)
  {
    hide Idle, JobOk, Insertion, WithoutIndex, Remove, Contains, Base, Reservation, JobSet, QuietBut;
    var job := st.queue[0].job;
    DropCalm(cfg, lim, st, c, st.queue);
    var s := st.(profile := Remove(st.profile, job.id, {}));
    HeadPlaced(cfg, lim, s);
    var Added(p, alloc) := Insertion(cfg, s.profile, job).value;
    if alloc.startedInFirstSlice {
      TraverseCalm(cfg, lim, State(p, WithoutIndex(st.queue, 0), st.decisions + [Execute(job.id, alloc.machines)]));
    } else {
      TraverseBehindCalm(cfg, lim, st.(profile := p), 1, alloc.begin);
    }
  }

  // ---------------------------------------------------------------- one call

  lemma SortCalm(cfg: Config, lim: Limits, st: State, date: real)
    requires Base(cfg, st) && Room(lim, st)
    ensures Room(lim, st.(queue := SortQueue(cfg.order, st.queue, date)))
  {
    hide Good, SortQueue, Horizon, JobOk;
    SortQueueKeepsJobs(cfg.order, st.queue, date);
    var q := SortQueue(cfg.order, st.queue, date);
    forall k | k in q ensures k.job.walltime <= lim.longest {
      var i :| 0 <= i < |st.queue| && k.job == st.queue[i].job;
      assert st.queue[i] in st.queue;
    }
  }

  lemma SortAndPlaceHeadCalm(cfg: Config, lim: Limits, st: State, before: Option<JobId>, date: real, c: real)
    requires if before.None? then Idle(cfg, lim, st) else Held(cfg, lim, st, c) && before == Head(st.queue)
    ensures SortAndPlaceHead(cfg, st, before, date).Some?
    ensures Settled(cfg, lim, SortAndPlaceHead(cfg, st, before, date).value)
    ensures before.None? || Firm(cfg, st) ==> Firm(cfg, SortAndPlaceHead(cfg, st, before, date).value)
  {
    hide Base, SortQueue, PlaceHead, Remove, JobSet, Reservation, QuietBut, Room;
    SortKeepsBase(cfg, st, date, c);
    SortCalm(cfg, lim, st, date);
    var sorted := st.(queue := SortQueue(cfg.order, st.queue, date));
    if Head(sorted.queue) == before {
      if before.Some? { HeldIsSettled(cfg, lim, sorted, c); }
    } else if before.Some? {
      RoomQueue(lim, sorted);
      DropCalm(cfg, lim, st, c, sorted.queue);
      PlaceHeadCalm(cfg, lim, sorted.(profile := Remove(st.profile, before.value, {})));
    } else {
      PlaceHeadCalm(cfg, lim, sorted);
    }
  }

  lemma HeldIsSettled(cfg: Config, lim: Limits, st: State, c: real)
    requires Held(cfg, lim, st, c)
    ensures Settled(cfg, lim, st)
  {
    hide Idle, Room, QuietBut;
  }

  lemma RoomQueue(lim: Limits, st: State)
    requires Room(lim, st)
    ensures forall k :: k in st.queue ==> k.job.walltime <= lim.longest
  {
  }

  lemma BackfillCalm(cfg: Config, lim: Limits, st: State, call: Call)
    requires Settled(cfg, lim, st) && (call.ended == [] ==> Firm(cfg, st))
    requires forall k :: k in Accepted(cfg, call.released) ==> JobOk(cfg, k) && k.walltime <= lim.longest
    ensures Backfill(cfg, st, call).Some? && Calm(cfg, lim, Backfill(cfg, st, call).value)
  {
    hide Reserved, Unreserved, JobOk, BackfillNew, Traverse, QuietBut;
    assert |st.profile| > 0;
    if st.queue == [] {
      if call.ended == [] {
        BackfillNothing(cfg, st, Accepted(cfg, call.released), |st.profile[0].available|);
      } else {
        TraverseCalm(cfg, lim, st);
      }
    } else {
      var c :| Held(cfg, lim, st, c);
      if call.ended == [] {
        BackfillNewCalm(cfg, lim, st, Accepted(cfg, call.released), |st.profile[0].available|, c);
      } else {
        TraverseHeldCalm(cfg, lim, st, c);
      }
    }
  }

  // ---------------------------------------------------------------- arriving

  /** Ended jobs are in the schedule, each named once. */
  ghost predicate EndedOk(st: State, ended: seq<JobId>) {
    && (forall i :: 0 <= i < |ended| ==> ended[i] in JobSet(st.profile))
    && forall i, k :: 0 <= i < k < |ended| ==> ended[i] != ended[k]
  }

  lemma {:induction false} EndJobsIff(cfg: Config, st: State, ended: seq<JobId>)
    requires Base(cfg, st) && forall j :: j in ended ==> j !in QueueIds(st.queue)
    ensures EndJobs(st, ended).Some? <==> EndedOk(st, ended)
    decreases |ended|
  {
    hide Good, QueueOk, Remove, Contains, JobSet, Present;
    if ended != [] {
      JobSetContains(st.profile, ended[0]);
      if Contains(st.profile, ended[0]) {
        var r := st.(profile := Remove(st.profile, ended[0], {}));
        GoodRemove(cfg, st.profile, ended[0]);
        EndOne(cfg, st, ended[0], 0.0);
        EndJobsIff(cfg, r, ended[1..]);
        EndedSplit(st, r, ended);
      }
    }
  }

  lemma EndedSplit(st: State, r: State, ended: seq<JobId>)
    requires ended != [] && ended[0] in JobSet(st.profile) && JobSet(r.profile) == JobSet(st.profile) - {ended[0]}
    ensures EndedOk(st, ended) <==> EndedOk(r, ended[1..])
  {
    hide JobSet;
    var rest := ended[1..];
    if EndedOk(r, rest) {
      forall i | 0 <= i < |ended| ensures ended[i] in JobSet(st.profile) && (i > 0 ==> ended[i] != ended[0]) {
        if i > 0 { assert ended[i] == rest[i - 1]; }
      }
      forall i, k | 0 <= i < k < |ended| ensures ended[i] != ended[k] {
        if i > 0 { assert ended[i] == rest[i - 1] && ended[k] == rest[k - 1]; }
      }
    }
  }

  lemma {:induction false} EndJobsCalm(cfg: Config, lim: Limits, st: State, ended: seq<JobId>, jobs: set<JobId>,
                                       b: real)
    requires Base(cfg, st) && (forall j :: j in ended ==> j !in QueueIds(st.queue)) && EndJobs(st, ended).Some?
    requires Room(lim, st) && QuietBut(st.profile, jobs, b)
    ensures var r := EndJobs(st, ended).value; Room(lim, r) && QuietBut(r.profile, jobs, b)
    decreases |ended|
  {
    hide Good, QueueOk, Remove, Contains, JobSet, Present, QuietBut, Room;
    if ended != [] {
      var r := st.(profile := Remove(st.profile, ended[0], {}));
      GoodRemove(cfg, st.profile, ended[0]);
      GoodParts(cfg, st.profile);
      EndOne(cfg, st, ended[0], 0.0);
      RemoveQuiet(st.profile, ended[0], AllMachines(cfg.nbMachines), jobs, b);
      FewerBut(r.profile, jobs - {ended[0]}, jobs, b);
      RoomAfter(lim, st, r);
      EndJobsCalm(cfg, lim, r, ended[1..], jobs, b);
    }
  }

  lemma FewerBut(p: Profile, a: set<JobId>, jobs: set<JobId>, b: real)
    requires QuietBut(p, a, b) && a <= jobs
    ensures QuietBut(p, jobs, b)
  {
    hide JobsAt, Tiles;
  }

  lemma {:induction false} ReleaseRoom(cfg: Config, lim: Limits, st: State, released: seq<Job>, date: real)
    requires Room(lim, st) && forall k :: k in released ==> k.walltime <= lim.longest
    ensures Room(lim, ReleaseJobs(cfg, st, released, date))
    ensures ReleaseJobs(cfg, st, released, date).profile == st.profile
    decreases |released|
  {
    hide Horizon;
    if released != [] {
      ReleaseRoom(cfg, lim, ReleaseJob(cfg, st, released[0], date), released[1..], date);
    }
  }

  lemma AdvanceCalm(cfg: Config, lim: Limits, st: State, date: real, jobs: set<JobId>, b: real)
    requires Base(cfg, st) && Room(lim, st) && QuietBut(st.profile, jobs, b) && CanAdvance(st.profile, date)
    requires date <= lim.last
    ensures var r := st.(profile := Advance(st.profile, date)); Room(lim, r) && QuietBut(r.profile, jobs, b)
  {
    hide Valid, Canonical, QueueOk, JobSet, JobsAt, Advance, Present;
    var all := AllMachines(cfg.nbMachines);
    var q := Advance(st.profile, date);
    GoodParts(cfg, st.profile);
    AdvanceKeeps(st.profile, date, all, {});
    AdvanceJobSet(st.profile, date);
    RemainsValid(q, all);
    forall t | Within(q, t) && b <= t ensures JobsAt(q, t).Keys <= jobs {
      AdvanceJobsAt(st.profile, date, t);
    }
  }

  lemma ArriveCalm(cfg: Config, lim: Limits, st: State, call: Call, jobs: set<JobId>, b: real)
    requires Base(cfg, st) && CallOk(st, call) && Arrive(cfg, st, call).Some? && call.date <= lim.last
    requires Room(lim, st) && QuietBut(st.profile, jobs, b)
    requires forall k :: k in call.released ==> k.walltime <= lim.longest
    ensures var r := Arrive(cfg, st, call).value; Room(lim, r) && QuietBut(r.profile, jobs, b)
  {
    hide Good, QueueOk, JobSet, Present, Advance, EndJobs, ReleaseJobs, QuietBut, Room;
    EndJobsKeep(cfg, st, call.ended, 0.0);
    EndJobsShrink(cfg, st, call.ended);
    EndJobsCalm(cfg, lim, st, call.ended, jobs, b);
    var s := EndJobs(st, call.ended).value;
    ReleaseJobsKeep(cfg, s, call.released, call.date, 0.0);
    ReleaseRoom(cfg, lim, s, call.released, call.date);
    AdvanceCalm(cfg, lim, ReleaseJobs(cfg, s, call.released, call.date), call.date, jobs, b);
  }

  /** A call that arrives goes through, and leaves room for the next. */
  lemma ArrivedCallSucceeds(cfg: Config, lim: Limits, st: State, call: Call)
    requires Calm(cfg, lim, st) && CallOk(st, call) && Arrive(cfg, st, call).Some?
    requires call.date <= lim.last && forall k :: k in call.released ==> k.walltime <= lim.longest
    ensures Step(cfg, st, call).Some? && Calm(cfg, lim, Step(cfg, st, call).value)
  {
    hide Base, JobOk, Arrive, SortAndPlaceHead, Backfill, Reservation, JobSet, Present, QuietBut, Room;
    var s := Arrive(cfg, st, call).value;
    var c := 0.0;
    if st.queue == [] {
      ArriveKeeps(cfg, st, call, c);
      ArriveCalm(cfg, lim, st, call, {}, Busy(lim));
    } else {
      c :| Held(cfg, lim, st, c);
      ArriveKeeps(cfg, st, call, c);
      if call.ended == [] { ArriveFirm(cfg, st, call); }
      ArriveCalm(cfg, lim, st, call, {st.queue[0].job.id}, Busy(lim));
      ArriveCalm(cfg, lim, st, call, {}, Busy(lim) + lim.longest);
    }
    SortAndPlaceHeadCalm(cfg, lim, s, Head(st.queue), call.date, c);
    var r := SortAndPlaceHead(cfg, s, Head(st.queue), call.date).value;
    AcceptedOk(cfg, call.released);
    AcceptedReleased(cfg, call.released);
    BackfillCalm(cfg, lim, r, call);
  }

  lemma {:induction false} AcceptedReleased(cfg: Config, released: seq<Job>)
    ensures forall k :: k in Accepted(cfg, released) ==> k in released
    decreases |released|
  {
    if released != [] {
      AcceptedReleased(cfg, released[1..]);
    }
  }

  /** No call aborts, except exactly when its caller names an ended job that is not in the schedule, or names one
      twice, or sets the present before the last call's date, past the end of a running job that it does not name, or
      past the date reserved for the head. */
  lemma CallSucceedsIff(cfg: Config, lim: Limits, st: State, call: Call)
    requires Calm(cfg, lim, st) && CallOk(st, call)
    requires call.date <= lim.last && forall k :: k in call.released ==> k.walltime <= lim.longest
    ensures Step(cfg, st, call).Some? <==> EndedOk(st, call.ended) && OnTime(cfg, st, call.ended, call.date)
    ensures Step(cfg, st, call).Some? ==> Calm(cfg, lim, Step(cfg, st, call).value)
  {
    hide Calm, JobSet, SortAndPlaceHead, Backfill, EndJobs, ReleaseJobs, EndedOk, OnTime, Reserved, Unreserved;
    CalmBase(cfg, lim, st);
    EndJobsIff(cfg, st, call.ended);
    if EndJobs(st, call.ended).Some? {
      ReleasedProfile(cfg, EndJobs(st, call.ended).value, call.released, call.date);
      var b := CalmReserved(cfg, lim, st);
      DateIsFine(cfg, st, call, b);
      if Arrive(cfg, st, call).Some? {
        ArrivedCallSucceeds(cfg, lim, st, call);
      }
    }
  }

  lemma CalmReserved(cfg: Config, lim: Limits, st: State) returns (b: real)
    requires Calm(cfg, lim, st)
    ensures if st.queue == [] then Unreserved(cfg, st) else Reserved(cfg, st, b)
  {
    hide Room, QuietBut, Reserved, Unreserved, Firm;
    b := 0.0;
    if st.queue != [] { b :| Held(cfg, lim, st, b); }
  }

  lemma CalmBase(cfg: Config, lim: Limits, st: State)
    requires Calm(cfg, lim, st)
    ensures Base(cfg, st)
  {
    hide Room, QuietBut;
  }

  /** The empty platform is calm when three of the longest jobs fit between the last call and the horizon. */
  lemma InitialCalm(cfg: Config, lim: Limits, date: real)
    requires cfg.nbMachines > 0 && date <= lim.last && lim.longest >= 0.0 && lim.last + 3.0 * lim.longest <= lim.horizon
    ensures Calm(cfg, lim, State(Fresh(cfg.nbMachines, date, lim.horizon), [], []))
  {
    InitialState(cfg, date, lim.horizon);
    var p := Fresh(cfg.nbMachines, date, lim.horizon);
    forall t | Within(p, t) ensures JobsAt(p, t) == map[] {
      assert IndexAt(p, t) == 0;
    }
  }

  /** Over whole runs: as long as calls and jobs respect the limits, every state is calm, so that the next call aborts
      only for its caller's mistakes. */
  lemma {:induction false} CalmThroughout(cfg: Config, lim: Limits, states: seq<State>, calls: seq<Call>, n: nat)
    requires IsRun(cfg, states, calls) && n <= |calls| && Calm(cfg, lim, states[0])
    requires forall i :: 0 <= i < |calls| ==> calls[i].date <= lim.last
    requires forall i, k :: 0 <= i < |calls| && k in calls[i].released ==> k.walltime <= lim.longest
    ensures Calm(cfg, lim, states[n])
    decreases n
  {
    hide Inv, CallOk, Step, Calm;
    if n > 0 {
      CalmThroughout(cfg, lim, states, calls, n - 1);
      RunStep(cfg, states, calls, n - 1);
      CallSucceedsIff(cfg, lim, states[n - 1], calls[n - 1]);
    }
  }
}
