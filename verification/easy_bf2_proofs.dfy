/** What every call of the EASY scheduler keeps, and the guarantee it gives the head of the queue. */
module EasyBf2Proofs {
  import opened Machines
  import opened Profiles
  import opened Removal
  import opened FirstFits
  import opened Slots
  import opened Vacancies
  import opened Membership
  import opened Queues
  import opened EasyBf2Model

  ghost predicate JobOk(cfg: Config, job: Job) {
    job.res <= cfg.nbMachines && job.hasWalltime && job.walltime > 0.0
  }

  ghost predicate QueueOk(cfg: Config, q: JobQueue) {
    Distinct(q) && forall k :: k in q ==> JobOk(cfg, k.job)
  }

  ghost predicate Good(cfg: Config, p: Profile) {
    Valid(p, AllMachines(cfg.nbMachines), {}) && Canonical(p) && cfg.nbMachines > 0
  }

  ghost function Present(p: Profile): map<JobId, MachineSet> {
    if |p| > 0 then p[0].jobs else map[]
  }

  ghost predicate Base(cfg: Config, st: State) {
    Good(cfg, st.profile) && QueueOk(cfg, st.queue) && Present(st.profile).Keys !! QueueIds(st.queue)
  }

  /** Every job of the profile runs now. */
  ghost predicate Unreserved(cfg: Config, st: State) {
    Base(cfg, st) && JobSet(st.profile) == Present(st.profile).Keys
  }

  /** A request for no machine, which the contiguous selector grants only while some machine is free. */
  predicate AsksForNone(cfg: Config, job: Job) {
    cfg.selector.Contiguous? && job.res == 0
  }

  /** The reserved machines suit the job, and are some; if it asks the contiguous selector for none, some machine stays
      free for it to start beside. */
  ghost predicate Suits(cfg: Config, p: Profile, job: Job, b: real, u: MachineSet) {
    if AsksForNone(cfg, job) then u == {} && SomeVacant(p, b, b + job.walltime)
    else u != {} && CanFit(cfg.selector, job.res, u)
  }

  /** A place from b on, of the job's length, on machines that suit it. */
  ghost predicate Reservation(cfg: Config, p: Profile, job: Job, b: real) {
    exists u :: Slot(p, job.id, b, b + job.walltime, u) && Suits(cfg, p, job, b, u)
  }

  /** A waiting head that asks for no machine waits because all are taken, so nothing else can start either. */
  ghost predicate Firm(cfg: Config, st: State) {
    st.queue != [] && AsksForNone(cfg, st.queue[0].job) && |st.profile| > 0 ==> st.profile[0].available == {}
  }

  /** Apart from the running jobs the profile holds the head of the queue, which will start at b and runs on no
      machine yet. */
  ghost predicate Reserved(cfg: Config, st: State, b: real) {
    && Base(cfg, st)
    && st.queue != []
    && JobSet(st.profile) == Present(st.profile).Keys + {st.queue[0].job.id}
    && Reservation(cfg, st.profile, st.queue[0].job, b)
  }

  /** The invariant between calls. */
  ghost predicate Inv(cfg: Config, st: State) {
    if st.queue == [] then Unreserved(cfg, st) else Firm(cfg, st) && exists b :: Reserved(cfg, st, b)
  }

  // ---------------------------------------------------------------- small facts

  lemma HeadNotPresent(cfg: Config, st: State)
    requires Base(cfg, st) && st.queue != []
    ensures st.queue[0].job.id in QueueIds(st.queue) && st.queue[0].job.id !in Present(st.profile)
    ensures JobOk(cfg, st.queue[0].job) && |st.profile| > 0
  {
    hide Valid, Canonical;
    assert st.queue[0] in st.queue;
    GoodParts(cfg, st.profile);
  }

  lemma GoodParts(cfg: Config, p: Profile)
    requires Good(cfg, p)
    ensures Valid(p, AllMachines(cfg.nbMachines), {}) && Canonical(p) && Tiles(p) && |p| > 0 && cfg.nbMachines > 0
  {
  }

  lemma GoodRemove(cfg: Config, p: Profile, j: JobId)
    requires Good(cfg, p)
    ensures var q := Remove(p, j, {});
            Good(cfg, q) && SameSpan(p, q) && JobSet(q) == JobSet(p) - {j} && Present(q) == Present(p) - {j}
  {
    hide Valid, Canonical, Remove, JobSet;
    var all := AllMachines(cfg.nbMachines);
    GoodParts(cfg, p);
    RemoveKeeps(p, j, all, {});
    RemoveCanonical(p, j, {});
    RemoveJobSet(p, j, all, {});
    RemovePresent(p, j, all, {});
  }

  lemma GoodInsertion(cfg: Config, p: Profile, job: Job)
    requires Good(cfg, p) && JobOk(cfg, job) && Insertion(cfg, p, job).Some?
    ensures !Contains(p, job.id)
    ensures var Added(q, alloc) := Insertion(cfg, p, job).value;
            && Good(cfg, q) && SameSpan(p, q) && JobSet(q) == JobSet(p) + {job.id}
            && Present(q) == (if alloc.startedInFirstSlice then Present(p)[job.id := alloc.machines] else Present(p))
            && Remove(q, job.id, {}) == p
  {
    hide Valid, Canonical, Remove, JobSet, FirstFit, Contains;
    var all := AllMachines(cfg.nbMachines);
    GoodParts(cfg, p);
    AddKeeps(p, 0, job, cfg.selector, all, {});
    AddJobSet(p, job, cfg.selector);
    AddPresent(p, job, cfg.selector);
    RemoveUndoesAdd(p, job, cfg.selector, all, {});
  }

  /** An inserted job that does not start now has a reservation. */
  lemma InsertionReserves(cfg: Config, p: Profile, job: Job)
    requires Good(cfg, p) && JobOk(cfg, job) && Insertion(cfg, p, job).Some?
    requires !Insertion(cfg, p, job).value.alloc.startedInFirstSlice
    ensures var Added(q, alloc) := Insertion(cfg, p, job).value; Reservation(cfg, q, job, alloc.begin)
  {
    hide Valid, Canonical, FirstFit, Place, Slot, CanFit, Contains, Vacant;
    var all := AllMachines(cfg.nbMachines);
    GoodParts(cfg, p);
    AddedSlot(p, 0, job, cfg.selector, all, {});
    SpotFits(p, 0, job.res, job.walltime, cfg.selector);
    var Spot(i, k, u) := FirstFit(p, 0, job.res, job.walltime, cfg.selector).value;
    assert Slot(Insertion(cfg, p, job).value.profile, job.id, p[i].begin, p[i].begin + job.walltime, u);
    if AsksForNone(cfg, job) {
      var m := EmptySpotIsVacant(p, job, all);
    } else {
      if job.res == 0 { NoneStartsAtOnce(p, job); }
      assert u != {};
    }
    assert Suits(cfg, Insertion(cfg, p, job).value.profile, job, p[i].begin, u);
  }

  /** The basic selector grants a request for no machine at once. */
  lemma NoneStartsAtOnce(p: Profile, job: Job)
    requires Tiles(p) && job.res == 0 && FirstFit(p, 0, 0, job.walltime, Basic).Some?
    ensures FirstFit(p, 0, 0, job.walltime, Basic).value.first == 0
  {
    var Spot(i, k, u) := FirstFit(p, 0, 0, job.walltime, Basic).value;
    if i > 0 {
      Ordered(p, 0, i);
      assert p[k].end - p[0].begin >= job.walltime;
      assert Anchor(p, 0, 0, job.walltime, Basic);
    }
  }

  /** Inserting another job leaves a reservation of machines where it is. */
  lemma InsertionKeepsReservation(cfg: Config, p: Profile, job: Job, other: Job, b: real)
    requires Good(cfg, p) && JobOk(cfg, job) && Insertion(cfg, p, job).Some?
    requires Reservation(cfg, p, other, b) && other.id != job.id && !AsksForNone(cfg, other)
    ensures Reservation(cfg, Insertion(cfg, p, job).value.profile, other, b)
  {
    hide Valid, Canonical, Add, Slot, CanFit, Contains;
    var all := AllMachines(cfg.nbMachines);
    GoodParts(cfg, p);
    var u :| Slot(p, other.id, b, b + other.walltime, u) && Suits(cfg, p, other, b, u);
    AddKeepsSlot(p, 0, job, cfg.selector, all, {}, other.id, b, b + other.walltime, u);
    assert Suits(cfg, Insertion(cfg, p, job).value.profile, other, b, u);
  }

  /** Nothing starts now behind a head that waits although it asks for no machine. */
  lemma FirmStartsNothing(cfg: Config, st: State, job: Job)
    requires Firm(cfg, st) && st.queue != [] && AsksForNone(cfg, st.queue[0].job) && |st.profile| > 0
    requires Insertion(cfg, st.profile, job).Some?
    ensures !Insertion(cfg, st.profile, job).value.alloc.startedInFirstSlice
  {
    hide Add, Contains;
    NothingStarts(st.profile, job);
  }

  lemma RemoveKeepsReservation(cfg: Config, p: Profile, j: JobId, other: Job, b: real)
    requires Good(cfg, p) && Reservation(cfg, p, other, b) && other.id != j
    ensures Reservation(cfg, Remove(p, j, {}), other, b)
  {
    hide Valid, Canonical, Remove, Slot, CanFit, Vacant;
    var all := AllMachines(cfg.nbMachines);
    GoodParts(cfg, p);
    var u :| Slot(p, other.id, b, b + other.walltime, u) && Suits(cfg, p, other, b, u);
    RemoveKeepsSlot(p, j, all, {}, other.id, b, b + other.walltime, u);
    if AsksForNone(cfg, other) {
      var m :| Vacant(p, m, b, b + other.walltime);
      RemoveKeepsVacant(p, j, all, m, b, b + other.walltime);
    }
    assert Suits(cfg, Remove(p, j, {}), other, b, u);
  }

  /** Without its reservation some machines can serve the job from the reserved date on. */
  lemma ReservationServes(cfg: Config, p: Profile, job: Job, b: real) returns (u: MachineSet)
    requires Good(cfg, p) && Reservation(cfg, p, job, b)
    ensures FreeThroughout(Remove(p, job.id, {}), u, b, b + job.walltime) && CanFit(cfg.selector, job.res, u)
  {
    hide Valid, Canonical, Remove, Slot, CanFit, FreeThroughout;
    var all := AllMachines(cfg.nbMachines);
    GoodParts(cfg, p);
    u :| Slot(p, job.id, b, b + job.walltime, u) && Suits(cfg, p, job, b, u);
    if AsksForNone(cfg, job) {
      var m :| Vacant(p, m, b, b + job.walltime);
      RemoveKeepsVacant(p, job.id, all, m, b, b + job.walltime);
      VacantFits(m);
      u := {m};
    } else {
      RemoveFreesSlot(p, job.id, all, {}, b, b + job.walltime, u);
    }
  }

  /** Placing the head anew never moves its start back. */
  lemma ReplacedNoLater(cfg: Config, p: Profile, job: Job, b: real)
    requires Good(cfg, p) && JobOk(cfg, job) && Reservation(cfg, p, job, b)
    requires Insertion(cfg, Remove(p, job.id, {}), job).Some?
    ensures Insertion(cfg, Remove(p, job.id, {}), job).value.alloc.begin <= b
  {
    hide Valid, Canonical, Remove, CanFit, FreeThroughout, FirstFit, Place, Contains, Reservation;
    var u := ReservationServes(cfg, p, job, b);
    var q := Remove(p, job.id, {});
    FreeEnd(q, u, b, b + job.walltime);
    FirstFitIsEarliest(q, 0, job.res, job.walltime, cfg.selector, u, b);
  }

  /** When all jobs run now, a head that asks for no machine and does not start finds all machines taken. */
  lemma WaitingIsFirm(cfg: Config, st: State)
    requires Unreserved(cfg, st) && st.queue != [] && Insertion(cfg, st.profile, st.queue[0].job).Some?
    requires !Insertion(cfg, st.profile, st.queue[0].job).value.alloc.startedInFirstSlice
    ensures Firm(cfg, st.(profile := Insertion(cfg, st.profile, st.queue[0].job).value.profile))
  {
    hide Valid, Canonical, Add, Contains, Distinct;
    var job := st.queue[0].job;
    if AsksForNone(cfg, job) {
      HeadNotPresent(cfg, st);
      GoodParts(cfg, st.profile);
      forall i, j | 0 <= i < |st.profile| && j in st.profile[i].jobs ensures j in st.profile[0].jobs {
        assert j in JobSet(st.profile);
      }
      WaitsForAnyMachine(st.profile, job, AllMachines(cfg.nbMachines));
    }
  }

  lemma ReservationBounds(cfg: Config, p: Profile, job: Job, b: real)
    requires Good(cfg, p) && Reservation(cfg, p, job, b) && job.id !in Present(p)
    ensures |p| > 0 && p[0].end <= b
  {
    hide Valid, Canonical, Slot, Suits;
    GoodParts(cfg, p);
    var u :| Slot(p, job.id, b, b + job.walltime, u) && Suits(cfg, p, job, b, u);
    SlotAfterFirst(p, job.id, b, b + job.walltime, u);
  }

  lemma ReservationUnique(cfg: Config, p: Profile, job: Job, b: real, c: real)
    requires Reservation(cfg, p, job, b) && Reservation(cfg, p, job, c)
    ensures b == c
  {
    hide Slot, Suits;
    var u :| Slot(p, job.id, b, b + job.walltime, u) && Suits(cfg, p, job, b, u);
    var v :| Slot(p, job.id, c, c + job.walltime, v) && Suits(cfg, p, job, c, v);
    SlotUnique(p, job.id, b, b + job.walltime, u, c, c + job.walltime, v);
  }

  // ---------------------------------------------------------------- arriving at a call

  lemma EndOne(cfg: Config, st: State, j: JobId, b: real)
    requires Base(cfg, st) && j !in QueueIds(st.queue)
    ensures var r := st.(profile := Remove(st.profile, j, {}));
            && Base(cfg, r) && (Unreserved(cfg, st) ==> Unreserved(cfg, r))
            && (Reserved(cfg, st, b) ==> Reserved(cfg, r, b))
  {
    hide Good, QueueOk, Remove, JobSet, Reservation, Present;
    GoodRemove(cfg, st.profile, j);
    if Reserved(cfg, st, b) {
      HeadNotPresent(cfg, st);
      RemoveKeepsReservation(cfg, st.profile, j, st.queue[0].job, b);
      var h := st.queue[0].job.id;
      assert Present(st.profile).Keys + {h} - {j} == Present(st.profile).Keys - {j} + {h};
    }
  }

  lemma {:induction false} EndJobsKeep(cfg: Config, st: State, ended: seq<JobId>, b: real)
    requires Base(cfg, st) && (forall j :: j in ended ==> j !in QueueIds(st.queue)) && EndJobs(st, ended).Some?
    ensures var r := EndJobs(st, ended).value;
            && Base(cfg, r) && r.queue == st.queue && r.decisions == st.decisions
            && (Unreserved(cfg, st) ==> Unreserved(cfg, r)) && (Reserved(cfg, st, b) ==> Reserved(cfg, r, b))
    decreases |ended|
  {
    hide Base, Unreserved, Reserved, Remove, Contains;
    if ended != [] {
      EndOne(cfg, st, ended[0], b);
      EndJobsKeep(cfg, st.(profile := Remove(st.profile, ended[0], {})), ended[1..], b);
    }
  }

  /** What a caller must respect: dates and jobs are fresh, and only running jobs end. */
  ghost predicate FreshJobs(st: State, released: seq<Job>) {
    && (forall i :: 0 <= i < |released| ==>
        released[i].id !in QueueIds(st.queue) && released[i].id !in JobSet(st.profile))
    && (forall i :: 0 <= i < |released| ==> released[i].hasWalltime ==> released[i].walltime > 0.0)
    && (forall i, k :: 0 <= i < k < |released| ==> released[i].id != released[k].id)
  }

  ghost predicate CallOk(st: State, call: Call) {
    FreshJobs(st, call.released) && forall j :: j in call.ended ==> j !in QueueIds(st.queue)
  }

  lemma PresentInJobSet(p: Profile)
    ensures Present(p).Keys <= JobSet(p)
  {
  }

  lemma ReleaseOne(cfg: Config, st: State, job: Job, date: real, b: real)
    requires Base(cfg, st) && job.id !in QueueIds(st.queue) && job.id !in JobSet(st.profile)
    requires job.hasWalltime ==> job.walltime > 0.0
    ensures var r := ReleaseJob(cfg, st, job, date);
            && Base(cfg, r) && r.profile == st.profile && QueueIds(r.queue) <= QueueIds(st.queue) + {job.id}
            && st.queue <= r.queue
            && (Reserved(cfg, st, b) ==> Reserved(cfg, r, b))
  {
    hide Good, JobSet, Reservation, Present;
    PresentInJobSet(st.profile);
    AppendKeeps(st.queue, Entry(job, date));
  }

  lemma {:induction false} ReleaseJobsKeep(cfg: Config, st: State, released: seq<Job>, date: real, b: real)
    requires Base(cfg, st) && FreshJobs(st, released)
    ensures var r := ReleaseJobs(cfg, st, released, date);
            && Base(cfg, r) && r.profile == st.profile && st.queue <= r.queue
            && (Reserved(cfg, st, b) ==> Reserved(cfg, r, b))
    decreases |released|
  {
    hide Base, Reserved, ReleaseJob;
    if released != [] {
      ReleaseOne(cfg, st, released[0], date, b);
      ReleaseJobsKeep(cfg, ReleaseJob(cfg, st, released[0], date), released[1..], date, b);
    }
  }

  lemma AdvanceKeepsState(cfg: Config, st: State, date: real, b: real)
    requires Base(cfg, st) && CanAdvance(st.profile, date)
    ensures var r := st.(profile := Advance(st.profile, date));
            && Base(cfg, r) && (Unreserved(cfg, st) ==> Unreserved(cfg, r))
            && (Reserved(cfg, st, b) ==> Reserved(cfg, r, b) && date <= b)
  {
    hide Valid, Canonical, QueueOk, JobSet, Slot, CanFit, Advance, Vacant;
    var all := AllMachines(cfg.nbMachines);
    GoodParts(cfg, st.profile);
    AdvanceKeeps(st.profile, date, all, {});
    AdvanceJobSet(st.profile, date);
    if Reserved(cfg, st, b) {
      HeadNotPresent(cfg, st);
      var job := st.queue[0].job;
      ReservationBounds(cfg, st.profile, job, b);
      var u :| Slot(st.profile, job.id, b, b + job.walltime, u) && Suits(cfg, st.profile, job, b, u);
      AdvanceKeepsSlot(st.profile, date, all, {}, job.id, b, b + job.walltime, u);
      if AsksForNone(cfg, job) {
        var m :| Vacant(st.profile, m, b, b + job.walltime);
        AdvanceKeepsVacant(st.profile, date, all, m, b, b + job.walltime);
      }
      assert Suits(cfg, Advance(st.profile, date), job, b, u);
    }
  }

  /** Arriving keeps a reservation, which never lies in the past; with none before, none after. */
  lemma ArriveKeeps(cfg: Config, st: State, call: Call, b: real)
    requires Base(cfg, st) && CallOk(st, call) && Arrive(cfg, st, call).Some?
    ensures var r := Arrive(cfg, st, call).value;
            && Base(cfg, r) && st.queue <= r.queue
            && (Unreserved(cfg, st) ==> Unreserved(cfg, r))
            && (Reserved(cfg, st, b) ==> Reserved(cfg, r, b) && call.date <= b)
  {
    hide Good, QueueOk, JobSet, Reservation, Present, Advance, EndJobs, ReleaseJobs, Reserved;
    EndJobsKeep(cfg, st, call.ended, b);
    var s := EndJobs(st, call.ended).value;
    EndJobsShrink(cfg, st, call.ended);
    ReleaseJobsKeep(cfg, s, call.released, call.date, b);
    AdvanceKeepsState(cfg, ReleaseJobs(cfg, s, call.released, call.date), call.date, b);
  }

  lemma {:induction false} EndJobsShrink(cfg: Config, st: State, ended: seq<JobId>)
    requires Base(cfg, st) && (forall j :: j in ended ==> j !in QueueIds(st.queue)) && EndJobs(st, ended).Some?
    ensures JobSet(EndJobs(st, ended).value.profile) <= JobSet(st.profile)
    decreases |ended|
  {
    hide Good, Base, Remove, Contains, JobSet;
    if ended != [] {
      assert Good(cfg, st.profile) by { BaseGood(cfg, st); }
      GoodRemove(cfg, st.profile, ended[0]);
      EndOne(cfg, st, ended[0], 0.0);
      EndJobsShrink(cfg, st.(profile := Remove(st.profile, ended[0], {})), ended[1..]);
    }
  }

  lemma BaseGood(cfg: Config, st: State)
    requires Base(cfg, st)
    ensures Good(cfg, st.profile) && QueueOk(cfg, st.queue)
  {
  }
}
