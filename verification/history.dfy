/** Whole histories of a schedule: through any sequence of first-fit insertions, removals and moves of the present, the
    listing of the allocations reads back exactly what first fit handed out. */
module Histories {
  import opened Machines
  import opened Profiles
  import opened Removal
  import opened FirstFits
  import opened Slots
  import opened Ends
  import opened JobRuns
  import opened Membership
  import opened Queries

  datatype Operation = Insert(job: Job) | Delete(id: JobId) | Pass(date: real)

  type Ledger = map<JobId, Grant>

  datatype Book = Book(profile: Profile, ledger: Ledger)

  function Granted(alloc: JobAlloc, walltime: real): Grant {
    Grant(alloc.begin, alloc.begin + walltime, alloc.machines)
  }

  /** Perform one operation, and write down what an insertion returned. */
  function Perform(b: Book, op: Operation, sel: Selector): Book {
    match op
    case Insert(job) =>
      var Added(q, alloc) := Add(b.profile, 0, job, sel);
      Book(q, if alloc.hasBeenInserted then b.ledger[job.id := Granted(alloc, job.walltime)] else b.ledger)
    case Delete(id) => Book(Remove(b.profile, id, {}), b.ledger - {id})
    case Pass(date) =>
      Book(if |b.profile| > 0 then Advance(b.profile, date) else b.profile,
           map j | j in b.ledger :: Since(b.ledger[j], date))
  }

  /** Jobs are new when they are inserted and would end before the horizon wherever they go; the present moves within
      the first slice, its end included. */
  ghost predicate Allowed(b: Book, op: Operation) {
    && |b.profile| > 0
    && match op
       case Insert(job) =>
         && !Contains(b.profile, job.id) && job.walltime > 0.0
         && b.profile[|b.profile| - 1].begin + job.walltime < Horizon(b.profile)
       case Delete(id) => true
       case Pass(date) => CanAdvance(b.profile, date)
  }

  /** The ledger is right: the profile holds exactly its jobs, each in a run of exactly the granted begin, end and
      machines. */
  ghost predicate Kept(b: Book, all: MachineSet) {
    && Valid(b.profile, all, {}) && LastIsIdle(b.profile)
    && JobSet(b.profile) == b.ledger.Keys
    && forall j :: j in b.ledger ==> Occupies(b.profile, j, b.ledger[j])
  }

  lemma KeptParts(b: Book, all: MachineSet)
    requires Kept(b, all)
    ensures Valid(b.profile, all, {}) && LastIsIdle(b.profile) && |b.profile| > 0 && Tiles(b.profile)
  {
  }

  lemma InsertKeeps(b: Book, job: Job, sel: Selector, all: MachineSet)
    requires Kept(b, all) && Allowed(b, Insert(job))
    ensures Kept(Perform(b, Insert(job), sel), all)
  {
    hide Valid, LastIsIdle, Occupies, JobSet, FirstFit, Place, Contains;
    KeptParts(b, all);
    var p, r := b.profile, Perform(b, Insert(job), sel);
    AddKeeps(p, 0, job, sel, all, {});
    AddKeepsLastIdle(p, 0, job, sel);
    AddJobSet(p, job, sel);
    JobSetContains(p, job.id);
    if FirstFit(p, 0, job.res, job.walltime, sel).Some? {
      AddOccupies(p, 0, job, sel);
      forall j | j in r.ledger ensures Occupies(r.profile, j, r.ledger[j]) {
        if j != job.id {
          AddKeepsOccupies(p, 0, job, sel, j, b.ledger[j]);
        }
      }
    }
  }

  lemma DeleteKeeps(b: Book, id: JobId, sel: Selector, all: MachineSet)
    requires Kept(b, all)
    ensures Kept(Perform(b, Delete(id), sel), all)
  {
    hide Valid, LastIsIdle, Occupies, JobSet, Remove;
    KeptParts(b, all);
    var p, r := b.profile, Perform(b, Delete(id), sel);
    RemoveKeeps(p, id, all, {});
    RemoveKeepsLastIdle(p, id, {});
    RemoveJobSet(p, id, all, {});
    forall j | j in r.ledger ensures Occupies(r.profile, j, r.ledger[j]) {
      RemoveKeepsOccupies(p, id, all, {}, j, b.ledger[j]);
    }
  }

  lemma PassKeeps(b: Book, date: real, sel: Selector, all: MachineSet)
    requires Kept(b, all) && Allowed(b, Pass(date))
    ensures Kept(Perform(b, Pass(date), sel), all)
  {
    hide Valid, LastIsIdle, Occupies, JobSet;
    KeptParts(b, all);
    var p, r := b.profile, Perform(b, Pass(date), sel);
    AdvanceKeeps(p, date, all, {});
    AdvanceKeepsLastIdle(p, date);
    AdvanceJobSet(p, date);
    assert r.ledger.Keys == b.ledger.Keys;
    forall j | j in r.ledger ensures Occupies(r.profile, j, r.ledger[j]) {
      AdvanceOccupies(p, date, j, b.ledger[j]);
    }
  }

  function After(b: Book, ops: seq<Operation>, sel: Selector): Book
    decreases |ops|
  {
    if ops == [] then b else After(Perform(b, ops[0], sel), ops[1..], sel)
  }

  ghost predicate AllAllowed(b: Book, ops: seq<Operation>, sel: Selector)
    decreases |ops|
  {
    ops == [] || (Allowed(b, ops[0]) && AllAllowed(Perform(b, ops[0], sel), ops[1..], sel))
  }

  lemma {:induction false} HistoryKeeps(b: Book, ops: seq<Operation>, sel: Selector, all: MachineSet)
    requires Kept(b, all) && AllAllowed(b, ops, sel)
    ensures Kept(After(b, ops, sel), all)
    decreases |ops|
  {
    hide Kept, Allowed, Perform;
    if ops != [] {
      match ops[0] {
        case Insert(job) => InsertKeeps(b, job, sel, all);
        case Delete(id) => DeleteKeeps(b, id, sel, all);
        case Pass(date) => PassKeeps(b, date, sel, all);
      }
      HistoryKeeps(Perform(b, ops[0], sel), ops[1..], sel, all);
    }
  }

  lemma FreshKept(nbMachines: nat, date: real, horizon: real)
    requires date <= horizon
    ensures Kept(Book(Fresh(nbMachines, date, horizon), map[]), AllMachines(nbMachines))
  {
    hide Valid, Occupies, JobSet;
    FreshIsValid(nbMachines, date, horizon);
  }

  /** The listing is the ledger: one allocation for each of its jobs, with the begin, end and machines granted. */
  ghost predicate ReadsBack(res: seq<JobAlloc>, ledger: Ledger) {
    && |res| == |ledger|
    && (forall i :: 0 <= i < |res| ==>
          res[i].job in ledger && ledger[res[i].job] == AsGrant(res[i]))
    && (forall i, k :: 0 <= i < k < |res| ==> res[i].job != res[k].job)
    && forall j :: j in ledger ==> exists i :: 0 <= i < |res| && res[i].job == j
  }

  lemma {:induction false} DistinctCount(res: seq<JobAlloc>)
    requires forall i, k :: 0 <= i < k < |res| ==> res[i].job != res[k].job
    ensures |Reported(res)| == |res|
  {
    if res == [] {
      assert Reported(res) == {};
    } else {
      var n := |res| - 1;
      DistinctCount(res[..n]);
      assert res == res[..n] + [res[n]];
      ReportedAppend(res[..n], [res[n]]);
      assert Reported([res[n]]) == {res[n].job};
      assert res[n].job !in Reported(res[..n]);
    }
  }

  lemma ListingIsLedger(b: Book, res: seq<JobAlloc>, all: MachineSet)
    requires Kept(b, all) && Lists(b.profile, res, EndedBy(b.profile, |b.profile|))
    ensures ReadsBack(res, b.ledger)
  {
    hide Valid, LastIsIdle, Occupies, JobSet, EndedBy, Contains;
    KeptParts(b, all);
    AllJobsAreListed(b.profile, res);
    forall j ensures j in b.ledger <==> exists i :: 0 <= i < |res| && res[i].job == j {
      JobSetContains(b.profile, j);
    }
    forall i | 0 <= i < |res|
      ensures res[i].job in b.ledger && b.ledger[res[i].job] == AsGrant(res[i])
    {
      var a := res[i];
      assert a in res;
      OccupiesUnique(b.profile, a.job, AsGrant(a), b.ledger[a.job]);
    }
    DistinctCount(res);
    CountJobs(res, b.ledger);
  }

  lemma CountJobs(res: seq<JobAlloc>, ledger: Ledger)
    requires forall j :: j in ledger <==> exists i :: 0 <= i < |res| && res[i].job == j
    requires |Reported(res)| == |res|
    ensures |res| == |ledger|
  {
    forall j ensures j in Reported(res) <==> j in ledger.Keys {
      if j in ledger {
        var i :| 0 <= i < |res| && res[i].job == j;
        assert res[i] in res;
      }
      if j in Reported(res) {
        var a :| a in res && a.job == j;
        var i :| 0 <= i < |res| && res[i] == a;
      }
    }
    assert Reported(res) == ledger.Keys;
  }

  /** Whatever was inserted, removed and passed since the schedule was made, `jobs_allocations` lists exactly one
      allocation for each job that is in the schedule, with the begin, end and machines that first fit granted it. */
  lemma AllocationsReadBack(nbMachines: nat, date: real, horizon: real, ops: seq<Operation>, sel: Selector,
                            res: seq<JobAlloc>)
    requires date <= horizon && AllAllowed(Book(Fresh(nbMachines, date, horizon), map[]), ops, sel)
    requires var p := After(Book(Fresh(nbMachines, date, horizon), map[]), ops, sel).profile;
             Lists(p, res, EndedBy(p, |p|))
    ensures ReadsBack(res, After(Book(Fresh(nbMachines, date, horizon), map[]), ops, sel).ledger)
  {
    hide Kept, ReadsBack, Lists, EndedBy, After, AllAllowed, Fresh;
    var start := Book(Fresh(nbMachines, date, horizon), map[]);
    FreshKept(nbMachines, date, horizon);
    HistoryKeeps(start, ops, sel, AllMachines(nbMachines));
    ListingIsLedger(After(start, ops, sel), res, AllMachines(nbMachines));
  }

  /** After any history a request that fits the platform and ends by the horizon from the last slice on is served. */
  lemma AlwaysServed(nbMachines: nat, date: real, horizon: real, ops: seq<Operation>, sel: Selector, n: nat,
                     walltime: real)
    requires date <= horizon && AllAllowed(Book(Fresh(nbMachines, date, horizon), map[]), ops, sel)
    requires walltime > 0.0 && CanFit(sel, n, AllMachines(nbMachines))
    requires var p := After(Book(Fresh(nbMachines, date, horizon), map[]), ops, sel).profile;
             |p| > 0 && p[|p| - 1].begin + walltime <= Horizon(p)
    ensures FirstFit(After(Book(Fresh(nbMachines, date, horizon), map[]), ops, sel).profile, 0, n, walltime, sel).Some?
  {
    hide Kept, After, AllAllowed, Fresh, CanFit;
    var start := Book(Fresh(nbMachines, date, horizon), map[]);
    FreshKept(nbMachines, date, horizon);
    HistoryKeeps(start, ops, sel, AllMachines(nbMachines));
    var b := After(start, ops, sel);
    KeptParts(b, AllMachines(nbMachines));
    assert AllMachines(nbMachines) - {} == AllMachines(nbMachines);
    FirstFitIsTotal(b.profile, n, walltime, sel, AllMachines(nbMachines), {});
  }
}
