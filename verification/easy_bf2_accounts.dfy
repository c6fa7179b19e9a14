/** What becomes of every job handed to the EASY scheduler: it waits, or it was decided on, once. */
module EasyBf2Accounts {
  import opened Machines
  import opened Profiles
  import opened Queues
  import opened EasyBf2Model
  import opened EasyBf2Proofs

  function Subject(d: Decision): JobId {
    d.job
  }

  ghost function Decided(ds: seq<Decision>): set<JobId> {
    set i | 0 <= i < |ds| :: Subject(ds[i])
  }

  ghost predicate Once(ds: seq<Decision>) {
    forall i, k :: 0 <= i < k < |ds| ==> Subject(ds[i]) != Subject(ds[k])
  }

  /** The known jobs are those waiting and those decided on, and no job is both or decided on twice. Every running job
      runs on the machines of its decision. */
  ghost predicate Accounted(st: State, known: set<JobId>) {
    && Once(st.decisions)
    && Decided(st.decisions) !! QueueIds(st.queue)
    && Decided(st.decisions) + QueueIds(st.queue) == known
    && forall j :: j in Present(st.profile) ==> Execute(j, Present(st.profile)[j]) in st.decisions
  }

  lemma DecideOne(ds: seq<Decision>, d: Decision)
    ensures Decided(ds + [d]) == Decided(ds) + {Subject(d)}
    ensures Once(ds) && Subject(d) !in Decided(ds) ==> Once(ds + [d])
  {
    var r := ds + [d];
    assert r[|ds|] == d;
    forall x | x in Decided(ds) ensures x in Decided(r) {
      var i :| 0 <= i < |ds| && Subject(ds[i]) == x;
      assert r[i] == ds[i];
    }
  }

  /** Starting a waiting job moves it from the queue to the decisions. */
  lemma StartAccounts(st: State, i: nat, p: Profile, u: MachineSet, known: set<JobId>)
    requires Accounted(st, known) && Distinct(st.queue) && i < |st.queue|
    requires Present(p) == Present(st.profile)[st.queue[i].job.id := u]
    ensures Accounted(State(p, WithoutIndex(st.queue, i), st.decisions + [Execute(st.queue[i].job.id, u)]), known)
  {
    hide Present, Once, Decided, QueueIds, Distinct;
    var id := st.queue[i].job.id;
    WithoutIndexKeeps(st.queue, i);
    Waits(st.queue, i);
    DecideOne(st.decisions, Execute(id, u));
    assert Decided(st.decisions) + {id} + (QueueIds(st.queue) - {id}) == Decided(st.decisions) + QueueIds(st.queue);
  }

  lemma Waits(q: JobQueue, i: nat)
    requires i < |q|
    ensures q[i].job.id in QueueIds(q)
  {
  }

  lemma WithoutIndexSorted(order: Order, q: JobQueue, i: nat)
    requires Sorted(order, q) && i < |q|
    ensures Sorted(order, WithoutIndex(q, i))
  {
    hide Before;
  }

  /** Jobs that stop running leave the accounts as they are. */
  lemma FewerRunning(st: State, p: Profile, known: set<JobId>)
    requires Accounted(st, known)
    requires forall j :: j in Present(p) ==> j in Present(st.profile) && Present(p)[j] == Present(st.profile)[j]
    ensures Accounted(st.(profile := p), known)
  {
    hide Present, Once, Decided, QueueIds;
  }

  lemma SortAccounts(cfg: Config, st: State, date: real, known: set<JobId>)
    requires Accounted(st, known) && Distinct(st.queue)
    ensures Accounted(st.(queue := SortQueue(cfg.order, st.queue, date)), known)
  {
    hide Present, Once, Decided, QueueIds, SortQueue;
    SortQueueIds(cfg.order, st.queue, date);
  }

  lemma QueueSorted(order: Order, q: JobQueue, now: real)
    requires Distinct(q)
    ensures Sorted(order, SortQueue(order, q, now))
  {
    SortSorts(order, AgedQueue(order, q, now));
  }

  ghost function Ids(jobs: seq<Job>): set<JobId> {
    set i | 0 <= i < |jobs| :: jobs[i].id
  }

  lemma ReleaseAccounts(cfg: Config, st: State, job: Job, date: real, known: set<JobId>)
    requires Accounted(st, known) && job.id !in known
    ensures Accounted(ReleaseJob(cfg, st, job, date), known + {job.id})
  {
    hide Present, Once, Decided, Distinct;
    DecideOne(st.decisions, Reject(job.id));
    var q := st.queue + [Entry(job, date)];
    assert QueueIds(q) == QueueIds(st.queue) + {job.id} by { AppendIds(st.queue, Entry(job, date)); }
  }

  lemma {:induction false} ReleaseAllAccounts(cfg: Config, st: State, released: seq<Job>, date: real, known: set<JobId>)
    requires Accounted(st, known) && Ids(released) !! known
    requires forall i, k :: 0 <= i < k < |released| ==> released[i].id != released[k].id
    ensures Accounted(ReleaseJobs(cfg, st, released, date), known + Ids(released))
    decreases |released|
  {
    hide Accounted, ReleaseJob;
    if released == [] {
      assert known + Ids(released) == known;
    } else {
      var id := released[0].id;
      assert id in Ids(released);
      FirstId(released);
      ReleaseAccounts(cfg, st, released[0], date, known);
      ReleaseAllAccounts(cfg, ReleaseJob(cfg, st, released[0], date), released[1..], date, known + {id});
      assert known + {id} + Ids(released[1..]) == known + Ids(released);
    }
  }

  lemma FirstId(jobs: seq<Job>)
    requires jobs != [] && forall i, k :: 0 <= i < k < |jobs| ==> jobs[i].id != jobs[k].id
    ensures Ids(jobs) == {jobs[0].id} + Ids(jobs[1..]) && jobs[0].id !in Ids(jobs[1..])
  {
    forall x | x in Ids(jobs) ensures x in {jobs[0].id} + Ids(jobs[1..]) {
      var i :| 0 <= i < |jobs| && jobs[i].id == x;
      if i > 0 { assert jobs[1..][i - 1].id == x; }
    }
  }

  /** The jobs released in the first n calls. */
  ghost function Known(calls: seq<Call>, n: nat): set<JobId>
    requires n <= |calls|
  {
    if n == 0 then {} else Known(calls, n - 1) + Ids(calls[n - 1].released)
  }
}
