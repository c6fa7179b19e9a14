/** What becomes of every job handed to the rewritten EASY scheduler: it waits, or it was decided on, once. */
module EasyBf3Accounts {
  import opened Machines
  import opened Profiles
  import opened Queues
  import opened HeapSorts
  import opened EasyBf2Model
  import opened EasyBf2Accounts
  import opened EasyBf3Model
  import opened EasyBf3Proofs

  /** The known jobs are those waiting and those decided on, each once, every job on the list of running jobs has the
      machines of its decision, and the head that was noted last is a known job, if there was one. */
  ghost predicate FastAccounted(st: FastState, known: set<JobId>) {
    && Distinct(st.queue)
    && Once(st.decisions)
    && Decided(st.decisions) !! QueueIds(st.queue)
    && Decided(st.decisions) + QueueIds(st.queue) == known
    && (forall j :: j in st.scheduled ==> Execute(j.id, j.machines) in st.decisions)
    && (st.priority.id == "" || st.priority.id in known)
  }

  lemma ExecuteAccounts(st: FastState, job: Job, i: nat, date: real, known: set<JobId>)
    requires FastAccounted(st, known) && i < |st.queue| && st.queue[i].job.id == job.id
    ensures FastAccounted(Dequeue(ExecuteFast(st, job, date), i), known)
  {
    hide Once, Decided, QueueIds, Distinct, HeapSort, WithoutIndex;
    var j := Running(job, st.available, date);
    HeapSortMembers(st.scheduled + [j]);
    WithoutIndexKeeps(st.queue, i);
    Waits(st.queue, i);
    DecideOne(st.decisions, Execute(job.id, j.machines));
    assert Decided(st.decisions) + {job.id} + (QueueIds(st.queue) - {job.id})
           == Decided(st.decisions) + QueueIds(st.queue);
  }

  /** Noting a waiting job as the head keeps the accounts. */
  lemma NoteAccounts(st: FastState, job: Job, known: set<JobId>)
    requires FastAccounted(st, known) && job.id in QueueIds(st.queue)
    ensures FastAccounted(NoteHead(st, job), known) && FastAccounted(ShadowHead(st, job), known)
    ensures NoteHead(st, job).queue == ShadowHead(st, job).queue == st.queue
  {
    hide Once, Decided, QueueIds, Distinct, ScanShadow;
    ScanKeepsNote(Noted(st.priority, job), job, st.scheduled, 0, st.nbAvailable);
  }

  lemma {:induction false} PlaceHeadAccounts(st: FastState, date: real, known: set<JobId>)
    requires FastAccounted(st, known)
    ensures FastAccounted(PlaceHeadFast(st, date), known)
    decreases |st.queue|
  {
    hide FastAccounted, ExecuteFast, NoteHead, ShadowHead, HeadCanRun;
    if st.queue != [] {
      var job := st.queue[0].job;
      Waits(st.queue, 0);
      NoteAccounts(st, job, known);
      if HeadCanRun(st, job) {
        ExecuteAccounts(NoteHead(st, job), job, 0, date, known);
        ExecuteQueue(NoteHead(st, job), job, date);
        FewerQueued(st.queue, 0);
        PlaceHeadAccounts(Dequeue(ExecuteFast(NoteHead(st, job), job, date), 0), date, known);
      }
    }
  }

  lemma {:induction false} BackfillNewAccounts(st: FastState, recent: seq<Job>, nb: int, date: real, known: set<JobId>)
    requires FastAccounted(st, known)
    ensures FastAccounted(BackfillNewFast(st, recent, nb, date), known)
    decreases |recent|
  {
    hide FastAccounted, ExecuteFast, CanBackfill;
    if recent != [] && nb > 0 {
      var job := recent[0];
      var i := IndexOf(st.queue, job.id, 0);
      if job.id in QueueIds(st.queue) && Head(st.queue) != Some(job.id) && job.res <= nb && CanBackfill(st, job, date)
         && i < |st.queue| {
        ExecuteAccounts(st, job, i, date, known);
        ExecuteQueue(st, job, date);
        BackfillNewAccounts(Dequeue(ExecuteFast(st, job, date), i), recent[1..], nb - job.res, date, known);
      } else {
        BackfillNewAccounts(st, recent[1..], nb, date, known);
      }
    }
  }

  lemma {:induction false} TraverseAccounts(st: FastState, i: nat, priority: Option<JobId>, date: real,
                                            known: set<JobId>)
    requires FastAccounted(st, known)
    ensures FastAccounted(TraverseFast(st, i, priority, date), known)
    decreases |st.queue| - i
  {
    hide FastAccounted, ExecuteFast, NoteHead, ShadowHead, HeadCanRun, CanBackfill;
    if i < |st.queue| {
      var job := st.queue[i].job;
      Waits(st.queue, i);
      NoteAccounts(st, job, known);
      FewerQueued(st.queue, i);
      if priority == Some(job.id) {
        if HeadCanRun(st, job) {
          ExecuteAccounts(NoteHead(st, job), job, i, date, known);
          ExecuteQueue(NoteHead(st, job), job, date);
          var r := Dequeue(ExecuteFast(NoteHead(st, job), job, date), i);
          TraverseAccounts(r, i, Head(r.queue), date, known);
        } else {
          TraverseAccounts(ShadowHead(st, job), i + 1, priority, date, known);
        }
      } else if CanBackfill(st, job, date) {
        ExecuteAccounts(st, job, i, date, known);
        ExecuteQueue(st, job, date);
        TraverseAccounts(Dequeue(ExecuteFast(st, job, date), i), i, priority, date, known);
      } else {
        TraverseAccounts(st, i + 1, priority, date, known);
      }
    }
  }

  lemma FinishAccounts(st: FastState, id: JobId, known: set<JobId>)
    requires FastAccounted(st, known)
    ensures FastAccounted(FinishJob(st, id), known)
  {
    hide Once, Decided, QueueIds, Distinct;
  }

  lemma {:induction false} FinishAllAccounts(st: FastState, ended: seq<JobId>, known: set<JobId>)
    requires FastAccounted(st, known)
    ensures FastAccounted(FinishJobs(st, ended), known)
    decreases |ended|
  {
    hide FastAccounted, FinishJob;
    if ended != [] {
      FinishAccounts(st, ended[0], known);
      FinishAllAccounts(FinishJob(st, ended[0]), ended[1..], known);
    }
  }

  lemma ReleaseFastAccounts(cfg: Config, st: FastState, job: Job, date: real, known: set<JobId>)
    requires FastAccounted(st, known) && job.id !in known
    ensures FastAccounted(ReleaseFast(cfg, st, job, date), known + {job.id})
  {
    hide Once, Decided, QueueIds, Distinct;
    DecideOne(st.decisions, Reject(job.id));
    AppendKeeps(st.queue, Entry(job, date));
    var d, q := Decided(st.decisions), QueueIds(st.queue);
    assert d + {job.id} + q == d + (q + {job.id}) == known + {job.id};
  }

  lemma {:induction false} ReleaseAllFastAccounts(cfg: Config, st: FastState, released: seq<Job>, date: real,
                                                  known: set<JobId>)
    requires FastAccounted(st, known) && Ids(released) !! known
    requires forall i, k :: 0 <= i < k < |released| ==> released[i].id != released[k].id
    ensures FastAccounted(ReleaseAllFast(cfg, st, released, date), known + Ids(released))
    decreases |released|
  {
    hide FastAccounted, ReleaseFast;
    if released == [] {
      assert known + Ids(released) == known;
    } else {
      var id := released[0].id;
      assert id in Ids(released);
      FirstId(released);
      ReleaseFastAccounts(cfg, st, released[0], date, known);
      ReleaseAllFastAccounts(cfg, ReleaseFast(cfg, st, released[0], date), released[1..], date, known + {id});
      assert known + {id} + Ids(released[1..]) == known + Ids(released);
    }
  }

  lemma SortFastAccounts(cfg: Config, st: FastState, date: real, known: set<JobId>)
    requires FastAccounted(st, known)
    ensures FastAccounted(st.(queue := SortQueue(cfg.order, st.queue, date)), known)
  {
    hide Once, Decided, QueueIds, SortQueue, Distinct;
    SortQueueKeepsJobs(cfg.order, st.queue, date);
    SortQueueIds(cfg.order, st.queue, date);
  }

  /** A call takes its released jobs into the accounts and loses no other. */
  lemma FastStepAccounts(cfg: Config, st: FastState, call: Call, known: set<JobId>)
    requires FastAccounted(st, known) && Ids(call.released) !! known
    requires forall i, k :: 0 <= i < k < |call.released| ==> call.released[i].id != call.released[k].id
    ensures FastAccounted(FastStep(cfg, st, call), known + Ids(call.released))
  {
    hide FastAccounted, FinishJobs, ReleaseAllFast, SortQueue, PlaceHeadFast, BackfillNewFast, TraverseFast, Ids;
    var all := known + Ids(call.released);
    FinishAllAccounts(st, call.ended, known);
    ReleaseAllFastAccounts(cfg, FinishJobs(st, call.ended), call.released, call.date, known);
    var s := ArriveFast(cfg, st, call);
    SortFastAccounts(cfg, s, call.date, all);
    PlaceHeadAccounts(s.(queue := SortQueue(cfg.order, s.queue, call.date)), call.date, all);
    var r := SortAndPlaceHeadFast(cfg, s, Head(st.queue), call.date);
    BackfillNewAccounts(r, Accepted(cfg, call.released), r.nbAvailable, call.date, all);
    TraverseAccounts(r, 0, Head(r.queue), call.date, all);
  }

  /** What a caller must respect: the released jobs have identifiers, none of which was used before. */
  ghost predicate FreshRelease(calls: seq<Call>, i: nat)
    requires i < |calls|
  {
    && Ids(calls[i].released) !! Known(calls, i) && "" !in Ids(calls[i].released)
    && forall x, y :: 0 <= x < y < |calls[i].released| ==> calls[i].released[x].id != calls[i].released[y].id
  }

  /** A run from the empty platform, as its caller sees it. */
  ghost predicate IsFreshFastRun(cfg: Config, states: seq<FastState>, calls: seq<Call>) {
    && |states| == |calls| + 1
    && states[0] == InitialFast(cfg.nbMachines)
    && forall i :: 0 <= i < |calls| ==> FreshRelease(calls, i) && states[i + 1] == FastStep(cfg, states[i], calls[i])
  }

  lemma FreshStep(cfg: Config, states: seq<FastState>, calls: seq<Call>, i: nat)
    requires IsFreshFastRun(cfg, states, calls) && i < |calls|
    ensures FreshRelease(calls, i) && states[i + 1] == FastStep(cfg, states[i], calls[i])
  {
    hide FreshRelease, FastStep;
  }

  /** Over whole runs in which no identifier is used twice, each job released so far is waiting or was decided on
      exactly once, never both, and every running job has the machines of its decision. */
  lemma {:induction false} NoFastJobIsLost(cfg: Config, states: seq<FastState>, calls: seq<Call>, n: nat)
    requires IsFreshFastRun(cfg, states, calls) && n <= |calls|
    ensures FastAccounted(states[n], Known(calls, n))
    decreases n
  {
    hide FastStep, Ids, IsFreshFastRun;
    StartsEmpty(cfg, states, calls);
    if n == 0 {
      assert Decided([]) == {} && QueueIds([]) == {};
    } else {
      NoFastJobIsLost(cfg, states, calls, n - 1);
      FreshStep(cfg, states, calls, n - 1);
      FastStepAccounts(cfg, states[n - 1], calls[n - 1], Known(calls, n - 1));
    }
  }

  lemma StartsEmpty(cfg: Config, states: seq<FastState>, calls: seq<Call>)
    requires IsFreshFastRun(cfg, states, calls)
    ensures |states| == |calls| + 1 && states[0] == InitialFast(cfg.nbMachines)
  {
    hide FreshRelease, FastStep;
  }

  lemma KnownIds(st: FastState, known: set<JobId>)
    requires FastAccounted(st, known)
    ensures QueueIds(st.queue) <= known && RunningIds(st.scheduled) <= known
    ensures st.priority.id == "" || st.priority.id in known
  {
    hide Once, QueueIds, Distinct;
    forall id | id in RunningIds(st.scheduled) ensures id in Decided(st.decisions) {
      var i :| 0 <= i < |st.scheduled| && st.scheduled[i].id == id;
      var d := Execute(id, st.scheduled[i].machines);
      assert st.scheduled[i] in st.scheduled;
      var k :| 0 <= k < |st.decisions| && st.decisions[k] == d;
      assert Subject(st.decisions[k]) == id;
    }
  }

  /** Fresh identifiers are all the scheduler needs: every such run satisfies what its invariant asks of each call, so
      machine conservation and work conservation hold throughout. */
  lemma FreshRunIsRun(cfg: Config, states: seq<FastState>, calls: seq<Call>)
    requires IsFreshFastRun(cfg, states, calls)
    ensures IsFastRun(cfg, states, calls)
    ensures forall n :: 0 <= n <= |calls| ==> FastInv(cfg, states[n])
  {
    hide FastStep, Ids, FastInv, IsFreshFastRun, FastAccounted;
    StartsEmpty(cfg, states, calls);
    forall i | 0 <= i < |calls|
      ensures FastCallOk(states[i], calls[i]) && states[i + 1] == FastStep(cfg, states[i], calls[i])
    {
      NoFastJobIsLost(cfg, states, calls, i);
      FreshStep(cfg, states, calls, i);
      KnownIds(states[i], Known(calls, i));
      NotKnown(states[i], calls, i);
    }
    forall n | 0 <= n <= |calls| ensures FastInv(cfg, states[n]) { FastRunKeepsInv(cfg, states, calls, n); }
  }

  lemma NotKnown(st: FastState, calls: seq<Call>, i: nat)
    requires i < |calls| && FreshRelease(calls, i)
    requires QueueIds(st.queue) <= Known(calls, i) && RunningIds(st.scheduled) <= Known(calls, i)
    requires st.priority.id == "" || st.priority.id in Known(calls, i)
    ensures FastCallOk(st, calls[i])
  {
    hide QueueIds, RunningIds, Known;
    assert forall x :: 0 <= x < |calls[i].released| ==> calls[i].released[x].id in Ids(calls[i].released);
  }
}
