/** Which released jobs a call rejects: for both schedulers, in the decisions it adds. */
module Rejections {
  import opened Machines
  import opened Profiles
  import opened Queues
  import opened EasyBf2Model
  import opened EasyBf3Model

  /** The second list goes on from the first with jobs that start only. */
  ghost predicate OnlyStarts(a: seq<Decision>, b: seq<Decision>) {
    a <= b && forall i :: |a| <= i < |b| ==> b[i].Execute?
  }

  lemma StartsAdd(a: seq<Decision>, b: seq<Decision>, c: seq<Decision>)
    requires OnlyStarts(a, b) && OnlyStarts(b, c)
    ensures OnlyStarts(a, c)
  {
    assert forall i :: 0 <= i < |a| ==> c[i] == b[i] == a[i];
    assert forall i :: |a| <= i < |b| ==> c[i] == b[i];
  }

  lemma OneStart(a: seq<Decision>, id: JobId, u: MachineSet)
    ensures OnlyStarts(a, a + [Execute(id, u)])
  {
  }

  lemma NoStart(a: seq<Decision>)
    ensures OnlyStarts(a, a)
  {
  }

  /** What a call must reject: a job larger than the platform, or one without a walltime. */
  predicate MustReject(nbMachines: nat, job: Job) {
    job.res > nbMachines || !job.hasWalltime
  }

  ghost predicate SomeRejected(nbMachines: nat, released: seq<Job>, id: JobId) {
    exists i :: 0 <= i < |released| && released[i].id == id && MustReject(nbMachines, released[i])
  }

  /** The second list goes on from the first with rejections only, of exactly the jobs that must be. */
  ghost predicate RejectsExactly(nbMachines: nat, released: seq<Job>, a: seq<Decision>, b: seq<Decision>) {
    && a <= b
    && (forall i :: |a| <= i < |b| ==> b[i].Reject?)
    && forall id :: Reject(id) in b[|a|..] <==> SomeRejected(nbMachines, released, id)
  }

  lemma RejectFirst(nbMachines: nat, released: seq<Job>, a: seq<Decision>, c: seq<Decision>)
    requires released != []
    requires var b := if MustReject(nbMachines, released[0]) then a + [Reject(released[0].id)] else a;
             RejectsExactly(nbMachines, released[1..], b, c)
    ensures RejectsExactly(nbMachines, released, a, c)
  {
    var b := if MustReject(nbMachines, released[0]) then a + [Reject(released[0].id)] else a;
    assert c[|a|..] == b[|a|..] + c[|b|..];
    forall id ensures Reject(id) in c[|a|..] <==> SomeRejected(nbMachines, released, id) {
      SplitReleased(nbMachines, released, id);
    }
    assert forall i :: |a| <= i < |b| ==> c[i] == b[i];
  }

  lemma SplitReleased(nbMachines: nat, released: seq<Job>, id: JobId)
    requires released != []
    ensures SomeRejected(nbMachines, released, id) <==>
              (released[0].id == id && MustReject(nbMachines, released[0]))
              || SomeRejected(nbMachines, released[1..], id)
  {
    var rest := released[1..];
    if SomeRejected(nbMachines, released, id) {
      var i :| 0 <= i < |released| && released[i].id == id && MustReject(nbMachines, released[i]);
      if i > 0 { assert rest[i - 1] == released[i]; }
    }
    if SomeRejected(nbMachines, rest, id) {
      var i :| 0 <= i < |rest| && rest[i].id == id && MustReject(nbMachines, rest[i]);
      assert released[i + 1] == rest[i];
    }
  }

  // ---------------------------------------------------------------- the scheduler over the profile

  lemma {:induction false} EndJobsDecide(st: State, ended: seq<JobId>)
    requires EndJobs(st, ended).Some?
    ensures EndJobs(st, ended).value.decisions == st.decisions
    decreases |ended|
  {
    hide Remove, Contains;
    if ended != [] { EndJobsDecide(st.(profile := Remove(st.profile, ended[0], {})), ended[1..]); }
  }

  lemma {:induction false} ReleaseJobsReject(cfg: Config, st: State, released: seq<Job>, date: real)
    ensures RejectsExactly(cfg.nbMachines, released, st.decisions, ReleaseJobs(cfg, st, released, date).decisions)
    decreases |released|
  {
    hide RejectsExactly;
    if released == [] {
      NoneRejected(cfg.nbMachines, st.decisions);
    } else {
      ReleaseJobsReject(cfg, ReleaseJob(cfg, st, released[0], date), released[1..], date);
      RejectFirst(cfg.nbMachines, released, st.decisions, ReleaseJobs(cfg, st, released, date).decisions);
    }
  }

  lemma NoneRejected(nbMachines: nat, a: seq<Decision>)
    ensures RejectsExactly(nbMachines, [], a, a)
  {
  }

  lemma {:induction false} PlaceHeadStarts(cfg: Config, st: State)
    requires PlaceHead(cfg, st).Some?
    ensures OnlyStarts(st.decisions, PlaceHead(cfg, st).value.decisions)
    decreases |st.queue|
  {
    hide Insertion, OnlyStarts;
    NoStart(st.decisions);
    if st.queue != [] {
      var job := st.queue[0].job;
      var Added(p, alloc) := Insertion(cfg, st.profile, job).value;
      if alloc.startedInFirstSlice {
        var s := State(p, WithoutIndex(st.queue, 0), st.decisions + [Execute(job.id, alloc.machines)]);
        OneStart(st.decisions, job.id, alloc.machines);
        PlaceHeadStarts(cfg, s);
        StartsAdd(st.decisions, s.decisions, PlaceHead(cfg, s).value.decisions);
      }
    }
  }

  lemma {:induction false} BackfillNewStarts(cfg: Config, st: State, recent: seq<Job>, nb: int)
    requires BackfillNew(cfg, st, recent, nb).Some?
    ensures OnlyStarts(st.decisions, BackfillNew(cfg, st, recent, nb).value.decisions)
    decreases |recent|
  {
    hide Insertion, OnlyStarts, Remove, WithoutIndex, QueueIds;
    NoStart(st.decisions);
    if recent != [] && nb > 0 {
      var job := recent[0];
      if job.id in QueueIds(st.queue) && Head(st.queue) != Some(job.id) && job.res <= nb {
        var i := IndexOf(st.queue, job.id, 0);
        var Added(p, alloc) := Insertion(cfg, st.profile, job).value;
        if alloc.startedInFirstSlice && i < |st.queue| {
          var s := State(p, WithoutIndex(st.queue, i), st.decisions + [Execute(job.id, alloc.machines)]);
          OneStart(st.decisions, job.id, alloc.machines);
          BackfillNewStarts(cfg, s, recent[1..], nb - job.res);
          StartsAdd(st.decisions, s.decisions, BackfillNew(cfg, s, recent[1..], nb - job.res).value.decisions);
        } else {
          BackfillNewStarts(cfg, st.(profile := Remove(p, job.id, {})), recent[1..], nb);
        }
      } else {
        BackfillNewStarts(cfg, st, recent[1..], nb);
      }
    }
  }

  lemma {:induction false} TraverseStarts(cfg: Config, st: State, i: nat, priority: Option<JobId>)
    requires Traverse(cfg, st, i, priority).Some?
    ensures OnlyStarts(st.decisions, Traverse(cfg, st, i, priority).value.decisions)
    decreases |st.queue| - i
  {
    hide Insertion, OnlyStarts, Remove;
    NoStart(st.decisions);
    if i < |st.queue| {
      var job := st.queue[i].job;
      var Added(p, alloc) := Insertion(cfg, Remove(st.profile, job.id, {}), job).value;
      if alloc.startedInFirstSlice {
        var rest := WithoutIndex(st.queue, i);
        var s := State(p, rest, st.decisions + [Execute(job.id, alloc.machines)]);
        var next := if priority == Some(job.id) then Head(rest) else priority;
        OneStart(st.decisions, job.id, alloc.machines);
        TraverseStarts(cfg, s, i, next);
        StartsAdd(st.decisions, s.decisions, Traverse(cfg, s, i, next).value.decisions);
      } else if priority == Some(job.id) {
        TraverseStarts(cfg, st.(profile := p), i + 1, priority);
      } else {
        TraverseStarts(cfg, st.(profile := Remove(p, job.id, {})), i + 1, priority);
      }
    }
  }

  lemma BackfillStarts(cfg: Config, st: State, call: Call)
    requires Backfill(cfg, st, call).Some?
    ensures OnlyStarts(st.decisions, Backfill(cfg, st, call).value.decisions)
  {
    hide OnlyStarts, BackfillNew, Traverse;
    NoStart(st.decisions);
    if call.ended == [] {
      BackfillNewStarts(cfg, st, Accepted(cfg, call.released), |st.profile[0].available|);
    } else if |st.profile[0].available| > 0 {
      TraverseStarts(cfg, st, 0, Head(st.queue));
    }
  }

  /** The decisions between two lists reject exactly the jobs that must be, and otherwise start jobs. */
  ghost predicate Decides(nbMachines: nat, released: seq<Job>, a: seq<Decision>, c: seq<Decision>) {
    && a <= c
    && forall id :: Reject(id) in c[|a|..] <==> SomeRejected(nbMachines, released, id)
  }

  lemma RejectThenStart(nbMachines: nat, released: seq<Job>, a: seq<Decision>, b: seq<Decision>, c: seq<Decision>)
    requires RejectsExactly(nbMachines, released, a, b) && OnlyStarts(b, c)
    ensures Decides(nbMachines, released, a, c)
  {
    hide SomeRejected;
    assert c[|a|..] == b[|a|..] + c[|b|..];
    assert forall i :: 0 <= i < |a| ==> c[i] == b[i] == a[i];
    forall id ensures Reject(id) !in c[|b|..] {
      assert forall i :: 0 <= i < |c| - |b| ==> c[|b|..][i].Execute?;
    }
  }

  /** Among the decisions a call adds, a released job is rejected if and only if it is larger than the platform or
      has no walltime; nothing else is rejected, and no earlier decision is taken back. */
  lemma StepRejectsIff(cfg: Config, st: State, call: Call)
    requires Step(cfg, st, call).Some?
    ensures Decides(cfg.nbMachines, call.released, st.decisions, Step(cfg, st, call).value.decisions)
  {
    hide EndJobs, ReleaseJobs, SortQueue, PlaceHead, Backfill, RejectsExactly, OnlyStarts, Decides, Remove, Advance;
    EndJobsDecide(st, call.ended);
    var s := EndJobs(st, call.ended).value;
    ReleaseJobsReject(cfg, s, call.released, call.date);
    var a := Arrive(cfg, st, call).value;
    var r := SortAndPlaceHead(cfg, a, Head(st.queue), call.date).value;
    SortAndPlaceHeadStarts(cfg, a, Head(st.queue), call.date);
    BackfillStarts(cfg, r, call);
    StartsAdd(a.decisions, r.decisions, Step(cfg, st, call).value.decisions);
    RejectThenStart(cfg.nbMachines, call.released, st.decisions, a.decisions, Step(cfg, st, call).value.decisions);
  }

  lemma SortAndPlaceHeadStarts(cfg: Config, st: State, before: Option<JobId>, date: real)
    requires SortAndPlaceHead(cfg, st, before, date).Some?
    ensures OnlyStarts(st.decisions, SortAndPlaceHead(cfg, st, before, date).value.decisions)
  {
    hide SortQueue, PlaceHead, OnlyStarts, Remove;
    NoStart(st.decisions);
    var sorted := st.(queue := SortQueue(cfg.order, st.queue, date));
    if Head(sorted.queue) != before {
      PlaceHeadStarts(cfg, if before.Some? then sorted.(profile := Remove(st.profile, before.value, {})) else sorted);
    }
  }

  // ---------------------------------------------------------------- the rewritten scheduler

  lemma {:induction false} FinishJobsDecide(st: FastState, ended: seq<JobId>)
    ensures FinishJobs(st, ended).decisions == st.decisions
    decreases |ended|
  {
    if ended != [] { FinishJobsDecide(FinishJob(st, ended[0]), ended[1..]); }
  }

  lemma {:induction false} ReleaseAllReject(cfg: Config, st: FastState, released: seq<Job>, date: real)
    ensures RejectsExactly(cfg.nbMachines, released, st.decisions, ReleaseAllFast(cfg, st, released, date).decisions)
    decreases |released|
  {
    hide RejectsExactly;
    if released == [] {
      NoneRejected(cfg.nbMachines, st.decisions);
    } else {
      ReleaseAllReject(cfg, ReleaseFast(cfg, st, released[0], date), released[1..], date);
      RejectFirst(cfg.nbMachines, released, st.decisions, ReleaseAllFast(cfg, st, released, date).decisions);
    }
  }

  lemma ExecuteStarts(st: FastState, job: Job, date: real)
    ensures OnlyStarts(st.decisions, ExecuteFast(st, job, date).decisions)
    ensures NoteHead(st, job).decisions == st.decisions == ShadowHead(st, job).decisions
    ensures ExecuteFast(st, job, date).queue == st.queue
    ensures NoteHead(st, job).queue == st.queue == ShadowHead(st, job).queue
  {
  }

  lemma {:induction false} PlaceHeadFastStarts(st: FastState, date: real)
    ensures OnlyStarts(st.decisions, PlaceHeadFast(st, date).decisions)
    decreases |st.queue|
  {
    hide OnlyStarts, ExecuteFast, NoteHead, ShadowHead;
    NoStart(st.decisions);
    if st.queue != [] {
      var job := st.queue[0].job;
      var noted := NoteHead(st, job);
      ExecuteStarts(st, job, date);
      ExecuteStarts(noted, job, date);
      if HeadCanRun(st, job) {
        var s := Dequeue(ExecuteFast(noted, job, date), 0);
        FewerQueued(st.queue, 0);
        PlaceHeadFastStarts(s, date);
        StartsAdd(st.decisions, s.decisions, PlaceHeadFast(s, date).decisions);
      }
    }
  }

  lemma {:induction false} BackfillNewFastStarts(st: FastState, recent: seq<Job>, nb: int, date: real)
    ensures OnlyStarts(st.decisions, BackfillNewFast(st, recent, nb, date).decisions)
    decreases |recent|
  {
    hide OnlyStarts, ExecuteFast, CanBackfill, WithoutIndex, QueueIds;
    NoStart(st.decisions);
    if recent != [] && nb > 0 {
      var job := recent[0];
      var i := IndexOf(st.queue, job.id, 0);
      if job.id in QueueIds(st.queue) && Head(st.queue) != Some(job.id) && job.res <= nb
         && CanBackfill(st, job, date) && i < |st.queue| {
        ExecuteStarts(st, job, date);
        var s := Dequeue(ExecuteFast(st, job, date), i);
        BackfillNewFastStarts(s, recent[1..], nb - job.res, date);
        StartsAdd(st.decisions, s.decisions, BackfillNewFast(s, recent[1..], nb - job.res, date).decisions);
      } else {
        BackfillNewFastStarts(st, recent[1..], nb, date);
      }
    }
  }

  lemma {:induction false} TraverseFastStarts(st: FastState, i: nat, priority: Option<JobId>, date: real)
    ensures OnlyStarts(st.decisions, TraverseFast(st, i, priority, date).decisions)
    decreases |st.queue| - i
  {
    hide OnlyStarts, ExecuteFast, CanBackfill, NoteHead, ShadowHead, HeadCanRun;
    NoStart(st.decisions);
    if i < |st.queue| {
      var job := st.queue[i].job;
      var noted := NoteHead(st, job);
      ExecuteStarts(st, job, date);
      ExecuteStarts(noted, job, date);
      FewerQueued(st.queue, i);
      if priority == Some(job.id) {
        if HeadCanRun(st, job) {
          var s := Dequeue(ExecuteFast(noted, job, date), i);
          TraverseFastStarts(s, i, Head(s.queue), date);
          StartsAdd(st.decisions, s.decisions, TraverseFast(s, i, Head(s.queue), date).decisions);
        } else {
          TraverseFastStarts(ShadowHead(st, job), i + 1, priority, date);
        }
      } else if CanBackfill(st, job, date) {
        var s := Dequeue(ExecuteFast(st, job, date), i);
        TraverseFastStarts(s, i, priority, date);
        StartsAdd(st.decisions, s.decisions, TraverseFast(s, i, priority, date).decisions);
      } else {
        TraverseFastStarts(st, i + 1, priority, date);
      }
    }
  }

  /** The same of the rewritten scheduler. */
  lemma FastStepRejectsIff(cfg: Config, st: FastState, call: Call)
    ensures Decides(cfg.nbMachines, call.released, st.decisions, FastStep(cfg, st, call).decisions)
  {
    hide FinishJobs, ReleaseAllFast, SortQueue, PlaceHeadFast, BackfillNewFast, TraverseFast, RejectsExactly,
         OnlyStarts, Decides;
    FinishJobsDecide(st, call.ended);
    ReleaseAllReject(cfg, FinishJobs(st, call.ended), call.released, call.date);
    var a := ArriveFast(cfg, st, call);
    var sorted := a.(queue := SortQueue(cfg.order, a.queue, call.date));
    var r := SortAndPlaceHeadFast(cfg, a, Head(st.queue), call.date);
    NoStart(a.decisions);
    PlaceHeadFastStarts(sorted, call.date);
    NoStart(r.decisions);
    BackfillNewFastStarts(r, Accepted(cfg, call.released), r.nbAvailable, call.date);
    TraverseFastStarts(r, 0, Head(r.queue), call.date);
    StartsAdd(a.decisions, r.decisions, FastStep(cfg, st, call).decisions);
    RejectThenStart(cfg.nbMachines, call.released, st.decisions, a.decisions, FastStep(cfg, st, call).decisions);
  }
}
