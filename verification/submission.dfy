/** The static submitters of jobs and events: they send each item at its date, in one message with the items of the
    same date. */
module Submissions {
  import opened Profiles
  import opened Queues

  /** Something to submit at a date. */
  datatype Dated<T> = Dated(item: T, date: real)

  /** A message to the server: its date and what it carries. */
  datatype Batch<T> = Batch(date: real, items: seq<Dated<T>>)

  function Later(a: real, b: real): real {
    if a > b then a else b
  }

  /** `submit_jobs_to_server` and `send_events_to_server`: an empty batch is not sent. */
  function Message<T>(date: real, pending: seq<Dated<T>>): seq<Batch<T>> {
    if pending == [] then [] else [Batch(date, pending)]
  }

  /** The messages sent for the remaining items, from a date on and with some items already waiting. */
  function Batches<T>(items: seq<Dated<T>>, now: real, pending: seq<Dated<T>>): seq<Batch<T>> {
    if items == [] then Message(now, pending)
    else if items[0].date > now then Message(now, pending) + Batches(items[1..], items[0].date, [items[0]])
    else Batches(items[1..], now, pending + [items[0]])
  }

  /** The main loop of `static_event_submitter_process`. Sleeping is exact and sending takes no time. */
  method SubmitEvents<T>(events: seq<Dated<T>>, start: real) returns (sent: seq<Batch<T>>)
    ensures sent == Batches(events, start, [])
  {
    sent := [];
    var currentOccurringDate := start;
    if |events| > 0 {
      var eventsToSend := [];
      var i := 0;
      while i < |events|
        invariant i <= |events|
        invariant sent + Batches(events[i..], currentOccurringDate, eventsToSend) == Batches(events, start, [])
      {
        var e := events[i];
        assert events[i..][1..] == events[i + 1..];
        if e.date > currentOccurringDate {
          ghost var rest := Batches(events[i + 1..], e.date, [e]);
          assert sent + (Message(currentOccurringDate, eventsToSend) + rest)
                 == sent + Message(currentOccurringDate, eventsToSend) + rest;
          sent := sent + Message(currentOccurringDate, eventsToSend);
          eventsToSend := [];
          assert eventsToSend + [e] == [e];
          currentOccurringDate := currentOccurringDate + (e.date - currentOccurringDate);
        }
        eventsToSend := eventsToSend + [e];
        i := i + 1;
      }
      sent := sent + Message(currentOccurringDate, eventsToSend);
    }
  }

  /** The jobs of a workload in the order of their submission: by date, then by identifier. */
  function InOrder(jobs: JobQueue): seq<Dated<Job>> {
    var sorted := Sort(FCFS, jobs);
    seq(|sorted|, i requires 0 <= i < |sorted| => Dated(sorted[i].job, sorted[i].releaseDate))
  }

  /** The main loop of `static_job_submitter_process`, which drops the jobs from a list as it goes. */
  method SubmitJobs(jobs: JobQueue, start: real) returns (sent: seq<Batch<Job>>)
    ensures sent == Batches(InOrder(jobs), start, [])
  {
    sent := [];
    var currentSubmissionDate := start;
    var jobsToSubmit := InOrder(jobs);
    if |jobsToSubmit| > 0 {
      var jobsToSend := [];
      while jobsToSubmit != []
        invariant sent + Batches(jobsToSubmit, currentSubmissionDate, jobsToSend) == Batches(InOrder(jobs), start, [])
        decreases |jobsToSubmit|
      {
        var job := jobsToSubmit[0];
        if job.date > currentSubmissionDate {
          ghost var rest := Batches(jobsToSubmit[1..], job.date, [job]);
          assert sent + (Message(currentSubmissionDate, jobsToSend) + rest)
                 == sent + Message(currentSubmissionDate, jobsToSend) + rest;
          sent := sent + Message(currentSubmissionDate, jobsToSend);
          jobsToSend := [];
          assert jobsToSend + [job] == [job];
          currentSubmissionDate := currentSubmissionDate + (job.date - currentSubmissionDate);
        }
        jobsToSend := jobsToSend + [job];
        jobsToSubmit := jobsToSubmit[1..];
      }
      sent := sent + Message(currentSubmissionDate, jobsToSend);
    }
  }

  // ---------------------------------------------------------------- what the server receives

  /** Each item received, with the date at which it is received. */
  function Received<T>(batches: seq<Batch<T>>): seq<(Dated<T>, real)> {
    if batches == [] then [] else At(batches[0].items, batches[0].date) + Received(batches[1..])
  }

  function At<T>(items: seq<Dated<T>>, date: real): (r: seq<(Dated<T>, real)>)
    ensures |r| == |items| && forall i :: 0 <= i < |r| ==> r[i] == (items[i], date)
  {
    seq(|items|, i requires 0 <= i < |items| => (items[i], date))
  }

  /** Each item in turn, at its own date or at the latest date before it if that is later. */
  function Due<T>(items: seq<Dated<T>>, now: real): (r: seq<(Dated<T>, real)>)
    ensures |r| == |items|
  {
    if items == [] then []
    else
      var date := Later(now, items[0].date);
      [(items[0], date)] + Due(items[1..], date)
  }

  lemma {:induction false} ReceivedOfMessage<T>(date: real, pending: seq<Dated<T>>, rest: seq<Batch<T>>)
    ensures Received(Message(date, pending) + rest) == At(pending, date) + Received(rest)
  {
    if pending == [] {
      assert Message(date, pending) + rest == rest;
    } else {
      assert (Message(date, pending) + rest)[1..] == rest;
    }
  }

  lemma {:induction false} ReceivedIsDue<T>(items: seq<Dated<T>>, now: real, pending: seq<Dated<T>>)
    ensures Received(Batches(items, now, pending)) == At(pending, now) + Due(items, now)
    decreases |items|
  {
    if items == [] {
      ReceivedOfMessage(now, pending, []);
      assert Message(now, pending) + [] == Message(now, pending);
    } else if items[0].date > now {
      var date := items[0].date;
      ReceivedIsDue(items[1..], date, [items[0]]);
      ReceivedOfMessage(now, pending, Batches(items[1..], date, [items[0]]));
      assert At([items[0]], date) == [(items[0], date)];
    } else {
      ReceivedIsDue(items[1..], now, pending + [items[0]]);
      assert At(pending + [items[0]], now) == At(pending, now) + [(items[0], now)];
    }
  }

  ghost predicate InDateOrder<T>(items: seq<Dated<T>>) {
    forall i, k :: 0 <= i < k < |items| ==> items[i].date <= items[k].date
  }

  lemma {:induction false} DueInOrder<T>(items: seq<Dated<T>>, now: real)
    requires InDateOrder(items)
    ensures forall i :: 0 <= i < |items| ==> Due(items, now)[i] == (items[i], Later(now, items[i].date))
  {
    if items != [] {
      var date := Later(now, items[0].date);
      DueInOrder(items[1..], date);
      forall i | 0 <= i < |items| ensures Due(items, now)[i] == (items[i], Later(now, items[i].date)) {
        if i > 0 {
          assert Due(items, now)[i] == Due(items[1..], date)[i - 1];
          assert items[1..][i - 1] == items[i];
        }
      }
    }
  }

  /** Items in order of date: the server receives each of them once, in that order, at its own date, or at the start
      when its date has passed by then. */
  lemma EachIsSentOnTime<T>(items: seq<Dated<T>>, start: real)
    requires InDateOrder(items)
    ensures var r := Received(Batches(items, start, []));
            |r| == |items| && forall i :: 0 <= i < |r| ==> r[i] == (items[i], Later(start, items[i].date))
  {
    ReceivedIsDue(items, start, []);
    DueInOrder(items, start);
    assert At<T>([], start) + Due(items, start) == Due(items, start);
  }

  /** No message is empty, and each is later than the one before: items of the same date travel together. */
  lemma {:induction false} MessagesAreSparse<T>(items: seq<Dated<T>>, now: real, pending: seq<Dated<T>>)
    ensures var b := Batches(items, now, pending);
            && (forall i :: 0 <= i < |b| ==> b[i].items != [] && b[i].date >= now)
            && (pending == [] || |b| > 0)
            && (forall i, k :: 0 <= i < k < |b| ==> b[i].date < b[k].date)
    decreases |items|
  {
    if items != [] {
      if items[0].date > now {
        MessagesAreSparse(items[1..], items[0].date, [items[0]]);
      } else {
        MessagesAreSparse(items[1..], now, pending + [items[0]]);
      }
    }
  }

  /** The jobs of a workload: each is received exactly once, at its submission date or at the start. */
  lemma JobsAreSentOnce(jobs: JobQueue, start: real)
    requires Distinct(jobs)
    ensures var r := Received(Batches(InOrder(jobs), start, []));
            && |r| == |jobs|
            && (forall i :: 0 <= i < |r| ==>
                  exists k :: 0 <= k < |jobs| && r[i].0 == Dated(jobs[k].job, jobs[k].releaseDate))
            && (forall k :: 0 <= k < |jobs| ==>
                  (Dated(jobs[k].job, jobs[k].releaseDate), Later(start, jobs[k].releaseDate)) in r)
            && (forall i, k :: 0 <= i < k < |r| ==> r[i].0.item.id != r[k].0.item.id)
  {
    hide Sort;
    var items := InOrder(jobs);
    SortedByDate(jobs);
    EachIsSentOnTime(items, start);
    var r := Received(Batches(items, start, []));
    forall i | 0 <= i < |r|
      ensures exists k :: 0 <= k < |jobs| && r[i].0 == Dated(jobs[k].job, jobs[k].releaseDate)
    {
      var k := ComesFrom(jobs, i);
      assert r[i] == (items[i], Later(start, items[i].date));
    }
    forall k | 0 <= k < |jobs|
      ensures (Dated(jobs[k].job, jobs[k].releaseDate), Later(start, jobs[k].releaseDate)) in r
    {
      var i := GoesTo(jobs, k);
      assert r[i] == (items[i], Later(start, items[i].date));
    }
  }

  lemma SortedByDate(jobs: JobQueue)
    requires Distinct(jobs)
    ensures var items := InOrder(jobs);
            InDateOrder(items) && |items| == |jobs|
            && forall i, k :: 0 <= i < k < |items| ==> items[i].item.id != items[k].item.id
  {
    hide Sort, IdLess;
    SortPermutes(FCFS, jobs);
    SortSorts(FCFS, jobs);
  }

  /** Every item of the sorted list is one of the jobs. */
  lemma ComesFrom(jobs: JobQueue, i: nat) returns (k: nat)
    requires i < |InOrder(jobs)|
    ensures k < |jobs| && InOrder(jobs)[i] == Dated(jobs[k].job, jobs[k].releaseDate)
  {
    hide Sort;
    SortPermutes(FCFS, jobs);
    assert Sort(FCFS, jobs)[i] in multiset(jobs);
    k :| 0 <= k < |jobs| && jobs[k] == Sort(FCFS, jobs)[i];
  }

  /** Every job is an item of the sorted list. */
  lemma GoesTo(jobs: JobQueue, k: nat) returns (i: nat)
    requires k < |jobs|
    ensures i < |InOrder(jobs)| && InOrder(jobs)[i] == Dated(jobs[k].job, jobs[k].releaseDate)
  {
    hide Sort;
    SortPermutes(FCFS, jobs);
    assert jobs[k] in multiset(Sort(FCFS, jobs));
    i :| 0 <= i < |Sort(FCFS, jobs)| && Sort(FCFS, jobs)[i] == jobs[k];
  }
}
