/** What a killed delay job keeps: the accounting of checkpoints over any number of kill and resubmit rounds. */
module Checkpoints {
  import opened Machines

  /** `interval`, `dump` and `read` are the job's checkpoint interval, dump time and read time; the walltime is reduced
      by the progress only where that is asked for. */
  datatype Settings = Settings(checkpointingOn: bool, subtractProgress: bool, interval: real, dump: real, read: real)

  /** The fraction of the delay that had run when the job was killed, the run time it was restored with, and the
      walltime the scheduler held for it. */
  datatype Kill = Kill(progress: real, runtime: real, walltime: real)

  /** The delay of the profile, the walltime of the job, and the members of its metadata that concern checkpoints. */
  datatype Documents = Documents(delay: real, walltime: Option<real>, checkpointed: Option<bool>,
                                 numDumps: Option<int>, workProgress: Option<real>)

  /** The time from one checkpoint to the next. */
  function Span(c: Settings): real {
    c.interval + c.dump
  }

  /** The time `n` spans of this length take. */
  function Times(n: int, length: real): real {
    n as real * length
  }

  /** How many whole spans of this length lie within the time. */
  function Full(time: real, length: real): int
    requires length > 0.0
  {
    (time / length).Floor
  }

  predicate Usable(c: Settings) {
    c.interval >= 0.0 && c.dump >= 0.0 && c.read >= 0.0 && Span(c) > 0.0
  }

  predicate HasCheckpointed(d: Documents) {
    d.checkpointed == Some(true)
  }

  /** The time a restart spends on reading the last checkpoint back. */
  function ReadBack(c: Settings, d: Documents): real {
    if HasCheckpointed(d) then c.read else 0.0
  }

  function TimeIn(d: Documents, kill: Kill): real {
    kill.progress * d.delay + kill.runtime
  }

  /** Checkpoints the killed run completed; negative when it was killed while reading the last one back. */
  function Completed(c: Settings, d: Documents, kill: Kill): int
    requires Span(c) > 0.0
  {
    Full(TimeIn(d, kill) - ReadBack(c, d), Span(c))
  }

  function Dumps(d: Documents): int {
    if d.numDumps.Some? then d.numDumps.value else 0
  }

  function Work(d: Documents): real {
    if d.workProgress.Some? then d.workProgress.value else 0.0
  }

  /** `AddMember` appends: a member of that name that is there already is the one found from then on. */
  function AddMember<T>(o: Option<T>, value: T): Option<T> {
    if o.Some? then o else Some(value)
  }

  /** The walltime once n checkpoints were completed. */
  function Reduced(c: Settings, d: Documents, kill: Kill, n: int): Option<real> {
    if kill.walltime > 0.0 && d.walltime.Some? && c.subtractProgress
    then Some(kill.walltime - (Times(n, Span(c)) - c.read)) else d.walltime
  }

  /** The documents of the resubmitted job. */
  function Round(c: Settings, d: Documents, kill: Kill): Documents
    requires Span(c) > 0.0
  {
    var n := Completed(c, d, kill);
    if !c.checkpointingOn || kill.progress <= 0.0 || n <= 0 then d
    else if HasCheckpointed(d) then
      d.(delay := d.delay - Times(n, Span(c)),
         walltime := Reduced(c, d, kill, n),
         numDumps := Some(Dumps(d) + n),
         workProgress := Some(Work(d) + Times(n, c.interval)))
    else
      Documents(d.delay - Times(n, Span(c)) + c.read, Reduced(c, d, kill, n), AddMember(d.checkpointed, true),
                AddMember(d.numDumps, n), AddMember(d.workProgress, Times(n, c.interval)))
  }

  /** `get_meta_data_from_delay`, which overwrites the documents in place. */
  class JobDocuments {
    var delay: real
    var walltime: Option<real>
    var checkpointed: Option<bool>
    var numDumps: Option<int>
    var workProgress: Option<real>

    function Value(): Documents
      reads this
    {
      Documents(delay, walltime, checkpointed, numDumps, workProgress)
    }

    constructor (d: Documents)
      ensures Value() == d
    {
      delay, walltime := d.delay, d.walltime;
      checkpointed, numDumps, workProgress := d.checkpointed, d.numDumps, d.workProgress;
    }

    method GetMetaDataFromDelay(c: Settings, kill: Kill)
      requires Usable(c)
      modifies this
      ensures Value() == Round(c, old(Value()), kill)
    {
      hide Times, Full;
      if c.checkpointingOn {
        if kill.progress > 0.0 {
          ghost var before := Value();
          var progressTime := kill.progress * delay;
          progressTime := progressTime + kill.runtime;
          assert progressTime - 0.0 == progressTime == TimeIn(before, kill);
          var hasCheckpointed := false;
          if checkpointed.Some? {
            hasCheckpointed := checkpointed.value;
          }
          var completed := 0;
          if hasCheckpointed {
            completed := Full(progressTime - c.read, c.interval + c.dump);
            if workProgress.Some? {
              var work := workProgress.value;
              if completed > 0 {
                work := work + Times(completed, c.interval);
              }
              workProgress := Some(work);
            } else if completed > 0 {
              workProgress := AddMember(workProgress, Times(completed, c.interval));
            }
            if numDumps.Some? {
              var dumps := numDumps.value;
              if completed > 0 {
                dumps := dumps + completed;
              }
              numDumps := Some(dumps);
            } else if completed > 0 {
              numDumps := AddMember(numDumps, completed);
            }
            progressTime := Times(completed, c.interval + c.dump) + c.read;
          } else {
            completed := Full(progressTime, c.interval + c.dump);
            progressTime := Times(completed, c.interval + c.dump);
            if completed > 0 {
              checkpointed := AddMember(checkpointed, true);
              numDumps := AddMember(numDumps, completed);
              workProgress := AddMember(workProgress, Times(completed, c.interval));
            }
          }
          assert completed == Completed(c, before, kill);
          if completed > 0 {
            if kill.walltime > 0.0 && walltime.Some? && c.subtractProgress {
              walltime := Some(kill.walltime - (Times(completed, c.interval + c.dump) - c.read));
            }
            delay := delay - progressTime + c.read;
          }
        }
      }
    }
  }

  // ---------------------------------------------------------------- conservation

  /** The job submitted with this delay, whose checkpoints the documents record. */
  predicate Accounted(c: Settings, d: Documents, original: real) {
    && d.delay + Times(Dumps(d), Span(c)) - ReadBack(c, d) == original
    && Work(d) == Times(Dumps(d), c.interval)
    && (HasCheckpointed(d) <==> Dumps(d) > 0)
    && Dumps(d) >= 0
  }

  predicate NoMetadata(d: Documents) {
    d.checkpointed.None? && d.numDumps.None? && d.workProgress.None?
  }

  function Rounds(c: Settings, d: Documents, kills: seq<Kill>): Documents
    requires Span(c) > 0.0
  {
    if |kills| == 0 then d else Round(c, Rounds(c, d, kills[..|kills| - 1]), kills[|kills| - 1])
  }

  lemma Distributes(n: int, k: int, x: real)
    ensures Times(n + k, x) == Times(n, x) + Times(k, x)
  {
  }

  lemma Few(x: real)
    ensures Times(0, x) == 0.0 && Times(1, x) == x
  {
  }

  lemma Cancels(n: int, x: real)
    requires x > 0.0 && Times(n, x) == 0.0
    ensures n == 0
  {
    if n > 0 { Ordered(1, n, x); } else if n < 0 { Ordered(n, -1, x); }
  }

  lemma Ordered(n: int, k: int, x: real)
    requires n <= k && x > 0.0
    ensures Times(n, x) <= Times(k, x)
  {
  }

  lemma RoundKeepsAccount(c: Settings, d: Documents, kill: Kill, original: real)
    requires Usable(c) && Accounted(c, d, original)
    requires NoMetadata(d) || HasCheckpointed(d)
    ensures Accounted(c, Round(c, d, kill), original)
    ensures NoMetadata(Round(c, d, kill)) || HasCheckpointed(Round(c, d, kill))
  {
    hide Times, Full;
    var n := Completed(c, d, kill);
    Distributes(n, Dumps(d), Span(c));
    Distributes(n, Dumps(d), c.interval);
  }

  /** Whatever the kills and the restored run times, no delay is lost or invented: what remains and what was
      checkpointed make up the original delay, apart from one read back. */
  lemma {:induction false} DelayIsConserved(c: Settings, d: Documents, kills: seq<Kill>)
    requires Usable(c) && NoMetadata(d)
    ensures var r := Rounds(c, d, kills);
            && r.delay + Times(Dumps(r), Span(c)) - ReadBack(c, r) == d.delay
            && Work(r) == Times(Dumps(r), c.interval)
            && (HasCheckpointed(r) <==> Dumps(r) > 0)
            && (NoMetadata(r) || HasCheckpointed(r))
            && Dumps(r) >= 0
  {
    hide Times, Round, Completed;
    Few(Span(c));
    Few(c.interval);
    if |kills| > 0 {
      var before := kills[..|kills| - 1];
      DelayIsConserved(c, d, before);
      RoundKeepsAccount(c, Rounds(c, d, before), kills[|kills| - 1], d.delay);
    }
  }

  /** Metadata that already has one of the three members keeps the old value: the first checkpoint is accounted for
      exactly when the flag is absent and the other two are absent or happen to be right. */
  lemma FirstCheckpointAccountedIff(c: Settings, d: Documents, kill: Kill)
    requires Usable(c) && c.checkpointingOn && kill.progress > 0.0
    requires !HasCheckpointed(d) && Completed(c, d, kill) > 0
    ensures var n := Completed(c, d, kill);
            HasCheckpointed(Round(c, d, kill)) && Accounted(c, Round(c, d, kill), d.delay) <==>
            && d.checkpointed.None?
            && (d.numDumps.None? || d.numDumps == Some(n))
            && (d.workProgress.None? || d.workProgress == Some(Times(n, c.interval)))
  {
    hide Times, Full;
    var n, r := Completed(c, d, kill), Round(c, d, kill);
    Ordered(1, n, Span(c));
    if HasCheckpointed(r) && Accounted(c, r, d.delay) {
      Distributes(Dumps(r) - n, n, Span(c));
      Cancels(Dumps(r) - n, Span(c));
    }
  }

  /** A job whose metadata says it did not checkpoint yet: killed after half of a delay of 10, with a checkpoint every 2
      seconds, it goes on from the second checkpoint, but no checkpoint is recorded for it to read back. */
  lemma FalseFlagStays()
    ensures var c, d := Settings(true, false, 1.0, 1.0, 0.5), Documents(10.0, None, Some(false), None, None);
            var r := Round(c, d, Kill(0.5, 0.0, 30.0));
            Completed(c, d, Kill(0.5, 0.0, 30.0)) == 2 && r.delay == 6.5 && !HasCheckpointed(r) && ReadBack(c, r) == 0.0
  {
    var c, d := Settings(true, false, 1.0, 1.0, 0.5), Documents(10.0, None, Some(false), None, None);
    RoundCountsCheckpoints(c, d, Kill(0.5, 0.0, 30.0), 2);
  }

  // ---------------------------------------------------------------- the reduced walltime

  predicate ReducesWalltime(c: Settings, d: Documents, kill: Kill) {
    c.subtractProgress && d.walltime.Some? && kill.walltime > 0.0
  }

  /** A round that completes a checkpoint leaves the job as much time beyond its delay as it had, and one read back
      more where it had read a checkpoint back already. */
  lemma RoundKeepsMargin(c: Settings, d: Documents, kill: Kill)
    requires Usable(c) && c.checkpointingOn && kill.progress > 0.0 && Completed(c, d, kill) > 0
    requires ReducesWalltime(c, d, kill)
    ensures var r := Round(c, d, kill);
            r.walltime.Some? && r.walltime.value - r.delay == kill.walltime - d.delay + ReadBack(c, d)
  {
    hide Times, Completed;
  }

  /** Each time it was killed, the scheduler held a positive walltime no smaller than that of the documents. */
  predicate HeldWalltimes(c: Settings, d: Documents, kills: seq<Kill>)
    requires Span(c) > 0.0
  {
    |kills| == 0 ||
    (var before, kill := kills[..|kills| - 1], kills[|kills| - 1];
     && HeldWalltimes(c, d, before)
     && kill.walltime > 0.0
     && var w := Rounds(c, d, before).walltime; w.Some? ==> kill.walltime >= w.value)
  }

  /** Over any number of kills a reduced walltime goes on covering the remaining delay. */
  lemma {:induction false} WalltimeCoversDelay(c: Settings, d: Documents, kills: seq<Kill>)
    requires Usable(c) && c.subtractProgress && d.walltime.Some? && d.walltime.value >= d.delay
    requires HeldWalltimes(c, d, kills)
    ensures var r := Rounds(c, d, kills); r.walltime.Some? && r.walltime.value >= r.delay
  {
    hide Times, Completed;
    if |kills| > 0 {
      var before, kill := kills[..|kills| - 1], kills[|kills| - 1];
      WalltimeCoversDelay(c, d, before);
      var last := Rounds(c, d, before);
      if c.checkpointingOn && kill.progress > 0.0 && Completed(c, last, kill) > 0 {
        RoundKeepsMargin(c, last, kill);
      }
    }
  }

  // ---------------------------------------------------------------- bounds

  function Product(a: real, s: real): real {
    a * s
  }

  lemma Scaled(a: real, b: real, s: real)
    requires s > 0.0 && a <= b
    ensures Product(a, s) <= Product(b, s) && (a < b ==> Product(a, s) < Product(b, s))
  {
    assert b * s == a * s + (b - a) * s;
  }

  lemma TimesIs(n: int, s: real)
    ensures Times(n, s) == Product(n as real, s)
  {
  }

  lemma Quotient(x: real, s: real) returns (q: real)
    requires s > 0.0
    ensures q == x / s && Product(q, s) == x
  {
    q := x / s;
  }

  lemma Between(n: int, q: real, s: real)
    requires s > 0.0 && n as real <= q < n as real + 1.0
    ensures Times(n, s) <= Product(q, s) < Times(n + 1, s)
  {
    hide Times, Product;
    TimesIs(n, s);
    TimesIs(n + 1, s);
    Scaled(n as real, q, s);
    Scaled(q, (n + 1) as real, s);
  }

  lemma FloorBounds(x: real, s: real)
    requires s > 0.0
    ensures var n := Full(x, s); Times(n, s) <= x < Times(n + 1, s)
  {
    hide Times, Product;
    var q := Quotient(x, s);
    Between(q.Floor, q, s);
  }

  lemma FloorsCompare(x: real, y: real, s: real)
    requires s > 0.0
    ensures Times(Full(x, s), s) <= y <==> x < Times(Full(y, s) + 1, s)
  {
    hide Times, Full;
    var n, last := Full(x, s), Full(y, s);
    FloorBounds(x, s);
    FloorBounds(y, s);
    if n <= last { Ordered(n, last, s); Ordered(n + 1, last + 1, s); } else { Ordered(last + 1, n, s); }
  }

  lemma FloorIsUnique(x: real, s: real, n: int)
    requires s > 0.0 && Times(n, s) <= x < Times(n + 1, s)
    ensures Full(x, s) == n
  {
    hide Times, Full;
    var m := Full(x, s);
    FloorBounds(x, s);
    if m < n { Ordered(m + 1, n, s); } else if m > n { Ordered(n + 1, m, s); }
  }

  /** A round counts the checkpoints that lie within the time run after the read back, and throws away what ran
      since the last of them: less than one interval and dump. */
  lemma RoundCountsCheckpoints(c: Settings, d: Documents, kill: Kill, n: int)
    requires Usable(c)
    ensures Completed(c, d, kill) == n <==>
            0.0 <= TimeIn(d, kill) - ReadBack(c, d) - Times(n, Span(c)) < Span(c)
  {
    hide Times, Full;
    var x, m := TimeIn(d, kill) - ReadBack(c, d), Completed(c, d, kill);
    FloorBounds(x, Span(c));
    Distributes(n, 1, Span(c));
    Distributes(m, 1, Span(c));
    Few(Span(c));
    if 0.0 <= x - Times(n, Span(c)) < Span(c) {
      FloorIsUnique(x, Span(c), n);
    }
  }

  /** A round that completes a checkpoint leaves enough delay to read it back exactly when the time run did not pass
      the checkpoint due after the end of the delay. */
  lemma RoundCoversReadIff(c: Settings, d: Documents, kill: Kill)
    requires Usable(c) && c.checkpointingOn && kill.progress > 0.0 && Completed(c, d, kill) > 0
    ensures var last := Full(d.delay - ReadBack(c, d), Span(c));
            Round(c, d, kill).delay >= c.read <==>
            TimeIn(d, kill) - ReadBack(c, d) < Times(last + 1, Span(c))
  {
    hide Times, Full;
    FloorsCompare(TimeIn(d, kill) - ReadBack(c, d), d.delay - ReadBack(c, d), Span(c));
  }

  /** A run that was not restored with earlier run time, and no longer than its delay. */
  predicate Plain(kill: Kill) {
    kill.runtime == 0.0 && kill.progress <= 1.0
  }

  lemma PlainRoundCoversRead(c: Settings, d: Documents, kill: Kill)
    requires Usable(c) && Plain(kill) && d.delay >= ReadBack(c, d)
    ensures Round(c, d, kill).delay >= ReadBack(c, Round(c, d, kill))
  {
    hide Times, Full;
    if c.checkpointingOn && kill.progress > 0.0 && Completed(c, d, kill) > 0 {
      assert TimeIn(d, kill) <= d.delay;
      FloorBounds(d.delay - ReadBack(c, d), Span(c));
      RoundCoversReadIff(c, d, kill);
    }
  }

  /** Over any number of plain rounds the delay always covers the read back, so the checkpoints taken never account
      for more than the original delay. */
  lemma {:induction false} CheckpointsFitTheDelay(c: Settings, d: Documents, kills: seq<Kill>)
    requires Usable(c) && NoMetadata(d) && d.delay >= 0.0
    requires forall i :: 0 <= i < |kills| ==> Plain(kills[i])
    ensures var r := Rounds(c, d, kills);
            r.delay >= ReadBack(c, r) && 0.0 <= Times(Dumps(r), Span(c)) <= d.delay
  {
    hide Times, Full;
    DelayIsConserved(c, d, kills);
    if |kills| > 0 {
      var before := kills[..|kills| - 1];
      CheckpointsFitTheDelay(c, d, before);
      PlainRoundCoversRead(c, Rounds(c, d, before), kills[|kills| - 1]);
    }
    Few(Span(c));
    Ordered(0, Dumps(Rounds(c, d, kills)), Span(c));
  }

  /** Restored run time can break this: 9 seconds of a delay of 10 on top of 20 restored ones count as 14 checkpoints
      of 2 seconds each, and leave a negative delay. */
  lemma RestoredRuntimeOvershoots()
    ensures var c := Settings(true, false, 1.0, 1.0, 0.5);
            var d := Documents(10.0, None, None, None, None);
            Round(c, d, Kill(0.9, 20.0, 30.0)).delay < 0.0
  {
    var c := Settings(true, false, 1.0, 1.0, 0.5);
    var d := Documents(10.0, None, None, None, None);
    RoundCountsCheckpoints(c, d, Kill(0.9, 20.0, 30.0), 14);
  }

  /** The time all the killed runs took. */
  function TimeRun(c: Settings, d: Documents, kills: seq<Kill>): real
    requires Span(c) > 0.0
  {
    if |kills| == 0 then 0.0
    else
      var before := kills[..|kills| - 1];
      TimeRun(c, d, before) + TimeIn(Rounds(c, d, before), kills[|kills| - 1])
  }

  lemma RoundLoses(c: Settings, d: Documents, kill: Kill)
    requires Usable(c) && c.checkpointingOn && kill.progress > 0.0
    requires NoMetadata(d) || HasCheckpointed(d)
    ensures TimeIn(d, kill) < Times(Dumps(Round(c, d, kill)) - Dumps(d), Span(c)) + Span(c) + c.read
  {
    hide Times, Full;
    var n := Completed(c, d, kill);
    RoundCountsCheckpoints(c, d, kill, n);
    assert TimeIn(d, kill) < Times(n, Span(c)) + Span(c) + c.read;
    Few(Span(c));
    if n <= 0 {
      Ordered(n, 0, Span(c));
    }
  }

  /** Whole histories: each kill wastes less than one interval, one dump and one read; all the rest of the time run
      is in the checkpoints. */
  lemma {:induction false} KillsWasteLittle(c: Settings, d: Documents, kills: seq<Kill>)
    requires Usable(c) && c.checkpointingOn && NoMetadata(d) && |kills| > 0
    requires forall i :: 0 <= i < |kills| ==> kills[i].progress > 0.0
    ensures TimeRun(c, d, kills) <
            Times(Dumps(Rounds(c, d, kills)), Span(c)) + Times(|kills|, Span(c) + c.read)
  {
    hide Times, Round, Completed, TimeIn;
    var before, kill := kills[..|kills| - 1], kills[|kills| - 1];
    var d', r := Rounds(c, d, before), Rounds(c, d, kills);
    DelayIsConserved(c, d, before);
    RoundLoses(c, d', kill);
    Distributes(Dumps(r) - Dumps(d'), Dumps(d'), Span(c));
    Distributes(|before|, 1, Span(c) + c.read);
    Few(Span(c) + c.read);
    Few(Span(c));
    if |before| > 0 {
      KillsWasteLittle(c, d, before);
    } else {
      assert before == [];
    }
  }

  // ---------------------------------------------------------------- when a round changes anything

  /** The time the killed run took after reading its last checkpoint back. */
  function WorkTime(c: Settings, d: Documents, kill: Kill): real {
    kill.progress * d.delay + kill.runtime - (if d.checkpointed == Some(true) then c.read else 0.0)
  }

  /** The killed run completed a checkpoint: some progress was reported, and its time holds at least one whole span. */
  predicate CompletedOne(c: Settings, d: Documents, kill: Kill) {
    c.checkpointingOn && kill.progress > 0.0 && c.interval + c.dump <= WorkTime(c, d, kill)
  }

  /** The time of the killed run holds n whole spans and no more, at least one. */
  predicate WholeSpans(c: Settings, d: Documents, kill: Kill, n: int) {
    n > 0 && 0.0 <= WorkTime(c, d, kill) - n as real * (c.interval + c.dump) < c.interval + c.dump
  }

  lemma CompletesIff(c: Settings, d: Documents, kill: Kill)
    requires Usable(c) && c.checkpointingOn && kill.progress > 0.0
    ensures CompletedOne(c, d, kill) <==> Completed(c, d, kill) > 0
  {
    hide Times, Full;
    var n := Completed(c, d, kill);
    RoundCountsCheckpoints(c, d, kill, n);
    Few(Span(c));
    if n > 0 { Ordered(1, n, Span(c)); } else { Ordered(n, 0, Span(c)); }
  }

  /** Without a completed checkpoint nothing changes; with one the delay shrinks by some number of whole spans, at least
      one, and the first time grows by one read. */
  lemma RoundChangesIff(c: Settings, d: Documents, kill: Kill)
    requires Usable(c)
    ensures !CompletedOne(c, d, kill) ==> Round(c, d, kill) == d
    ensures CompletedOne(c, d, kill) ==>
              exists n :: WholeSpans(c, d, kill, n)
                && Round(c, d, kill).delay
                   == d.delay - n as real * (c.interval + c.dump)
                      + (if d.checkpointed == Some(true) then 0.0 else c.read)
  {
    hide Full;
    var n := Completed(c, d, kill);
    if c.checkpointingOn && kill.progress > 0.0 { CompletesIff(c, d, kill); }
    if CompletedOne(c, d, kill) {
      RoundCountsCheckpoints(c, d, kill, n);
      assert WholeSpans(c, d, kill, n);
    }
  }

  /** The walltime changes only when a checkpoint was completed, the reduction is asked for, the documents have a
      walltime and the scheduler held a positive one; documents without a walltime never get one. */
  lemma WalltimeChangesOnly(c: Settings, d: Documents, kill: Kill)
    requires Usable(c)
    ensures Round(c, d, kill).walltime != d.walltime ==>
              CompletedOne(c, d, kill) && c.subtractProgress && d.walltime.Some? && kill.walltime > 0.0
    ensures d.walltime.None? <==> Round(c, d, kill).walltime.None?
  {
    hide Times, Full, Completed;
    if c.checkpointingOn && kill.progress > 0.0 { CompletesIff(c, d, kill); }
  }

  /** Over any number of kills: where the walltime is not to be reduced, or there is none, it stays what it was. */
  lemma {:induction false} WalltimeIsKept(c: Settings, d: Documents, kills: seq<Kill>)
    requires Usable(c) && (!c.subtractProgress || d.walltime.None?)
    ensures Rounds(c, d, kills).walltime == d.walltime
    decreases |kills|
  {
    hide Round;
    if |kills| > 0 {
      var before := kills[..|kills| - 1];
      WalltimeIsKept(c, d, before);
      WalltimeChangesOnly(c, Rounds(c, d, before), kills[|kills| - 1]);
    }
  }
}
