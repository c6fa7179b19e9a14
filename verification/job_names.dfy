/** Workload names with marks: for which of them the identifiers of a job that is killed and resubmitted repeat. */
module JobNames {
  import opened Machines
  import opened JobIds

  // ---------------------------------------------------------------- reading part of a text

  /** The start of a text, of the given length; all of it when that is negative or too long. */
  function Taken(text: string, length: int): string {
    if length < 0 || length > |text| then text else text[..length]
  }

  lemma SubstringIs(s: string, from: nat, bound: nat)
    requires from <= |s|
    ensures Substring(s, from, bound) == Taken(s[from..], from - bound)
  {
  }

  lemma TakenStops(t: string, y: string, length: int)
    requires '!' in t
    ensures Stoi(Taken(t + y, length)) == Stoi(Taken(t, length))
  {
    hide Stoi;
    if length < 0 || length > |t| {
      var more := Taken(t + y, length);
      assert more == t + more[|t|..];
      StoiStops(t, more[|t|..]);
    } else {
      assert (t + y)[..length] == t[..length];
    }
  }

  /** A number that the length leaves whole is read back. */
  lemma StoiTaken(v: int, rest: string, length: int)
    requires IsInt(v) && (rest == "" || !IsDigit(rest[0])) && (length < 0 || |ToString(v)| <= length)
    ensures Stoi(Taken(ToString(v) + rest, length)) == Some(v)
  {
    hide Stoi, ToString;
    var text := Taken(ToString(v) + rest, length);
    var cut := text[|ToString(v)|..];
    assert text == ToString(v) + cut;
    StoiUndoesToString(v, cut);
  }

  // ---------------------------------------------------------------- how long numbers are

  function Power(k: nat): (r: nat)
    ensures r > 0
  {
    if k == 0 then 1 else 10 * Power(k - 1)
  }

  lemma {:induction false} ReadsBelow(s: string, read: nat)
    ensures ReadDigits(s, read) < (read + 1) * Power(|s|)
    decreases |s|
  {
    if s != "" && IsDigit(s[0]) {
      var d := s[0] as int - '0' as int;
      ReadsBelow(s[1..], read * 10 + d);
      NextPower(read, d, Power(|s| - 1));
    } else {
      AtLeastOne(read + 1, Power(|s|));
    }
  }

  lemma AtLeastOne(a: nat, b: nat)
    requires b > 0
    ensures a <= a * b
  {
  }

  lemma NextPower(read: nat, d: nat, p: nat)
    requires d < 10
    ensures (read * 10 + d + 1) * p <= (read + 1) * (10 * p)
  {
    Grows(read * 10 + d + 1, read * 10 + 10, p);
    Regroup(read + 1, p);
  }

  lemma Grows(a: nat, b: nat, p: nat)
    requires a <= b
    ensures a * p <= b * p
  {
  }

  lemma Regroup(a: nat, p: nat)
    ensures (a * 10) * p == a * (10 * p)
  {
  }

  lemma {:induction false} DecimalSize(n: nat, k: nat)
    requires n < Power(k) && k > 0
    ensures |Decimal(n)| <= k
    decreases k
  {
    if n >= 10 {
      assert k > 1 by { assert Power(1) == 10; }
      DecimalSize(n / 10, k - 1);
    }
  }

  /** A number read from a text is not longer than the text. */
  lemma StoiShortens(s: string)
    requires Stoi(s).Some?
    ensures |ToString(Stoi(s).value)| <= |s|
  {
    hide ReadDigits, Decimal;
    SpaceShrinks(s);
    var t := SkipSpace(s);
    var digits := if t != "" && t[0] in "+-" then t[1..] else t;
    ReadsBelow(digits, 0);
    DecimalSize(ReadDigits(digits, 0), |digits|);
  }

  /** The start of a decimal number reads as a number that is no greater. */
  lemma {:induction false} StartReads(n: nat, k: nat)
    requires k <= |Decimal(n)|
    ensures ReadDigits(Decimal(n)[..k], 0) <= n
    decreases n
  {
    hide ReadDigits;
    if k == |Decimal(n)| {
      ReadsDecimal(n, "");
      assert Decimal(n)[..k] == Decimal(n) == Decimal(n) + "";
      NothingToRead(n);
    } else if n < 10 {
      assert Decimal(n)[..k] == "";
      NothingToRead(0);
    } else {
      StartReads(n / 10, k);
      assert Decimal(n)[..k] == Decimal(n / 10)[..k];
    }
  }

  lemma NothingToRead(n: nat)
    ensures ReadDigits("", n) == n
  {
  }

  /** Cutting a number short never makes it smaller, if it is negative or has at most as many digits as are left. */
  lemma CutReads(v: int, rest: string, length: nat)
    requires IsInt(v) && (rest == "" || !IsDigit(rest[0])) && length >= 10
    ensures Stoi(Taken(ToString(v) + rest, length)).Some? ==> Stoi(Taken(ToString(v) + rest, length)).value >= v
  {
    hide Stoi, ToString;
    if |ToString(v)| <= length {
      StoiTaken(v, rest, length);
    } else if v >= 0 {
      SmallEnough(v);
    } else {
      CutNegative(v, rest, length);
    }
  }

  lemma SmallEnough(v: int)
    requires 0 <= v < INT_LIMIT
    ensures |ToString(v)| <= 10
  {
    hide Decimal;
    assert Power(10) == 10_000_000_000 by { Powers(); }
    DecimalSize(v, 10);
  }

  lemma Powers()
    ensures Power(9) == 1_000_000_000 && Power(10) == 10_000_000_000
  {
    assert Power(2) == 100 && Power(4) == 10_000 && Power(6) == 1_000_000 && Power(8) == 100_000_000;
  }

  lemma CutNegative(v: int, rest: string, length: nat)
    requires v < 0 && 1 < length < |ToString(v)|
    ensures Stoi(Taken(ToString(v) + rest, length)).Some? ==> Stoi(Taken(ToString(v) + rest, length)).value >= v
  {
    hide ReadDigits, Decimal, SkipSpace;
    var t := Taken(ToString(v) + rest, length);
    assert t == "-" + Decimal(-v)[..length - 1];
    assert t[1..] == Decimal(-v)[..length - 1];
    NoSpaceToSkip(t);
    StartReads(-v, length - 1);
  }

  /** A number cut to fewer than ten characters can always be read, and is far from the limits. */
  lemma ShortReads(v: int, rest: string, length: nat)
    requires 2 <= length <= 9
    ensures var r := Stoi(Taken(ToString(v) + rest, length)); r.Some? && IsInt(r.value) && IsInt(r.value + 1)
  {
    hide ReadDigits, Decimal, SkipSpace, Power;
    var t := Taken(ToString(v) + rest, length);
    NumbersHaveNoMarks(if v < 0 then -v else v);
    assert Decimal(if v < 0 then -v else v)[0] in Decimal(if v < 0 then -v else v);
    assert t[0] == ToString(v)[0] && (v < 0 ==> t[1] == Decimal(-v)[0]);
    NoSpaceToSkip(t);
    var digits := if v < 0 then t[1..] else t;
    ReadsBelow(digits, 0);
    PowerGrows(|digits|, 9);
    Powers();
  }

  lemma {:induction false} PowerGrows(a: nat, b: nat)
    requires a <= b
    ensures Power(a) <= Power(b)
    decreases b
  {
    if a < b { PowerGrows(a, b - 1); }
  }

  // ---------------------------------------------------------------- what is read of an identifier

  function CheckpointOf(id: string): Option<int> {
    var dollar := Find(id, '$');
    if dollar.Some? then Stoi(id[dollar.value + 1..]) else Some(ABSENT)
  }

  function Assemble(workload: string, number: Option<int>, resubmit: Option<int>,
                    checkpoint: Option<int>): Option<JobParts> {
    if checkpoint.None? || resubmit.None? || number.None? then None
    else Describe(workload, number.value, resubmit.value, checkpoint.value)
  }

  /** How many characters of the job number are read when the name has a pound sign. */
  function NumberRoom(workload: string): int
    requires '#' in workload
  {
    FindNothing(workload, '#');
    |workload| + 1 - Find(workload, '#').value
  }

  /** How many characters of the resubmit number are read when the name has a dollar sign but no pound sign. */
  function ResubmitRoom(workload: string, number: int): int
    requires '$' in workload
  {
    FindNothing(workload, '$');
    |workload| + 2 + |ToString(number)| - Find(workload, '$').value
  }

  /** The resubmit number read for every job of a workload whose name has a pound sign. */
  function NameResubmit(workload: string): Option<int>
    requires '#' in workload
  {
    FindNothing(workload, '#');
    FindNothing(workload, '$');
    var pound := Find(workload, '#').value;
    var dollar := Find(workload, '$');
    Stoi(Taken(workload[pound + 1..] + "!", if dollar.Some? then pound + 1 - dollar.value else -1))
  }

  /** Where a mark is found that the name does not have. */
  lemma MarkAfterName(workload: string, tail: string, c: char)
    requires c !in workload && c != '!' && Find(workload + "!" + tail, c).Some?
    ensures Find(workload + "!" + tail, c).value > |workload|
  {
    var id := workload + "!" + tail;
    var at := Find(id, c).value;
    FoundAt(id, c);
    assert forall k :: 0 <= k < |workload| ==> workload[k] in workload && id[k] == workload[k];
  }

  lemma {:induction false} FoundAt(s: string, c: char)
    requires Find(s, c).Some?
    ensures s[Find(s, c).value] == c
  {
    if s[0] != c { FoundAt(s[1..], c); }
  }

  /** Where the text of the checkpoint starts. */
  function StartDollar(id: string): nat {
    if Find(id, '$').Some? then Find(id, '$').value else |id|
  }

  lemma PoundReads(workload: string, tail: string)
    requires '#' in workload
    ensures var id := workload + "!" + tail;
            && Find(id, '#').Some? && Find(id, '#') == Find(workload, '#')
            && Stoi(Substring(id, Find(id, '#').value + 1, StartDollar(id))) == NameResubmit(workload)
  {
    hide Find, Stoi, Taken, Substring;
    var id := workload + "!" + tail;
    ReadsFromName(workload, '#', tail);
    FindNothing(workload, '#');
    FindNothing(workload, '$');
    var pound := Find(workload, '#').value;
    var t := workload[pound + 1..] + "!";
    assert id[pound + 1..] == t + tail && t[|t| - 1] == '!';
    if '$' in workload {
      ReadsFromName(workload, '$', tail);
      SubstringIs(id, pound + 1, StartDollar(id));
      var from: int := pound + 1;
      TakenStops(t, tail, from - StartDollar(id));
    } else {
      DollarBehind(workload, tail, pound);
      TakenStops(t, tail, -1);
      TakenBehind(t + tail, -1);
    }
  }

  /** With a pound sign in the name, the resubmit number is read from the name, and the job number is cut. */
  lemma PoundParts(workload: string, tail: string)
    requires '#' in workload && '!' !in workload
    ensures var id := workload + "!" + tail;
            GetJobParts(id)
            == Assemble(workload, Stoi(Taken(tail, NumberRoom(workload))), NameResubmit(workload), CheckpointOf(id))
  {
    hide Find, Stoi, Describe, Taken, Substring, NameResubmit;
    var id := workload + "!" + tail;
    assert id == workload + ['!'] + tail;
    FindFirst(workload, '!', tail);
    PoundReads(workload, tail);
    assert id[|workload| + 1..] == tail && id[..|workload|] == workload;
    SubstringIs(id, |workload| + 1, Find(workload, '#').value);
  }

  lemma DollarBehind(workload: string, tail: string, pound: nat)
    requires '$' !in workload && pound < |workload|
    ensures var id := workload + "!" + tail;
            Substring(id, pound + 1, StartDollar(id)) == id[pound + 1..]
  {
    hide Find;
    if Find(workload + "!" + tail, '$').Some? { MarkAfterName(workload, tail, '$'); }
  }

  /** The checkpoint printed for a job is read back, or it is the one in the name. */
  lemma CheckpointStays(workload: string, number: int, resubmit: int, checkpoint: int)
    requires IsInt(checkpoint) && ('$' in workload ==> ReadAfter(workload, '$') == Some(checkpoint))
    ensures CheckpointOf(Print(workload, number, Some(resubmit), Present(checkpoint))) == Some(checkpoint)
  {
    hide Find, Stoi, ToString, Print, Marked;
    if '$' in workload {
      PrintIs(workload, number, Some(resubmit), Present(checkpoint));
      ReadsFromName(workload, '$', ToString(number) + Marked("#", Some(resubmit)) + Marked("$", Present(checkpoint)));
    } else {
      ParsesCheckpoint(workload, number, Some(resubmit), Present(checkpoint));
    }
  }

  /** With a dollar sign but no pound sign in the name, the resubmit number is cut. */
  lemma DollarParts(workload: string, number: int, resubmit: int, checkpoint: int)
    requires '$' in workload && '#' !in workload && '!' !in workload && IsInt(number) && IsInt(checkpoint)
    requires ReadAfter(workload, '$') == Some(checkpoint)
    ensures GetJobParts(Print(workload, number, Some(resubmit), Present(checkpoint)))
            == Assemble(workload, Some(number),
                        Stoi(Taken(ToString(resubmit) + Marked("$", Present(checkpoint)),
                                   ResubmitRoom(workload, number))),
                        Some(checkpoint))
  {
    hide Find, Stoi, ToString, Print, Marked, Describe, Taken;
    var id := Print(workload, number, Some(resubmit), Present(checkpoint));
    CheckpointStays(workload, number, resubmit, checkpoint);
    ParsesNumber(workload, number, Some(resubmit), Present(checkpoint));
    PoundIsBehind(workload, number, resubmit, checkpoint);
    PrintIs(workload, number, Some(resubmit), Present(checkpoint));
    ReadsFromName(workload, '$', ToString(number) + Marked("#", Some(resubmit)) + Marked("$", Present(checkpoint)));
    var pound := |workload + "!" + ToString(number)|;
    SubstringIs(id, pound + 1, Find(workload, '$').value);
    NumbersAreWritten(number);
    SubstringIs(id, |workload| + 1, pound);
    assert Taken(id[|workload| + 1..], |workload| + 1 - pound) == id[|workload| + 1..] by {
      TakenBehind(id[|workload| + 1..], |workload| + 1 - pound);
    }
  }

  lemma TakenBehind(text: string, length: int)
    requires length < 0
    ensures Taken(text, length) == text
  {
  }

  lemma PoundIsBehind(workload: string, number: int, resubmit: int, checkpoint: int)
    requires '#' !in workload
    ensures var id := Print(workload, number, Some(resubmit), Present(checkpoint));
            var body := workload + "!" + ToString(number);
            Find(id, '#') == Some(|body|) && |body| < |id|
            && id[|body| + 1..] == ToString(resubmit) + Marked("$", Present(checkpoint))
  {
    hide Find, ToString;
    var id := Print(workload, number, Some(resubmit), Present(checkpoint));
    var body, tail := workload + "!" + ToString(number), Marked("$", Present(checkpoint));
    NoMarksInNumber(number);
    assert id == body + ['#'] + (ToString(resubmit) + tail);
    FindFirst(body, '#', ToString(resubmit) + tail);
  }

  // ---------------------------------------------------------------- resubmission

  /** The identifiers of a job are all different, however often it is killed and resubmitted. */
  ghost predicate NeverRepeats(id: string) {
    forall i, k :: 0 <= i < k && Resubmitted(id, k).Some? ==> Resubmitted(id, i) != Resubmitted(id, k)
  }

  /** The name has no pound sign, and if it has a dollar sign, ten characters of the resubmit number are read. */
  predicate KeepsApart(workload: string, number: int) {
    '#' !in workload && ('$' in workload ==> ResubmitRoom(workload, number) >= 10)
  }

  lemma NextIs(id: string)
    requires GetJobParts(id).Some?
    ensures var p := GetJobParts(id).value;
            && SeparateId(id).Some?
            && SeparateId(id).value.nextResubmitString
               == Print(p.workload, p.jobNumber, Some(Next(p.jobResubmit)), Present(p.jobCheckpoint))
  {
    hide GetJobParts, SeparateId, Print;
    SeparateIdAgrees(id);
    SeparateIdPrints(id);
  }

  /** A mark in the workload of an identifier that was read is a mark of the identifier's text up to its exclamation
      mark. */
  lemma NameIsText(id: string)
    requires GetJobParts(id).Some? && !NoMarks(GetJobParts(id).value.workload)
    ensures var w := GetJobParts(id).value.workload; |w| < |id| && id == w + "!" + id[|w| + 1..] && '!' !in w
  {
    hide Stoi, ToString, Substring;
    PartsAreInRange(id);
    var at := Find(id, '!');
    if at.Some? {
      FoundAt(id, '!');
      assert id == id[..at.value] + [id[at.value]] + id[at.value + 1..];
    } else {
      assert false;
    }
  }

  lemma CheckpointRead(id: string)
    requires GetJobParts(id).Some?
    ensures CheckpointOf(id) == Some(GetJobParts(id).value.jobCheckpoint)
  {
    hide Find, Stoi, ToString, Substring;
  }

  lemma NameCheckpoint(id: string)
    requires GetJobParts(id).Some? && '$' in GetJobParts(id).value.workload
    ensures ReadAfter(GetJobParts(id).value.workload, '$') == Some(GetJobParts(id).value.jobCheckpoint)
  {
    hide GetJobParts, Find, Stoi;
    var w := GetJobParts(id).value.workload;
    NameIsText(id);
    ReadsFromName(w, '$', id[|w| + 1..]);
    CheckpointRead(id);
  }

  /** With a pound sign in the name the second resubmission gives the identifier of the first again. */
  lemma PoundRepeats(id: string)
    requires GetJobParts(id).Some? && '#' in GetJobParts(id).value.workload
    ensures Resubmitted(id, 1).Some? && Resubmitted(id, 2) == Resubmitted(id, 1)
  {
    hide GetJobParts, Find, Stoi, ToString, Print, Describe, SeparateId;
    var p := GetJobParts(id).value;
    var w, n, c := p.workload, p.jobNumber, p.jobCheckpoint;
    NextIs(id);
    PartsAreInRange(id);
    NameIsText(id);
    var tail := id[|w| + 1..];
    PoundParts(w, tail);
    AssembledFrom(w, Stoi(Taken(tail, NumberRoom(w))), NameResubmit(w), CheckpointOf(id), p);
    RoomIsPositive(w);
    StoiShortens(Taken(tail, NumberRoom(w)));
    var again := Print(w, n, Some(Next(p.jobResubmit)), Present(c));
    if '$' in w { NameCheckpoint(id); }
    CheckpointStays(w, n, Next(p.jobResubmit), c);
    PrintIs(w, n, Some(Next(p.jobResubmit)), Present(c));
    var rest := Marked("#", Some(Next(p.jobResubmit))) + Marked("$", Present(c));
    assert ToString(n) + Marked("#", Some(Next(p.jobResubmit))) + Marked("$", Present(c)) == ToString(n) + rest;
    TailStartsWithMark(Some(Next(p.jobResubmit)), Present(c));
    StoiTaken(n, rest, NumberRoom(w));
    PoundParts(w, ToString(n) + rest);
    assert GetJobParts(again) == GetJobParts(id);
    NextIs(again);
    assert Resubmitted(id, 1) == Some(again);
  }

  lemma RoomIsPositive(workload: string)
    requires '#' in workload
    ensures NumberRoom(workload) >= 2
  {
    FindNothing(workload, '#');
  }

  lemma AssembledFrom(workload: string, number: Option<int>, resubmit: Option<int>, checkpoint: Option<int>,
                      p: JobParts)
    requires Assemble(workload, number, resubmit, checkpoint) == Some(p)
    ensures number == Some(p.jobNumber) && resubmit == Some(p.jobResubmit) && checkpoint == Some(p.jobCheckpoint)
    ensures p.workload == workload
  {
  }

  /** The name `a#7`: the first two resubmissions give the same identifier. */
  lemma SameIdentifierTwice()
    ensures Resubmitted("a#7!5", 1) == Some("a#7!5#8") == Resubmitted("a#7!5", 2)
  {
    hide GetJobParts, SeparateId;
    MarkInWorkloadMisleads();
    NextIs("a#7!5");
    assert ToString(8) == "8" && ToString(5) == "5";
    assert Print("a#7", 5, Some(8), None) == "a#7!5#8";
    assert Resubmitted("a#7!5", 1) == Some("a#7!5#8");
    PoundRepeats("a#7!5");
  }

  /** Where ten characters are read, or all, a resubmission raises the number read. */
  lemma StepRaises(id: string)
    requires GetJobParts(id).Some?
    requires KeepsApart(GetJobParts(id).value.workload, GetJobParts(id).value.jobNumber)
    ensures SeparateId(id).Some?
    ensures var p, again := GetJobParts(id).value, GetJobParts(SeparateId(id).value.nextResubmitString);
            again.Some? ==>
              && again.value.workload == p.workload && again.value.jobNumber == p.jobNumber
              && again.value.jobResubmit > p.jobResubmit
  {
    hide GetJobParts, SeparateId, Find, Stoi, ToString, Print;
    var p := GetJobParts(id).value;
    NextIs(id);
    if NoMarks(p.workload) {
      ResubmissionRaises(id);
    } else {
      NameIsText(id);
      NameCheckpoint(id);
      PartsAreInRange(id);
      DollarParts(p.workload, p.jobNumber, Next(p.jobResubmit), p.jobCheckpoint);
      TailStartsWithMark(None, Present(p.jobCheckpoint));
      assert Marked("#", None) + Marked("$", Present(p.jobCheckpoint)) == Marked("$", Present(p.jobCheckpoint));
      CutReads(Next(p.jobResubmit), Marked("$", Present(p.jobCheckpoint)), ResubmitRoom(p.workload, p.jobNumber));
    }
  }

  lemma {:induction false} Raises(id: string, i: nat, k: nat)
    requires GetJobParts(id).Some? && i < k
    requires KeepsApart(GetJobParts(id).value.workload, GetJobParts(id).value.jobNumber)
    requires Resubmitted(id, k).Some? && GetJobParts(Resubmitted(id, k).value).Some?
    ensures Resubmitted(id, i).Some? && GetJobParts(Resubmitted(id, i).value).Some?
    ensures var p, q := GetJobParts(Resubmitted(id, i).value).value, GetJobParts(Resubmitted(id, k).value).value;
            p.jobResubmit < q.jobResubmit
    ensures KeptParts(id, k)
    decreases k
  {
    hide GetJobParts, SeparateId, KeepsApart;
    EarlierParses(id, k - 1, k);
    if k > 1 { Raises(id, if i < k - 1 then i else 0, k - 1); }
    StepRaises(Resubmitted(id, k - 1).value);
  }

  /** The workload and the number of the job are still those it was submitted with. */
  ghost predicate KeptParts(id: string, k: nat) {
    && GetJobParts(id).Some? && Resubmitted(id, k).Some? && GetJobParts(Resubmitted(id, k).value).Some?
    && GetJobParts(Resubmitted(id, k).value).value.workload == GetJobParts(id).value.workload
    && GetJobParts(Resubmitted(id, k).value).value.jobNumber == GetJobParts(id).value.jobNumber
  }

  lemma ApartNeverRepeats(id: string)
    requires GetJobParts(id).Some?
    requires KeepsApart(GetJobParts(id).value.workload, GetJobParts(id).value.jobNumber)
    ensures NeverRepeats(id)
  {
    hide GetJobParts, SeparateId, KeepsApart, Resubmitted;
    forall i, k | 0 <= i < k && Resubmitted(id, k).Some? ensures Resubmitted(id, i) != Resubmitted(id, k) {
      EarlierParses(id, i, k);
      if GetJobParts(Resubmitted(id, k).value).Some? { Raises(id, i, k); }
    }
  }

  // ---------------------------------------------------------------- a short resubmit number

  /** Among n + 1 numbers in a range of n two are equal. */
  lemma {:induction false} Crowded(f: nat -> int, lo: int, n: nat)
    requires forall k: nat :: k <= n ==> lo <= f(k) < lo + n
    ensures exists i: nat, k: nat :: i < k <= n && f(i) == f(k)
    decreases n
  {
    var top := f(n);
    if n > 0 && forall k: nat :: k < n ==> f(k) != top {
      var g := (k: nat) => if f(k) == lo + n - 1 then top else f(k);
      assert forall k: nat :: k <= n - 1 ==> lo <= g(k) < lo + (n - 1);
      Crowded(g, lo, n - 1);
      var i: nat, k: nat :| i < k <= n - 1 && g(i) == g(k);
      assert f(i) == f(k);
    } else if n > 0 {
      var k: nat :| k < n && f(k) == top;
      assert f(k) == f(n);
    } else {
      assert false;
    }
  }

  /** With fewer than ten characters read, resubmission never fails. */
  lemma {:induction false} ShortGoesOn(id: string, k: nat)
    requires GetJobParts(id).Some?
    requires var p := GetJobParts(id).value;
             '$' in p.workload && '#' !in p.workload && ResubmitRoom(p.workload, p.jobNumber) < 10
    ensures KeptParts(id, k)
    decreases k
  {
    hide GetJobParts, SeparateId, Find, Stoi, ToString, Print;
    if k > 0 {
      ShortGoesOn(id, k - 1);
      var last := Resubmitted(id, k - 1).value;
      var p := GetJobParts(last).value;
      NextIs(last);
      NameIsText(last);
      NameCheckpoint(last);
      PartsAreInRange(last);
      DollarParts(p.workload, p.jobNumber, Next(p.jobResubmit), p.jobCheckpoint);
      RoomForSome(p.workload, p.jobNumber);
      ShortReads(Next(p.jobResubmit), Marked("$", Present(p.jobCheckpoint)), ResubmitRoom(p.workload, p.jobNumber));
    }
  }

  lemma RoomForSome(workload: string, number: int)
    requires '$' in workload
    ensures ResubmitRoom(workload, number) >= 2
  {
    hide ToString;
    FindNothing(workload, '$');
    NumbersAreWritten(number);
  }

  ghost function ReadAt(id: string, k: nat): int {
    if KeptParts(id, k) then GetJobParts(Resubmitted(id, k).value).value.jobResubmit else 0
  }

  /** The same number read twice gives the same next identifier. */
  lemma SameNext(id: string, i: nat, k: nat)
    requires KeptParts(id, i) && KeptParts(id, k) && ReadAt(id, i) == ReadAt(id, k)
    requires '$' in GetJobParts(id).value.workload
    ensures Resubmitted(id, i + 1) == Resubmitted(id, k + 1) && Resubmitted(id, k + 1).Some?
  {
    hide GetJobParts, SeparateId, Find, Stoi, ToString, Print;
    NameCheckpoint(Resubmitted(id, i).value);
    NameCheckpoint(Resubmitted(id, k).value);
    NextIs(Resubmitted(id, i).value);
    NextIs(Resubmitted(id, k).value);
  }

  lemma ShortRepeats(id: string)
    requires GetJobParts(id).Some?
    requires var p := GetJobParts(id).value;
             '$' in p.workload && '#' !in p.workload && ResubmitRoom(p.workload, p.jobNumber) < 10
    ensures !NeverRepeats(id)
  {
    hide GetJobParts, Resubmitted, KeptParts;
    var f := (k: nat) => ReadAt(id, k);
    forall k: nat ensures KeptParts(id, k) && -INT_LIMIT <= f(k) < INT_LIMIT {
      ShortGoesOn(id, k);
      ReadIsInt(id, k);
    }
    Crowded(f, -INT_LIMIT, 2 * INT_LIMIT);
    var i: nat, k: nat :| i < k && f(i) == f(k);
    SameNext(id, i, k);
  }

  lemma ReadIsInt(id: string, k: nat)
    requires KeptParts(id, k)
    ensures IsInt(ReadAt(id, k))
  {
    hide GetJobParts, Resubmitted;
    PartsAreInRange(Resubmitted(id, k).value);
  }

  /** The identifiers of a killed and resubmitted job are all different if and only if its workload's name has no pound
      sign and, where it has a dollar sign, leaves room for ten characters of the resubmit number. */
  lemma NeverRepeatsIff(id: string)
    requires GetJobParts(id).Some?
    ensures NeverRepeats(id) <==> KeepsApart(GetJobParts(id).value.workload, GetJobParts(id).value.jobNumber)
  {
    hide GetJobParts, Resubmitted, ResubmitRoom;
    var p := GetJobParts(id).value;
    if '#' in p.workload {
      PoundRepeats(id);
      assert 1 < 2 && Resubmitted(id, 2).Some?;
    } else if KeepsApart(p.workload, p.jobNumber) {
      ApartNeverRepeats(id);
    } else {
      ShortRepeats(id);
    }
  }
}
