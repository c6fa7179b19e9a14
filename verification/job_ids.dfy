/** Job identifiers: `workload!number#resubmit$checkpoint`, where all but the number may be missing. */
module JobIds {
  import opened Machines

  // ---------------------------------------------------------------- numbers in text

  const INT_LIMIT := 0x8000_0000

  /** The values of a 32-bit `int`. */
  predicate IsInt(i: int) {
    -INT_LIMIT <= i < INT_LIMIT
  }

  predicate IsDigit(c: char) {
    '0' <= c <= '9'
  }

  function Digit(d: nat): (c: char)
    requires d < 10
    ensures IsDigit(c)
  {
    (d + '0' as int) as char
  }

  function Decimal(n: nat): (s: string)
    ensures |s| > 0 && IsDigit(s[0])
  {
    if n < 10 then [Digit(n)] else Decimal(n / 10) + [Digit(n % 10)]
  }

  /** `std::to_string`. */
  function ToString(i: int): string {
    if i < 0 then "-" + Decimal(-i) else Decimal(i)
  }

  /** The number that the leading digits write, after the digits already read. */
  function ReadDigits(s: string, read: nat): nat {
    if s == "" || !IsDigit(s[0]) then read else ReadDigits(s[1..], read * 10 + (s[0] as int - '0' as int))
  }

  function SkipSpace(s: string): string {
    if s == "" || s[0] !in " \t\n\r" + [11 as char, 12 as char] then s else SkipSpace(s[1..])
  }

  /** `std::stoi`: reads a number at the start of the text and ignores what follows. None when it throws. */
  function Stoi(text: string): Option<int> {
    var s := SkipSpace(text);
    var digits := if s != "" && s[0] in "+-" then s[1..] else s;
    if digits == "" || !IsDigit(digits[0]) then None
    else
      var size: int := ReadDigits(digits, 0);
      var value: int := if s[0] == '-' then -size else size;
      if IsInt(value) then Some(value) else None
  }

  lemma {:induction false} ReadsDecimal(n: nat, rest: string)
    ensures ReadDigits(Decimal(n) + rest, 0) == ReadDigits(rest, n)
  {
    if n < 10 {
      assert (Decimal(n) + rest)[1..] == rest;
    } else {
      var last := [Digit(n % 10)];
      ReadsDecimal(n / 10, last + rest);
      assert Decimal(n) + rest == Decimal(n / 10) + (last + rest);
      assert (last + rest)[1..] == rest;
    }
  }

  lemma NoSpaceToSkip(s: string)
    requires s != "" && (IsDigit(s[0]) || s[0] == '-')
    ensures SkipSpace(s) == s
  {
  }

  lemma StoiUndoesDecimal(n: nat, rest: string)
    requires n < INT_LIMIT && (rest == "" || !IsDigit(rest[0]))
    ensures Stoi(Decimal(n) + rest) == Some(n)
  {
    hide Decimal, SkipSpace;
    var s := Decimal(n) + rest;
    assert s[0] == Decimal(n)[0];
    NoSpaceToSkip(s);
    ReadsDecimal(n, rest);
  }

  lemma StoiUndoesNegative(i: int, rest: string)
    requires -INT_LIMIT <= i < 0 && (rest == "" || !IsDigit(rest[0]))
    ensures Stoi("-" + Decimal(-i) + rest) == Some(i)
  {
    hide Decimal, SkipSpace;
    var s := "-" + Decimal(-i) + rest;
    assert s[1..] == Decimal(-i) + rest;
    assert s[1..][0] == Decimal(-i)[0];
    NoSpaceToSkip(s);
    ReadsDecimal(-i, rest);
  }

  /** Reading undoes printing, whatever follows that is not a digit. */
  lemma StoiUndoesToString(i: int, rest: string)
    requires IsInt(i) && (rest == "" || !IsDigit(rest[0]))
    ensures Stoi(ToString(i) + rest) == Some(i)
  {
    hide Stoi, Decimal;
    if i < 0 { StoiUndoesNegative(i, rest); } else { StoiUndoesDecimal(i, rest); }
  }

  // ---------------------------------------------------------------- what is read of any text

  predicate IsSpace(c: char) {
    c == ' ' || '\t' <= c <= '\r'
  }

  predicate AllDigits(s: string) {
    forall i :: 0 <= i < |s| ==> IsDigit(s[i])
  }

  /** The number that digits write. */
  function Value(digits: string): nat
    requires AllDigits(digits)
  {
    if digits == "" then 0
    else
      var n := |digits| - 1;
      Value(digits[..n]) * 10 + (digits[n] as int - '0' as int)
  }

  /** Nothing more of the number follows. */
  predicate NoDigitFirst(s: string) {
    s == "" || !IsDigit(s[0])
  }

  lemma {:induction false} SkipsSpaces(spaces: string, rest: string)
    requires (forall i :: 0 <= i < |spaces| ==> IsSpace(spaces[i])) && (rest == "" || !IsSpace(rest[0]))
    ensures SkipSpace(spaces + rest) == rest
    decreases |spaces|
  {
    if spaces == "" {
      assert spaces + rest == rest;
    } else {
      assert (spaces + rest)[0] == spaces[0] && (spaces + rest)[1..] == spaces[1..] + rest;
      SkipsSpaces(spaces[1..], rest);
    }
  }

  lemma {:induction false} ReadsAll(digits: string, rest: string)
    requires AllDigits(digits)
    ensures ReadDigits(digits + rest, 0) == ReadDigits(rest, Value(digits))
    decreases |digits|
  {
    if digits == "" {
      assert digits + rest == rest;
    } else {
      var n := |digits| - 1;
      var last := digits[n..];
      ReadsAll(digits[..n], last + rest);
      assert digits + rest == digits[..n] + (last + rest);
      assert (last + rest)[0] == digits[n] && (last + rest)[1..] == rest;
    }
  }

  /** A text of white space, a sign or none, digits and a rest reads as the number the digits write, with
      the sign, if there are digits and that number is an int; otherwise reading throws. */
  lemma StoiIff(spaces: string, sign: string, digits: string, rest: string)
    requires (forall i :: 0 <= i < |spaces| ==> IsSpace(spaces[i])) && sign in ["", "+", "-"] && AllDigits(digits)
    requires NoDigitFirst(rest)
    requires digits == "" && sign == "" ==> rest == "" || (!IsSpace(rest[0]) && rest[0] != '+' && rest[0] != '-')
    ensures var size: int := Value(digits);
            var value := if sign == "-" then -size else size;
            Stoi(spaces + sign + digits + rest) == if digits != "" && IsInt(value) then Some(value) else None
  {
    hide Value, SkipSpace, ReadDigits;
    var s := sign + digits + rest;
    assert spaces + sign + digits + rest == spaces + s;
    assert s != "" ==> s[0] == (if sign != "" then sign[0] else if digits != "" then digits[0] else rest[0]);
    SkipsSpaces(spaces, s);
    assert sign == "" ==> s == digits + rest;
    assert sign != "" ==> s[1..] == digits + rest && s[0] == sign[0];
    assert digits == "" ==> digits + rest == rest;
    ReadsAll(digits, rest);
    ReadsNoMore(rest, Value(digits));
  }

  lemma ReadsNoMore(rest: string, n: nat)
    requires NoDigitFirst(rest)
    ensures ReadDigits(rest, n) == n
  {
  }

  // ---------------------------------------------------------------- parsing identifiers

  const ABSENT := -1

  datatype JobParts = JobParts(jobNumber: int, jobResubmit: int, jobCheckpoint: int, workload: string,
                               nextCheckpoint: string, nextResubmit: string)

  function Find(s: string, c: char): (at: Option<nat>)
    ensures at.Some? ==> at.value < |s|
  {
    if s == "" then None
    else if s[0] == c then Some(0)
    else
      var rest := Find(s[1..], c);
      if rest.None? then None else Some(rest.value + 1)
  }

  /** `substr(from, from - bound)` with an unsigned length: below the bound the length wraps around to a huge one,
      which takes everything up to the end of the text. */
  function Substring(s: string, from: nat, bound: nat): string
    requires from <= |s|
  {
    var length := from - bound;
    if length < 0 || from + length > |s| then s[from..] else s[from..from + length]
  }

  /** A number that follows its mark, if there is one. */
  function Marked(mark: string, number: Option<int>): string {
    if number.None? then "" else mark + ToString(number.value)
  }

  function Print(workload: string, number: int, resubmit: Option<int>, checkpoint: Option<int>): string {
    workload + "!" + ToString(number) + Marked("#", resubmit) + Marked("$", checkpoint)
  }

  function Next(number: int): int {
    if number == ABSENT then 1 else number + 1
  }

  function Present(number: int): Option<int> {
    if number == ABSENT then None else Some(number)
  }

  function OrAbsent(number: Option<int>): int {
    if number.None? then ABSENT else number.value
  }

  predicate FitsInt(number: Option<int>) {
    number.Some? ==> IsInt(number.value)
  }

  /** The second half of `get_job_parts`, which prints the next identifiers. */
  function Describe(workload: string, number: int, resubmit: int, checkpoint: int): Option<JobParts> {
    if !IsInt(checkpoint + 1) || !IsInt(resubmit + 1) then None
    else
      var nextResubmit := if resubmit != ABSENT then "#" + ToString(resubmit + 1) else "#1";
      var nextCheckpoint := if checkpoint != ABSENT then "$" + ToString(checkpoint + 1) else "$1";
      var keptResubmit := if resubmit != ABSENT then "#" + ToString(resubmit) else "";
      var keptCheckpoint := if checkpoint != ABSENT then "$" + ToString(checkpoint) else "";
      Some(JobParts(number, resubmit, checkpoint, workload,
                    workload + "!" + ToString(number) + keptResubmit + nextCheckpoint,
                    workload + "!" + ToString(number) + nextResubmit + keptCheckpoint))
  }

  /** `get_job_parts`. None when `std::stoi` throws or the next number overflows. */
  function GetJobParts(id: string): Option<JobParts> {
    var dollar := Find(id, '$');
    var checkpoint := if dollar.Some? then Stoi(id[dollar.value + 1..]) else Some(ABSENT);
    var startDollar := if dollar.Some? then dollar.value else |id|;
    var pound := Find(id, '#');
    var resubmit := if pound.Some? then Stoi(Substring(id, pound.value + 1, startDollar)) else Some(ABSENT);
    var startPound := if pound.Some? then pound.value else startDollar;
    var exclamation := Find(id, '!');
    var number := if exclamation.Some? then Stoi(Substring(id, exclamation.value + 1, startPound))
                  else Stoi(id[..startPound]);
    var workload := if exclamation.Some? then id[..exclamation.value] else "null";
    if checkpoint.None? || resubmit.None? || number.None? then None
    else Describe(workload, number.value, resubmit.value, checkpoint.value)
  }

  /** The name does not contain a mark of the identifier. */
  predicate NoMarks(s: string) {
    '!' !in s && '#' !in s && '$' !in s
  }

  lemma {:induction false} FindFirst(a: string, c: char, b: string)
    requires c !in a
    ensures Find(a + [c] + b, c) == Some(|a|)
  {
    if a == "" {
      assert (a + [c] + b)[0] == c;
    } else {
      FindFirst(a[1..], c, b);
      assert (a + [c] + b)[1..] == a[1..] + [c] + b;
      assert (a + [c] + b)[0] == a[0];
    }
  }

  lemma {:induction false} FindNothing(s: string, c: char)
    ensures c !in s <==> Find(s, c) == None
  {
    if s != "" {
      FindNothing(s[1..], c);
      assert s == [s[0]] + s[1..];
    }
  }

  lemma {:induction false} NumbersHaveNoMarks(n: nat)
    ensures forall c :: c in Decimal(n) ==> IsDigit(c)
  {
    if n >= 10 {
      NumbersHaveNoMarks(n / 10);
    }
  }

  lemma NoMarksInNumber(i: int)
    ensures NoMarks(ToString(i))
  {
    NumbersHaveNoMarks(if i < 0 then -i else i);
  }

  /** A checkpoint printed after a text without its mark. */
  lemma CheckpointBehind(body: string, checkpoint: Option<int>)
    requires '$' !in body && FitsInt(checkpoint)
    ensures var id := body + Marked("$", checkpoint);
            && Find(id, '$') == (if checkpoint.None? then None else Some(|body|))
            && (if checkpoint.None? then id == body else Stoi(id[|body| + 1..]) == checkpoint)
  {
    hide Find, Stoi, ToString;
    var id := body + Marked("$", checkpoint);
    if checkpoint.None? {
      assert id == body;
      FindNothing(id, '$');
    } else {
      assert id == body + ['$'] + ToString(checkpoint.value);
      FindFirst(body, '$', ToString(checkpoint.value));
      StoiUndoesToString(checkpoint.value, "");
      assert id[|body| + 1..] == ToString(checkpoint.value) + "";
    }
  }

  /** A resubmit number printed after a text without its mark and before a checkpoint. */
  lemma ResubmitBehind(front: string, resubmit: Option<int>, checkpoint: Option<int>)
    requires '#' !in front && FitsInt(resubmit)
    ensures var id := front + Marked("#", resubmit) + Marked("$", checkpoint);
            && Find(id, '#') == (if resubmit.None? then None else Some(|front|))
            && (resubmit.Some? ==> Stoi(id[|front| + 1..]) == resubmit)
  {
    hide Find, Stoi, ToString;
    var tail := Marked("$", checkpoint);
    var id := front + Marked("#", resubmit) + tail;
    NoMarksInNumber(OrAbsent(checkpoint));
    assert '#' !in tail;
    if resubmit.None? {
      assert id == front + tail;
      FindNothing(id, '#');
    } else {
      assert id == front + ['#'] + (ToString(resubmit.value) + tail);
      FindFirst(front, '#', ToString(resubmit.value) + tail);
      StoiUndoesToString(resubmit.value, tail);
      assert id[|front| + 1..] == ToString(resubmit.value) + tail;
    }
  }

  lemma ParsesCheckpoint(workload: string, number: int, resubmit: Option<int>, checkpoint: Option<int>)
    requires '$' !in workload && FitsInt(checkpoint)
    ensures var id := Print(workload, number, resubmit, checkpoint);
            var body := workload + "!" + ToString(number) + Marked("#", resubmit);
            Find(id, '$') == (if checkpoint.None? then None else Some(|body|))
            && id[..|body|] == body
            && (checkpoint.Some? ==> Stoi(id[|body| + 1..]) == checkpoint)
  {
    hide Find, Stoi, ToString;
    var body := workload + "!" + ToString(number) + Marked("#", resubmit);
    NoMarksInNumber(number);
    NoMarksInNumber(OrAbsent(resubmit));
    assert '$' !in body;
    CheckpointBehind(body, checkpoint);
  }

  lemma ParsesResubmit(workload: string, number: int, resubmit: Option<int>, checkpoint: Option<int>)
    requires '#' !in workload && FitsInt(resubmit)
    ensures var id := Print(workload, number, resubmit, checkpoint);
            var body := workload + "!" + ToString(number);
            Find(id, '#') == (if resubmit.None? then None else Some(|body|))
            && (resubmit.Some? ==> Stoi(id[|body| + 1..]) == resubmit)
  {
    hide Find, Stoi, ToString;
    NoMarksInNumber(number);
    ResubmitBehind(workload + "!" + ToString(number), resubmit, checkpoint);
  }

  /** What follows the number of a job starts with a mark. */
  lemma TailStartsWithMark(resubmit: Option<int>, checkpoint: Option<int>)
    ensures var tail := Marked("#", resubmit) + Marked("$", checkpoint);
            tail == "" || !IsDigit(tail[0])
  {
  }

  lemma ParsesNumber(workload: string, number: int, resubmit: Option<int>, checkpoint: Option<int>)
    requires '!' !in workload && IsInt(number)
    ensures var id := Print(workload, number, resubmit, checkpoint);
            Find(id, '!') == Some(|workload|) && id[..|workload|] == workload
            && Stoi(id[|workload| + 1..]) == Some(number)
  {
    hide Find, Stoi, ToString, Marked;
    var id := Print(workload, number, resubmit, checkpoint);
    var tail := Marked("#", resubmit) + Marked("$", checkpoint);
    TailStartsWithMark(resubmit, checkpoint);
    assert id == workload + ['!'] + (ToString(number) + tail);
    FindFirst(workload, '!', ToString(number) + tail);
    StoiUndoesToString(number, tail);
    assert id[|workload| + 1..] == ToString(number) + tail;
  }

  lemma NumbersAreWritten(i: int)
    ensures |ToString(i)| > 0
  {
  }

  /** The parts in which parsing takes the text of an identifier. */
  lemma PartsOfPrinted(workload: string, number: int, resubmit: Option<int>, checkpoint: Option<int>)
    ensures var id := Print(workload, number, resubmit, checkpoint);
            var beforePound := |workload + "!" + ToString(number)|;
            var beforeDollar := |workload + "!" + ToString(number) + Marked("#", resubmit)|;
            && |workload| + 1 < beforePound <= beforeDollar <= |id|
            && (resubmit.Some? ==> beforePound + 1 < beforeDollar)
            && (resubmit.None? ==> beforePound == beforeDollar)
            && (checkpoint.None? ==> beforeDollar == |id|)
  {
    hide ToString;
    NumbersAreWritten(number);
    NumbersAreWritten(OrAbsent(resubmit));
  }

  /** Parsing a printed identifier gives back what was printed. */
  lemma ParseUndoesPrint(workload: string, number: int, resubmit: Option<int>, checkpoint: Option<int>)
    requires NoMarks(workload) && IsInt(number) && FitsInt(resubmit) && FitsInt(checkpoint)
    ensures GetJobParts(Print(workload, number, resubmit, checkpoint)) ==
            Describe(workload, number, OrAbsent(resubmit), OrAbsent(checkpoint))
  {
    hide Find, Stoi, ToString, Marked, Print, Describe;
    PartsOfPrinted(workload, number, resubmit, checkpoint);
    ParsesCheckpoint(workload, number, resubmit, checkpoint);
    ParsesResubmit(workload, number, resubmit, checkpoint);
    ParsesNumber(workload, number, resubmit, checkpoint);
  }

  /** An identifier without a workload parses too; its workload is then called `null`. */
  lemma ParseWithoutName(number: int, resubmit: Option<int>, checkpoint: Option<int>)
    requires IsInt(number) && FitsInt(resubmit) && FitsInt(checkpoint)
    ensures GetJobParts(ToString(number) + Marked("#", resubmit) + Marked("$", checkpoint))
            == Describe("null", number, OrAbsent(resubmit), OrAbsent(checkpoint))
  {
    hide Find, Stoi, ToString, Describe, Substring, Marked;
    var front, mark, tail := ToString(number), Marked("#", resubmit), Marked("$", checkpoint);
    var id := front + mark + tail;
    NoExclamation(number, resubmit, checkpoint);
    FindNothing(id, '!');
    CheckpointBehind(front + mark, checkpoint);
    ResubmitBehind(front, resubmit, checkpoint);
    StoiUndoesToString(number, "");
    assert front + "" == front && id[..|front|] == front;
    NamelessLengths(number, resubmit, checkpoint);
    if resubmit.Some? { SuffixTaken(id, |front| + 1, if checkpoint.Some? then |front + mark| else |id|); }
  }

  lemma NoExclamation(number: int, resubmit: Option<int>, checkpoint: Option<int>)
    ensures var id := ToString(number) + Marked("#", resubmit) + Marked("$", checkpoint);
            '!' !in id && '#' !in ToString(number) && '$' !in ToString(number) + Marked("#", resubmit)
  {
    hide ToString;
    NoMarksInNumber(number);
    NoMarksInNumber(OrAbsent(resubmit));
    NoMarksInNumber(OrAbsent(checkpoint));
  }

  lemma NamelessLengths(number: int, resubmit: Option<int>, checkpoint: Option<int>)
    ensures var front, mark, tail := ToString(number), Marked("#", resubmit), Marked("$", checkpoint);
            && (resubmit.Some? ==> |front| + 1 < |front + mark|)
            && (resubmit.None? ==> mark == "" && |front + mark| == |front|)
            && (checkpoint.None? ==> tail == "")
  {
    hide ToString;
    NumbersAreWritten(OrAbsent(resubmit));
  }

  lemma SuffixTaken(s: string, from: nat, bound: nat)
    requires from < bound && from <= |s|
    ensures Substring(s, from, bound) == s[from..]
  {
  }

  /** The next identifiers change one number only: from absent to 1, or to the next number. */
  lemma NextIdentifiers(workload: string, number: int, resubmit: int, checkpoint: int)
    requires IsInt(resubmit + 1) && IsInt(checkpoint + 1)
    ensures Describe(workload, number, resubmit, checkpoint) ==
            Some(JobParts(number, resubmit, checkpoint, workload,
                          Print(workload, number, Present(resubmit), Some(Next(checkpoint))),
                          Print(workload, number, Some(Next(resubmit)), Present(checkpoint))))
  {
    assert ToString(1) == "1";
    assert "#" + ToString(1) == "#1" && "$" + ToString(1) == "$1";
  }

  /** Whatever identifier was parsed, the numbers fit an int and the workload has no exclamation mark. */
  lemma PartsAreInRange(id: string)
    requires GetJobParts(id).Some?
    ensures var p := GetJobParts(id).value;
            && GetJobParts(id) == Describe(p.workload, p.jobNumber, p.jobResubmit, p.jobCheckpoint)
            && IsInt(p.jobNumber) && IsInt(p.jobResubmit) && IsInt(p.jobCheckpoint)
            && IsInt(p.jobResubmit + 1) && IsInt(p.jobCheckpoint + 1)
            && '!' !in p.workload
  {
    hide SkipSpace, ReadDigits, ToString;
    var at := Find(id, '!');
    if at.Some? {
      BeforeFirst(id, '!');
    }
  }

  lemma {:induction false} BeforeFirst(s: string, c: char)
    requires Find(s, c).Some?
    ensures c !in s[..Find(s, c).value]
  {
    if s[0] != c {
      BeforeFirst(s[1..], c);
      assert s[..Find(s, c).value] == [s[0]] + s[1..][..Find(s[1..], c).value];
    }
  }

  // ---------------------------------------------------------------- resubmission

  datatype IdSeparation = IdSeparation(basename: string, resubmitString: string, resubmitNumber: int,
                                       nextResubmitNumber: int, nextProfileName: string, nextJobName: string,
                                       nextResubmitString: string, workload: string, nbCheckpoint: string)

  /** `separate_id`. */
  function SeparateId(id: string): Option<IdSeparation> {
    var parsed := GetJobParts(id);
    if parsed.None? then None
    else
      var parts := parsed.value;
      var basename := ToString(parts.jobNumber);
      var resubmit := if parts.jobResubmit != ABSENT then parts.jobResubmit else 0;
      var nbCheckpoint := if parts.jobCheckpoint != ABSENT then "$" + ToString(parts.jobCheckpoint) else "";
      var name := basename + "#" + ToString(resubmit + 1) + nbCheckpoint;
      Some(IdSeparation(basename, ToString(resubmit), resubmit, resubmit + 1, name, name,
                        parts.workload + "!" + basename + "#" + ToString(resubmit + 1) + nbCheckpoint,
                        parts.workload, nbCheckpoint))
  }

  /** The identifier a resubmitted job gets, and the name of its profile without the workload. */
  lemma SeparateIdAgrees(id: string)
    ensures SeparateId(id).Some? <==> GetJobParts(id).Some?
    ensures SeparateId(id).Some? ==>
            && SeparateId(id).value.nextResubmitString == GetJobParts(id).value.nextResubmit
            && SeparateId(id).value.nextResubmitString ==
               SeparateId(id).value.workload + "!" + SeparateId(id).value.nextJobName
            && SeparateId(id).value.nextProfileName == SeparateId(id).value.nextJobName
  {
    hide Find, Stoi, ToString, GetJobParts, Describe, Print;
    if GetJobParts(id).Some? {
      var parts := GetJobParts(id).value;
      PartsAreInRange(id);
      NextIdentifiers(parts.workload, parts.jobNumber, parts.jobResubmit, parts.jobCheckpoint);
      SeparateIdPrints(id);
    }
  }

  lemma SeparateIdPrints(id: string)
    requires GetJobParts(id).Some?
    ensures var parts, s := GetJobParts(id).value, SeparateId(id).value;
            && s.nextResubmitString ==
               Print(parts.workload, parts.jobNumber, Some(Next(parts.jobResubmit)), Present(parts.jobCheckpoint))
            && s.nextResubmitString == s.workload + "!" + s.nextJobName
  {
    hide Find, Stoi, ToString, GetJobParts;
    var parts, s := GetJobParts(id).value, SeparateId(id).value;
    var front, number, kept := parts.workload + "!", ToString(s.nextResubmitNumber), s.nbCheckpoint;
    assert s.nextResubmitString == front + s.basename + "#" + number + kept;
    assert front + s.basename + "#" + number == front + s.basename + ("#" + number);
    assert front + s.basename + ("#" + number) + kept == front + (s.basename + "#" + number + kept);
  }

  /** The parts of an identifier: the workload, the job number as text, the resubmit number, 0 if it is absent, with the
      next one, and the text of the checkpoint. */
  lemma SeparatedParts(id: string)
    requires GetJobParts(id).Some?
    ensures var p, s := GetJobParts(id).value, SeparateId(id).value;
            && s.workload == p.workload && Stoi(s.basename) == Some(p.jobNumber)
            && s.resubmitNumber == (if p.jobResubmit == ABSENT then 0 else p.jobResubmit)
            && s.nextResubmitNumber == s.resubmitNumber + 1 && Stoi(s.resubmitString) == Some(s.resubmitNumber)
            && s.nbCheckpoint == Marked("$", Present(p.jobCheckpoint))
  {
    hide Find, Stoi, ToString, GetJobParts;
    var p, s := GetJobParts(id).value, SeparateId(id).value;
    PartsAreInRange(id);
    StoiUndoesToString(p.jobNumber, "");
    StoiUndoesToString(s.resubmitNumber, "");
    assert s.basename + "" == s.basename && s.resubmitString + "" == s.resubmitString;
  }

  /** The identifier after the job was killed and resubmitted a number of times. */
  function Resubmitted(id: string, times: nat): Option<string> {
    if times == 0 then Some(id)
    else
      var last := Resubmitted(id, times - 1);
      if last.None? || SeparateId(last.value).None? then None
      else Some(SeparateId(last.value).value.nextResubmitString)
  }

  /** One resubmission raises the resubmit number, from absent to 1, and keeps everything else; the new identifier
      can be parsed again unless its own next number overflows. */
  lemma ResubmissionRaises(id: string)
    requires GetJobParts(id).Some? && NoMarks(GetJobParts(id).value.workload)
    ensures SeparateId(id).Some?
    ensures var parts := GetJobParts(id).value;
            var again := GetJobParts(SeparateId(id).value.nextResubmitString);
            && (again.Some? <==> IsInt(Next(parts.jobResubmit) + 1))
            && (again.Some? ==>
                && again.value.workload == parts.workload
                && again.value.jobNumber == parts.jobNumber
                && again.value.jobResubmit == Next(parts.jobResubmit)
                && again.value.jobCheckpoint == parts.jobCheckpoint)
  {
    hide Find, Stoi, ToString, GetJobParts, SeparateId, Print;
    var parts := GetJobParts(id).value;
    PartsAreInRange(id);
    SeparateIdAgrees(id);
    SeparateIdPrints(id);
    ParseUndoesPrint(parts.workload, parts.jobNumber, Some(Next(parts.jobResubmit)), Present(parts.jobCheckpoint));
  }

  /** The resubmit number after a number of resubmissions. */
  function Raised(number: int, times: nat): (r: int)
    ensures r >= number + times
  {
    if times == 0 then number else Next(Raised(number, times - 1))
  }

  /** Any number of resubmissions keep the workload, the job number and the checkpoint. */
  lemma {:induction false} ResubmissionsKeepTheJob(id: string, times: nat)
    requires GetJobParts(id).Some? && NoMarks(GetJobParts(id).value.workload)
    requires Resubmitted(id, times).Some? && GetJobParts(Resubmitted(id, times).value).Some?
    ensures var parts, now := GetJobParts(id).value, GetJobParts(Resubmitted(id, times).value).value;
            && now.workload == parts.workload
            && now.jobNumber == parts.jobNumber
            && now.jobCheckpoint == parts.jobCheckpoint
            && now.jobResubmit == Raised(parts.jobResubmit, times)
  {
    hide Find, Stoi, ToString, GetJobParts, SeparateId;
    if times > 0 {
      var last := Resubmitted(id, times - 1).value;
      SeparateIdAgrees(last);
      ResubmissionsKeepTheJob(id, times - 1);
      ResubmissionRaises(last);
    }
  }

  /** No identifier is used twice for a job, however often it is killed and resubmitted. */
  lemma ResubmissionNeverRepeats(id: string, i: nat, k: nat)
    requires GetJobParts(id).Some? && NoMarks(GetJobParts(id).value.workload)
    requires i < k && Resubmitted(id, k).Some?
    ensures Resubmitted(id, i).Some? && Resubmitted(id, i) != Resubmitted(id, k)
  {
    hide Find, Stoi, ToString, GetJobParts, SeparateId;
    EarlierParses(id, i, k);
    ResubmissionsKeepTheJob(id, i);
    if GetJobParts(Resubmitted(id, k).value).Some? {
      ResubmissionsKeepTheJob(id, k);
      RaisedGrows(GetJobParts(id).value.jobResubmit, i, k);
    }
  }

  lemma {:induction false} EarlierParses(id: string, i: nat, k: nat)
    requires i < k && Resubmitted(id, k).Some?
    ensures Resubmitted(id, i).Some? && GetJobParts(Resubmitted(id, i).value).Some?
    decreases k
  {
    hide Find, Stoi, ToString, GetJobParts, SeparateId;
    var last := Resubmitted(id, k - 1).value;
    SeparateIdAgrees(last);
    if i < k - 1 {
      EarlierParses(id, i, k - 1);
    }
  }

  lemma {:induction false} RaisedGrows(number: int, i: nat, k: nat)
    requires i < k
    ensures Raised(number, i) < Raised(number, k)
    decreases k
  {
    if i < k - 1 {
      RaisedGrows(number, i, k - 1);
    }
  }

  /** Two jobs whose identifiers differ in workload, number or checkpoint never come to share one. */
  lemma ResubmittedJobsStayApart(a: string, b: string, i: nat, k: nat)
    requires GetJobParts(a).Some? && NoMarks(GetJobParts(a).value.workload)
    requires GetJobParts(b).Some? && NoMarks(GetJobParts(b).value.workload)
    requires var p, q := GetJobParts(a).value, GetJobParts(b).value;
             p.workload != q.workload || p.jobNumber != q.jobNumber || p.jobCheckpoint != q.jobCheckpoint
    requires Resubmitted(a, i).Some? && GetJobParts(Resubmitted(a, i).value).Some?
    requires Resubmitted(b, k).Some? && GetJobParts(Resubmitted(b, k).value).Some?
    ensures Resubmitted(a, i) != Resubmitted(b, k)
  {
    hide Find, Stoi, ToString, GetJobParts, SeparateId;
    ResubmissionsKeepTheJob(a, i);
    ResubmissionsKeepTheJob(b, k);
  }

  // ---------------------------------------------------------------- which names are safe

  lemma {:induction false} DigitsStop(t: string, y: string, read: nat)
    requires '!' in t
    ensures ReadDigits(t + y, read) == ReadDigits(t, read)
  {
    if IsDigit(t[0]) {
      assert (t + y)[1..] == t[1..] + y;
      assert '!' in t[1..] by { assert t == [t[0]] + t[1..]; }
      DigitsStop(t[1..], y, read * 10 + (t[0] as int - '0' as int));
    }
  }

  lemma {:induction false} SpaceStops(t: string, y: string)
    requires '!' in t
    ensures SkipSpace(t + y) == SkipSpace(t) + y && '!' in SkipSpace(t)
  {
    if SkipSpace(t) != t {
      assert (t + y)[1..] == t[1..] + y;
      assert '!' in t[1..] by { assert t == [t[0]] + t[1..]; }
      SpaceStops(t[1..], y);
    } else if t[0] in " \t\n\r" + [11 as char, 12 as char] {
      SpaceShrinks(t[1..]);
    }
  }

  lemma {:induction false} SpaceShrinks(t: string)
    ensures |SkipSpace(t)| <= |t|
  {
    if t != "" { SpaceShrinks(t[1..]); }
  }

  /** What follows an exclamation mark does not change the number read before it. */
  lemma StoiStops(t: string, y: string)
    requires '!' in t
    ensures Stoi(t + y) == Stoi(t)
  {
    hide SkipSpace, ReadDigits;
    SpaceStops(t, y);
    var s := SkipSpace(t);
    assert s != "";
    if s[0] in "+-" {
      assert (s + y)[1..] == s[1..] + y;
      assert '!' in s[1..] by { assert s == [s[0]] + s[1..]; }
      DigitsStop(s[1..], y, 0);
    } else {
      DigitsStop(s, y, 0);
    }
  }

  lemma {:induction false} FindInPrefix(s: string, y: string, c: char)
    requires c in s
    ensures Find(s + y, c) == Find(s, c) && Find(s, c).Some?
  {
    assert s == [s[0]] + s[1..];
    if s[0] != c {
      assert (s + y)[1..] == s[1..] + y;
      FindInPrefix(s[1..], y, c);
    }
  }

  /** Every identifier of the workload parses back to what was printed. */
  ghost predicate RoundTrips(workload: string) {
    forall number, resubmit, checkpoint :: IsInt(number) && FitsInt(resubmit) && FitsInt(checkpoint) ==>
      GetJobParts(Print(workload, number, resubmit, checkpoint))
      == Describe(workload, number, OrAbsent(resubmit), OrAbsent(checkpoint))
  }

  /** What is read after a mark within the name. */
  function ReadAfter(workload: string, mark: char): Option<int> {
    var at := Find(workload, mark);
    if at.None? then None else Stoi(workload[at.value + 1..] + "!")
  }

  /** The number after a mark within the name is read from the name alone. */
  lemma ReadsFromName(workload: string, mark: char, tail: string)
    requires mark in workload
    ensures var id := workload + "!" + tail;
            && Find(id, mark) == Find(workload, mark) && Find(id, mark).Some?
            && Stoi(id[Find(id, mark).value + 1..]) == ReadAfter(workload, mark)
  {
    hide Stoi, Find;
    var id := workload + "!" + tail;
    assert id == workload + ("!" + tail);
    FindInPrefix(workload, "!" + tail, mark);
    var at := Find(workload, mark).value;
    var t := workload[at + 1..] + "!";
    assert id[at + 1..] == t + tail;
    assert t[|workload| - at - 1] == '!';
    StoiStops(t, tail);
  }

  lemma PrintIs(workload: string, number: int, resubmit: Option<int>, checkpoint: Option<int>)
    ensures Print(workload, number, resubmit, checkpoint)
            == workload + "!" + (ToString(number) + Marked("#", resubmit) + Marked("$", checkpoint))
  {
    hide ToString, Marked;
  }

  /** A name with a dollar sign hides the checkpoint of every identifier. */
  lemma DollarHides(workload: string, checkpoint: Option<int>)
    requires '$' in workload
    ensures var parsed := GetJobParts(Print(workload, 0, None, checkpoint));
            parsed.Some? ==> Some(parsed.value.jobCheckpoint) == ReadAfter(workload, '$')
  {
    hide Stoi, Find, ToString, Print, Substring;
    PrintIs(workload, 0, None, checkpoint);
    ReadsFromName(workload, '$', ToString(0) + Marked("#", None) + Marked("$", checkpoint));
  }

  /** A name with a pound sign hides the resubmit number of every identifier without a checkpoint. */
  lemma PoundHides(workload: string, resubmit: Option<int>)
    requires '#' in workload && '$' !in workload
    ensures var parsed := GetJobParts(Print(workload, 0, resubmit, None));
            parsed.Some? ==> Some(parsed.value.jobResubmit) == ReadAfter(workload, '#')
  {
    hide Stoi, Find, ToString, Print;
    var id := Print(workload, 0, resubmit, None);
    PrintIs(workload, 0, resubmit, None);
    ReadsFromName(workload, '#', ToString(0) + Marked("#", resubmit) + Marked("$", None));
    NoMarksInNumber(0);
    NoMarksInNumber(OrAbsent(resubmit));
    FindNothing(id, '$');
    assert Substring(id, Find(workload, '#').value + 1, |id|) == id[Find(workload, '#').value + 1..];
  }

  /** A name with an exclamation mark is cut short. */
  lemma ExclamationCuts(workload: string)
    requires '!' in workload
    ensures var parsed := GetJobParts(Print(workload, 0, None, None));
            parsed.Some? ==> |parsed.value.workload| < |workload|
  {
    hide Stoi, Find, ToString, Print, Substring;
    PrintIs(workload, 0, None, None);
    ReadsFromName(workload, '!', ToString(0) + Marked("#", None) + Marked("$", None));
  }

  lemma RoundTripsFor(workload: string, resubmit: Option<int>, checkpoint: Option<int>)
    requires RoundTrips(workload) && FitsInt(resubmit) && FitsInt(checkpoint)
    requires IsInt(OrAbsent(resubmit) + 1) && IsInt(OrAbsent(checkpoint) + 1)
    ensures var parsed := GetJobParts(Print(workload, 0, resubmit, checkpoint));
            && parsed.Some? && parsed.value.workload == workload
            && parsed.value.jobResubmit == OrAbsent(resubmit) && parsed.value.jobCheckpoint == OrAbsent(checkpoint)
  {
    hide GetJobParts, Print;
    assert GetJobParts(Print(workload, 0, resubmit, checkpoint))
           == Describe(workload, 0, OrAbsent(resubmit), OrAbsent(checkpoint));
  }

  lemma MarksMislead(workload: string)
    requires !NoMarks(workload)
    ensures !RoundTrips(workload)
  {
    hide RoundTrips, GetJobParts, Print, Stoi, Find;
    if '!' in workload {
      ExclamationCuts(workload);
      if RoundTrips(workload) { RoundTripsFor(workload, None, None); }
    } else if '$' in workload {
      DollarHides(workload, None);
      DollarHides(workload, Some(5));
      if RoundTrips(workload) { RoundTripsFor(workload, None, Some(5)); RoundTripsFor(workload, None, None); }
    } else {
      PoundHides(workload, None);
      PoundHides(workload, Some(5));
      if RoundTrips(workload) { RoundTripsFor(workload, Some(5), None); RoundTripsFor(workload, None, None); }
    }
  }

  /** The identifiers of a workload parse back if and only if its name contains none of the marks. */
  lemma NameRoundTripsIff(workload: string)
    ensures RoundTrips(workload) <==> NoMarks(workload)
  {
    hide RoundTrips;
    if NoMarks(workload) {
      SafeName(workload);
    } else {
      MarksMislead(workload);
    }
  }

  lemma SafeName(workload: string)
    requires NoMarks(workload)
    ensures RoundTrips(workload)
  {
    hide GetJobParts, Describe, Print;
    forall number, resubmit, checkpoint | IsInt(number) && FitsInt(resubmit) && FitsInt(checkpoint)
      ensures GetJobParts(Print(workload, number, resubmit, checkpoint))
              == Describe(workload, number, OrAbsent(resubmit), OrAbsent(checkpoint))
    {
      ParseUndoesPrint(workload, number, resubmit, checkpoint);
    }
  }

  /** An unsafe name: the resubmit number is read from the name. */
  lemma MarkInWorkloadMisleads()
    ensures GetJobParts(Print("a#7", 5, None, None)).Some?
    ensures GetJobParts(Print("a#7", 5, None, None)).value.jobResubmit == 7
    ensures Print("a#7", 5, None, None) == "a#7!5" && GetJobParts("a#7!5") == Describe("a#7", 5, 7, ABSENT)
  {
    hide Find, Stoi;
    var id := Print("a#7", 5, None, None);
    assert ToString(5) == "5";
    assert id == "a#7!5";
    FindFirst("a", '#', "7!5");
    FindFirst("a#7", '!', "5");
    assert id == "a" + ['#'] + "7!5" == "a#7" + ['!'] + "5";
    FindNothing(id, '$');
    StoiUndoesToString(7, "!5");
    StoiUndoesToString(5, "");
    assert ToString(7) == "7";
    assert Substring(id, 2, 5) == "7!5" == ToString(7) + "!5";
    assert Substring(id, 4, 1) == "5" == ToString(5) + "";
    assert id[..3] == "a#7";
  }
}
