/** The workflow submitter: runs the tasks of a graph under a limit on concurrent jobs, whatever the order in which
    they complete. */
module Workflows {
  import opened Graphs

  // ---------------------------------------------------------------- the submitter's state and steps

  datatype Event = Submitted(task: nat) | Completed(task: nat)

  /** Jobs in flight are kept by job number. */
  datatype State = State(ready: seq<nat>, submitted: map<nat, nat>, counter: nat, currentNb: int,
                         nbParentCompleted: seq<nat>, depth: seq<nat>, log: seq<Event>)

  /** Positions of the tasks without parents, from position i on. */
  function SourcesFrom(g: Graph, i: nat): seq<nat>
    requires i <= |g|
    decreases |g| - i
  {
    if i == |g| then [] else (if g[i].parents == [] then [i] else []) + SourcesFrom(g, i + 1)
  }

  function Initial(g: Graph): State {
    State(SourcesFrom(g, 0), map[], 0, 0, seq(|g|, _ => 0), seq(|g|, _ => 0), [])
  }

  /** Submit the first ready task. */
  function Submit(st: State): State
    requires st.ready != []
  {
    st.(ready := st.ready[1..], submitted := st.submitted[st.counter := st.ready[0]], counter := st.counter + 1,
        currentNb := st.currentNb + 1, log := st.log + [Submitted(st.ready[0])])
  }

  /** `inc_child` for every child. */
  function IncAll(nb: seq<nat>, kids: seq<nat>): (r: seq<nat>)
    requires Below(kids, |nb|)
    ensures |r| == |nb|
    decreases |kids|
  {
    if kids == [] then nb else IncAll(nb[kids[0] := nb[kids[0]] + 1], kids[1..])
  }

  /** `bottom_level_f` for every child of a task at depth d. */
  function DeepenAll(depth: seq<nat>, kids: seq<nat>, d: nat): (r: seq<nat>)
    requires Below(kids, |depth|)
    ensures |r| == |depth|
    decreases |kids|
  {
    if kids == [] then depth else DeepenAll(depth[kids[0] := Max(depth[kids[0]], d + 1)], kids[1..], d)
  }

  /** The children whose parents have all completed. */
  function ReadyKids(g: Graph, nb: seq<nat>, kids: seq<nat>): seq<nat>
    requires |nb| == |g| && Below(kids, |g|)
    decreases |kids|
  {
    if kids == [] then []
    else (if nb[kids[0]] == |g[kids[0]].parents| then [kids[0]] else []) + ReadyKids(g, nb, kids[1..])
  }

  ghost predicate Shaped(g: Graph, st: State) {
    && |st.nbParentCompleted| == |g| && |st.depth| == |g|
    && (forall t :: t in st.ready ==> t < |g|)
    && (forall k :: k in st.submitted ==> st.submitted[k] < |g| && k < st.counter)
  }

  /** The job with this number completes. */
  function Complete(g: Graph, st: State, key: nat): State
    requires KidsBelow(g) && Shaped(g, st) && key in st.submitted
  {
    var task := st.submitted[key];
    var kids := g[task].children;
    var nb := IncAll(st.nbParentCompleted, kids);
    st.(ready := st.ready + ReadyKids(g, nb, kids), submitted := st.submitted - {key}, currentNb := st.currentNb - 1,
        nbParentCompleted := nb, depth := DeepenAll(st.depth, kids, st.depth[task]), log := st.log + [Completed(task)])
  }

  // ---------------------------------------------------------------- the loops over the children

  lemma {:induction false} IncAllAt(nb: seq<nat>, kids: seq<nat>, c: nat)
    requires Below(kids, |nb|) && NoRepeats(kids) && c < |nb|
    ensures IncAll(nb, kids)[c] == nb[c] + (if c in kids then 1 else 0)
    decreases |kids|
  {
    if kids != [] {
      IncAllAt(nb[kids[0] := nb[kids[0]] + 1], kids[1..], c);
    }
  }

  lemma {:induction false} DeepenAllAt(depth: seq<nat>, kids: seq<nat>, d: nat, c: nat)
    requires Below(kids, |depth|) && NoRepeats(kids) && c < |depth|
    ensures DeepenAll(depth, kids, d)[c] == if c in kids then Max(depth[c], d + 1) else depth[c]
    decreases |kids|
  {
    if kids != [] {
      DeepenAllAt(depth[kids[0] := Max(depth[kids[0]], d + 1)], kids[1..], d, c);
    }
  }

  lemma {:induction false} ReadyKidsAre(g: Graph, nb: seq<nat>, kids: seq<nat>)
    requires |nb| == |g| && Below(kids, |g|) && NoRepeats(kids)
    ensures forall c :: c in ReadyKids(g, nb, kids) <==> c in kids && nb[c] == |g[c].parents|
    ensures NoRepeats(ReadyKids(g, nb, kids))
    decreases |kids|
  {
    if kids != [] {
      ReadyKidsAre(g, nb, kids[1..]);
      assert kids == [kids[0]] + kids[1..];
    }
  }

  lemma {:induction false} SourcesAre(g: Graph, i: nat)
    requires i <= |g|
    ensures forall c :: c in SourcesFrom(g, i) <==> i <= c < |g| && g[c].parents == []
    ensures NoRepeats(SourcesFrom(g, i))
    ensures forall x, y :: 0 <= x < y < |SourcesFrom(g, i)| ==> SourcesFrom(g, i)[x] < SourcesFrom(g, i)[y]
    decreases |g| - i
  {
    if i < |g| {
      SourcesAre(g, i + 1);
      var rest := SourcesFrom(g, i + 1);
      assert forall x :: 0 <= x < |rest| ==> rest[x] in rest;
    }
  }

  // ---------------------------------------------------------------- counting completed parents

  ghost function CompletedIn(log: seq<Event>): set<nat> {
    set e | e in log && e.Completed? :: e.task
  }

  ghost function SubmittedIn(log: seq<Event>): set<nat> {
    set e | e in log && e.Submitted? :: e.task
  }

  lemma LogAppend(log: seq<Event>, e: Event)
    ensures CompletedIn(log + [e]) == CompletedIn(log) + (if e.Completed? then {e.task} else {})
    ensures SubmittedIn(log + [e]) == SubmittedIn(log) + (if e.Submitted? then {e.task} else {})
  {
    var r := log + [e];
    assert forall x :: x in r <==> x in log || x == e;
  }

  function Count(ps: seq<nat>, done: set<nat>): nat {
    if ps == [] then 0 else (if ps[0] in done then 1 else 0) + Count(ps[1..], done)
  }

  lemma {:induction false} CountAdd(ps: seq<nat>, done: set<nat>, x: nat)
    requires NoRepeats(ps) && x !in done
    ensures Count(ps, done + {x}) == Count(ps, done) + (if x in ps then 1 else 0)
    decreases |ps|
  {
    if ps != [] { CountAdd(ps[1..], done, x); }
  }

  lemma {:induction false} CountFull(ps: seq<nat>, done: set<nat>)
    ensures Count(ps, done) <= |ps|
    ensures Count(ps, done) == |ps| <==> forall p :: p in ps ==> p in done
    decreases |ps|
  {
    if ps != [] {
      CountFull(ps[1..], done);
      assert ps == [ps[0]] + ps[1..];
    }
  }

  // ---------------------------------------------------------------- depth

  /** Length of the longest path that ends at the task, if no cycle leads to it. */
  ghost function Level(g: Graph, t: nat): nat
    requires ParentsBelow(g) && t < |g|
  {
    Walk(g, t, |g|)
  }

  /** One more than the deepest of the given tasks that are in the set. */
  ghost function LevelOver(g: Graph, ps: seq<nat>, done: set<nat>): nat
    requires ParentsBelow(g) && Below(ps, |g|)
    decreases |ps|
  {
    if ps == [] then 0
    else Max(if ps[0] in done then Level(g, ps[0]) + 1 else 0, LevelOver(g, ps[1..], done))
  }

  lemma {:induction false} LevelOverAdd(g: Graph, ps: seq<nat>, done: set<nat>, x: nat)
    requires ParentsBelow(g) && Below(ps, |g|) && x < |g|
    ensures LevelOver(g, ps, done + {x})
            == if x in ps then Max(LevelOver(g, ps, done), Level(g, x) + 1) else LevelOver(g, ps, done)
    decreases |ps|
  {
    hide Level;
    if ps != [] {
      LevelOverAdd(g, ps[1..], done, x);
      assert ps == [ps[0]] + ps[1..];
    }
  }

  lemma {:induction false} LevelOverAll(g: Graph, ps: seq<nat>, done: set<nat>)
    requires ParentsBelow(g) && Below(ps, |g|) && forall p :: p in ps ==> p in done
    ensures LevelOver(g, ps, done) == LongestStep(g, ps, |g|)
    decreases |ps|
  {
    hide Walk;
    if ps != [] { LevelOverAll(g, ps[1..], done); }
  }

  // ---------------------------------------------------------------- the invariant

  /** The ready tasks are different tasks, none of which was submitted. */
  ghost predicate Waiting(st: State) {
    && NoRepeats(st.ready)
    && (forall t :: t in st.ready ==> t !in SubmittedIn(st.log))
  }

  ghost predicate Injective(m: map<nat, nat>) {
    forall k, l :: k in m && l in m && k != l ==> m[k] != m[l]
  }

  /** The jobs in flight are different tasks: those submitted and not completed. */
  ghost predicate Flying(st: State) {
    && CompletedIn(st.log) <= SubmittedIn(st.log)
    && Injective(st.submitted)
    && st.submitted.Values == SubmittedIn(st.log) - CompletedIn(st.log)
    && st.currentNb == |st.submitted|
  }

  ghost predicate Books(st: State) {
    Waiting(st) && Flying(st)
  }

  /** A task is ready or submitted exactly when its parents have completed. */
  ghost predicate Released(g: Graph, st: State) {
    && |st.nbParentCompleted| == |g|
    && (forall t :: 0 <= t < |g| ==> st.nbParentCompleted[t] == Count(g[t].parents, CompletedIn(st.log)))
    && forall t :: 0 <= t < |g| ==>
         (t in st.ready || t in SubmittedIn(st.log) <==> forall p :: p in g[t].parents ==> p in CompletedIn(st.log))
  }

  ghost predicate Depths(g: Graph, st: State) {
    && ParentsBelow(g) && |st.depth| == |g|
    && forall t :: 0 <= t < |g| ==> st.depth[t] == LevelOver(g, g[t].parents, CompletedIn(st.log))
  }

  /** Number of tasks submitted and not yet completed. */
  function InFlight(log: seq<Event>): int {
    if log == [] then 0
    else InFlight(log[..|log| - 1]) + (if log[|log| - 1].Submitted? then 1 else -1)
  }

  /** Every task is submitted at most once and only after its parents completed, completes at most once and only
      after it was submitted, and the limit on concurrent jobs holds all along. */
  ghost predicate GoodLog(g: Graph, limit: nat, log: seq<Event>) {
    forall i :: 0 <= i < |log| ==> GoodEvent(g, limit, log, i)
  }

  ghost predicate GoodEvent(g: Graph, limit: nat, log: seq<Event>, i: nat)
    requires i < |log|
  {
    && log[i].task < |g|
    && (limit > 0 ==> InFlight(log[..i + 1]) <= limit)
    && match log[i]
       case Submitted(t) => t !in SubmittedIn(log[..i]) && forall p :: p in g[t].parents ==> p in CompletedIn(log[..i])
       case Completed(t) => t in SubmittedIn(log[..i]) && t !in CompletedIn(log[..i])
  }

  ghost predicate Inv(g: Graph, limit: nat, st: State) {
    && Linked(g)
    && Shaped(g, st) && Books(st) && Released(g, st) && Depths(g, st)
    && GoodLog(g, limit, st.log) && InFlight(st.log) == st.currentNb
    && (limit > 0 ==> st.currentNb <= limit)
  }

  lemma GoodLogAppend(g: Graph, limit: nat, log: seq<Event>, e: Event)
    requires GoodLog(g, limit, log) && GoodEvent(g, limit, log + [e], |log|)
    ensures GoodLog(g, limit, log + [e])
  {
    var r := log + [e];
    forall i | 0 <= i < |r| ensures GoodEvent(g, limit, r, i) {
      if i < |log| {
        assert GoodEvent(g, limit, log, i);
        assert r[..i] == log[..i] && r[..i + 1] == log[..i + 1];
      }
    }
  }

  lemma InFlightAppend(log: seq<Event>, e: Event)
    ensures InFlight(log + [e]) == InFlight(log) + (if e.Submitted? then 1 else -1)
    ensures (log + [e])[..|log|] == log && (log + [e])[..|log| + 1] == log + [e]
  {
    assert (log + [e])[..|log|] == log;
  }

  lemma InitialReleased(g: Graph)
    ensures Released(g, Initial(g)) && Waiting(Initial(g)) && Flying(Initial(g))
    ensures Linked(g) ==> Shaped(g, Initial(g))
  {
    hide Linked;
    SourcesAre(g, 0);
    var st := Initial(g);
    forall t | 0 <= t < |g| ensures st.nbParentCompleted[t] == Count(g[t].parents, {}) {
      NoneDone(g[t].parents);
    }
    forall t | 0 <= t < |g| ensures t in st.ready <==> forall p :: p in g[t].parents ==> p in CompletedIn([]) {
      if g[t].parents != [] { assert g[t].parents[0] in g[t].parents; }
    }
    assert CompletedIn([]) == {} && SubmittedIn([]) == {};
  }

  lemma LinkedBelow(g: Graph)
    requires Linked(g)
    ensures ParentsBelow(g) && KidsBelow(g)
  {
  }

  lemma InitialDepths(g: Graph)
    requires ParentsBelow(g)
    ensures Depths(g, Initial(g))
  {
    hide Level;
    assert CompletedIn([]) == {};
    forall t | 0 <= t < |g| ensures LevelOver(g, g[t].parents, {}) == 0 {
      NothingDone(g, g[t].parents);
    }
  }

  lemma InitialInv(g: Graph, limit: nat)
    requires Linked(g)
    ensures Inv(g, limit, Initial(g))
  {
    hide Linked, Shaped, Waiting, Flying, Released, Depths;
    LinkedBelow(g);
    InitialReleased(g);
    InitialDepths(g);
  }

  lemma {:induction false} NoneDone(ps: seq<nat>)
    ensures Count(ps, {}) == 0
    decreases |ps|
  {
    if ps != [] { NoneDone(ps[1..]); }
  }

  lemma {:induction false} NothingDone(g: Graph, ps: seq<nat>)
    requires ParentsBelow(g) && Below(ps, |g|)
    ensures LevelOver(g, ps, {}) == 0
    decreases |ps|
  {
    if ps != [] { NothingDone(g, ps[1..]); }
  }

  // ---------------------------------------------------------------- submitting

  lemma MapGrows(m: map<nat, nat>, k: nat, t: nat)
    requires k !in m
    ensures m[k := t].Values == m.Values + {t}
    ensures |m[k := t]| == |m| + 1
  {
    MapCount(m, k, t);
    var r := m[k := t];
    assert t in r.Values by { assert r[k] == t; }
    forall v | v in m.Values ensures v in r.Values {
      var l :| l in m && m[l] == v;
      assert r[l] == v;
    }
  }

  lemma MapCount(m: map<nat, nat>, k: nat, t: nat)
    requires k !in m
    ensures |m[k := t]| == |m| + 1
  {
    var r := m[k := t];
    assert r.Keys == m.Keys + {k};
    assert |r| == |r.Keys| && |m| == |m.Keys|;
  }

  lemma HeadTail(s: seq<nat>)
    requires s != []
    ensures forall t :: t in s <==> t == s[0] || t in s[1..]
    ensures NoRepeats(s) ==> NoRepeats(s[1..]) && s[0] !in s[1..]
  {
    assert s == [s[0]] + s[1..];
  }

  lemma SubmitWaiting(st: State)
    requires Waiting(st) && st.ready != []
    ensures Waiting(Submit(st)) && st.ready[0] !in SubmittedIn(st.log)
  {
    hide NoRepeats, SubmittedIn;
    HeadTail(st.ready);
    LogAppend(st.log, Submitted(st.ready[0]));
  }

  lemma SubmitShaped(g: Graph, st: State)
    requires Shaped(g, st) && st.ready != []
    ensures Shaped(g, Submit(st))
  {
    HeadTail(st.ready);
    assert st.ready[0] in st.ready;
  }

  lemma SubmitFlying(g: Graph, st: State)
    requires Shaped(g, st) && Flying(st) && st.ready != [] && st.ready[0] !in SubmittedIn(st.log)
    ensures Flying(Submit(st))
  {
    hide SubmittedIn, CompletedIn, Injective, Shaped;
    var t := st.ready[0];
    LogAppend(st.log, Submitted(t));
    NewNumber(g, st);
    MapGrows(st.submitted, st.counter, t);
    SubmittedOnly(st.submitted.Values, SubmittedIn(st.log), CompletedIn(st.log), t);
    InjectiveGrows(st.submitted, st.counter, t);
  }

  lemma SubmittedOnly(v: set<nat>, s: set<nat>, c: set<nat>, t: nat)
    requires v == s - c && c <= s && t !in s
    ensures t !in v && v + {t} == (s + {t}) - c && c <= s + {t} && c + {} == c
  {
  }

  lemma InjectiveGrows(m: map<nat, nat>, k: nat, t: nat)
    requires t !in m.Values && Injective(m)
    ensures Injective(m[k := t])
  {
    assert forall a :: a in m ==> m[a] in m.Values;
  }

  lemma NewNumber(g: Graph, st: State)
    requires Shaped(g, st)
    ensures st.counter !in st.submitted
  {
  }

  lemma SubmitReleased(g: Graph, st: State)
    requires Released(g, st) && st.ready != []
    ensures Released(g, Submit(st))
  {
    hide Count, SubmittedIn, CompletedIn;
    LogAppend(st.log, Submitted(st.ready[0]));
    HeadTail(st.ready);
    assert CompletedIn(Submit(st).log) == CompletedIn(st.log);
  }

  lemma SubmitLog(g: Graph, limit: nat, st: State)
    requires Shaped(g, st) && Books(st) && Released(g, st) && GoodLog(g, limit, st.log) && st.ready != []
    requires InFlight(st.log) == st.currentNb && (limit == 0 || st.currentNb < limit)
    ensures GoodLog(g, limit, Submit(st).log) && InFlight(Submit(st).log) == Submit(st).currentNb
  {
    hide Books, GoodLog, InFlight;
    var t := st.ready[0];
    assert t in st.ready && t < |g|;
    ReadyIsNew(st, t);
    InFlightAppend(st.log, Submitted(t));
    GoodLogAppend(g, limit, st.log, Submitted(t));
  }

  lemma ReadyIsNew(st: State, t: nat)
    requires Books(st) && t in st.ready
    ensures t !in SubmittedIn(st.log)
  {
  }

  /** Submitting the first ready task keeps the invariant while the limit leaves room. */
  lemma SubmitKeeps(g: Graph, limit: nat, st: State)
    requires Inv(g, limit, st) && st.ready != [] && (limit == 0 || st.currentNb < limit)
    ensures Inv(g, limit, Submit(st)) && CompletedIn(Submit(st).log) == CompletedIn(st.log)
  {
    hide Linked, Shaped, Waiting, Flying, Released, GoodLog, InFlight, LevelOver, ParentsBelow;
    SubmitWaiting(st);
    SubmitShaped(g, st);
    SubmitFlying(g, st);
    SubmitReleased(g, st);
    assert CompletedIn(Submit(st).log) == CompletedIn(st.log) by { LogAppend(st.log, Submitted(st.ready[0])); }
    SubmitLog(g, limit, st);
    LogAppend(st.log, Submitted(st.ready[0]));
  }

  // ---------------------------------------------------------------- completing

  lemma MapShrinks(m: map<nat, nat>, k: nat)
    requires k in m && Injective(m)
    ensures (m - {k}).Values == m.Values - {m[k]} && |m - {k}| == |m| - 1
  {
    var r := m - {k};
    assert r.Keys == m.Keys - {k};
    assert |r| == |r.Keys| && |m| == |m.Keys|;
    forall v | v in m.Values - {m[k]} ensures v in r.Values {
      var l :| l in m && m[l] == v;
      assert r[l] == v;
    }
  }

  lemma {:induction false} NewlyReady(g: Graph, st: State, key: nat)
    requires Linked(g) && Shaped(g, st) && Books(st) && Released(g, st) && key in st.submitted
    ensures var task := st.submitted[key];
            var kids := ReadyKids(g, IncAll(st.nbParentCompleted, g[task].children), g[task].children);
            && NoRepeats(kids)
            && (forall c :: c in kids ==> c < |g| && c !in st.ready && c !in SubmittedIn(st.log))
            && (forall c :: c in kids <==>
                c in g[task].children && forall p :: p in g[c].parents ==> p in CompletedIn(st.log) + {task})
  {
    hide IncAll, Count, ReadyKids, SubmittedIn, CompletedIn;
    var task := st.submitted[key];
    assert task in st.submitted.Values;
    var kids := g[task].children;
    var done := CompletedIn(st.log);
    var nb := IncAll(st.nbParentCompleted, kids);
    ReadyKidsAre(g, nb, kids);
    forall c | c in kids
      ensures c < |g| && c !in st.ready && c !in SubmittedIn(st.log)
      ensures nb[c] == |g[c].parents| <==> forall p :: p in g[c].parents ==> p in done + {task}
    {
      assert task in g[c].parents && task !in done;
      IncAllAt(st.nbParentCompleted, kids, c);
      CountAdd(g[c].parents, done, task);
      CountFull(g[c].parents, done + {task});
    }
  }

  lemma NoRepeatsAppend(a: seq<nat>, b: seq<nat>)
    requires NoRepeats(a) && NoRepeats(b) && forall x :: x in b ==> x !in a
    ensures NoRepeats(a + b)
  {
    var r := a + b;
    forall i, k | 0 <= i < k < |r| ensures r[i] != r[k] {
      if i < |a| <= k { assert r[k] in b && r[i] in a; }
    }
  }

  lemma CompleteWaiting(g: Graph, st: State, key: nat)
    requires Linked(g) && Shaped(g, st) && Books(st) && Released(g, st) && key in st.submitted
    ensures Waiting(Complete(g, st, key))
    ensures forall t :: t in Complete(g, st, key).ready ==> t < |g|
  {
    hide IncAll, DeepenAll, ReadyKids, Released, Flying, NoRepeats, SubmittedIn, CompletedIn;
    var task := st.submitted[key];
    NewlyReady(g, st, key);
    var kids := ReadyKids(g, IncAll(st.nbParentCompleted, g[task].children), g[task].children);
    NoRepeatsAppend(st.ready, kids);
    LogAppend(st.log, Completed(task));
    var r := Complete(g, st, key);
    assert forall t :: t in r.ready ==> t in st.ready || t in kids;
  }

  lemma CompleteFlying(g: Graph, st: State, key: nat)
    requires Linked(g) && Shaped(g, st) && Flying(st) && key in st.submitted
    ensures Flying(Complete(g, st, key))
  {
    hide IncAll, DeepenAll, ReadyKids, SubmittedIn, CompletedIn, Linked;
    var task := st.submitted[key];
    assert task in st.submitted.Values;
    LogAppend(st.log, Completed(task));
    MapShrinks(st.submitted, key);
  }

  lemma CompleteShaped(g: Graph, st: State, key: nat)
    requires Linked(g) && Shaped(g, st) && key in st.submitted
    requires forall t :: t in Complete(g, st, key).ready ==> t < |g|
    ensures Shaped(g, Complete(g, st, key))
  {
    hide IncAll, DeepenAll, ReadyKids, Linked;
  }

  lemma CompleteCounts(g: Graph, st: State, key: nat, t: nat)
    requires Linked(g) && Shaped(g, st) && Books(st) && Released(g, st) && key in st.submitted && t < |g|
    ensures var r := Complete(g, st, key);
            r.nbParentCompleted[t] == Count(g[t].parents, CompletedIn(st.log) + {st.submitted[key]})
  {
    hide IncAll, DeepenAll, ReadyKids, Count, SubmittedIn, CompletedIn, Waiting;
    var task := st.submitted[key];
    assert task in st.submitted.Values;
    IncAllAt(st.nbParentCompleted, g[task].children, t);
    CountAdd(g[t].parents, CompletedIn(st.log), task);
  }

  lemma CompleteReleased(g: Graph, st: State, key: nat)
    requires Linked(g) && Shaped(g, st) && Books(st) && Released(g, st) && key in st.submitted
    ensures Released(g, Complete(g, st, key))
  {
    hide IncAll, DeepenAll, ReadyKids, Count, Books, SubmittedIn, CompletedIn;
    var task := st.submitted[key];
    var done := CompletedIn(st.log);
    var r := Complete(g, st, key);
    LogAppend(st.log, Completed(task));
    NewlyReady(g, st, key);
    var kids := ReadyKids(g, IncAll(st.nbParentCompleted, g[task].children), g[task].children);
    forall t | 0 <= t < |g| ensures r.nbParentCompleted[t] == Count(g[t].parents, done + {task}) {
      CompleteCounts(g, st, key, t);
    }
    forall t | 0 <= t < |g|
      ensures t in r.ready || t in SubmittedIn(r.log) <==> forall p :: p in g[t].parents ==> p in done + {task}
    {
      assert t in r.ready <==> t in st.ready || t in kids;
      assert t in g[task].children <==> task in g[t].parents;
      if task !in g[t].parents {
        assert (forall p :: p in g[t].parents ==> p in done + {task}) <==> forall p :: p in g[t].parents ==> p in done;
      }
    }
  }

  lemma CompleteDepths(g: Graph, limit: nat, st: State, key: nat)
    requires Inv(g, limit, st) && key in st.submitted
    ensures Depths(g, Complete(g, st, key))
  {
    hide IncAll, DeepenAll, ReadyKids, LevelOver, SubmittedIn, CompletedIn, Released, Linked, GoodLog, ParentsBelow;
    var task := st.submitted[key];
    assert task in st.submitted.Values;
    var done := CompletedIn(st.log);
    LinkedBelow(g);
    var r := Complete(g, st, key);
    LogAppend(st.log, Completed(task));
    SettledDepth(g, limit, st, task);
    forall t | 0 <= t < |g|
      ensures Below(g[t].parents, |g|) && r.depth[t] == LevelOver(g, g[t].parents, done + {task})
    {
      ParentsAreTasks(g, t);
      ChildDepth(g, st.depth, task, t);
      LevelOverAdd(g, g[t].parents, done, task);
    }
  }

  lemma ParentsAreTasks(g: Graph, t: nat)
    requires ParentsBelow(g) && t < |g|
    ensures Below(g[t].parents, |g|)
  {
  }

  lemma ChildDepth(g: Graph, depth: seq<nat>, task: nat, t: nat)
    requires Linked(g) && |depth| == |g| && task < |g| && t < |g|
    ensures Below(g[task].children, |g|)
    ensures DeepenAll(depth, g[task].children, depth[task])[t]
            == if task in g[t].parents then Max(depth[t], depth[task] + 1) else depth[t]
  {
    DeepenAllAt(depth, g[task].children, depth[task], t);
  }

  /** No cycle leads to a task that was submitted or has completed. */
  lemma {:induction false} LoggedIsFree(g: Graph, limit: nat, log: seq<Event>, t: nat)
    requires GoodLog(g, limit, log) && (t in SubmittedIn(log) || t in CompletedIn(log))
    ensures CycleFree(g, t)
    decreases |log|
  {
    hide CycleFree, SubmittedIn, CompletedIn;
    LogEmpty();
    var n := |log| - 1;
    var before, e := log[..n], log[n];
    assert log == before + [e];
    LogAppend(before, e);
    assert GoodLog(g, limit, before) by { GoodLogBefore(g, limit, log); }
    assert GoodEvent(g, limit, log, n);
    if t in SubmittedIn(before) || t in CompletedIn(before) {
      LoggedIsFree(g, limit, before, t);
    } else {
      forall p | t < |g| && p in g[t].parents ensures CycleFree(g, p) {
        LoggedIsFree(g, limit, before, p);
      }
      FreeIfParentsFree(g, t);
    }
  }

  lemma LogEmpty()
    ensures SubmittedIn([]) == {} == CompletedIn([])
  {
  }

  lemma GoodLogBefore(g: Graph, limit: nat, log: seq<Event>)
    requires GoodLog(g, limit, log) && log != []
    ensures GoodLog(g, limit, log[..|log| - 1])
  {
    var before := log[..|log| - 1];
    forall i | 0 <= i < |before| ensures GoodEvent(g, limit, before, i) {
      assert GoodEvent(g, limit, log, i);
      assert before[..i] == log[..i] && before[..i + 1] == log[..i + 1];
    }
  }

  lemma ReadyIsFree(g: Graph, limit: nat, st: State, t: nat)
    requires Released(g, st) && GoodLog(g, limit, st.log) && t < |g| && (t in st.ready || t in SubmittedIn(st.log))
    ensures CycleFree(g, t) && forall p :: p in g[t].parents ==> p in CompletedIn(st.log)
  {
    hide CycleFree, GoodLog, SubmittedIn, CompletedIn, Count;
    forall p | p in g[t].parents ensures CycleFree(g, p) {
      LoggedIsFree(g, limit, st.log, p);
    }
    FreeIfParentsFree(g, t);
  }

  /** Once a task is ready its depth is the length of the longest path to it. */
  lemma SettledDepth(g: Graph, limit: nat, st: State, t: nat)
    requires Inv(g, limit, st) && t < |g| && (t in st.ready || t in SubmittedIn(st.log))
    ensures ParentsBelow(g) && st.depth[t] == Level(g, t) && CycleFree(g, t)
  {
    hide CycleFree, GoodLog, SubmittedIn, CompletedIn, Released, Linked, Shaped, Books, Walk, LevelOver, LongestStep;
    ReadyIsFree(g, limit, st, t);
    LevelOverAll(g, g[t].parents, CompletedIn(st.log));
    FreeWalk(g, t);
  }

  lemma CompleteLog(g: Graph, limit: nat, st: State, key: nat)
    requires Linked(g) && Shaped(g, st) && Books(st) && GoodLog(g, limit, st.log) && key in st.submitted
    requires InFlight(st.log) == st.currentNb && (limit > 0 ==> st.currentNb <= limit)
    ensures GoodLog(g, limit, Complete(g, st, key).log)
    ensures InFlight(Complete(g, st, key).log) == Complete(g, st, key).currentNb
  {
    hide GoodLog, InFlight, IncAll, DeepenAll, ReadyKids, Linked, SubmittedIn, CompletedIn, Waiting;
    var t := st.submitted[key];
    assert t in st.submitted.Values;
    InFlightAppend(st.log, Completed(t));
    GoodLogAppend(g, limit, st.log, Completed(t));
  }

  /** A completion, of whichever job, keeps the invariant. */
  lemma CompleteKeeps(g: Graph, limit: nat, st: State, key: nat)
    requires Inv(g, limit, st) && key in st.submitted
    ensures Inv(g, limit, Complete(g, st, key))
    ensures CompletedIn(Complete(g, st, key).log) == CompletedIn(st.log) + {st.submitted[key]}
    ensures st.submitted[key] !in CompletedIn(st.log)
  {
    hide Linked, Shaped, Waiting, Released, GoodLog, InFlight, LevelOver, Depths, IncAll, DeepenAll, ReadyKids;
    assert st.submitted[key] in st.submitted.Values;
    CompleteWaiting(g, st, key);
    CompleteFlying(g, st, key);
    CompleteShaped(g, st, key);
    CompleteReleased(g, st, key);
    CompleteDepths(g, limit, st, key);
    CompleteLog(g, limit, st, key);
    LogAppend(st.log, Completed(st.submitted[key]));
  }

  // ---------------------------------------------------------------- the end

  /** When nothing is ready and nothing in flight, every task that no cycle leads to has completed. */
  lemma {:induction false} AllCompleted(g: Graph, limit: nat, st: State, t: nat)
    requires Inv(g, limit, st) && st.ready == [] && st.submitted == map[] && t < |g| && CycleFree(g, t)
    ensures t in CompletedIn(st.log)
    decreases if ParentsBelow(g) then Level(g, t) else 0
  {
    hide GoodLog, InFlight, Linked, Shaped, Count, Waiting, SubmittedIn, CompletedIn, CycleFree, LevelOver, Walk,
         LongestStep;
    FreeWalk(g, t);
    forall p | p in g[t].parents ensures p in CompletedIn(st.log) {
      ParentsAreTasks(g, t);
      ParentIsFree(g, t, p);
      StepFrom(g, g[t].parents, |g|, p);
      AllCompleted(g, limit, st, p);
    }
    assert t in SubmittedIn(st.log);
  }

  /** A finished run: good throughout; the tasks completed are exactly those that no cycle leads to, and their depths
      are the lengths of the longest paths to them. */
  ghost predicate Finished(g: Graph, limit: nat, log: seq<Event>, depth: seq<nat>) {
    && GoodLog(g, limit, log)
    && InFlight(log) == 0
    && (forall t :: 0 <= t < |g| ==> (t in CompletedIn(log) <==> CycleFree(g, t)))
    && |depth| == |g|
    && forall t :: 0 <= t < |g| && CycleFree(g, t) ==> IsDepth(g, t, depth[t])
  }

  /** The longest path that ends at the task has d edges. */
  ghost predicate IsDepth(g: Graph, t: nat, d: nat) {
    && (exists path :: PathTo(g, path, t) && |path| == d + 1)
    && (forall path :: PathTo(g, path, t) ==> |path| <= d + 1)
  }

  lemma LevelIsDepth(g: Graph, t: nat)
    requires ParentsBelow(g) && t < |g| && CycleFree(g, t)
    ensures IsDepth(g, t, Level(g, t))
  {
    hide IsPath, Walk;
    var longest := WalkIsPath(g, t, |g|);
    forall path | PathTo(g, path, t) ensures |path| <= Level(g, t) + 1 {
      ShortPath(g, path);
      WalkBounds(g, path, t, |g|);
    }
  }

  lemma EndIsFinished(g: Graph, limit: nat, st: State)
    requires Inv(g, limit, st) && st.ready == [] && st.submitted == map[]
    ensures Finished(g, limit, st.log, st.depth)
  {
    hide GoodLog, InFlight, Linked, Released, Level, Shaped, SubmittedIn, CompletedIn, CycleFree, IsDepth, LevelOver;
    NoneFlying(st);
    forall t | 0 <= t < |g|
      ensures t in CompletedIn(st.log) <==> CycleFree(g, t)
      ensures CycleFree(g, t) ==> IsDepth(g, t, st.depth[t])
    {
      if t in CompletedIn(st.log) { LoggedIsFree(g, limit, st.log, t); }
      if CycleFree(g, t) {
        AllCompleted(g, limit, st, t);
        SettledDepth(g, limit, st, t);
        LevelIsDepth(g, t);
      }
    }
  }

  lemma NoneFlying(st: State)
    requires Flying(st) && st.submitted == map[]
    ensures st.currentNb == 0
  {
  }

  lemma CompletedAreTasks(g: Graph, limit: nat, log: seq<Event>)
    requires GoodLog(g, limit, log)
    ensures |CompletedIn(log)| <= |g|
  {
    forall t | t in CompletedIn(log) ensures t < |g| {
      var e :| e in log && e.Completed? && e.task == t;
      var i :| 0 <= i < |log| && log[i] == e;
      assert GoodEvent(g, limit, log, i);
    }
    Bounded(CompletedIn(log), |g|);
  }

  // ---------------------------------------------------------------- the order of submission, and how much is submitted

  /** The tasks in the order in which they were submitted. */
  function SubmittedSeq(log: seq<Event>): seq<nat> {
    if log == [] then []
    else
      var before, e := log[..|log| - 1], log[|log| - 1];
      SubmittedSeq(before) + (if e.Submitted? then [e.task] else [])
  }

  lemma SubmittedSeqAppend(log: seq<Event>, e: Event)
    ensures SubmittedSeq(log + [e]) == SubmittedSeq(log) + (if e.Submitted? then [e.task] else [])
  {
    assert (log + [e])[..|log|] == log;
  }

  /** First ready, first submitted: a submission takes no task out of turn, and a completion only adds at the end. */
  lemma SubmitsInTurn(g: Graph, st: State, key: nat)
    ensures st.ready != [] ==> SubmittedSeq(Submit(st).log) + Submit(st).ready == SubmittedSeq(st.log) + st.ready
    ensures KidsBelow(g) && Shaped(g, st) && key in st.submitted ==>
              SubmittedSeq(st.log) + st.ready <= SubmittedSeq(Complete(g, st, key).log) + Complete(g, st, key).ready
  {
    hide IncAll, ReadyKids, DeepenAll, SubmittedSeq;
    if st.ready != [] {
      SubmittedSeqAppend(st.log, Submitted(st.ready[0]));
      assert st.ready == [st.ready[0]] + st.ready[1..];
    }
    if KidsBelow(g) && Shaped(g, st) && key in st.submitted {
      SubmittedSeqAppend(st.log, Completed(st.submitted[key]));
    }
  }

  /** The sources are ready at first, in their order. */
  lemma SourcesInOrder(g: Graph)
    ensures forall t: nat :: t in Initial(g).ready <==> t < |g| && g[t].parents == []
    ensures forall i, k :: 0 <= i < k < |Initial(g).ready| ==> Initial(g).ready[i] < Initial(g).ready[k]
  {
    SourcesAre(g, 0);
  }

  /** Whenever the submitter waits for a completion, the limit is reached or every task whose parents have completed was
      submitted. */
  ghost predicate KeepsBusy(g: Graph, limit: nat, log: seq<Event>) {
    forall i :: 0 <= i < |log| && log[i].Completed? ==> BusyAt(g, limit, log[..i])
  }

  ghost predicate BusyAt(g: Graph, limit: nat, log: seq<Event>) {
    || (limit > 0 && InFlight(log) == limit)
    || forall t :: 0 <= t < |g| && (forall p :: p in g[t].parents ==> p in CompletedIn(log)) ==> t in SubmittedIn(log)
  }

  lemma KeepsBusyAppend(g: Graph, limit: nat, log: seq<Event>, e: Event)
    requires KeepsBusy(g, limit, log) && (e.Completed? ==> BusyAt(g, limit, log))
    ensures KeepsBusy(g, limit, log + [e])
  {
    hide BusyAt;
    var r := log + [e];
    forall i | 0 <= i < |r| && r[i].Completed? ensures BusyAt(g, limit, r[..i]) {
      assert r[..i] == log[..i];
      if i == |log| { assert log[..i] == log; }
    }
  }

  lemma NothingLogged(g: Graph, limit: nat)
    ensures KeepsBusy(g, limit, Initial(g).log)
  {
  }

  lemma CompleteAppends(g: Graph, st: State, key: nat)
    requires KidsBelow(g) && Shaped(g, st) && key in st.submitted
    ensures Complete(g, st, key).log == st.log + [Completed(st.submitted[key])]
  {
    hide IncAll, ReadyKids, DeepenAll;
  }

  lemma WaitsBusy(g: Graph, limit: nat, st: State)
    requires Inv(g, limit, st) && (st.ready == [] || (limit > 0 && st.currentNb >= limit))
    ensures BusyAt(g, limit, st.log)
  {
    hide Linked, Shaped, Waiting, Flying, Depths, GoodLog, InFlight, CompletedIn, SubmittedIn, Count;
  }

  // ---------------------------------------------------------------- edges recorded more than once

  lemma {:induction false} IncAllCounts(nb: seq<nat>, kids: seq<nat>, c: nat)
    requires Below(kids, |nb|) && c < |nb|
    ensures IncAll(nb, kids)[c] == nb[c] + multiset(kids)[c]
    decreases |kids|
  {
    if kids != [] {
      IncAllCounts(nb[kids[0] := nb[kids[0]] + 1], kids[1..], c);
      assert kids == [kids[0]] + kids[1..];
    }
  }

  lemma {:induction false} ReadyKidsCount(g: Graph, nb: seq<nat>, kids: seq<nat>, c: nat)
    requires |nb| == |g| && Below(kids, |g|) && c < |g|
    ensures multiset(ReadyKids(g, nb, kids))[c] == if nb[c] == |g[c].parents| then multiset(kids)[c] else 0
    decreases |kids|
  {
    if kids != [] {
      ReadyKidsCount(g, nb, kids[1..], c);
      assert kids == [kids[0]] + kids[1..];
    }
  }

  /** A child that its completed parent records a number of times counts the parent as often, and becomes ready exactly
      when that brings its counter to the number of its parents; it then becomes ready as often. */
  lemma CompletionCounts(g: Graph, st: State, key: nat, c: nat)
    requires KidsBelow(g) && Shaped(g, st) && key in st.submitted && c < |g|
    ensures var r := Complete(g, st, key);
            var times := multiset(g[st.submitted[key]].children)[c];
            && r.nbParentCompleted[c] == st.nbParentCompleted[c] + times
            && multiset(r.ready)[c] == multiset(st.ready)[c]
                 + if st.nbParentCompleted[c] + times == |g[c].parents| then times else 0
  {
    hide IncAll, ReadyKids, DeepenAll;
    var kids := g[st.submitted[key]].children;
    IncAllCounts(st.nbParentCompleted, kids, c);
    ReadyKidsCount(g, IncAll(st.nbParentCompleted, kids), kids, c);
  }

  /** A task with one parent becomes ready with it if and only if the parent records it once; otherwise its counter has
      passed the number of its parents for good. */
  lemma OnlyParentIff(g: Graph, st: State, key: nat, c: nat)
    requires KidsBelow(g) && Shaped(g, st) && key in st.submitted && c < |g|
    requires g[c].parents == [st.submitted[key]] && st.nbParentCompleted[c] == 0 && c !in st.ready
    ensures var r := Complete(g, st, key);
            var times := multiset(g[st.submitted[key]].children)[c];
            && (c in r.ready <==> times == 1)
            && (times > 1 ==> r.nbParentCompleted[c] > |g[c].parents|)
  {
    hide Complete;
    CompletionCounts(g, st, key, c);
    var r := Complete(g, st, key);
    assert c in r.ready <==> multiset(r.ready)[c] > 0;
    assert multiset(st.ready)[c] == 0;
  }

  /** Two tasks and the edge between them given twice. */
  const TWICE := [Task([], [1, 1]), Task([0], [])]

  lemma TwiceIsBuilt()
    ensures Build(2, [Edge(0, 1), Edge(0, 1)]) == TWICE
  {
    var none: seq<Edge>, e := [], Edge(0, 1);
    assert [e][..0] == none && [e, e][..1] == [e];
    var g := Build(2, none);
    assert g == [Task([], []), Task([], [])];
    assert g[1].parents + [0] == [0] && g[0].children + [1] == [1];
    var h := AddEdge(g, 0, 1);
    assert h == [Task([], [1]), Task([0], [])];
    assert h == Build(2, [e]);
    KnownEdgeIsRepeated();
    assert h == AddEdge(g, 0, 1);
  }

  /** The submitter on that graph once the first task was submitted. */
  const ONE_SUBMITTED := State([], map[0 := 0], 1, 1, [0, 0], [0, 0], [Submitted(0)])

  lemma FirstOfTwice()
    ensures Initial(TWICE).ready == [0] && Submit(Initial(TWICE)) == ONE_SUBMITTED
    ensures KidsBelow(TWICE) && Shaped(TWICE, ONE_SUBMITTED)
  {
    assert SourcesFrom(TWICE, 2) == [] && SourcesFrom(TWICE, 1) == [] && SourcesFrom(TWICE, 0) == [0];
    var st := Initial(TWICE);
    assert st.nbParentCompleted == [0, 0] == st.depth && st.ready[1..] == [];
    assert st.submitted[0 := 0] == map[0 := 0] && st.log + [Submitted(0)] == [Submitted(0)];
  }

  /** An edge given twice: once the first task has completed, nothing is ready or in flight, so the loop ends, and the
      second task was not submitted. */
  lemma RepeatedEdgeStarves()
    ensures Build(2, [Edge(0, 1), Edge(0, 1)]) == TWICE && KidsBelow(TWICE)
    ensures Initial(TWICE).ready == [0] && Submit(Initial(TWICE)) == ONE_SUBMITTED && Shaped(TWICE, ONE_SUBMITTED)
    ensures var r := Complete(TWICE, ONE_SUBMITTED, 0);
            r.ready == [] && r.submitted == map[] && r.nbParentCompleted[1] == 2 && 1 !in SubmittedIn(r.log)
  {
    hide IncAll, ReadyKids, DeepenAll, Build, SourcesFrom, SubmittedIn, Submit;
    TwiceIsBuilt();
    FirstOfTwice();
    NothingIsReady();
    LogAppend([Submitted(0)], Completed(0));
    LogAppend([], Submitted(0));
    LogEmpty();
    assert [] + [Submitted(0)] == [Submitted(0)];
  }

  lemma NothingIsReady()
    requires KidsBelow(TWICE) && Shaped(TWICE, ONE_SUBMITTED)
    ensures var r := Complete(TWICE, ONE_SUBMITTED, 0); r.ready == [] && r.nbParentCompleted[1] == 2
  {
    hide Complete;
    var r := Complete(TWICE, ONE_SUBMITTED, 0);
    assert multiset([1, 1])[1] == 2 && multiset([1, 1])[0] == 0;
    CompletionCounts(TWICE, ONE_SUBMITTED, 0, 0);
    CompletionCounts(TWICE, ONE_SUBMITTED, 0, 1);
    KidsReadyBelow(TWICE, ONE_SUBMITTED, 0);
    assert forall x: nat :: x in r.ready ==> x in multiset(r.ready) && x < 2;
  }

  lemma {:induction false} ReadyKidsBelow(g: Graph, nb: seq<nat>, kids: seq<nat>)
    requires |nb| == |g| && Below(kids, |g|)
    ensures forall c :: c in ReadyKids(g, nb, kids) ==> c < |g|
    decreases |kids|
  {
    if kids != [] { ReadyKidsBelow(g, nb, kids[1..]); }
  }

  lemma KidsReadyBelow(g: Graph, st: State, key: nat)
    requires KidsBelow(g) && Shaped(g, st) && key in st.submitted
    ensures forall c :: c in Complete(g, st, key).ready ==> c < |g|
  {
    hide IncAll, ReadyKids, DeepenAll;
    var kids := g[st.submitted[key]].children;
    ReadyKidsBelow(g, IncAll(st.nbParentCompleted, kids), kids);
  }

  // ---------------------------------------------------------------- the submitter

  /** The submitter's objects: the tasks' counters and depths are updated in place, the lists change at each step. */
  class Submitter {
    const tasks: Graph
    const limit: nat
    var readyTasks: seq<nat>
    var submittedTasks: map<nat, nat>
    var taskCounter: nat
    var currentNb: int
    var nbParentCompleted: seq<nat>
    var depth: seq<nat>
    var log: seq<Event>

    ghost function View(): State
      reads this
    {
      State(readyTasks, submittedTasks, taskCounter, currentNb, nbParentCompleted, depth, log)
    }

    constructor (tasks: Graph, limit: nat)
      ensures View() == Initial(tasks) && this.tasks == tasks && this.limit == limit
    {
      this.tasks, this.limit := tasks, limit;
      readyTasks := SourcesFrom(tasks, 0);
      submittedTasks, taskCounter, currentNb, log := map[], 0, 0, [];
      nbParentCompleted := seq(|tasks|, _ => 0);
      depth := seq(|tasks|, _ => 0);
    }

    method SubmitFirst()
      requires readyTasks != []
      modifies this
      ensures View() == Submit(old(View()))
    {
      var task := readyTasks[0];
      readyTasks := readyTasks[1..];
      log := log + [Submitted(task)];
      submittedTasks := submittedTasks[taskCounter := task];
      taskCounter := taskCounter + 1;
      currentNb := currentNb + 1;
    }

    method IncrementKids(kids: seq<nat>)
      requires Below(kids, |nbParentCompleted|)
      modifies this`nbParentCompleted
      ensures nbParentCompleted == IncAll(old(nbParentCompleted), kids)
    {
      var i := 0;
      assert kids[0..] == kids;
      while i < |kids|
        invariant 0 <= i <= |kids| && |nbParentCompleted| == |old(nbParentCompleted)|
        invariant IncAll(nbParentCompleted, kids[i..]) == IncAll(old(nbParentCompleted), kids)
      {
        assert kids[i..][1..] == kids[i + 1..];
        nbParentCompleted := nbParentCompleted[kids[i] := nbParentCompleted[kids[i]] + 1];
        i := i + 1;
      }
    }

    method DeepenKids(kids: seq<nat>, d: nat)
      requires Below(kids, |depth|)
      modifies this`depth
      ensures depth == DeepenAll(old(depth), kids, d)
    {
      var i := 0;
      assert kids[0..] == kids;
      while i < |kids|
        invariant 0 <= i <= |kids| && |depth| == |old(depth)|
        invariant DeepenAll(depth, kids[i..], d) == DeepenAll(old(depth), kids, d)
      {
        assert kids[i..][1..] == kids[i + 1..];
        depth := depth[kids[i] := Max(depth[kids[i]], d + 1)];
        i := i + 1;
      }
    }

    method CollectReadyKids(kids: seq<nat>)
      requires |nbParentCompleted| == |tasks| && Below(kids, |tasks|)
      modifies this`readyTasks
      ensures readyTasks == old(readyTasks) + ReadyKids(tasks, nbParentCompleted, kids)
    {
      var i := 0;
      assert kids[0..] == kids;
      while i < |kids|
        invariant 0 <= i <= |kids|
        invariant readyTasks + ReadyKids(tasks, nbParentCompleted, kids[i..])
                      == old(readyTasks) + ReadyKids(tasks, nbParentCompleted, kids)
      {
        assert kids[i..][1..] == kids[i + 1..];
        ghost var rest := ReadyKids(tasks, nbParentCompleted, kids[i + 1..]);
        if nbParentCompleted[kids[i]] == |tasks[kids[i]].parents| {
          assert readyTasks + ([kids[i]] + rest) == readyTasks + [kids[i]] + rest;
          readyTasks := readyTasks + [kids[i]];
        }
        i := i + 1;
      }
    }

    method CompleteJob(key: nat)
      requires KidsBelow(tasks) && Shaped(tasks, View()) && key in submittedTasks
      modifies this
      ensures View() == Complete(tasks, old(View()), key)
    {
      hide IncAll, DeepenAll, ReadyKids;
      currentNb := currentNb - 1;
      var task := submittedTasks[key];
      log := log + [Completed(task)];
      var kids := tasks[task].children;
      IncrementKids(kids);
      DeepenKids(kids, depth[task]);
      CollectReadyKids(kids);
      submittedTasks := submittedTasks - {key};
    }

    /** The submitter's loop. Any job in flight may be the next to complete. */
    method Run()
      requires Linked(tasks) && View() == Initial(tasks)
      modifies this
      ensures Finished(tasks, limit, log, depth) && KeepsBusy(tasks, limit, log)
    {
      hide KeepsBusy, BusyAt, Linked, Shaped, Released, GoodLog, Depths, Finished, Initial, Waiting, Flying, Complete,
           CompletedIn, InFlight;
      InitialInv(tasks, limit);
      NothingLogged(tasks, limit);
      LinkedBelow(tasks);
      while readyTasks != [] || submittedTasks != map[]
        invariant Inv(tasks, limit, View()) && KeepsBusy(tasks, limit, log)
        decreases |tasks| - |CompletedIn(log)|
      {
        ghost var done := CompletedIn(log);
        while readyTasks != [] && (limit == 0 || limit > currentNb)
          invariant Inv(tasks, limit, View()) && KeepsBusy(tasks, limit, log) && CompletedIn(log) == done
          invariant readyTasks != [] || submittedTasks != map[]
          decreases |readyTasks|
        {
          SubmitKeeps(tasks, limit, View());
          KeepsBusyAppend(tasks, limit, log, Submitted(readyTasks[0]));
          SubmitFirst();
          assert taskCounter - 1 in submittedTasks;
        }
        if submittedTasks != map[] {
          var key :| key in submittedTasks;
          CompleteKeeps(tasks, limit, View(), key);
          WaitsBusy(tasks, limit, View());
          KeepsBusyAppend(tasks, limit, log, Completed(submittedTasks[key]));
          CompleteAppends(tasks, View(), key);
          CompleteJob(key);
          CompletedAreTasks(tasks, limit, log);
          assert |CompletedIn(log)| == |done| + 1;
        } else {
          NoneFlying(View());
        }
      }
      EndIsFinished(tasks, limit, View());
    }
  }
}
