/** Task graphs: their links, their paths, and what it means to have no cycle. */
module Graphs {

  /** A task of the workflow, with its neighbours by their position in the workflow. */
  datatype Task = Task(parents: seq<nat>, children: seq<nat>)

  type Graph = seq<Task>

  ghost predicate NoRepeats(s: seq<nat>) {
    forall i, k :: 0 <= i < k < |s| ==> s[i] != s[k]
  }

  predicate Below(s: seq<nat>, n: nat) {
    forall i :: 0 <= i < |s| ==> s[i] < n
  }

  /** The parent and child links describe the same edges, each once. */
  ghost predicate Linked(g: Graph) {
    && (forall t :: 0 <= t < |g| ==> NoRepeats(g[t].parents) && NoRepeats(g[t].children))
    && (forall t :: 0 <= t < |g| ==> Below(g[t].parents, |g|) && Below(g[t].children, |g|))
    && (forall p, c :: 0 <= p < |g| && 0 <= c < |g| ==> (c in g[p].children <==> p in g[c].parents))
  }

  /** Evidence that the graph has no cycle: parents rank below their children. */
  ghost predicate Ranks(g: Graph, rank: seq<nat>) {
    |rank| == |g| && forall t, p :: 0 <= t < |g| && p in g[t].parents ==> p < |g| && rank[p] < rank[t]
  }

  /** `Workflow::add_edge`. The second test looks for the parent among its own children. */
  function AddEdge(g: Graph, parent: nat, child: nat): (r: Graph)
    requires parent < |g| && child < |g|
    ensures |r| == |g|
  {
    var h := if parent in g[child].parents then g
             else g[child := g[child].(parents := g[child].parents + [parent])];
    if parent in h[parent].children then h
    else h[parent := h[parent].(children := h[parent].children + [child])]
  }

  /** Adding an edge keeps the links consistent exactly when it is new and the parent has no loop on itself, or it
      exists already and the parent has one: otherwise only one end of the edge is recorded, or its child twice. */
  lemma AddEdgeKeepsLinksIff(g: Graph, parent: nat, child: nat)
    requires Linked(g) && parent < |g| && child < |g|
    ensures Linked(AddEdge(g, parent, child)) <==> (parent in g[child].parents <==> parent in g[parent].children)
  {
    var r := AddEdge(g, parent, child);
    if parent in g[child].parents {
      if parent !in g[parent].children {
        var c := g[parent].children;
        assert r[parent].children == c + [child];
        var i :| 0 <= i < |c| && c[i] == child;
        assert r[parent].children[i] == r[parent].children[|c|];
      } else {
        assert r == g;
      }
    } else if parent in g[parent].children {
      assert r[parent].children == g[parent].children && parent in r[child].parents;
      assert child !in g[parent].children;
    } else {
      NewEdgeLinked(g, parent, child);
    }
  }

  lemma NewEdgeLinked(g: Graph, parent: nat, child: nat)
    requires Linked(g) && parent < |g| && child < |g|
    requires parent !in g[child].parents && parent !in g[parent].children
    ensures Linked(AddEdge(g, parent, child))
  {
    var r := AddEdge(g, parent, child);
    forall t | 0 <= t < |g|
      ensures NoRepeats(r[t].parents) && NoRepeats(r[t].children) && Below(r[t].parents, |g|)
      ensures Below(r[t].children, |g|)
    {
      AppendedLink(g[t].parents, parent, |g|);
      AppendedLink(g[t].children, child, |g|);
    }
    forall p, c | 0 <= p < |g| && 0 <= c < |g| ensures c in r[p].children <==> p in r[c].parents {
      assert c in r[p].children <==> c in g[p].children || (p == parent && c == child);
      assert p in r[c].parents <==> p in g[c].parents || (p == parent && c == child);
    }
  }

  lemma AppendedLink(s: seq<nat>, x: nat, n: nat)
    requires NoRepeats(s) && Below(s, n) && x < n
    ensures x !in s ==> NoRepeats(s + [x]) && Below(s + [x], n)
  {
  }

  /** In a graph of two tasks with one edge, adding that edge again records the child a second time. */
  lemma KnownEdgeIsRepeated()
    ensures var g := [Task([], [1]), Task([0], [])];
            Linked(g) && AddEdge(g, 0, 1) == [Task([], [1, 1]), Task([0], [])] && !Linked(AddEdge(g, 0, 1))
  {
    var g := [Task([], [1]), Task([0], [])];
    assert Linked(g);
    assert g[0].children + [1] == [1, 1];
    var r := AddEdge(g, 0, 1);
    assert r[0].children[0] == r[0].children[1];
  }

  // ---------------------------------------------------------------- whole lists of edges

  datatype Edge = Edge(parent: nat, child: nat)

  ghost predicate EdgesBelow(edges: seq<Edge>, n: nat) {
    forall e :: e in edges ==> e.parent < n && e.child < n
  }

  /** The graph over n tasks that the edges give, recorded one after the other. */
  function Build(n: nat, edges: seq<Edge>): (g: Graph)
    requires EdgesBelow(edges, n)
    ensures |g| == n
  {
    if edges == [] then seq(n, _ => Task([], []))
    else
      var e := edges[|edges| - 1];
      AddEdge(Build(n, edges[..|edges| - 1]), e.parent, e.child)
  }

  /** What the recorded ends of the edges always are: a child knows its parents, each once; a parent knows only its
      children, and all of them unless it has a loop on itself. */
  ghost predicate Recorded(g: Graph) {
    && (forall t :: 0 <= t < |g| ==> NoRepeats(g[t].parents) && Below(g[t].parents, |g|) && Below(g[t].children, |g|))
    && (forall p, c :: 0 <= p < |g| && c in g[p].children ==> c < |g| && p in g[c].parents)
    && (forall p, c :: 0 <= p < |g| && 0 <= c < |g| && p in g[c].parents && p !in g[p].children ==> c in g[p].children)
  }

  /** A parent that recorded a child twice, or, having a loop on itself, missed one. */
  ghost predicate Broken(g: Graph, p: nat) {
    && p < |g|
    && (!NoRepeats(g[p].children)
        || (p in g[p].children && exists c :: 0 <= c < |g| && p in g[c].parents && c !in g[p].children))
  }

  lemma LinkedIffNoneBroken(g: Graph)
    requires Recorded(g)
    ensures Linked(g) <==> forall p :: 0 <= p < |g| ==> !Broken(g, p)
  {
    hide NoRepeats, Below;
    if forall p :: 0 <= p < |g| ==> !Broken(g, p) {
      forall p | 0 <= p < |g| ensures NoRepeats(g[p].children) {
        assert !Broken(g, p);
      }
      forall p, c | 0 <= p < |g| && 0 <= c < |g| ensures c in g[p].children <==> p in g[c].parents {
        assert !Broken(g, p);
      }
    }
  }

  lemma AddEdgeParents(g: Graph, parent: nat, child: nat, t: nat)
    requires parent < |g| && child < |g| && t < |g|
    ensures var r := AddEdge(g, parent, child);
            && |r| == |g|
            && r[t].parents == (if t == child && parent !in g[child].parents then g[t].parents + [parent]
                                else g[t].parents)
            && r[t].children == (if t == parent && parent !in g[t].children then g[t].children + [child]
                                 else g[t].children)
  {
  }

  lemma AddEdgeRecords(g: Graph, parent: nat, child: nat)
    requires Recorded(g) && parent < |g| && child < |g|
    ensures Recorded(AddEdge(g, parent, child))
  {
    hide AddEdge, NoRepeats, Below;
    var r := AddEdge(g, parent, child);
    forall t | 0 <= t < |g|
      ensures NoRepeats(r[t].parents) && Below(r[t].parents, |g|) && Below(r[t].children, |g|)
    {
      AddEdgeParents(g, parent, child, t);
      AppendedLink(g[t].parents, parent, |g|);
      AppendedBelow(g[t].children, child, |g|);
    }
    forall p, c | 0 <= p < |g| && 0 <= c < |g|
      ensures c in r[p].children ==> p in r[c].parents
      ensures p in r[c].parents && p !in r[p].children ==> c in r[p].children
    {
      AddEdgeParents(g, parent, child, p);
      AddEdgeParents(g, parent, child, c);
    }
    assert forall p, c :: 0 <= p < |g| && c in r[p].children ==> c < |g| by { BelowAll(r); }
  }

  lemma BelowAll(g: Graph)
    requires forall t :: 0 <= t < |g| ==> Below(g[t].children, |g|)
    ensures forall p, c :: 0 <= p < |g| && c in g[p].children ==> c < |g|
  {
  }

  lemma AppendedBelow(s: seq<nat>, x: nat, n: nat)
    requires Below(s, n) && x < n
    ensures Below(s + [x], n)
  {
  }

  /** What is broken stays broken. */
  lemma StaysBroken(g: Graph, parent: nat, child: nat, p: nat)
    requires parent < |g| && child < |g| && Broken(g, p)
    ensures Broken(AddEdge(g, parent, child), p)
  {
    hide AddEdge;
    var r := AddEdge(g, parent, child);
    AddEdgeParents(g, parent, child, p);
    if NoRepeats(g[p].children) {
      var c :| 0 <= c < |g| && p in g[c].parents && c !in g[p].children;
      AddEdgeParents(g, parent, child, c);
      assert p in r[c].parents && c !in r[p].children;
    } else {
      var i, k :| 0 <= i < k < |g[p].children| && g[p].children[i] == g[p].children[k];
      assert r[p].children[i] == r[p].children[k];
    }
  }

  /** Each edge is recorded at its child, and so is a loop at its task. */
  lemma {:induction false} BuildRecords(n: nat, edges: seq<Edge>)
    requires EdgesBelow(edges, n)
    ensures Recorded(Build(n, edges))
    ensures forall p, c :: 0 <= p < n && 0 <= c < n ==> (p in Build(n, edges)[c].parents <==> Edge(p, c) in edges)
    ensures forall p :: 0 <= p < n ==> (p in Build(n, edges)[p].children <==> Edge(p, p) in edges)
    decreases |edges|
  {
    hide AddEdge;
    var r := Build(n, edges);
    if edges != [] {
      var before, e := edges[..|edges| - 1], edges[|edges| - 1];
      var g := Build(n, before);
      BuildRecords(n, before);
      AddEdgeRecords(g, e.parent, e.child);
      assert edges == before + [e];
      forall p, c | 0 <= p < n && 0 <= c < n ensures p in r[c].parents <==> Edge(p, c) in edges {
        AddEdgeParents(g, e.parent, e.child, c);
      }
    }
    forall p | 0 <= p < n ensures p in r[p].children <==> Edge(p, p) in edges {
      assert p in r[p].parents <==> Edge(p, p) in edges;
    }
  }

  /** Edge i repeats an earlier one if and only if its parent had a loop on itself before. */
  ghost predicate Harmless(edges: seq<Edge>, i: nat)
    requires i < |edges|
  {
    edges[i] in edges[..i] <==> Edge(edges[i].parent, edges[i].parent) in edges[..i]
  }

  /** For any list of edges: the links end up consistent exactly when every edge is harmless. */
  lemma {:induction false} BuildLinksIff(n: nat, edges: seq<Edge>)
    requires EdgesBelow(edges, n)
    ensures Linked(Build(n, edges)) <==> forall i :: 0 <= i < |edges| ==> Harmless(edges, i)
    decreases |edges|
  {
    hide AddEdge, Recorded, Linked, Broken, Harmless;
    if edges == [] {
      NothingLinked(n);
    } else {
      var before, e := edges[..|edges| - 1], edges[|edges| - 1];
      var g := Build(n, before);
      BuildLinksIff(n, before);
      BuildRecords(n, before);
      forall i | 0 <= i < |before| ensures Harmless(before, i) <==> Harmless(edges, i) { HarmlessBefore(edges, i); }
      if Linked(g) {
        AddEdgeKeepsLinksIff(g, e.parent, e.child);
        LastHarmless(n, edges);
      } else {
        LinkedIffNoneBroken(g);
        var p :| 0 <= p < |g| && Broken(g, p);
        StaysBroken(g, e.parent, e.child, p);
        AddEdgeRecords(g, e.parent, e.child);
        LinkedIffNoneBroken(Build(n, edges));
      }
    }
  }

  lemma NothingLinked(n: nat)
    ensures Linked(Build(n, []))
  {
  }

  lemma HarmlessBefore(edges: seq<Edge>, i: nat)
    requires i < |edges| - 1
    ensures Harmless(edges[..|edges| - 1], i) <==> Harmless(edges, i)
  {
    assert edges[..|edges| - 1][..i] == edges[..i];
  }

  lemma LastHarmless(n: nat, edges: seq<Edge>)
    requires edges != [] && EdgesBelow(edges, n)
    ensures var before, e := edges[..|edges| - 1], edges[|edges| - 1];
            var g := Build(n, before);
            e.parent < n && e.child < n &&
            (Harmless(edges, |edges| - 1) <==> (e.parent in g[e.child].parents <==> e.parent in g[e.parent].children))
  {
    hide Build;
    BuildRecords(n, edges[..|edges| - 1]);
    assert edges[|edges| - 1] in edges;
  }

  /** Without loops the links end up consistent exactly when no edge repeats. */
  lemma BuildLinksIffNoRepeat(n: nat, edges: seq<Edge>)
    requires EdgesBelow(edges, n) && forall e :: e in edges ==> e.parent != e.child
    ensures Linked(Build(n, edges)) <==> forall i, k :: 0 <= i < k < |edges| ==> edges[i] != edges[k]
  {
    hide Build, Linked, Harmless, EdgesBelow;
    BuildLinksIff(n, edges);
    forall k | 0 <= k < |edges| ensures Harmless(edges, k) <==> forall i :: 0 <= i < k ==> edges[i] != edges[k] {
      HarmlessIffNew(edges, k);
    }
  }

  lemma HarmlessIffNew(edges: seq<Edge>, k: nat)
    requires k < |edges| && forall e :: e in edges ==> e.parent != e.child
    ensures Harmless(edges, k) <==> forall i :: 0 <= i < k ==> edges[i] != edges[k]
  {
    assert forall e :: e in edges[..k] ==> e in edges;
    if i :| 0 <= i < k && edges[i] == edges[k] { assert edges[..k][i] == edges[k]; }
  }

  function Max(a: nat, b: nat): nat { if a < b then b else a }

  /** A path of the graph: every task is a parent of the next. */
  ghost predicate IsPath(g: Graph, path: seq<nat>) {
    && path != []
    && (forall i :: 0 <= i < |path| ==> path[i] < |g|)
    && (forall i :: 0 < i < |path| ==> path[i - 1] in g[path[i]].parents)
  }

  ghost predicate PathTo(g: Graph, path: seq<nat>, t: nat) {
    IsPath(g, path) && path[|path| - 1] == t
  }

  lemma ParentRank(g: Graph, rank: seq<nat>, t: nat, p: nat)
    requires Ranks(g, rank) && t < |g| && p in g[t].parents
    ensures p < |g| && rank[p] < rank[t]
  {
  }

  lemma {:induction false} Bounded(s: set<nat>, n: nat)
    requires forall x :: x in s ==> x < n
    ensures |s| <= n
    decreases n
  {
    if n > 0 {
      Bounded(s - {n - 1}, n - 1);
    } else {
      assert s == {};
    }
  }

  // ---------------------------------------------------------------- no cycle

  ghost function Elements(s: seq<nat>): set<nat> {
    set x | x in s
  }

  /** No path of more than one task returns to its first task. */
  ghost predicate Acyclic(g: Graph) {
    forall path :: IsPath(g, path) && |path| > 1 ==> path[0] != path[|path| - 1]
  }

  ghost predicate ParentsBelow(g: Graph) {
    forall t :: 0 <= t < |g| ==> Below(g[t].parents, |g|)
  }

  predicate KidsBelow(g: Graph) {
    forall t :: 0 <= t < |g| ==> Below(g[t].children, |g|)
  }

  lemma {:induction false} RankGrows(g: Graph, rank: seq<nat>, path: seq<nat>)
    requires Ranks(g, rank) && IsPath(g, path)
    ensures rank[path[0]] + |path| - 1 <= rank[path[|path| - 1]]
    decreases |path|
  {
    var n := |path| - 1;
    if n > 0 {
      assert IsPath(g, path[..n]);
      RankGrows(g, rank, path[..n]);
      ParentRank(g, rank, path[n], path[n - 1]);
    }
  }

  /** The longest walk along parents that ends at the task, of at most f steps. */
  ghost function Walk(g: Graph, t: nat, f: nat): nat
    requires ParentsBelow(g) && t < |g|
    decreases f, 0, 0
  {
    if f == 0 then 0 else LongestStep(g, g[t].parents, f - 1)
  }

  ghost function LongestStep(g: Graph, ps: seq<nat>, f: nat): nat
    requires ParentsBelow(g) && Below(ps, |g|)
    decreases f, 1, |ps|
  {
    if ps == [] then 0 else Max(Walk(g, ps[0], f) + 1, LongestStep(g, ps[1..], f))
  }

  lemma {:induction false} StepFrom(g: Graph, ps: seq<nat>, f: nat, p: nat)
    requires ParentsBelow(g) && Below(ps, |g|) && p in ps
    ensures Walk(g, p, f) + 1 <= LongestStep(g, ps, f)
    decreases |ps|
  {
    hide Walk;
    if p != ps[0] { StepFrom(g, ps[1..], f, p); }
  }

  lemma {:induction false} StepReached(g: Graph, ps: seq<nat>, f: nat) returns (p: nat)
    requires ParentsBelow(g) && Below(ps, |g|) && LongestStep(g, ps, f) > 0
    ensures p in ps && p < |g| && LongestStep(g, ps, f) == Walk(g, p, f) + 1
    decreases |ps|
  {
    hide Walk;
    if LongestStep(g, ps[1..], f) > Walk(g, ps[0], f) + 1 {
      p := StepReached(g, ps[1..], f);
    } else {
      p := ps[0];
    }
  }

  /** A walk that stops short of its bound is as long as any. */
  lemma {:induction false} WalkSettles(g: Graph, t: nat, f: nat)
    requires ParentsBelow(g) && t < |g| && Walk(g, t, f) < f
    ensures Walk(g, t, f + 1) == Walk(g, t, f)
    decreases f, 0, 0
  {
    StepSettles(g, g[t].parents, f - 1);
  }

  lemma {:induction false} StepSettles(g: Graph, ps: seq<nat>, f: nat)
    requires ParentsBelow(g) && Below(ps, |g|) && LongestStep(g, ps, f) < f + 1
    ensures LongestStep(g, ps, f + 1) == LongestStep(g, ps, f)
    decreases f, 1, |ps|
  {
    hide Walk;
    if ps != [] {
      WalkSettles(g, ps[0], f);
      StepSettles(g, ps[1..], f);
    }
  }

  lemma {:induction false} WalkIsPath(g: Graph, t: nat, f: nat) returns (path: seq<nat>)
    requires ParentsBelow(g) && t < |g|
    ensures PathTo(g, path, t) && |path| == Walk(g, t, f) + 1
    decreases f
  {
    if f == 0 || Walk(g, t, f) == 0 {
      path := [t];
    } else {
      var p := StepReached(g, g[t].parents, f - 1);
      var before := WalkIsPath(g, p, f - 1);
      path := before + [t];
    }
  }

  /** A path that visits no task twice is no longer than the number of tasks. */
  lemma ShortPath(g: Graph, path: seq<nat>)
    requires IsPath(g, path) && NoRepeats(path)
    ensures |path| <= |g|
  {
    CountDistinct(path);
    Bounded(Elements(path), |g|);
  }

  lemma {:induction false} CountDistinct(s: seq<nat>)
    requires NoRepeats(s)
    ensures |Elements(s)| == |s|
  {
    if s == [] {
      assert Elements(s) == {};
    } else {
      CountDistinct(s[1..]);
      assert s == [s[0]] + s[1..];
      assert Elements(s) == Elements(s[1..]) + {s[0]} && s[0] !in Elements(s[1..]);
    }
  }

  lemma WalkStep(g: Graph, t: nat, f: nat)
    requires ParentsBelow(g) && t < |g|
    ensures Walk(g, t, f + 1) == LongestStep(g, g[t].parents, f)
  {
  }

  // ---------------------------------------------------------------- tasks that no cycle leads to

  /** No path to the task visits a task twice. */
  ghost predicate CycleFree(g: Graph, t: nat) {
    forall path :: PathTo(g, path, t) ==> NoRepeats(path)
  }

  /** The parents of such a task are such tasks. */
  lemma ParentIsFree(g: Graph, t: nat, p: nat)
    requires CycleFree(g, t) && t < |g| && p in g[t].parents
    ensures CycleFree(g, p)
  {
    forall path | PathTo(g, path, p) ensures NoRepeats(path) {
      var longer := path + [t];
      assert PathTo(g, longer, t);
      assert forall i :: 0 <= i < |path| ==> longer[i] == path[i];
    }
  }

  /** A cycle through the task leads to its parents too, so a task is free of cycles when they are. */
  lemma FreeIfParentsFree(g: Graph, t: nat)
    requires forall p :: t < |g| && p in g[t].parents ==> CycleFree(g, p)
    ensures CycleFree(g, t)
  {
    hide CycleFree;
    forall path | PathTo(g, path, t) ensures NoRepeats(path) {
      if i, k :| 0 <= i < k < |path| && path[i] == path[k] {
        RepeatBefore(g, t, path, i, k);
      }
    }
    assert CycleFree(g, t) by { FreeIs(g, t); }
  }

  lemma FreeIs(g: Graph, t: nat)
    requires forall path :: PathTo(g, path, t) ==> NoRepeats(path)
    ensures CycleFree(g, t)
  {
  }

  /** A path to the task that visits a task twice gives one to a parent. */
  lemma RepeatBefore(g: Graph, t: nat, path: seq<nat>, i: nat, k: nat)
    requires PathTo(g, path, t) && i < k < |path| && path[i] == path[k]
    ensures t < |g| && exists p :: p in g[t].parents && !CycleFree(g, p)
  {
    var last := |path| - 1;
    var p := path[last - 1];
    assert p in g[t].parents;
    if k < last {
      assert PathTo(g, path[..last], p);
      assert path[..last][i] == path[..last][k];
    } else {
      var loop := path[i..last];
      var twice := loop + loop;
      assert PathTo(g, twice, p) by { LoopTwice(g, path, i); }
      assert twice[0] == twice[|loop|];
    }
  }

  lemma LoopTwice(g: Graph, path: seq<nat>, i: nat)
    requires IsPath(g, path) && i < |path| - 1 && path[i] == path[|path| - 1]
    ensures var loop := path[i..|path| - 1]; IsPath(g, loop + loop)
  {
    var loop := path[i..|path| - 1];
    var twice := loop + loop;
    forall x | 0 < x < |twice| ensures twice[x - 1] in g[twice[x]].parents {
      if x == |loop| { assert twice[x - 1] == path[|path| - 2] && twice[x] == path[i]; }
    }
  }

  lemma AcyclicIsFree(g: Graph, t: nat)
    requires Acyclic(g)
    ensures CycleFree(g, t)
  {
    forall path, i, k | PathTo(g, path, t) && 0 <= i < k < |path| ensures path[i] != path[k] {
      var part := path[i..k + 1];
      assert IsPath(g, part);
      assert part[0] == path[i] && part[|part| - 1] == path[k];
    }
  }

  /** A graph has no cycle exactly when no cycle leads to any task. */
  lemma AcyclicIffFree(g: Graph)
    ensures Acyclic(g) <==> forall t :: 0 <= t < |g| ==> CycleFree(g, t)
  {
    if Acyclic(g) {
      forall t | 0 <= t < |g| ensures CycleFree(g, t) { AcyclicIsFree(g, t); }
    } else {
      var path :| IsPath(g, path) && |path| > 1 && path[0] == path[|path| - 1];
      var t: nat := path[|path| - 1];
      assert PathTo(g, path, t) && !NoRepeats(path);
      assert t < |g| && !CycleFree(g, t);
    }
  }

  /** The walks to a task that no cycle leads to stop short of the number of tasks. */
  lemma FreeWalk(g: Graph, t: nat)
    requires ParentsBelow(g) && t < |g| && CycleFree(g, t)
    ensures Walk(g, t, |g|) == LongestStep(g, g[t].parents, |g|)
  {
    hide Walk, LongestStep, IsPath;
    var n := |g|;
    var path := WalkIsPath(g, t, n);
    ShortPath(g, path);
    WalkSettles(g, t, n);
    WalkStep(g, t, n);
  }

  /** No path of a bounded length is longer than the longest walk. */
  lemma {:induction false} WalkBounds(g: Graph, path: seq<nat>, t: nat, f: nat)
    requires ParentsBelow(g) && PathTo(g, path, t) && |path| <= f + 1
    ensures t < |g| && |path| <= Walk(g, t, f) + 1
    decreases f
  {
    hide LongestStep;
    if |path| > 1 {
      var p := path[|path| - 2];
      WalkBounds(g, path[..|path| - 1], p, f - 1);
      StepFrom(g, g[t].parents, f - 1, p);
    }
  }

  /** In a graph without a cycle, the longest walks rank parents below their children. */
  lemma SomeRanking(g: Graph) returns (rank: seq<nat>)
    requires ParentsBelow(g) && Acyclic(g)
    ensures Ranks(g, rank)
  {
    hide Walk, LongestStep, Acyclic, CycleFree;
    var n := |g|;
    rank := seq(n, t requires 0 <= t < n => Walk(g, t, n));
    forall t, p | 0 <= t < |g| && p in g[t].parents ensures p < |g| && rank[p] < rank[t] {
      AcyclicIsFree(g, t);
      FreeWalk(g, t);
      StepFrom(g, g[t].parents, n, p);
    }
  }

  /** A ranking exists if and only if the graph has no cycle. */
  lemma RankedIffAcyclic(g: Graph)
    requires ParentsBelow(g)
    ensures (exists rank :: Ranks(g, rank)) <==> Acyclic(g)
  {
    if Acyclic(g) {
      var rank := SomeRanking(g);
    } else if rank :| Ranks(g, rank) {
      var path :| IsPath(g, path) && |path| > 1 && path[0] == path[|path| - 1];
      RankGrows(g, rank, path);
    }
  }
}
