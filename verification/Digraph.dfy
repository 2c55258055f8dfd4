/** Finite directed graphs over string keys (folder ids, group emails), their paths and
    cycles, and the state of a depth-first search that keeps its own stack. */
module Digraph {

  type Graph = map<string, seq<string>>

  predicate Edge(g: Graph, a: string, b: string) {
    a in g && b in g[a]
  }

  ghost predicate Path(g: Graph, p: seq<string>) {
    && |p| > 0
    && forall i :: 0 < i < |p| ==> StepAt(g, p, i)
  }

  ghost predicate StepAt(g: Graph, p: seq<string>, i: nat)
    requires 0 < i < |p|
  {
    Edge(g, p[i - 1], p[i])
  }

  ghost predicate PathBetween(g: Graph, p: seq<string>, a: string, b: string) {
    Path(g, p) && p[0] == a && p[|p| - 1] == b
  }

  ghost predicate Reaches(g: Graph, a: string, b: string) {
    exists p :: PathBetween(g, p, a, b)
  }

  ghost predicate Cycle(g: Graph, p: seq<string>) {
    |p| > 1 && Path(g, p) && p[0] == p[|p| - 1]
  }

  ghost predicate Acyclic(g: Graph) {
    !exists p :: Cycle(g, p)
  }

  /** The nodes that can be reached from one of the roots, roots included. */
  ghost predicate ReachableFrom(g: Graph, roots: set<string>, b: string) {
    exists a :: a in roots && Reaches(g, a, b)
  }

  ghost predicate CycleReachableFrom(g: Graph, roots: set<string>) {
    exists p :: Cycle(g, p) && ReachableFrom(g, roots, p[0])
  }

  lemma ReachesSelf(g: Graph, a: string)
    ensures Reaches(g, a, a)
  {
    assert PathBetween(g, [a], a, a);
  }

  lemma ReachesStep(g: Graph, a: string, b: string, c: string)
    requires Reaches(g, a, b) && Edge(g, b, c)
    ensures Reaches(g, a, c)
  {
    var p :| PathBetween(g, p, a, b);
    var q := p + [c];
    forall i | 0 < i < |q| ensures StepAt(g, q, i) {
      if i < |p| { assert StepAt(g, p, i); }
    }
    assert PathBetween(g, q, a, c);
  }

  lemma RootsReachable(g: Graph, roots: set<string>)
    ensures forall a :: a in roots ==> ReachableFrom(g, roots, a)
  {
    forall a | a in roots ensures ReachableFrom(g, roots, a) { ReachesSelf(g, a); }
  }

  lemma ReachableStep(g: Graph, roots: set<string>, b: string, c: string)
    requires ReachableFrom(g, roots, b) && Edge(g, b, c)
    ensures ReachableFrom(g, roots, c)
  {
    var a :| a in roots && Reaches(g, a, b);
    ReachesStep(g, a, b, c);
  }

  ghost predicate Closed(g: Graph, s: set<string>) {
    forall a, b :: a in s && Edge(g, a, b) ==> b in s
  }

  /** A set closed under the edges keeps every path that starts in it. */
  lemma {:induction false} ClosedKeepsPaths(g: Graph, s: set<string>, p: seq<string>)
    requires Closed(g, s) && Path(g, p) && p[0] in s
    ensures forall i :: 0 <= i < |p| ==> p[i] in s
  {
    if |p| > 1 {
      var q := p[..|p| - 1];
      forall i | 0 < i < |q| ensures StepAt(g, q, i) { assert StepAt(g, p, i); }
      ClosedKeepsPaths(g, s, q);
      assert q[|q| - 1] == p[|p| - 2];
      assert StepAt(g, p, |p| - 1);
      forall i | 0 <= i < |p| ensures p[i] in s { if i < |q| { assert p[i] == q[i]; } }
    }
  }

  lemma ClosedContainsReachable(g: Graph, roots: set<string>, s: set<string>)
    requires roots <= s && Closed(g, s)
    ensures forall b :: ReachableFrom(g, roots, b) ==> b in s
  {
    forall b | ReachableFrom(g, roots, b) ensures b in s {
      var a :| a in roots && Reaches(g, a, b);
      var p :| PathBetween(g, p, a, b);
      ClosedKeepsPaths(g, s, p);
    }
  }

  // ----- numbering the nodes so that every edge goes down

  /** Every numbered node has only numbered successors, each with a smaller number. */
  ghost predicate Ranked(g: Graph, rank: map<string, nat>) {
    && rank.Keys <= g.Keys
    && forall a, b :: a in rank && Edge(g, a, b) ==> b in rank && rank[b] < rank[a]
  }

  lemma {:induction false} RankFallsAlong(g: Graph, rank: map<string, nat>, p: seq<string>)
    requires Ranked(g, rank) && Path(g, p) && p[0] in rank
    ensures p[|p| - 1] in rank && rank[p[|p| - 1]] <= rank[p[0]] - (|p| - 1)
  {
    if |p| > 1 {
      var q := p[..|p| - 1];
      forall i | 0 < i < |q| ensures StepAt(g, q, i) { assert StepAt(g, p, i); }
      RankFallsAlong(g, rank, q);
      assert StepAt(g, p, |p| - 1);
    }
  }

  lemma RankedExcludesCycles(g: Graph, rank: map<string, nat>)
    requires Ranked(g, rank)
    ensures forall p :: Cycle(g, p) ==> p[0] !in rank
  {
    forall p | Cycle(g, p) ensures p[0] !in rank {
      if p[0] in rank { RankFallsAlong(g, rank, p); }
    }
  }

  lemma CycleStartsInGraph(g: Graph)
    ensures forall p :: Cycle(g, p) ==> p[0] in g
  {
    forall p | Cycle(g, p) ensures p[0] in g { assert StepAt(g, p, 1); }
  }

  ghost function Above(rank: map<string, nat>): (n: nat)
    ensures forall a :: a in rank ==> rank[a] < n
  {
    if rank == map[] then 0 else
      var a :| a in rank;
      var rest := map b | b in rank && b != a :: rank[b];
      var m := Above(rest);
      assert forall b :: b in rank ==> b == a || b in rest;
      if rank[a] < m then m else rank[a] + 1
  }

  /** Gives the next number to a node all of whose successors are numbered. */
  lemma RankNext(g: Graph, rank: map<string, nat>, a: string)
    requires Ranked(g, rank) && a in g && a !in rank
    requires forall b :: Edge(g, a, b) ==> b in rank
    ensures Ranked(g, rank[a := Above(rank)])
  {
  }

  // ----- depth-first search with an explicit stack

  /** The stack is a path of unnumbered nodes without repetition, and `visiting` its nodes. */
  ghost predicate Trail(g: Graph, path: seq<string>, visiting: set<string>) {
    if path == [] then visiting == {}
    else
      var last := path[|path| - 1];
      && last in g && last in visiting
      && (|path| > 1 ==> Edge(g, path[|path| - 2], last))
      && Trail(g, path[..|path| - 1], visiting - {last})
  }

  lemma TrailPush(g: Graph, path: seq<string>, visiting: set<string>, b: string)
    requires Trail(g, path, visiting) && b in g && b !in visiting
    requires path != [] ==> Edge(g, path[|path| - 1], b)
    ensures Trail(g, path + [b], visiting + {b})
  {
    assert (path + [b])[..|path|] == path;
    assert visiting + {b} - {b} == visiting;
  }

  lemma {:induction false} TrailReachesTop(g: Graph, path: seq<string>, visiting: set<string>, b: string)
    requires Trail(g, path, visiting) && b in visiting
    ensures path != [] && Reaches(g, b, path[|path| - 1])
  {
    var last := path[|path| - 1];
    if b == last {
      ReachesSelf(g, b);
    } else {
      TrailReachesTop(g, path[..|path| - 1], visiting - {last}, b);
      ReachesStep(g, b, path[|path| - 2], last);
    }
  }

  /** Meeting a node that is still on the stack closes a cycle. */
  lemma BackEdgeClosesCycle(g: Graph, path: seq<string>, visiting: set<string>, b: string) returns (p: seq<string>)
    requires Trail(g, path, visiting) && path != [] && b in visiting && Edge(g, path[|path| - 1], b)
    ensures Cycle(g, p) && p[0] == b
  {
    TrailReachesTop(g, path, visiting, b);
    var q :| PathBetween(g, q, b, path[|path| - 1]);
    p := q + [b];
    forall i | 0 < i < |p| ensures StepAt(g, p, i) {
      if i < |q| { assert StepAt(g, q, i); }
    }
  }
}
