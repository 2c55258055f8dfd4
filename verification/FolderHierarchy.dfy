/** The folder hierarchy checks of the delegated permission scan: the cycle check that runs
    on an explicit stack, and the worklist that spreads an invalid folder to its descendants. */
module FolderHierarchy {
  import opened Outcomes
  import opened Digraph

  /** A folder row: its id is the key, its value the parent ids Drive reported. */
  type Folders = map<string, seq<string>>

  function KeepInScope(parents: seq<string>, scope: set<string>): (kept: seq<string>)
    ensures forall x :: x in kept <==> x in parents && x in scope
  {
    if parents == [] then []
    else (if parents[0] in scope then [parents[0]] else []) + KeepInScope(parents[1..], scope)
  }

  /** The parent relation with the parents outside the scope left out. */
  function ParentEdges(folders: Folders): (edges: Graph)
    ensures edges.Keys == folders.Keys
    ensures forall a, b :: Edge(edges, a, b) <==> a in folders && b in folders[a] && b in folders
  {
    map f | f in folders :: KeepInScope(folders[f], folders.Keys)
  }

  // ----- the cycle check

  /** One entry of the stack: a folder and how far the iterator over its parents has gone. */
  datatype Frame = Frame(node: string, next: nat)

  /** What the iterators of the stack have passed is finished, save the child each waits for. */
  ghost predicate ScannedAt(edges: Graph, stack: seq<Frame>, path: seq<string>, visited: set<string>, k: nat)
    requires k < |stack| == |path|
  {
    && stack[k].node == path[k] && path[k] in edges
    && Passed(edges[path[k]], stack[k].next, if k + 1 < |stack| then Some(path[k + 1]) else None, visited)
  }

  ghost predicate Passed(parents: seq<string>, next: nat, child: Option<string>, visited: set<string>) {
    && next <= |parents|
    && forall j :: 0 <= j < next ==> parents[j] in visited || child == Some(parents[j])
  }

  /** The search state: the stack is a path of the folders being visited, and the visited
      folders carry a number above that of each of their parents. */
  ghost predicate Searching(edges: Graph, stack: seq<Frame>, path: seq<string>, visiting: set<string>,
                            visited: set<string>, rank: map<string, nat>)
  {
    && Trail(edges, path, visiting)
    && Ranked(edges, rank) && rank.Keys == visited && visited !! visiting
    && |stack| == |path|
    && forall k :: 0 <= k < |stack| ==> ScannedAt(edges, stack, path, visited, k)
  }

  /** Resumes the iterator of the top entry: it stops at a parent on the stack, at a parent not
      yet visited, or at the end. */
  method ResumeParents(parents: seq<string>, next: nat, visiting: set<string>, visited: set<string>) returns (i: nat)
    requires next <= |parents|
    ensures next <= i <= |parents|
    ensures forall j :: next <= j < i ==> parents[j] in visited && parents[j] !in visiting
    ensures i < |parents| ==> parents[i] in visiting || parents[i] !in visited
  {
    i := next;
    while i < |parents| && parents[i] !in visiting && parents[i] in visited
      invariant next <= i <= |parents|
      invariant forall j :: next <= j < i ==> parents[j] in visited && parents[j] !in visiting
    {
      i := i + 1;
    }
  }

  lemma EntersParent(edges: Graph, stack: seq<Frame>, path: seq<string>, visiting: set<string>, visited: set<string>,
                     rank: map<string, nat>, top: Frame, i: nat, parent: string)
    requires Searching(edges, stack, path, visiting, visited, rank) && stack != [] && top == stack[|stack| - 1]
    requires top.node in edges && top.next <= i < |edges[top.node]| && edges[top.node][i] == parent && parent in edges
    requires forall j :: top.next <= j < i ==> edges[top.node][j] in visited
    requires parent !in visiting && parent !in visited
    ensures Searching(edges, stack[..|stack| - 1] + [Frame(top.node, i + 1), Frame(parent, 0)], path + [parent],
                      visiting + {parent}, visited, rank)
  {
    var stack' := stack[..|stack| - 1] + [Frame(top.node, i + 1), Frame(parent, 0)];
    assert ScannedAt(edges, stack, path, visited, |stack| - 1);
    assert Edge(edges, top.node, parent);
    TrailPush(edges, path, visiting, parent);
    forall k | 0 <= k < |stack'| ensures ScannedAt(edges, stack', path + [parent], visited, k) {
      if k < |stack| - 1 { assert ScannedAt(edges, stack, path, visited, k); }
    }
  }

  lemma LeavesFolder(edges: Graph, stack: seq<Frame>, path: seq<string>, visiting: set<string>, visited: set<string>,
                     rank: map<string, nat>, top: Frame)
    requires Searching(edges, stack, path, visiting, visited, rank) && stack != [] && top == stack[|stack| - 1]
    requires top.node in edges && forall j :: top.next <= j < |edges[top.node]| ==> edges[top.node][j] in visited
    ensures Searching(edges, stack[..|stack| - 1], path[..|path| - 1], visiting - {top.node}, visited + {top.node},
                      rank[top.node := Above(rank)])
  {
    var stack' := stack[..|stack| - 1];
    assert ScannedAt(edges, stack, path, visited, |stack| - 1);
    forall b | Edge(edges, top.node, b) ensures b in rank {
      var j :| 0 <= j < |edges[top.node]| && edges[top.node][j] == b;
    }
    RankNext(edges, rank, top.node);
    var path', visited' := path[..|path| - 1], visited + {top.node};
    forall k | 0 <= k < |stack'| ensures ScannedAt(edges, stack', path', visited', k) {
      assert ScannedAt(edges, stack, path, visited, k);
    }
  }

  lemma BeginsSearch(edges: Graph, start: string, visited: set<string>, rank: map<string, nat>)
    requires start in edges && start !in visited && Ranked(edges, rank) && rank.Keys == visited
    ensures Searching(edges, [Frame(start, 0)], [start], {start}, visited, rank)
  {
    var none: set<string> := {};
    TrailPush(edges, [], none, start);
    assert [] + [start] == [start] && none + {start} == {start};
    assert ScannedAt(edges, [Frame(start, 0)], [start], visited, 0);
  }

  /** Explores everything above one start folder that is not yet visited. */
  method SearchFrom(edges: Graph, start: string, visitedBefore: set<string>, ghost rankBefore: map<string, nat>)
    returns (cyclic: bool, visited: set<string>, ghost rank: map<string, nat>)
    requires start in edges && start !in visitedBefore
    requires forall a, b :: Edge(edges, a, b) ==> b in edges
    requires Ranked(edges, rankBefore) && rankBefore.Keys == visitedBefore
    ensures cyclic ==> !Acyclic(edges)
    ensures !cyclic ==> Ranked(edges, rank) && rank.Keys == visited && visitedBefore + {start} <= visited
  {
    cyclic, visited, rank := false, visitedBefore, rankBefore;
    var visiting := {start};
    var stack := [Frame(start, 0)];
    ghost var path := [start];
    BeginsSearch(edges, start, visited, rank);
    while stack != []
      invariant visitedBefore <= visited
      invariant start in visiting || start in visited
      invariant Searching(edges, stack, path, visiting, visited, rank)
      decreases edges.Keys - visited - visiting, |stack|
    {
      var top := stack[|stack| - 1];
      assert ScannedAt(edges, stack, path, visited, |stack| - 1);
      var parents := edges[top.node];
      var i := ResumeParents(parents, top.next, visiting, visited);
      if i < |parents| {
        var parent := parents[i];
        assert Edge(edges, top.node, parent);
        if parent in visiting {
          var p := BackEdgeClosesCycle(edges, path, visiting, parent);
          return true, visited, rank;
        }
        EntersParent(edges, stack, path, visiting, visited, rank, top, i, parent);
        assert parent in edges.Keys - visited - visiting;
        visiting := visiting + {parent};
        path := path + [parent];
        stack := stack[..|stack| - 1] + [Frame(top.node, i + 1), Frame(parent, 0)];
      } else {
        LeavesFolder(edges, stack, path, visiting, visited, rank, top);
        assert edges.Keys - (visited + {top.node}) - (visiting - {top.node}) == edges.Keys - visited - visiting;
        visiting := visiting - {top.node};
        visited := visited + {top.node};
        rank := rank[top.node := Above(rank)];
        path := path[..|path| - 1];
        stack := stack[..|stack| - 1];
      }
    }
  }

  /** Raises exactly when the in-scope parent relation has a cycle. Otherwise every folder was
      visited, and the numbers count the order in which the visits ended: parents first. */
  method ValidateAcyclic(folders: Folders) returns (r: Outcome, ghost rank: map<string, nat>)
    ensures r.Pass? <==> Acyclic(ParentEdges(folders))
    ensures r.Pass? ==> Ranked(ParentEdges(folders), rank) && rank.Keys == folders.Keys
    ensures r.Fail? ==> r.code == "folder_hierarchy_cycle"
  {
    var edges := ParentEdges(folders);
    var visited: set<string> := {};
    rank := map[];
    var starts := edges.Keys;
    while starts != {}
      invariant starts <= edges.Keys && edges.Keys - starts <= visited
      invariant Ranked(edges, rank) && rank.Keys == visited
    {
      var start :| start in starts;
      starts := starts - {start};
      if start !in visited {
        var cyclic;
        cyclic, visited, rank := SearchFrom(edges, start, visited, rank);
        if cyclic { return Fail("folder_hierarchy_cycle"), rank; }
      }
    }
    CycleStartsInGraph(edges);
    RankedExcludesCycles(edges, rank);
    r := Pass;
  }

  // ----- spreading an invalid folder to its descendants

  /** The child relation: every folder row hangs under every parent id it names. */
  function Children(folders: Folders, parent: string): set<string> {
    set f | f in folders && parent in folders[f]
  }

  ghost predicate ClosedUnderChildren(folders: Folders, s: set<string>) {
    forall f, parent :: f in folders && parent in folders[f] && parent in s ==> f in s
  }

  /** The least superset of the invalid folders that is closed under children. */
  method IncludeDescendants(invalid: set<string>, folders: Folders) returns (r: set<string>)
    ensures invalid <= r && ClosedUnderChildren(folders, r)
    ensures forall s :: invalid <= s && ClosedUnderChildren(folders, s) ==> r <= s
  {
    r := invalid;
    var pending := r;
    while pending != {}
      invariant invalid <= r <= invalid + folders.Keys && pending <= r
      invariant forall f, parent :: f in folders && parent in folders[f] && parent in r && parent !in pending ==> f in r
      invariant forall s :: invalid <= s && ClosedUnderChildren(folders, s) ==> r <= s
      decreases invalid + folders.Keys - r, pending
    {
      var parent :| parent in pending;
      var found := Children(folders, parent) - r;
      pending := pending - {parent} + found;
      forall s | invalid <= s && ClosedUnderChildren(folders, s) ensures r + found <= s {
        assert parent in s;
      }
      assert forall f :: f in folders && parent in folders[f] ==> f in Children(folders, parent);
      r := r + found;
    }
  }

  /** One parent id above f, and so on up: `a` is an ancestor of `f` along named parents. */
  ghost predicate AncestorPath(folders: Folders, p: seq<string>) {
    && |p| > 0
    && forall i :: 0 < i < |p| ==> UnderAt(folders, p, i)
  }

  ghost predicate UnderAt(folders: Folders, p: seq<string>, i: nat)
    requires 0 < i < |p|
  {
    p[i - 1] in folders && p[i] in folders[p[i - 1]]
  }

  /** Read upwards: a folder outside the result has no invalid ancestor, whatever the path. */
  lemma {:induction false} NoInvalidAncestor(folders: Folders, invalid: set<string>, r: set<string>, p: seq<string>)
    requires invalid <= r && ClosedUnderChildren(folders, r)
    requires AncestorPath(folders, p) && p[0] !in r
    ensures forall i :: 0 <= i < |p| ==> p[i] !in invalid
  {
    if |p| > 1 {
      assert UnderAt(folders, p, 1);
      var q := p[1..];
      forall i | 0 < i < |q| ensures UnderAt(folders, q, i) {
        assert UnderAt(folders, p, i + 1);
      }
      NoInvalidAncestor(folders, invalid, r, q);
      forall i | 0 <= i < |p| ensures p[i] !in invalid { if i > 0 { assert p[i] == q[i - 1]; } }
    }
  }

  ghost predicate HasInvalidAncestor(folders: Folders, invalid: set<string>, f: string) {
    exists p :: AncestorPath(folders, p) && p[0] == f && p[|p| - 1] in invalid
  }

  lemma ChildHasInvalidAncestor(folders: Folders, invalid: set<string>, c: string, parent: string)
    requires c in folders && parent in folders[c] && HasInvalidAncestor(folders, invalid, parent)
    ensures HasInvalidAncestor(folders, invalid, c)
  {
    var p :| AncestorPath(folders, p) && p[0] == parent && p[|p| - 1] in invalid;
    var q := [c] + p;
    forall i | 0 < i < |q| ensures UnderAt(folders, q, i) {
      if i > 1 { assert UnderAt(folders, p, i - 1); }
    }
    assert AncestorPath(folders, q) && q[0] == c && q[|q| - 1] in invalid;
  }

  /** The members of the result that do have an invalid ancestor are closed under children too. */
  lemma TaintedIsClosed(folders: Folders, invalid: set<string>, r: set<string>, tainted: set<string>)
    requires invalid <= r && ClosedUnderChildren(folders, r)
    requires forall g :: g in tainted <==> g in r && HasInvalidAncestor(folders, invalid, g)
    ensures invalid <= tainted && ClosedUnderChildren(folders, tainted)
  {
    forall g | g in invalid ensures g in tainted {
      assert AncestorPath(folders, [g]) && [g][0] == g;
    }
    forall c, parent | c in folders && parent in folders[c] && parent in tainted ensures c in tainted {
      ChildHasInvalidAncestor(folders, invalid, c, parent);
    }
  }

  /** The worklist result is exactly the set of folders at or below an invalid one. */
  lemma DescendantsExactly(folders: Folders, invalid: set<string>, r: set<string>, f: string)
    requires invalid <= r && ClosedUnderChildren(folders, r)
    requires forall s :: invalid <= s && ClosedUnderChildren(folders, s) ==> r <= s
    ensures f in r <==> HasInvalidAncestor(folders, invalid, f)
  {
    if f in r {
      var tainted := set g | g in r && HasInvalidAncestor(folders, invalid, g);
      TaintedIsClosed(folders, invalid, r, tainted);
    } else {
      forall p | AncestorPath(folders, p) && p[0] == f ensures p[|p| - 1] !in invalid {
        NoInvalidAncestor(folders, invalid, r, p);
      }
    }
  }
}
