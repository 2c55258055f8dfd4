/** Resolution of nested Google groups: a depth-first search on an explicit stack over a
    membership graph that is only discovered by fetching one group after another. */
module GroupResolver {
  import opened Outcomes
  import opened Digraph
  import opened Identifiers

  datatype Membership = Membership(users: set<string>, childGroups: set<string>)

  /** One entry of a member list; the status may be missing. */
  datatype Member = Member(email: string, kind: string, status: Option<string>)

  /** An active member of the kind whose folded address is the given one. */
  predicate IsActive(m: Member, kind: string, email: string) {
    m.kind == kind && email != "" && Normalize(m.email) == email && (m.status.Some? ==> m.status.value == "ACTIVE")
  }

  ghost predicate OnPage(page: seq<Member>, kind: string, email: string) {
    exists i :: 0 <= i < |page| && IsActive(page[i], kind, email)
  }

  ghost predicate OnPages(pages: seq<seq<Member>>, kind: string, email: string) {
    exists k :: 0 <= k < |pages| && OnPage(pages[k], kind, email)
  }

  method ReadPage(page: seq<Member>, users: set<string>, children: set<string>) returns (users': set<string>, children': set<string>)
    ensures forall e :: e in users' <==> e in users || OnPage(page, "USER", e)
    ensures forall e :: e in children' <==> e in children || OnPage(page, "GROUP", e)
  {
    users', children' := users, children;
    for i := 0 to |page|
      invariant forall e :: e in users' <==> e in users || OnPage(page[..i], "USER", e)
      invariant forall e :: e in children' <==> e in children || OnPage(page[..i], "GROUP", e)
    {
      assert page[..i + 1] == page[..i] + [page[i]];
      MorePage(page[..i], page[i]);
      var email := Normalize(page[i].email);
      if email == "" || (page[i].status.Some? && page[i].status.value != "ACTIVE") { continue; }
      if page[i].kind == "GROUP" {
        children' := children' + {email};
      } else if page[i].kind == "USER" {
        users' := users' + {email};
      }
    }
    assert page[..|page|] == page;
  }

  lemma MorePage(page: seq<Member>, m: Member)
    ensures forall kind, e :: OnPage(page + [m], kind, e) <==> OnPage(page, kind, e) || IsActive(m, kind, e)
  {
    forall kind, e ensures OnPage(page + [m], kind, e) <==> OnPage(page, kind, e) || IsActive(m, kind, e) {
      if OnPage(page, kind, e) {
        var i :| 0 <= i < |page| && IsActive(page[i], kind, e);
        assert IsActive((page + [m])[i], kind, e);
      }
      if IsActive(m, kind, e) { assert IsActive((page + [m])[|page|], kind, e); }
    }
  }

  /** The membership is that of all pages; its addresses are folded. */
  method FetchMembership(pages: seq<seq<Member>>) returns (m: Membership)
    ensures forall e :: e in m.users <==> OnPages(pages, "USER", e)
    ensures forall e :: e in m.childGroups <==> OnPages(pages, "GROUP", e)
    ensures forall e :: e in m.users + m.childGroups ==> Normalize(e) == e
  {
    var users, children := {}, {};
    for k := 0 to |pages|
      invariant forall e :: e in users <==> OnPages(pages[..k], "USER", e)
      invariant forall e :: e in children <==> OnPages(pages[..k], "GROUP", e)
    {
      users, children := ReadPage(pages[k], users, children);
      assert pages[..k + 1] == pages[..k] + [pages[k]];
      assert forall i :: 0 <= i < k ==> pages[..k + 1][i] == pages[..k][i];
    }
    assert pages[..|pages|] == pages;
    m := Membership(users, children);
    forall e | e in m.users + m.childGroups ensures Normalize(e) == e {
      var kind := if e in m.users then "USER" else "GROUP";
      var k :| 0 <= k < |pages| && OnPage(pages[k], kind, e);
      var i :| 0 <= i < |pages[k]| && IsActive(pages[k][i], kind, e);
      FoldedOnce(pages[k][i].email);
    }
  }

  /** What the directory would answer. A group that is missing here fails to be fetched. */
  type Directory = map<string, Membership>

  ghost function Listing(s: set<string>): (q: seq<string>)
    ensures forall x :: x in q <==> x in s
  {
    if s == {} then [] else var x :| x in s; [x] + Listing(s - {x})
  }

  /** The membership graph: from each group to its child groups. */
  ghost function Nesting(directory: Directory): (g: Graph)
    ensures IsNesting(g, directory)
  {
    map e | e in directory :: Listing(directory[e].childGroups)
  }

  ghost predicate IsNesting(g: Graph, directory: Directory) {
    && g.Keys == directory.Keys
    && forall a, b {:trigger Edge(g, a, b)} :: Edge(g, a, b) <==> a in directory && b in directory[a].childGroups
  }

  datatype Frame = Frame(email: string, membership: Membership, pending: seq<string>)

  /** Each child of the group is resolved, still pending, or being resolved just above. */
  ghost predicate FrameAt(directory: Directory, stack: seq<Frame>, path: seq<string>, resolved: map<string, Membership>, k: nat)
    requires k < |stack| == |path|
  {
    && stack[k].email == path[k] && path[k] in directory
    && stack[k].membership == directory[path[k]]
    && Awaiting(stack[k], if k + 1 < |stack| then Some(path[k + 1]) else None, resolved)
  }

  ghost predicate Awaiting(f: Frame, child: Option<string>, resolved: map<string, Membership>) {
    && (forall c :: c in f.membership.childGroups ==> c in resolved || c in f.pending || child == Some(c))
    && (forall c :: c in f.pending ==> c in f.membership.childGroups)
  }

  /** The search state. The stack is a path of the groups being resolved; the resolved groups
      carry a number above that of each of their children; every group found so far was
      fetched once and is reachable from the request. */
  ghost predicate Resolving(directory: Directory, g: Graph, roots: set<string>, stack: seq<Frame>, path: seq<string>, visiting: set<string>,
                            resolved: map<string, Membership>, rank: map<string, nat>, fetches: map<string, nat>)
  {
    && Trail(g, path, visiting)
    && Frames(directory, stack, path, resolved)
    && Settled(directory, g, resolved, rank)
    && (forall x :: x in fetches <==> x in visiting || x in resolved)
    && (forall x :: x in visiting ==> x !in resolved)
    && FetchedOnce(directory, g, roots, fetches)
  }

  ghost predicate Frames(directory: Directory, stack: seq<Frame>, path: seq<string>, resolved: map<string, Membership>) {
    |stack| == |path| && forall k :: 0 <= k < |stack| ==> FrameAt(directory, stack, path, resolved, k)
  }

  ghost predicate FetchedOnce(directory: Directory, g: Graph, roots: set<string>, fetches: map<string, nat>) {
    forall x :: x in fetches ==> fetches[x] == 1 && ReachableFrom(g, roots, x)
  }

  /** The fetch counts after one more call. */
  ghost function Fetched(fetches: map<string, nat>, email: string): map<string, nat> {
    fetches[email := (if email in fetches then fetches[email] else 0) + 1]
  }

  ghost predicate Settled(directory: Directory, g: Graph, resolved: map<string, Membership>, rank: map<string, nat>) {
    && Ranked(g, rank) && rank.Keys == resolved.Keys
    && forall e :: e in resolved ==> e in directory && resolved[e] == directory[e]
  }

  method Sorted(s: set<string>) returns (q: seq<string>)
    ensures forall x :: x in q <==> x in s
  {
    q := [];
    var rest := s;
    while rest != {}
      invariant rest <= s
      invariant forall x :: x in q <==> x in s - rest
    {
      var x :| x in rest;
      q := q + [x];
      rest := rest - {x};
    }
  }

  /** Drops the children that were resolved meanwhile from the front of the pending list. */
  method SkipResolved(pending: seq<string>, resolved: map<string, Membership>) returns (rest: seq<string>)
    ensures forall c :: c in pending ==> c in rest || c in resolved
    ensures forall c :: c in rest ==> c in pending
    ensures rest != [] ==> rest[0] !in resolved
  {
    rest := pending;
    while rest != [] && rest[0] in resolved
      invariant forall c :: c in pending ==> c in rest || c in resolved
      invariant forall c :: c in rest ==> c in pending
    {
      assert forall c :: c in rest ==> c == rest[0] || c in rest[1..];
      rest := rest[1..];
    }
  }

  /** Fetches a group found on top of the stack, or the first one on an empty stack. */
  lemma PushesGroup(directory: Directory, g: Graph, roots: set<string>, stack: seq<Frame>, path: seq<string>, visiting: set<string>,
                    resolved: map<string, Membership>, rank: map<string, nat>, fetches: map<string, nat>,
                    email: string, pending: seq<string>)
    requires Resolving(directory, g, roots, stack, path, visiting, resolved, rank, fetches)
    requires email in directory && email in g && email !in visiting && email !in resolved
    requires ReachableFrom(g, roots, email)
    requires path != [] ==> Edge(g, path[|path| - 1], email)
    requires forall c :: c in pending <==> c in directory[email].childGroups
    ensures Resolving(directory, g, roots, stack + [Frame(email, directory[email], pending)], path + [email], visiting + {email},
                      resolved, rank, Fetched(fetches, email))
  {
    TrailPush(g, path, visiting, email);
    FramesPush(directory, stack, path, resolved, email, pending);
  }

  lemma FramesPush(directory: Directory, stack: seq<Frame>, path: seq<string>, resolved: map<string, Membership>,
                   email: string, pending: seq<string>)
    requires Frames(directory, stack, path, resolved) && email in directory
    requires forall c :: c in pending <==> c in directory[email].childGroups
    ensures Frames(directory, stack + [Frame(email, directory[email], pending)], path + [email], resolved)
  {
    var frame := Frame(email, directory[email], pending);
    var stack' := stack + [frame];
    assert Awaiting(frame, None, resolved);
    forall k | 0 <= k < |stack'| ensures FrameAt(directory, stack', path + [email], resolved, k) {
      if k < |stack| {
        assert FrameAt(directory, stack, path, resolved, k);
        assert Awaiting(stack[k], if k + 1 < |stack| then Some(path[k + 1]) else None, resolved);
      }
    }
  }

  /** The pending list of the top entry may lose what is resolved. */
  lemma TakesPending(directory: Directory, g: Graph, roots: set<string>, stack: seq<Frame>, path: seq<string>, visiting: set<string>,
                     resolved: map<string, Membership>, rank: map<string, nat>, fetches: map<string, nat>,
                     top: Frame, pending: seq<string>)
    requires Resolving(directory, g, roots, stack, path, visiting, resolved, rank, fetches) && stack != []
    requires top == stack[|stack| - 1]
    requires forall c :: c in top.pending ==> c in pending || c in resolved
    requires forall c :: c in pending ==> c in top.pending
    ensures Resolving(directory, g, roots, stack[..|stack| - 1] + [top.(pending := pending)], path, visiting, resolved, rank, fetches)
  {
    var stack' := stack[..|stack| - 1] + [top.(pending := pending)];
    forall k | 0 <= k < |stack'| ensures FrameAt(directory, stack', path, resolved, k) {
      assert FrameAt(directory, stack, path, resolved, k);
    }
  }

  /** The child just pushed may leave the pending list of the group below it. */
  lemma PopsPending(directory: Directory, g: Graph, roots: set<string>, stack: seq<Frame>, path: seq<string>, visiting: set<string>,
                    resolved: map<string, Membership>, rank: map<string, nat>, fetches: map<string, nat>, stack': seq<Frame>)
    requires Resolving(directory, g, roots, stack, path, visiting, resolved, rank, fetches) && |stack| >= 2
    requires var f := stack[|stack| - 2];
             && f.pending != [] && f.pending[0] == stack[|stack| - 1].email
             && stack' == stack[..|stack| - 2] + [f.(pending := f.pending[1..]), stack[|stack| - 1]]
    ensures Resolving(directory, g, roots, stack', path, visiting, resolved, rank, fetches)
  {
    var f := stack[|stack| - 2];
    assert forall c :: c in f.pending ==> c == f.pending[0] || c in f.pending[1..];
    assert FrameAt(directory, stack, path, resolved, |stack| - 1);
    forall k | 0 <= k < |stack'| ensures FrameAt(directory, stack', path, resolved, k) {
      assert FrameAt(directory, stack, path, resolved, k);
    }
  }

  /** A group whose pending children are all resolved is resolved itself. */
  lemma FinishesGroup(directory: Directory, g: Graph, roots: set<string>, stack: seq<Frame>, path: seq<string>, visiting: set<string>,
                      resolved: map<string, Membership>, rank: map<string, nat>, fetches: map<string, nat>, top: Frame)
    requires Resolving(directory, g, roots, stack, path, visiting, resolved, rank, fetches) && stack != []
    requires top == stack[|stack| - 1] && forall c :: c in top.pending ==> c in resolved
    requires forall b :: Edge(g, top.email, b) ==> b in top.membership.childGroups
    ensures Resolving(directory, g, roots, stack[..|stack| - 1], path[..|path| - 1], visiting - {top.email},
                      resolved[top.email := top.membership], rank[top.email := Above(rank)], fetches)
  {
    assert FrameAt(directory, stack, path, resolved, |stack| - 1);
    RankNext(g, rank, top.email);
    FramesPop(directory, stack, path, resolved, top);
  }

  lemma FramesPop(directory: Directory, stack: seq<Frame>, path: seq<string>, resolved: map<string, Membership>, top: Frame)
    requires Frames(directory, stack, path, resolved) && stack != [] && top == stack[|stack| - 1]
    ensures Frames(directory, stack[..|stack| - 1], path[..|path| - 1], resolved[top.email := top.membership])
  {
    var stack', path' := stack[..|stack| - 1], path[..|path| - 1];
    var resolved' := resolved[top.email := top.membership];
    assert FrameAt(directory, stack, path, resolved, |stack| - 1);
    forall k | 0 <= k < |stack'| ensures FrameAt(directory, stack', path', resolved', k) {
      assert FrameAt(directory, stack, path, resolved, k);
    }
  }

  ghost predicate Fails(directory: Directory, g: Graph, roots: set<string>, code: string) {
    || (code == "Nested group cycle detected." && CycleReachableFrom(g, roots))
    || (code == "Group membership lookup failed."
        && exists e :: e !in directory && ReachableFrom(g, roots, e))
  }

  lemma FailuresAreReal(directory: Directory, roots: set<string>, code: string)
    requires Fails(directory, Nesting(directory), roots, code)
    ensures !Resolvable(directory, roots)
  {
  }

  /** Moves the next child from the pending list onto the stack. */
  lemma DescendsInto(directory: Directory, g: Graph, roots: set<string>, stack: seq<Frame>, path: seq<string>, visiting: set<string>,
                     resolved: map<string, Membership>, rank: map<string, nat>, fetches: map<string, nat>,
                     top: Frame, pending: seq<string>, email: string, children: seq<string>)
    requires Resolving(directory, g, roots, stack, path, visiting, resolved, rank, fetches) && stack != []
    requires top == stack[|stack| - 1]
    requires forall c :: c in top.pending ==> c in pending || c in resolved
    requires forall c :: c in pending ==> c in top.pending
    requires pending != [] && email == pending[0] && email in directory && email in g && email !in visiting && email !in resolved
    requires Edge(g, top.email, email)
    requires forall c :: c in children <==> c in directory[email].childGroups
    ensures Resolving(directory, g, roots,
                      stack[..|stack| - 1] + [top.(pending := pending[1..]), Frame(email, directory[email], children)],
                      path + [email], visiting + {email}, resolved, rank, Fetched(fetches, email))
  {
    assert FrameAt(directory, stack, path, resolved, |stack| - 1);
    ReachableStep(g, roots, top.email, email);
    var taken := stack[..|stack| - 1] + [top.(pending := pending)];
    var pushed := taken + [Frame(email, directory[email], children)];
    var popped := stack[..|stack| - 1] + [top.(pending := pending[1..]), Frame(email, directory[email], children)];
    TakesPending(directory, g, roots, stack, path, visiting, resolved, rank, fetches, top, pending);
    PushesGroup(directory, g, roots, taken, path, visiting, resolved, rank, fetches, email, children);
    PopsPending(directory, g, roots, pushed, path + [email], visiting + {email}, resolved, rank, Fetched(fetches, email), popped);
  }

  lemma TopOfStack(directory: Directory, g: Graph, roots: set<string>, stack: seq<Frame>, path: seq<string>, visiting: set<string>,
                   resolved: map<string, Membership>, rank: map<string, nat>, fetches: map<string, nat>)
    requires Resolving(directory, g, roots, stack, path, visiting, resolved, rank, fetches) && stack != []
    requires IsNesting(g, directory)
    ensures var top := stack[|stack| - 1];
            && top.email in visiting && top.email in fetches
            && ReachableFrom(g, roots, top.email)
            && (forall c :: c in top.pending ==> Edge(g, top.email, c) && ReachableFrom(g, roots, c))
            && (forall c :: Edge(g, top.email, c) ==> c in top.membership.childGroups)
  {
    var top := stack[|stack| - 1];
    assert FrameAt(directory, stack, path, resolved, |stack| - 1);
    forall c | c in top.pending ensures Edge(g, top.email, c) && ReachableFrom(g, roots, c) {
      assert Edge(g, top.email, c);
      ReachableStep(g, roots, top.email, c);
    }
  }

  lemma MeetsStack(directory: Directory, g: Graph, roots: set<string>, stack: seq<Frame>, path: seq<string>, visiting: set<string>,
                   resolved: map<string, Membership>, rank: map<string, nat>, fetches: map<string, nat>, email: string)
    requires Resolving(directory, g, roots, stack, path, visiting, resolved, rank, fetches) && stack != []
    requires Edge(g, stack[|stack| - 1].email, email) && email in visiting
    ensures CycleReachableFrom(g, roots)
  {
    assert FrameAt(directory, stack, path, resolved, |stack| - 1);
    var p := BackEdgeClosesCycle(g, path, visiting, email);
    assert email in fetches;
  }

  lemma StartsResolving(directory: Directory, g: Graph, roots: set<string>, resolved: map<string, Membership>,
                        rank: map<string, nat>, fetches: map<string, nat>, start: string, pending: seq<string>)
    requires Resolving(directory, g, roots, [], [], {}, resolved, rank, fetches)
    requires start in directory && start in g && start in roots && start !in resolved
    requires forall c :: c in pending <==> c in directory[start].childGroups
    ensures Resolving(directory, g, roots, [Frame(start, directory[start], pending)], [start], {start},
                      resolved, rank, Fetched(fetches, start))
  {
    RootsReachable(g, roots);
    PushesGroup(directory, g, roots, [], [], {}, resolved, rank, fetches, start, pending);
    assert [] + [Frame(start, directory[start], pending)] == [Frame(start, directory[start], pending)];
    assert [] + [start] == [start] && {} + {start} == {start};
  }

  /** Resolves everything below one group that is not yet resolved. */
  method ResolveFrom(directory: Directory, ghost g: Graph, ghost roots: set<string>, start: string, before: map<string, Membership>,
                     ghost rankBefore: map<string, nat>, ghost fetchesBefore: map<string, nat>)
    returns (failure: Option<string>, resolved: map<string, Membership>, ghost rank: map<string, nat>, ghost fetches: map<string, nat>)
    requires IsNesting(g, directory)
    requires start in roots && start !in before
    requires Resolving(directory, g, roots, [], [], {}, before, rankBefore, fetchesBefore)
    ensures failure.Some? ==> Fails(directory, g, roots, failure.value)
    ensures failure.None? ==> Resolving(directory, g, roots, [], [], {}, resolved, rank, fetches)
    ensures failure.None? ==> start in resolved && forall e :: e in before ==> e in resolved
  {
    failure, resolved, rank, fetches := None, before, rankBefore, fetchesBefore;
    if start !in directory {
      RootsReachable(g, roots);
      return Some("Group membership lookup failed."), resolved, rank, fetches;
    }
    var pending := Sorted(directory[start].childGroups);
    var visiting := {start};
    var stack := [Frame(start, directory[start], pending)];
    ghost var path := [start];
    StartsResolving(directory, g, roots, resolved, rank, fetches, start, pending);
    fetches := Fetched(fetches, start);
    while stack != []
      invariant forall e :: e in before ==> e in resolved
      invariant start in visiting || start in resolved
      invariant Resolving(directory, g, roots, stack, path, visiting, resolved, rank, fetches)
      decreases directory.Keys - fetches.Keys, |stack|
    {
      TopOfStack(directory, g, roots, stack, path, visiting, resolved, rank, fetches);
      var top := stack[|stack| - 1];
      pending := SkipResolved(top.pending, resolved);
      if pending != [] {
        var email := pending[0];
        assert email in pending;
        if email in visiting {
          MeetsStack(directory, g, roots, stack, path, visiting, resolved, rank, fetches, email);
          return Some("Nested group cycle detected."), resolved, rank, fetches;
        }
        if email !in directory { return Some("Group membership lookup failed."), resolved, rank, fetches; }
        var children := Sorted(directory[email].childGroups);
        DescendsInto(directory, g, roots, stack, path, visiting, resolved, rank, fetches, top, pending, email, children);
        assert email in directory.Keys - fetches.Keys;
        stack := stack[..|stack| - 1] + [top.(pending := pending[1..]), Frame(email, directory[email], children)];
        path, fetches := path + [email], Fetched(fetches, email);
        visiting := visiting + {email};
      } else {
        FinishesGroup(directory, g, roots, stack, path, visiting, resolved, rank, fetches, top);
        resolved := resolved[top.email := top.membership];
        visiting := visiting - {top.email};
        rank := rank[top.email := Above(rank)];
        path := path[..|path| - 1];
        stack := stack[..|stack| - 1];
      }
    }
  }

  /** Every reachable group can be fetched and no cycle of groups is reachable. */
  ghost predicate Resolvable(directory: Directory, roots: set<string>) {
    && (forall e :: ReachableFrom(Nesting(directory), roots, e) ==> e in directory)
    && !CycleReachableFrom(Nesting(directory), roots)
  }

  /** Exactly the reachable groups, each fetched once, each with its own membership. */
  ghost predicate Complete(directory: Directory, roots: set<string>, answer: map<string, Membership>, fetches: map<string, nat>) {
    && (forall e :: e in answer <==> ReachableFrom(Nesting(directory), roots, e))
    && (forall e :: e in answer ==> e in directory && answer[e] == directory[e])
    && (forall e :: e in fetches <==> e in answer)
    && (forall e :: e in fetches ==> fetches[e] == 1)
  }

  /** Succeeds exactly when the request is resolvable, and then the answer is complete. */
  method Resolve(directory: Directory, groupEmails: set<string>) returns (r: Result<map<string, Membership>>, ghost fetches: map<string, nat>)
    ensures r.Ok? <==> Resolvable(directory, groupEmails)
    ensures r.Ok? ==> Complete(directory, groupEmails, r.value, fetches)
    ensures r.Err? ==> Fails(directory, Nesting(directory), groupEmails, r.code)
  {
    var resolved: map<string, Membership> := map[];
    ghost var rank: map<string, nat> := map[];
    ghost var g := Nesting(directory);
    fetches := map[];
    var todo := groupEmails;
    while todo != {}
      invariant todo <= groupEmails
      invariant forall e :: e in groupEmails ==> e in todo || e in resolved
      invariant Resolving(directory, g, groupEmails, [], [], {}, resolved, rank, fetches)
    {
      var email :| email in todo;
      todo := todo - {email};
      if email !in resolved {
        var failure;
        failure, resolved, rank, fetches := ResolveFrom(directory, g, groupEmails, email, resolved, rank, fetches);
        if failure.Some? {
          FailuresAreReal(directory, groupEmails, failure.value);
          return Err(failure.value), fetches;
        }
      }
    }
    ResolvedIsComplete(directory, groupEmails, resolved, rank, fetches);
    r := Ok(resolved);
  }

  lemma ResolvedIsClosed(directory: Directory, g: Graph, resolved: map<string, Membership>, rank: map<string, nat>)
    requires Settled(directory, g, resolved, rank)
    ensures Closed(g, resolved.Keys)
  {
  }

  lemma ResolvedIsReachable(directory: Directory, g: Graph, roots: set<string>, resolved: map<string, Membership>,
                            rank: map<string, nat>, fetches: map<string, nat>)
    requires Resolving(directory, g, roots, [], [], {}, resolved, rank, fetches)
    requires forall e :: e in roots ==> e in resolved
    ensures forall e :: e in resolved <==> ReachableFrom(g, roots, e)
  {
    ResolvedIsClosed(directory, g, resolved, rank);
    ClosedContainsReachable(g, roots, resolved.Keys);
    forall e | e in resolved ensures ReachableFrom(g, roots, e) {
      assert e in fetches;
    }
  }

  lemma ResolvedHasNoCycle(directory: Directory, g: Graph, roots: set<string>, resolved: map<string, Membership>, rank: map<string, nat>)
    requires Settled(directory, g, resolved, rank)
    requires forall e :: e in resolved <==> ReachableFrom(g, roots, e)
    ensures !CycleReachableFrom(g, roots)
  {
    RankedExcludesCycles(g, rank);
  }

  lemma ResolvedIsComplete(directory: Directory, roots: set<string>, resolved: map<string, Membership>,
                           rank: map<string, nat>, fetches: map<string, nat>)
    requires Resolving(directory, Nesting(directory), roots, [], [], {}, resolved, rank, fetches)
    requires forall e :: e in roots ==> e in resolved
    ensures Complete(directory, roots, resolved, fetches) && Resolvable(directory, roots)
  {
    ResolvedIsReachable(directory, Nesting(directory), roots, resolved, rank, fetches);
    ResolvedHasNoCycle(directory, Nesting(directory), roots, resolved, rank);
  }
}
