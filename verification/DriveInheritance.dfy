/** An entry that a parent in scope carries gets no tuple of its own. Leaving it out loses nobody, as
    long as the parent's list does hold it. */
module DriveInheritance {
  import opened Outcomes
  import opened Digraph
  import opened FolderHierarchy
  import opened Identifiers
  import opened DesiredState
  import opened DriveAccess
  import GroupResolver

  predicate SamePrincipal(q: Permission, p: Permission) {
    !q.deleted && q.kind == p.kind && PrincipalEmail(q) == PrincipalEmail(p)
  }

  ghost predicate InList(snapshot: Option<Snapshot>, p: Permission) {
    snapshot.Some? && exists i :: 0 <= i < |snapshot.value.permissions| && SamePrincipal(snapshot.value.permissions[i], p)
  }

  /** An entry for the same principal stands in the folder's list. */
  ghost predicate StandsIn(scan: Scan, f: string, p: Permission) {
    f in scan.folders && InList(scan.folders[f].snapshot, p)
  }

  /** What is said to come from a parent in scope does stand in that parent's list. */
  ghost predicate InheritsTruly(scan: Scan, parents: seq<string>, p: Permission) {
    forall j :: 0 <= j < |p.details| && ComesFromParent(p.details[j], parents, scan.folders.Keys) ==> StandsIn(scan, p.details[j].inheritedFrom.value, p)
  }

  ghost predicate ListInheritsTruly(scan: Scan, parents: seq<string>, snapshot: Option<Snapshot>) {
    snapshot.Some? ==> forall i :: 0 <= i < |snapshot.value.permissions| ==> InheritsTruly(scan, parents, snapshot.value.permissions[i])
  }

  ghost predicate FoldersInheritTruly(scan: Scan) {
    forall f :: f in scan.folders ==> ListInheritsTruly(scan, scan.folders[f].parents, scan.folders[f].snapshot)
  }

  /** No folder at or above f has a list that cannot be expressed. */
  ghost predicate UsableAbove(scan: Scan, unresolved: set<string>, f: string) {
    !HasInvalidAncestor(scan.Hierarchy(), scan.Unusable(unresolved), f)
  }

  lemma UsableAboveStep(scan: Scan, unresolved: set<string>, f: string)
    requires UsableAbove(scan, unresolved, f) && f in scan.folders
    ensures Usable(scan.folders[f].snapshot, unresolved)
    ensures forall parent :: parent in scan.folders[f].parents ==> UsableAbove(scan, unresolved, parent)
  {
    assert AncestorPath(scan.Hierarchy(), [f]);
    forall parent | parent in scan.folders[f].parents ensures UsableAbove(scan, unresolved, parent) {
      if HasInvalidAncestor(scan.Hierarchy(), scan.Unusable(unresolved), parent) {
        ChildHasInvalidAncestor(scan.Hierarchy(), scan.Unusable(unresolved), f, parent);
      }
    }
  }

  /** The entry is the resource's own, or a parent in scope has it too. */
  lemma OwnOrAbove(scan: Scan, parents: seq<string>, snapshot: Option<Snapshot>, p: Permission, email: string) returns (parent: Option<string>)
    requires ListInheritsTruly(scan, parents, snapshot) && InList(snapshot, p) && Names(scan.directory, p, email)
    ensures parent.None? ==> Admits(scan, parents, snapshot, email)
    ensures parent.Some? ==> parent.value in parents && StandsIn(scan, parent.value, p)
  {
    hide PrincipalEmail, Lists;
    var ps := snapshot.value.permissions;
    var i :| 0 <= i < |ps| && SamePrincipal(ps[i], p);
    if OwnEntry(ps[i], parents, scan.folders.Keys) {
      parent := None;
      assert Names(scan.directory, ps[i], email);
    } else {
      assert InheritsTruly(scan, parents, ps[i]);
      assert ComesFromParent(ps[i].details[0], parents, scan.folders.Keys);
      parent := Some(ps[i].details[0].inheritedFrom.value);
      var k :| 0 <= k < |scan.folders[parent.value].snapshot.value.permissions| && SamePrincipal(scan.folders[parent.value].snapshot.value.permissions[k], ps[i]);
      assert SamePrincipal(scan.folders[parent.value].snapshot.value.permissions[k], p);
    }
  }

  /** Follows the inheritance up to the folder that has the entry as its own. */
  lemma {:induction false} InheritedOpens(scan: Scan, unresolved: set<string>, path: seq<string>, visiting: set<string>,
                                          f: string, p: Permission, email: string) returns (n: nat)
    requires Acyclic(ParentEdges(scan.Hierarchy())) && FoldersInheritTruly(scan)
    requires Trail(ParentEdges(scan.Hierarchy()), path, visiting) && path != [] && path[|path| - 1] == f && visiting <= scan.folders.Keys
    requires UsableAbove(scan, unresolved, f) && StandsIn(scan, f, p) && Names(scan.directory, p, email)
    ensures FolderOpensWithin(scan, unresolved, f, email, n)
    decreases scan.folders.Keys - visiting
  {
    hide Usable, Acyclic, UsableAbove, Names, Admits, InList, ListInheritsTruly, Trail;
    UsableAboveStep(scan, unresolved, f);
    var row := scan.folders[f];
    assert SameFolder(f, f);
    var above := OwnOrAbove(scan, row.parents, row.snapshot, p, email);
    if above.None? {
      n := 0;
    } else {
      var parent := above.value;
      var m := InheritedAbove(scan, unresolved, path, visiting, f, parent, p, email);
      var k :| 0 <= k < |row.parents| && row.parents[k] == parent;
      n := m + 1;
      assert FolderOpensWithin(scan, unresolved, row.parents[k], email, n - 1);
    }
  }

  lemma {:induction false} InheritedAbove(scan: Scan, unresolved: set<string>, path: seq<string>, visiting: set<string>,
                                          f: string, parent: string, p: Permission, email: string) returns (n: nat)
    requires Acyclic(ParentEdges(scan.Hierarchy())) && FoldersInheritTruly(scan)
    requires Trail(ParentEdges(scan.Hierarchy()), path, visiting) && path != [] && path[|path| - 1] == f && visiting <= scan.folders.Keys
    requires f in scan.folders && parent in scan.folders[f].parents && UsableAbove(scan, unresolved, parent)
    requires StandsIn(scan, parent, p) && Names(scan.directory, p, email)
    ensures FolderOpensWithin(scan, unresolved, parent, email, n)
    decreases scan.folders.Keys - visiting, 0
  {
    hide Usable, UsableAbove, Names, FolderOpensWithin, InList, FoldersInheritTruly, Trail;
    var edges := ParentEdges(scan.Hierarchy());
    assert Edge(edges, f, parent);
    if parent in visiting {
      var cycle := BackEdgeClosesCycle(edges, path, visiting, parent);
      assert false;
    } else {
      TrailPush(edges, path, visiting, parent);
      assert parent in scan.folders.Keys - visiting;
      n := InheritedOpens(scan, unresolved, path + [parent], visiting + {parent}, parent, p, email);
    }
  }

  lemma ParentOpens(scan: Scan, unresolved: set<string>, parent: string, p: Permission, email: string) returns (n: nat)
    requires Acyclic(ParentEdges(scan.Hierarchy())) && FoldersInheritTruly(scan)
    requires UsableAbove(scan, unresolved, parent) && StandsIn(scan, parent, p) && Names(scan.directory, p, email)
    ensures FolderOpensWithin(scan, unresolved, parent, email, n)
  {
    hide Usable, UsableAbove, Names, FolderOpensWithin, InList, FoldersInheritTruly, Acyclic;
    TrailPush(ParentEdges(scan.Hierarchy()), [], {}, parent);
    assert [] + [parent] == [parent] && {} + {parent} == {parent};
    n := InheritedOpens(scan, unresolved, [parent], {parent}, parent, p, email);
  }

  lemma EligibleIsUsableAbove(scan: Scan, unresolved: set<string>, memberships: map<string, GroupResolver.Membership>, r: SyncResult, d: nat)
    requires Computed(scan, unresolved, memberships, r) && d in r.eligible && d in scan.documents
    ensures forall parent :: parent in scan.documents[d].parents ==> UsableAbove(scan, unresolved, parent)
  {
    hide Exact, GroupsSettled, Folded, HasInvalidAncestor, ExcludedFor;
    assert Eligible(scan, unresolved, d);
  }

  /** Whom any entry of an eligible document names, its own or inherited, may view it. */
  lemma InheritedKeepAccess(scan: Scan, unresolved: set<string>, memberships: map<string, GroupResolver.Membership>, r: SyncResult,
                            d: nat, p: Permission, email: string)
    requires Computed(scan, unresolved, memberships, r) && Acyclic(ParentEdges(scan.Hierarchy()))
    requires d in r.eligible && d in scan.documents
    requires FoldersInheritTruly(scan) && ListInheritsTruly(scan, scan.documents[d].parents, scan.documents[d].snapshot)
    requires InList(scan.documents[d].snapshot, p) && Names(scan.directory, p, Normalize(email))
    ensures Views(r.desired, "kgm/document", DocumentId(scan.c, d), UserId(scan.c, email))
  {
    hide Normalize, UserId, DocumentId, Computed, Acyclic, Names, FolderOpensWithin, InList, FoldersInheritTruly, ListInheritsTruly, Views, Admits, UsableAbove;
    var row := scan.documents[d];
    ViewIsAccess(scan, unresolved, memberships, r, d, email);
    EligibleIsUsableAbove(scan, unresolved, memberships, r, d);
    var above := OwnOrAbove(scan, row.parents, row.snapshot, p, Normalize(email));
    if above.Some? {
      var n := ParentOpens(scan, unresolved, above.value, p, Normalize(email));
      var i :| 0 <= i < |row.parents| && row.parents[i] == above.value;
      assert FolderOpensWithin(scan, unresolved, row.parents[i], Normalize(email), n);
    }
  }
}
