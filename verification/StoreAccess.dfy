/** The whole store holds the tuples of many connections. A view of one connection's documents
    depends on that connection's tuples alone. */
module StoreAccess {
  import opened Identifiers
  import opened TupleStore
  import opened DesiredState
  import opened DriveAccess
  import GroupResolver

  /** The two agree on all that the connection manages. */
  ghost predicate Agree(store: set<PermissionTuple>, scoped: set<PermissionTuple>, prefix: string) {
    forall t :: Managed(t, prefix) ==> (t in store <==> t in scoped)
  }

  /** Groups and folders that the tuples point at are the connection's own. */
  ghost predicate PointsWithin(tuples: set<PermissionTuple>, prefix: string) {
    forall t :: t in tuples && t.subjectType in {"kgm/group", "kgm/folder"} ==> prefix <= t.subjectId
  }

  lemma {:induction false} MembersAgree(store: set<PermissionTuple>, scoped: set<PermissionTuple>, prefix: string, group: string, user: string, n: nat)
    requires Agree(store, scoped, prefix) && PointsWithin(scoped, prefix) && prefix <= group
    ensures MemberWithin(store, group, user, n) <==> MemberWithin(scoped, group, user, n)
    decreases n
  {
    assert MANAGED_RESOURCE_TYPES[0] == "kgm/group";
    assert Managed(PermissionTuple("kgm/group", group, "member", "kgm/user", user, ""), prefix);
    if n > 0 {
      forall h ensures PermissionTuple("kgm/group", group, "member", "kgm/group", h, "member") in store
                  <==> PermissionTuple("kgm/group", group, "member", "kgm/group", h, "member") in scoped {
        assert Managed(PermissionTuple("kgm/group", group, "member", "kgm/group", h, "member"), prefix);
      }
      forall h | PermissionTuple("kgm/group", group, "member", "kgm/group", h, "member") in scoped
        ensures MemberWithin(store, h, user, n - 1) <==> MemberWithin(scoped, h, user, n - 1)
      {
        MembersAgree(store, scoped, prefix, h, user, n - 1);
      }
    }
  }

  lemma HoldAgree(store: set<PermissionTuple>, scoped: set<PermissionTuple>, prefix: string, kind: string, id: string, relation: string, user: string)
    requires Agree(store, scoped, prefix) && PointsWithin(scoped, prefix) && prefix <= id && kind in {"kgm/folder", "kgm/document"}
    ensures Holds(store, kind, id, relation, user) <==> Holds(scoped, kind, id, relation, user)
  {
    hide MemberWithin;
    assert MANAGED_RESOURCE_TYPES[1] == "kgm/folder" && MANAGED_RESOURCE_TYPES[2] == "kgm/document";
    assert Managed(PermissionTuple(kind, id, relation, "kgm/user", user, ""), prefix);
    forall g ensures PermissionTuple(kind, id, relation, "kgm/group", g, "member") in store
                <==> PermissionTuple(kind, id, relation, "kgm/group", g, "member") in scoped {
      assert Managed(PermissionTuple(kind, id, relation, "kgm/group", g, "member"), prefix);
    }
    forall g, n: nat | PermissionTuple(kind, id, relation, "kgm/group", g, "member") in scoped
      ensures MemberWithin(store, g, user, n) <==> MemberWithin(scoped, g, user, n)
    {
      MembersAgree(store, scoped, prefix, g, user, n);
    }
  }

  lemma {:induction false} ViewsAgree(store: set<PermissionTuple>, scoped: set<PermissionTuple>, prefix: string, kind: string, id: string, user: string, n: nat)
    requires Agree(store, scoped, prefix) && PointsWithin(scoped, prefix) && prefix <= id && kind in {"kgm/folder", "kgm/document"}
    ensures ViewsWithin(store, kind, id, user, n) <==> ViewsWithin(scoped, kind, id, user, n)
    decreases n
  {
    hide Holds;
    forall relation ensures Holds(store, kind, id, relation, user) <==> Holds(scoped, kind, id, relation, user) {
      HoldAgree(store, scoped, prefix, kind, id, relation, user);
    }
    if n > 0 {
      assert MANAGED_RESOURCE_TYPES[1] == "kgm/folder" && MANAGED_RESOURCE_TYPES[2] == "kgm/document";
      forall f ensures PermissionTuple(kind, id, "parent", "kgm/folder", f, "") in store
                  <==> PermissionTuple(kind, id, "parent", "kgm/folder", f, "") in scoped {
        assert Managed(PermissionTuple(kind, id, "parent", "kgm/folder", f, ""), prefix);
      }
      forall f | PermissionTuple(kind, id, "parent", "kgm/folder", f, "") in scoped
        ensures ViewsWithin(store, "kgm/folder", f, user, n - 1) <==> ViewsWithin(scoped, "kgm/folder", f, user, n - 1)
      {
        ViewsAgree(store, scoped, prefix, "kgm/folder", f, user, n - 1);
      }
    }
  }

  lemma DesiredPointsWithin(scan: Scan, unresolved: set<string>, memberships: map<string, GroupResolver.Membership>, r: SyncResult)
    requires Exact(scan, unresolved, memberships, r)
    ensures PointsWithin(r.desired, ConnectionPrefix(scan.c))
  {
    hide Digest, ConnectionPrefix, PrincipalEmail, SafelyInherited, Usable;
    forall t | t in r.desired && t.subjectType in {"kgm/group", "kgm/folder"} ensures ConnectionPrefix(scan.c) <= t.subjectId {
      if FromGroups(scan.c, memberships, memberships.Keys, t) {
        var g :| g in memberships && t in GroupTuples(scan.c, g, memberships[g]);
      }
    }
  }

  /** Once the store holds what a scan desires of the connection, whatever it holds of others, a user
      may view exactly the eligible documents whose own list, or one at or above a parent folder,
      lets the user in. */
  lemma StoreViewIsAccess(scan: Scan, unresolved: set<string>, memberships: map<string, GroupResolver.Membership>, r: SyncResult,
                          store: set<PermissionTuple>, d: nat, email: string)
    requires Computed(scan, unresolved, memberships, r) && ManagedOf(store, ConnectionPrefix(scan.c)) == r.desired
    ensures Views(store, "kgm/document", DocumentId(scan.c, d), UserId(scan.c, email))
       <==> d in r.eligible && d in scan.documents && DocumentOpens(scan, unresolved, d, Normalize(email))
  {
    hide Computed, ViewsWithin, DocumentOpens;
    assert Exact(scan, unresolved, memberships, r) by { ComputedIsExact(scan, unresolved, memberships, r); }
    var prefix := ConnectionPrefix(scan.c);
    DesiredPointsWithin(scan, unresolved, memberships, r);
    forall t | Managed(t, prefix) ensures t in store <==> t in r.desired {
      assert t in ManagedOf(store, prefix) <==> t in store;
    }
    forall n: nat ensures ViewsWithin(store, "kgm/document", DocumentId(scan.c, d), UserId(scan.c, email), n)
                     <==> ViewsWithin(r.desired, "kgm/document", DocumentId(scan.c, d), UserId(scan.c, email), n) {
      ViewsAgree(store, r.desired, prefix, "kgm/document", DocumentId(scan.c, d), UserId(scan.c, email), n);
    }
    ViewIsAccess(scan, unresolved, memberships, r, d, email);
  }

  lemma ComputedIsExact(scan: Scan, unresolved: set<string>, memberships: map<string, GroupResolver.Membership>, r: SyncResult)
    requires Computed(scan, unresolved, memberships, r)
    ensures Exact(scan, unresolved, memberships, r)
  {
  }
}
