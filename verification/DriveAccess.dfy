/** What the desired tuples mean once the store's schema reads them: who may view a document. The
    store's side is stated on the tuples alone, the other side on the captured lists alone. */
module DriveAccess {
  import opened Outcomes
  import opened Digraph
  import opened Identifiers
  import opened TupleStore
  import opened DesiredState
  import GroupResolver

  // ----- the store's side: the permissions of the schema

  /** `relation member: kgm/user | kgm/group#member`, through at most n nested groups. */
  ghost predicate MemberWithin(tuples: set<PermissionTuple>, group: string, user: string, n: nat)
    decreases n
  {
    || PermissionTuple("kgm/group", group, "member", "kgm/user", user, "") in tuples
    || (n > 0 && exists h :: PermissionTuple("kgm/group", group, "member", "kgm/group", h, "member") in tuples
                             && MemberWithin(tuples, h, user, n - 1))
  }

  ghost predicate BelongsTo(tuples: set<PermissionTuple>, group: string, user: string) {
    exists n: nat :: MemberWithin(tuples, group, user, n)
  }

  /** `relation r: kgm/user | kgm/group#member` */
  ghost predicate Holds(tuples: set<PermissionTuple>, kind: string, id: string, relation: string, user: string) {
    || PermissionTuple(kind, id, relation, "kgm/user", user, "") in tuples
    || exists g :: PermissionTuple(kind, id, relation, "kgm/group", g, "member") in tuples && BelongsTo(tuples, g, user)
  }

  /** The relations that make up `view`, but for the one through the parent. */
  function ViewRelations(kind: string): set<string> {
    {"reader", "commenter", "writer", "file_organizer", "organizer", "owner"}
    + if kind == "kgm/document" then {"oauth_viewer"} else {}
  }

  /** The roles that can be expressed are those whose relation lets view, once it has the schema's name. */
  lemma SupportedLetsView(kind: string, role: string)
    ensures role in SUPPORTED_ROLES <==> role != "file_organizer" && role != "oauth_viewer" && RoleRelation(role) in ViewRelations(kind)
  {
  }

  ghost predicate ViewsItself(tuples: set<PermissionTuple>, kind: string, id: string, user: string) {
    exists relation :: relation in ViewRelations(kind) && Holds(tuples, kind, id, relation, user)
  }

  /** `permission view`, through at most n folders. */
  ghost predicate ViewsWithin(tuples: set<PermissionTuple>, kind: string, id: string, user: string, n: nat)
    decreases n
  {
    || ViewsItself(tuples, kind, id, user)
    || (n > 0 && exists f :: PermissionTuple(kind, id, "parent", "kgm/folder", f, "") in tuples
                             && ViewsWithin(tuples, "kgm/folder", f, user, n - 1))
  }

  ghost predicate Views(tuples: set<PermissionTuple>, kind: string, id: string, user: string) {
    exists n: nat :: ViewsWithin(tuples, kind, id, user, n)
  }

  // ----- the captured lists' side

  /** The group, or one nested below it, lists the address. */
  ghost predicate Lists(directory: GroupResolver.Directory, group: string, email: string) {
    exists h :: Reaches(GroupResolver.Nesting(directory), group, h) && h in directory && email in directory[h].users
  }

  /** The entry names the user, itself or through a group. */
  ghost predicate Names(directory: GroupResolver.Directory, p: Permission, email: string) {
    if p.kind == "user" then PrincipalEmail(p) == email else Lists(directory, PrincipalEmail(p), email)
  }

  /** The entry is the resource's own: some part of it does not come from a parent in scope. */
  ghost predicate OwnEntry(p: Permission, parents: seq<string>, scope: set<string>) {
    && !p.deleted
    && (p.details == [] || exists j :: 0 <= j < |p.details| && !ComesFromParent(p.details[j], parents, scope))
  }

  predicate ComesFromParent(detail: Detail, parents: seq<string>, scope: set<string>) {
    && detail.inherited && detail.inheritedFrom.Some?
    && detail.inheritedFrom.value in parents && detail.inheritedFrom.value in scope
  }

  ghost predicate Admits(scan: Scan, parents: seq<string>, snapshot: Option<Snapshot>, email: string) {
    && snapshot.Some?
    && exists i :: 0 <= i < |snapshot.value.permissions| && OwnEntry(snapshot.value.permissions[i], parents, scan.folders.Keys)
                   && Names(scan.directory, snapshot.value.permissions[i], email)
  }

  /** A folder that shares the id of f: its name differs in letter case and outer whitespace at most. */
  predicate SameFolder(f: string, g: string) {
    Normalize(f) == Normalize(g)
  }

  /** Some list at the folder or at most n folders above it lets the user in. */
  ghost predicate FolderOpensWithin(scan: Scan, unresolved: set<string>, folder: string, email: string, n: nat)
    decreases n
  {
    exists f :: f in scan.folders && SameFolder(f, folder) && Usable(scan.folders[f].snapshot, unresolved)
      && (|| Admits(scan, scan.folders[f].parents, scan.folders[f].snapshot, email)
          || (n > 0 && exists i :: 0 <= i < |scan.folders[f].parents| && scan.folders[f].parents[i] in scan.folders
                                   && FolderOpensWithin(scan, unresolved, scan.folders[f].parents[i], email, n - 1)))
  }

  /** The document's list lets the user in, or one at or above a parent folder does. */
  ghost predicate DocumentOpens(scan: Scan, unresolved: set<string>, d: nat, email: string)
    requires d in scan.documents
  {
    || Admits(scan, scan.documents[d].parents, scan.documents[d].snapshot, email)
    || exists i, n: nat :: 0 <= i < |scan.documents[d].parents| && scan.documents[d].parents[i] in scan.folders
                           && FolderOpensWithin(scan, unresolved, scan.documents[d].parents[i], email, n)
  }

  /** Addresses come from the directory stripped and in lower case. */
  ghost predicate Folded(directory: GroupResolver.Directory) {
    && (forall g, e :: g in directory && e in directory[g].users ==> Normalize(e) == e)
    && (forall g, h :: g in directory && h in directory[g].childGroups ==> Normalize(h) == h)
  }

  /** What a computed scan is known to be. */
  ghost predicate Computed(scan: Scan, unresolved: set<string>, memberships: map<string, GroupResolver.Membership>, r: SyncResult) {
    && GroupsSettled(scan, unresolved, memberships)
    && Partitioned(scan, unresolved, r) && Exact(scan, unresolved, memberships, r)
    && Folded(scan.directory)
  }

  // ----- names are folded

  /** Every group resolved has a folded name, and so has each of its children. */
  lemma ResolvedIsFolded(scan: Scan, unresolved: set<string>, memberships: map<string, GroupResolver.Membership>, r: SyncResult, g: string)
    requires Computed(scan, unresolved, memberships, r) && g in memberships
    ensures Normalize(g) == g && g in scan.directory && memberships[g] == scan.directory[g]
    ensures forall h :: h in memberships[g].childGroups ==> h in memberships
    ensures forall e :: e in memberships[g].users ==> Normalize(e) == e
  {
    var nesting, roots := GroupResolver.Nesting(scan.directory), ReferencedGroups(scan);
    var a :| a in roots && Reaches(nesting, a, g);
    var p :| PathBetween(nesting, p, a, g);
    if |p| == 1 {
      ReferencedIsFolded(scan, g);
    } else {
      assert StepAt(nesting, p, |p| - 1);
      assert Edge(nesting, p[|p| - 2], g);
    }
    forall h | h in memberships[g].childGroups ensures h in memberships {
      assert Edge(nesting, g, h);
      ReachableStep(nesting, roots, g, h);
    }
  }

  lemma ReferencedIsFolded(scan: Scan, g: string)
    requires g in ReferencedGroups(scan)
    ensures Normalize(g) == g
  {
    hide Normalize;
    var snapshot: Option<Snapshot> :| snapshot.Some? && g in GroupsOf(snapshot);
    var ps := snapshot.value.permissions;
    assert g in GroupsOf(snapshot) <==> snapshot.Some? && References(ps, g);
    var i :| 0 <= i < |ps| && !ps[i].deleted && ps[i].kind == "group" && g != "" && PrincipalEmail(ps[i]) == g;
    FoldedOnce(ps[i].emailAddress.value);
  }

  // ----- groups

  lemma GroupTupleIn(scan: Scan, unresolved: set<string>, memberships: map<string, GroupResolver.Membership>, r: SyncResult, t: PermissionTuple)
    requires Exact(scan, unresolved, memberships, r) && t.resourceType == "kgm/group"
    ensures t in r.desired <==> FromGroups(scan.c, memberships, memberships.Keys, t)
  {
    TupleKinds(scan, unresolved, memberships, t);
    if FromDocuments(scan, r.eligible.Keys, t) {
      var d := OwnTuple(scan, r.eligible.Keys, t);
    }
  }

  lemma SameGroupId(c: nat, g: string, h: string)
    ensures GroupId(c, g) == GroupId(c, h) <==> Normalize(g) == Normalize(h)
  {
    NamedIdsCoincide('g', c, g, c, h);
  }

  lemma SameUserId(c: nat, u: string, v: string)
    ensures UserId(c, u) == UserId(c, v) <==> Normalize(u) == Normalize(v)
  {
    NamedIdsCoincide('u', c, u, c, v);
  }

  /** A group's own users are the users of its member tuples. */
  lemma UserTuple(scan: Scan, unresolved: set<string>, memberships: map<string, GroupResolver.Membership>, r: SyncResult, g: string, email: string)
    requires Computed(scan, unresolved, memberships, r) && g in memberships
    ensures PermissionTuple("kgm/group", GroupId(scan.c, g), "member", "kgm/user", UserId(scan.c, email), "") in r.desired
       <==> Normalize(email) in scan.directory[g].users
  {
    hide Normalize, GroupId, UserId, Partitioned, GroupsSettled, Exact, Folded;
    var t := PermissionTuple("kgm/group", GroupId(scan.c, g), "member", "kgm/user", UserId(scan.c, email), "");
    GroupTupleIn(scan, unresolved, memberships, r, t);
    ResolvedIsFolded(scan, unresolved, memberships, r, g);
    if FromGroups(scan.c, memberships, memberships.Keys, t) {
      var h :| h in memberships && t in GroupTuples(scan.c, h, memberships[h]);
      var e :| e in memberships[h].users && t == MemberTuple(scan.c, h, e);
      ResolvedIsFolded(scan, unresolved, memberships, r, h);
      SameGroupId(scan.c, g, h);
      SameUserId(scan.c, email, e);
    }
    if Normalize(email) in scan.directory[g].users {
      FoldedOnce(email);
      SameUserId(scan.c, email, Normalize(email));
      assert t == MemberTuple(scan.c, g, Normalize(email));
      assert t in GroupTuples(scan.c, g, memberships[g]);
    }
  }

  /** The groups nested in a group are its child groups. */
  lemma NestedTuples(scan: Scan, unresolved: set<string>, memberships: map<string, GroupResolver.Membership>, r: SyncResult, g: string, id: string)
    requires Computed(scan, unresolved, memberships, r) && g in memberships
    ensures PermissionTuple("kgm/group", GroupId(scan.c, g), "member", "kgm/group", id, "member") in r.desired
       <==> exists h :: h in scan.directory[g].childGroups && GroupId(scan.c, h) == id
  {
    hide Normalize, GroupId, Partitioned, GroupsSettled, Exact, Folded;
    var t := PermissionTuple("kgm/group", GroupId(scan.c, g), "member", "kgm/group", id, "member");
    GroupTupleIn(scan, unresolved, memberships, r, t);
    ResolvedIsFolded(scan, unresolved, memberships, r, g);
    if FromGroups(scan.c, memberships, memberships.Keys, t) {
      var k :| k in memberships && t in GroupTuples(scan.c, k, memberships[k]);
      var h :| h in memberships[k].childGroups && t == NestedTuple(scan.c, k, h);
      ResolvedIsFolded(scan, unresolved, memberships, r, k);
      SameGroupId(scan.c, g, k);
    }
    if h :| h in scan.directory[g].childGroups && GroupId(scan.c, h) == id {
      assert t == NestedTuple(scan.c, g, h);
      assert t in GroupTuples(scan.c, g, memberships[g]);
    }
  }

  lemma ListsStep(directory: GroupResolver.Directory, g: string, h: string, email: string)
    requires Edge(GroupResolver.Nesting(directory), g, h) && Lists(directory, h, email)
    ensures Lists(directory, g, email)
  {
    var nesting := GroupResolver.Nesting(directory);
    var k :| Reaches(nesting, h, k) && k in directory && email in directory[k].users;
    var p :| PathBetween(nesting, p, h, k);
    var q := [g] + p;
    forall i | 0 < i < |q| ensures StepAt(nesting, q, i) {
      if i > 1 { assert StepAt(nesting, p, i - 1); }
    }
    assert PathBetween(nesting, q, g, k);
  }

  lemma {:induction false} MemberIsListed(scan: Scan, unresolved: set<string>, memberships: map<string, GroupResolver.Membership>, r: SyncResult,
                                          g: string, email: string, n: nat)
    requires Computed(scan, unresolved, memberships, r) && g in memberships
    requires MemberWithin(r.desired, GroupId(scan.c, g), UserId(scan.c, email), n)
    ensures Lists(scan.directory, g, Normalize(email))
    decreases n
  {
    hide Normalize, GroupId, UserId, Computed;
    var nesting := GroupResolver.Nesting(scan.directory);
    UserTuple(scan, unresolved, memberships, r, g, email);
    ResolvedIsFolded(scan, unresolved, memberships, r, g);
    if Normalize(email) in scan.directory[g].users {
      ReachesSelf(nesting, g);
    } else {
      var id :| PermissionTuple("kgm/group", GroupId(scan.c, g), "member", "kgm/group", id, "member") in r.desired
                && MemberWithin(r.desired, id, UserId(scan.c, email), n - 1);
      NestedTuples(scan, unresolved, memberships, r, g, id);
      var h :| h in scan.directory[g].childGroups && GroupId(scan.c, h) == id;
      MemberIsListed(scan, unresolved, memberships, r, h, email, n - 1);
      assert Edge(nesting, g, h);
      ListsStep(scan.directory, g, h, Normalize(email));
    }
  }

  lemma {:induction false} ListedIsMember(scan: Scan, unresolved: set<string>, memberships: map<string, GroupResolver.Membership>, r: SyncResult,
                                          p: seq<string>, email: string)
    requires Computed(scan, unresolved, memberships, r)
    requires Path(GroupResolver.Nesting(scan.directory), p) && p[0] in memberships
    requires p[|p| - 1] in scan.directory && Normalize(email) in scan.directory[p[|p| - 1]].users
    ensures MemberWithin(r.desired, GroupId(scan.c, p[0]), UserId(scan.c, email), |p| - 1)
    decreases |p|
  {
    hide Normalize, GroupId, UserId, Computed;
    var nesting := GroupResolver.Nesting(scan.directory);
    if |p| == 1 {
      UserTuple(scan, unresolved, memberships, r, p[0], email);
    } else {
      assert StepAt(nesting, p, 1);
      assert Edge(nesting, p[0], p[1]);
      ResolvedIsFolded(scan, unresolved, memberships, r, p[0]);
      var q := p[1..];
      forall i | 0 < i < |q| ensures StepAt(nesting, q, i) { assert StepAt(nesting, p, i + 1); }
      ListedIsMember(scan, unresolved, memberships, r, q, email);
      NestedTuples(scan, unresolved, memberships, r, p[0], GroupId(scan.c, p[1]));
    }
  }

  /** A user belongs to a resolved group in the store exactly when the directory lists the user in
      it or in a group nested below it. */
  lemma MembershipIsNesting(scan: Scan, unresolved: set<string>, memberships: map<string, GroupResolver.Membership>, r: SyncResult,
                            g: string, email: string)
    requires Computed(scan, unresolved, memberships, r) && g in memberships
    ensures BelongsTo(r.desired, GroupId(scan.c, g), UserId(scan.c, email)) <==> Lists(scan.directory, g, Normalize(email))
  {
    hide Normalize, GroupId, UserId, Computed;
    var nesting := GroupResolver.Nesting(scan.directory);
    if n: nat :| MemberWithin(r.desired, GroupId(scan.c, g), UserId(scan.c, email), n) {
      MemberIsListed(scan, unresolved, memberships, r, g, email, n);
    }
    if h :| Reaches(nesting, g, h) && h in scan.directory && Normalize(email) in scan.directory[h].users {
      var p :| PathBetween(nesting, p, g, h);
      ListedIsMember(scan, unresolved, memberships, r, p, email);
    }
  }

  // ----- entries

  /** The tuple's subject is the user, or a group the user belongs to. */
  ghost predicate SubjectIs(tuples: set<PermissionTuple>, t: PermissionTuple, user: string) {
    || (t.subjectType == "kgm/user" && t.subjectId == user && t.subjectRelation == "")
    || (t.subjectType == "kgm/group" && t.subjectRelation == "member" && BelongsTo(tuples, t.subjectId, user))
  }

  /** One of the tuples lets the user view what it names. */
  ghost predicate Opened(own: set<PermissionTuple>, tuples: set<PermissionTuple>, kind: string, id: string, user: string) {
    exists t :: t in own && t.resourceType == kind && t.resourceId == id
                && t.relation in ViewRelations(kind) && SubjectIs(tuples, t, user)
  }

  lemma OpenedIsViewed(tuples: set<PermissionTuple>, kind: string, id: string, user: string)
    ensures ViewsItself(tuples, kind, id, user) <==> Opened(tuples, tuples, kind, id, user)
  {
    if relation :| relation in ViewRelations(kind) && Holds(tuples, kind, id, relation, user) {
      var t := PermissionTuple(kind, id, relation, "kgm/user", user, "");
      if t in tuples {
        assert SubjectIs(tuples, t, user);
      } else {
        var g :| PermissionTuple(kind, id, relation, "kgm/group", g, "member") in tuples && BelongsTo(tuples, g, user);
        assert SubjectIs(tuples, PermissionTuple(kind, id, relation, "kgm/group", g, "member"), user);
      }
    }
    if t :| t in tuples && t.resourceType == kind && t.resourceId == id && t.relation in ViewRelations(kind) && SubjectIs(tuples, t, user) {
      assert t == PermissionTuple(kind, id, t.relation, t.subjectType, t.subjectId, t.subjectRelation);
      assert Holds(tuples, kind, id, t.relation, user);
    }
  }

  lemma OwnIsNotInherited(p: Permission, parents: seq<string>, scope: set<string>)
    ensures OwnEntry(p, parents, scope) <==> !p.deleted && !SafelyInherited(p, parents, scope)
  {
  }

  /** The groups of a captured list are among those to resolve. */
  ghost predicate Captured(scan: Scan, snapshot: Option<Snapshot>) {
    snapshot.Some? && forall g :: g in GroupsOf(snapshot) ==> g in ReferencedGroups(scan)
  }

  /** The entry at i of a list that can be expressed. */
  ghost predicate EntryAt(scan: Scan, unresolved: set<string>, snapshot: Option<Snapshot>, p: Permission) {
    && Captured(scan, snapshot) && Usable(snapshot, unresolved) && !p.deleted
    && exists i :: 0 <= i < |snapshot.value.permissions| && snapshot.value.permissions[i] == p
  }

  lemma EntryIsResolved(scan: Scan, unresolved: set<string>, memberships: map<string, GroupResolver.Membership>,
                        snapshot: Option<Snapshot>, p: Permission)
    requires GroupsSettled(scan, unresolved, memberships) && EntryAt(scan, unresolved, snapshot, p)
    ensures IsSupported(p) && (p.kind == "group" ==> PrincipalEmail(p) in memberships)
  {
    hide Normalize;
    if p.kind == "group" {
      assert References(snapshot.value.permissions, PrincipalEmail(p));
      assert PrincipalEmail(p) in GroupsOf(snapshot);
      RootsReachable(GroupResolver.Nesting(scan.directory), ReferencedGroups(scan));
    }
  }

  lemma EntryOpens(scan: Scan, unresolved: set<string>, memberships: map<string, GroupResolver.Membership>, r: SyncResult,
                   snapshot: Option<Snapshot>, p: Permission, kind: string, id: string, email: string)
    requires Computed(scan, unresolved, memberships, r) && EntryAt(scan, unresolved, snapshot, p)
    ensures var t := EntryTuple(scan.c, kind, id, p);
      t.relation in ViewRelations(kind) && (SubjectIs(r.desired, t, UserId(scan.c, email)) <==> Names(scan.directory, p, Normalize(email)))
  {
    hide Normalize, GroupId, UserId, Partitioned, GroupsSettled, Exact, Folded;
    EntryIsResolved(scan, unresolved, memberships, snapshot, p);
    if p.kind == "user" {
      SameUserId(scan.c, email, PrincipalEmail(p));
      FoldedOnce(p.emailAddress.value);
    } else {
      MembershipIsNesting(scan, unresolved, memberships, r, PrincipalEmail(p), email);
    }
  }

  lemma UsableIsKnown(snapshot: Option<Snapshot>, unresolved: set<string>)
    requires Usable(snapshot, unresolved)
    ensures snapshot.Some?
  {
  }

  /** The entry behind a tuple that grants a view. */
  lemma EntryBehind(scan: Scan, snapshot: Option<Snapshot>, parents: seq<string>, kind: string, id: string, t: PermissionTuple) returns (p: Permission)
    requires snapshot.Some? && t.relation != "parent"
    requires t in ResourceTuples(scan.c, kind, id, parents, snapshot.value.permissions, scan.folders.Keys)
    ensures t == EntryTuple(scan.c, kind, id, p) && OwnEntry(p, parents, scan.folders.Keys)
    ensures exists i :: 0 <= i < |snapshot.value.permissions| && snapshot.value.permissions[i] == p
  {
    hide EntryTuple, FolderId, OwnEntry, SafelyInherited;
    var ps, scope := snapshot.value.permissions, scan.folders.Keys;
    var i :| 0 <= i < |ps| && !ps[i].deleted && !SafelyInherited(ps[i], parents, scope) && t == EntryTuple(scan.c, kind, id, ps[i]);
    OwnIsNotInherited(ps[i], parents, scope);
    p := ps[i];
  }

  lemma EntryHasTuple(scan: Scan, snapshot: Option<Snapshot>, parents: seq<string>, kind: string, id: string, i: nat)
    requires snapshot.Some? && i < |snapshot.value.permissions| && OwnEntry(snapshot.value.permissions[i], parents, scan.folders.Keys)
    ensures EntryTuple(scan.c, kind, id, snapshot.value.permissions[i])
            in ResourceTuples(scan.c, kind, id, parents, snapshot.value.permissions, scan.folders.Keys)
  {
    hide EntryTuple, FolderId, OwnEntry, SafelyInherited;
    OwnIsNotInherited(snapshot.value.permissions[i], parents, scan.folders.Keys);
  }

  /** The tuples of one resource let in whom the resource's own entries name. */
  lemma ResourceOpens(scan: Scan, unresolved: set<string>, memberships: map<string, GroupResolver.Membership>, r: SyncResult,
                      snapshot: Option<Snapshot>, parents: seq<string>, kind: string, id: string, email: string)
    requires Computed(scan, unresolved, memberships, r) && Captured(scan, snapshot) && Usable(snapshot, unresolved)
    ensures Opened(ResourceTuples(scan.c, kind, id, parents, snapshot.value.permissions, scan.folders.Keys), r.desired, kind, id, UserId(scan.c, email))
       <==> Admits(scan, parents, snapshot, Normalize(email))
  {
    hide Normalize, UserId, Computed, Usable, Names, SubjectIs, OwnEntry, Captured, ResourceTuples;
    UsableIsKnown(snapshot, unresolved);
    var ps, scope := snapshot.value.permissions, scan.folders.Keys;
    var own := ResourceTuples(scan.c, kind, id, parents, ps, scope);
    if t :| t in own && t.relation in ViewRelations(kind) && SubjectIs(r.desired, t, UserId(scan.c, email)) {
      var p := EntryBehind(scan, snapshot, parents, kind, id, t);
      assert !p.deleted by { OwnIsNotInherited(p, parents, scope); }
      EntryOpens(scan, unresolved, memberships, r, snapshot, p, kind, id, email);
    }
    if i :| 0 <= i < |ps| && OwnEntry(ps[i], parents, scope) && Names(scan.directory, ps[i], Normalize(email)) {
      OwnIsNotInherited(ps[i], parents, scope);
      EntryOpens(scan, unresolved, memberships, r, snapshot, ps[i], kind, id, email);
      EntryHasTuple(scan, snapshot, parents, kind, id, i);
      assert EntryTuple(scan.c, kind, id, ps[i]).resourceId == id;
    }
  }

  /** The parent tuples of a resource name its parents in scope. */
  lemma ResourceParents(scan: Scan, unresolved: set<string>, snapshot: Option<Snapshot>, parents: seq<string>, kind: string, id: string, parent: string)
    requires Usable(snapshot, unresolved)
    ensures PermissionTuple(kind, id, "parent", "kgm/folder", parent, "") in ResourceTuples(scan.c, kind, id, parents, snapshot.value.permissions, scan.folders.Keys)
       <==> exists i :: 0 <= i < |parents| && parents[i] in scan.folders && FolderId(scan.c, parents[i]) == parent
  {
    hide Normalize, FolderId, GroupId, UserId;
    var ps, scope := snapshot.value.permissions, scan.folders.Keys;
    var t := PermissionTuple(kind, id, "parent", "kgm/folder", parent, "");
    forall i | 0 <= i < |ps| && !ps[i].deleted ensures t != EntryTuple(scan.c, kind, id, ps[i]) {
      UsableIsSupported(snapshot, unresolved, i);
    }
    if i :| 0 <= i < |parents| && parents[i] in scan.folders && FolderId(scan.c, parents[i]) == parent {
      assert t == ParentTuple(scan.c, kind, id, parents[i]);
    }
  }

  // ----- folders

  lemma FolderTupleIn(scan: Scan, unresolved: set<string>, memberships: map<string, GroupResolver.Membership>, r: SyncResult, t: PermissionTuple)
    requires Exact(scan, unresolved, memberships, r) && t.resourceType == "kgm/folder"
    ensures t in r.desired <==> FromFolders(scan, unresolved, scan.folders.Keys, t)
  {
    TupleKinds(scan, unresolved, memberships, t);
    if FromDocuments(scan, r.eligible.Keys, t) {
      var d := OwnTuple(scan, r.eligible.Keys, t);
    }
  }

  /** The folder that a desired tuple comes from. */
  lemma FolderOf(scan: Scan, unresolved: set<string>, memberships: map<string, GroupResolver.Membership>, r: SyncResult, folder: string, t: PermissionTuple)
      returns (f: string)
    requires Computed(scan, unresolved, memberships, r) && t in r.desired
    requires t.resourceType == "kgm/folder" && t.resourceId == FolderId(scan.c, folder)
    ensures f in scan.folders && SameFolder(f, folder) && FolderId(scan.c, f) == FolderId(scan.c, folder)
    ensures Usable(scan.folders[f].snapshot, unresolved) && t in FolderTuples(scan.c, f, scan.folders[f], scan.folders.Keys)
  {
    hide Normalize, FolderId, GroupId, UserId, Partitioned, GroupsSettled, Exact, Folded, ResourceTuples;
    FolderTupleIn(scan, unresolved, memberships, r, t);
    f :| f in scan.folders && Usable(scan.folders[f].snapshot, unresolved) && t in FolderTuples(scan.c, f, scan.folders[f], scan.folders.Keys);
    ResourceTuplesName(scan.c, "kgm/folder", FolderId(scan.c, f), scan.folders[f].parents, scan.folders[f].snapshot.value.permissions, scan.folders.Keys, t);
    SameFolderId(scan.c, f, folder);
  }

  lemma SameFolderId(c: nat, f: string, g: string)
    ensures FolderId(c, f) == FolderId(c, g) <==> SameFolder(f, g)
  {
    NamedIdsCoincide('f', c, f, c, g);
  }

  lemma FolderTuplesDesired(scan: Scan, unresolved: set<string>, memberships: map<string, GroupResolver.Membership>, r: SyncResult, f: string, t: PermissionTuple)
    requires Computed(scan, unresolved, memberships, r) && f in scan.folders && Usable(scan.folders[f].snapshot, unresolved)
    requires t in FolderTuples(scan.c, f, scan.folders[f], scan.folders.Keys)
    ensures t in r.desired
  {
    hide Normalize, FolderId, GroupId, UserId, Partitioned, GroupsSettled, Folded, Usable, ResourceTuples;
    assert FromFolders(scan, unresolved, scan.folders.Keys, t);
  }

  lemma FolderIsCaptured(scan: Scan, f: string)
    requires f in scan.folders && scan.folders[f].snapshot.Some?
    ensures Captured(scan, scan.folders[f].snapshot)
  {
  }

  lemma DocumentIsCaptured(scan: Scan, d: nat)
    requires d in scan.documents && scan.documents[d].snapshot.Some?
    ensures Captured(scan, scan.documents[d].snapshot)
  {
  }

  // ----- views

  /** What the folder's tuples say of the user themselves. */
  lemma FolderItself(scan: Scan, unresolved: set<string>, memberships: map<string, GroupResolver.Membership>, r: SyncResult, folder: string, email: string)
    requires Computed(scan, unresolved, memberships, r)
    ensures ViewsItself(r.desired, "kgm/folder", FolderId(scan.c, folder), UserId(scan.c, email))
       <==> exists f :: f in scan.folders && SameFolder(f, folder) && Usable(scan.folders[f].snapshot, unresolved)
                        && Admits(scan, scan.folders[f].parents, scan.folders[f].snapshot, Normalize(email))
  {
    hide Normalize, FolderId, GroupId, UserId, Computed, Admits, SubjectIs, ResourceTuples, SameFolder, Captured, ViewsItself;
    var id, user := FolderId(scan.c, folder), UserId(scan.c, email);
    OpenedIsViewed(r.desired, "kgm/folder", id, user);
    if t :| t in r.desired && t.resourceType == "kgm/folder" && t.resourceId == id && t.relation in ViewRelations("kgm/folder") && SubjectIs(r.desired, t, user) {
      var f := FolderOf(scan, unresolved, memberships, r, folder, t);
      FolderIsCaptured(scan, f);
      ResourceOpens(scan, unresolved, memberships, r, scan.folders[f].snapshot, scan.folders[f].parents, "kgm/folder", id, email);
    }
    if f :| f in scan.folders && SameFolder(f, folder) && Usable(scan.folders[f].snapshot, unresolved)
            && Admits(scan, scan.folders[f].parents, scan.folders[f].snapshot, Normalize(email)) {
      FolderIsCaptured(scan, f);
      SameFolderId(scan.c, f, folder);
      ResourceOpens(scan, unresolved, memberships, r, scan.folders[f].snapshot, scan.folders[f].parents, "kgm/folder", id, email);
      var t :| t in FolderTuples(scan.c, f, scan.folders[f], scan.folders.Keys) && t.resourceType == "kgm/folder" && t.resourceId == id
               && t.relation in ViewRelations("kgm/folder") && SubjectIs(r.desired, t, user);
      FolderTuplesDesired(scan, unresolved, memberships, r, f, t);
    }
  }

  /** The parents that the folder's tuples name. */
  lemma FolderParents(scan: Scan, unresolved: set<string>, memberships: map<string, GroupResolver.Membership>, r: SyncResult, folder: string, parent: string)
    requires Computed(scan, unresolved, memberships, r)
    ensures PermissionTuple("kgm/folder", FolderId(scan.c, folder), "parent", "kgm/folder", parent, "") in r.desired
       <==> exists f, i :: f in scan.folders && SameFolder(f, folder) && Usable(scan.folders[f].snapshot, unresolved)
                           && 0 <= i < |scan.folders[f].parents| && scan.folders[f].parents[i] in scan.folders
                           && FolderId(scan.c, scan.folders[f].parents[i]) == parent
  {
    hide Normalize, FolderId, GroupId, UserId, Computed, ResourceTuples, SameFolder;
    var t := PermissionTuple("kgm/folder", FolderId(scan.c, folder), "parent", "kgm/folder", parent, "");
    if t in r.desired {
      var f := FolderOf(scan, unresolved, memberships, r, folder, t);
      ResourceParents(scan, unresolved, scan.folders[f].snapshot, scan.folders[f].parents, "kgm/folder", FolderId(scan.c, f), parent);
    }
    if f, i :| f in scan.folders && SameFolder(f, folder) && Usable(scan.folders[f].snapshot, unresolved)
               && 0 <= i < |scan.folders[f].parents| && scan.folders[f].parents[i] in scan.folders
               && FolderId(scan.c, scan.folders[f].parents[i]) == parent {
      SameFolderId(scan.c, f, folder);
      ResourceParents(scan, unresolved, scan.folders[f].snapshot, scan.folders[f].parents, "kgm/folder", FolderId(scan.c, f), parent);
      FolderTuplesDesired(scan, unresolved, memberships, r, f, t);
    }
  }

  lemma {:induction false} FolderViews(scan: Scan, unresolved: set<string>, memberships: map<string, GroupResolver.Membership>, r: SyncResult,
                                       folder: string, email: string, n: nat)
    requires Computed(scan, unresolved, memberships, r)
    ensures ViewsWithin(r.desired, "kgm/folder", FolderId(scan.c, folder), UserId(scan.c, email), n)
       <==> FolderOpensWithin(scan, unresolved, folder, Normalize(email), n)
    decreases n
  {
    hide Normalize, FolderId, GroupId, UserId, Computed, SameFolder, Admits, Usable, ViewsItself;
    var id, user := FolderId(scan.c, folder), UserId(scan.c, email);
    FolderItself(scan, unresolved, memberships, r, folder, email);
    if n > 0 {
      if ViewsWithin(r.desired, "kgm/folder", id, user, n) && !ViewsItself(r.desired, "kgm/folder", id, user) {
        var parent :| PermissionTuple("kgm/folder", id, "parent", "kgm/folder", parent, "") in r.desired
                      && ViewsWithin(r.desired, "kgm/folder", parent, user, n - 1);
        FolderParents(scan, unresolved, memberships, r, folder, parent);
        var f, i :| f in scan.folders && SameFolder(f, folder) && Usable(scan.folders[f].snapshot, unresolved)
                    && 0 <= i < |scan.folders[f].parents| && scan.folders[f].parents[i] in scan.folders
                    && FolderId(scan.c, scan.folders[f].parents[i]) == parent;
        FolderViews(scan, unresolved, memberships, r, scan.folders[f].parents[i], email, n - 1);
      }
      if f, i :| f in scan.folders && SameFolder(f, folder) && Usable(scan.folders[f].snapshot, unresolved)
                 && 0 <= i < |scan.folders[f].parents| && scan.folders[f].parents[i] in scan.folders
                 && FolderOpensWithin(scan, unresolved, scan.folders[f].parents[i], Normalize(email), n - 1) {
        FolderViews(scan, unresolved, memberships, r, scan.folders[f].parents[i], email, n - 1);
        FolderParents(scan, unresolved, memberships, r, folder, FolderId(scan.c, scan.folders[f].parents[i]));
      }
    }
  }

  lemma DocumentItself(scan: Scan, unresolved: set<string>, memberships: map<string, GroupResolver.Membership>, r: SyncResult, d: nat, email: string)
    requires Computed(scan, unresolved, memberships, r) && d in r.eligible && d in scan.documents
    ensures ViewsItself(r.desired, "kgm/document", DocumentId(scan.c, d), UserId(scan.c, email))
       <==> Admits(scan, scan.documents[d].parents, scan.documents[d].snapshot, Normalize(email))
  {
    assert Eligible(scan, unresolved, d);
    hide Normalize, FolderId, GroupId, UserId, DocumentId, GroupsSettled, Folded, Admits, SubjectIs, ResourceTuples, Captured, ViewsItself;
    var id, user, row := DocumentId(scan.c, d), UserId(scan.c, email), scan.documents[d];
    OpenedIsViewed(r.desired, "kgm/document", id, user);
    DocumentIsCaptured(scan, d);
    ResourceOpens(scan, unresolved, memberships, r, row.snapshot, row.parents, "kgm/document", id, email);
    forall t ensures t in r.desired && Backs(t, scan.c, d) <==> t in DocumentTuples(scan.c, d, row, scan.folders.Keys) {
      DesiredOfDocument(scan, unresolved, memberships, r, d, t);
    }
  }

  lemma DocumentParents(scan: Scan, unresolved: set<string>, memberships: map<string, GroupResolver.Membership>, r: SyncResult, d: nat, parent: string)
    requires Computed(scan, unresolved, memberships, r) && d in r.eligible && d in scan.documents
    ensures PermissionTuple("kgm/document", DocumentId(scan.c, d), "parent", "kgm/folder", parent, "") in r.desired
       <==> exists i :: 0 <= i < |scan.documents[d].parents| && scan.documents[d].parents[i] in scan.folders
                        && FolderId(scan.c, scan.documents[d].parents[i]) == parent
  {
    assert Eligible(scan, unresolved, d);
    hide Normalize, FolderId, GroupId, UserId, DocumentId, GroupsSettled, Folded, ResourceTuples, Partitioned, Exact, Eligible;
    var id, row := DocumentId(scan.c, d), scan.documents[d];
    ResourceParents(scan, unresolved, row.snapshot, row.parents, "kgm/document", id, parent);
    DesiredOfDocument(scan, unresolved, memberships, r, d, PermissionTuple("kgm/document", id, "parent", "kgm/folder", parent, ""));
  }

  lemma DocumentViews(scan: Scan, unresolved: set<string>, memberships: map<string, GroupResolver.Membership>, r: SyncResult, d: nat, email: string)
    requires Computed(scan, unresolved, memberships, r) && d in r.eligible && d in scan.documents
    ensures Views(r.desired, "kgm/document", DocumentId(scan.c, d), UserId(scan.c, email)) <==> DocumentOpens(scan, unresolved, d, Normalize(email))
  {
    hide Normalize, FolderId, GroupId, UserId, DocumentId, Computed, Admits, ViewsItself, FolderOpensWithin;
    var id, user := DocumentId(scan.c, d), UserId(scan.c, email);
    var parents := scan.documents[d].parents;
    DocumentItself(scan, unresolved, memberships, r, d, email);
    if n: nat :| ViewsWithin(r.desired, "kgm/document", id, user, n) {
      if !ViewsItself(r.desired, "kgm/document", id, user) {
        var parent :| PermissionTuple("kgm/document", id, "parent", "kgm/folder", parent, "") in r.desired
                      && ViewsWithin(r.desired, "kgm/folder", parent, user, n - 1);
        DocumentParents(scan, unresolved, memberships, r, d, parent);
        var i :| 0 <= i < |parents| && parents[i] in scan.folders && FolderId(scan.c, parents[i]) == parent;
        FolderViews(scan, unresolved, memberships, r, parents[i], email, n - 1);
      }
    }
    if i, n: nat :| 0 <= i < |parents| && parents[i] in scan.folders && FolderOpensWithin(scan, unresolved, parents[i], Normalize(email), n) {
      FolderViews(scan, unresolved, memberships, r, parents[i], email, n);
      DocumentParents(scan, unresolved, memberships, r, d, FolderId(scan.c, parents[i]));
      assert ViewsWithin(r.desired, "kgm/document", id, user, n + 1);
    }
    if ViewsItself(r.desired, "kgm/document", id, user) {
      assert ViewsWithin(r.desired, "kgm/document", id, user, 0);
    }
  }

  /** Under the schema, a user may view exactly the eligible documents whose own list, or one at or
      above a parent folder, lets the user in. */
  lemma ViewIsAccess(scan: Scan, unresolved: set<string>, memberships: map<string, GroupResolver.Membership>, r: SyncResult, d: nat, email: string)
    requires Computed(scan, unresolved, memberships, r)
    ensures Views(r.desired, "kgm/document", DocumentId(scan.c, d), UserId(scan.c, email))
       <==> d in r.eligible && d in scan.documents && DocumentOpens(scan, unresolved, d, Normalize(email))
  {
    if d in r.eligible {
      assert Eligible(scan, unresolved, d);
      DocumentViews(scan, unresolved, memberships, r, d, email);
    } else {
      EligibleIffGranted(scan, unresolved, memberships, r, d);
      NothingNamed(r.desired, DocumentId(scan.c, d), UserId(scan.c, email));
    }
  }

  lemma NothingNamed(tuples: set<PermissionTuple>, id: string, user: string)
    requires forall t :: t in tuples && t.resourceType == "kgm/document" ==> t.resourceId != id
    ensures !Views(tuples, "kgm/document", id, user)
  {
    OpenedIsViewed(tuples, "kgm/document", id, user);
  }

  // ----- single entries

  /** The tuple says of the entry what the schema has for its role and its principal. */
  predicate Expresses(c: nat, t: PermissionTuple, p: Permission) {
    && t.relation == (if p.role == "fileOrganizer" then "file_organizer" else p.role)
    && if p.kind == "user" then t.subjectType == "kgm/user" && t.subjectId == UserId(c, PrincipalEmail(p)) && t.subjectRelation == ""
       else t.subjectType == "kgm/group" && t.subjectId == GroupId(c, PrincipalEmail(p)) && t.subjectRelation == "member"
  }

  lemma EntryTuples(scan: Scan, unresolved: set<string>, snapshot: Option<Snapshot>, parents: seq<string>, t: PermissionTuple)
    requires Usable(snapshot, unresolved) && t.relation != "parent"
    ensures t in ResourceTuples(scan.c, t.resourceType, t.resourceId, parents, snapshot.value.permissions, scan.folders.Keys)
       <==> exists i :: 0 <= i < |snapshot.value.permissions| && OwnEntry(snapshot.value.permissions[i], parents, scan.folders.Keys)
                        && Expresses(scan.c, t, snapshot.value.permissions[i])
  {
    hide Normalize, FolderId, GroupId, UserId, OwnEntry, SafelyInherited, Usable;
    UsableIsKnown(snapshot, unresolved);
    var ps, scope := snapshot.value.permissions, scan.folders.Keys;
    forall i | 0 <= i < |ps|
      ensures OwnEntry(ps[i], parents, scope) <==> !ps[i].deleted && !SafelyInherited(ps[i], parents, scope)
      ensures Expresses(scan.c, t, ps[i]) <==> t == EntryTuple(scan.c, t.resourceType, t.resourceId, ps[i])
    {
      OwnIsNotInherited(ps[i], parents, scope);
    }
  }

  /** The relations written for an eligible document are those of its own entries. */
  lemma DocumentEntries(scan: Scan, unresolved: set<string>, memberships: map<string, GroupResolver.Membership>, r: SyncResult, d: nat, t: PermissionTuple)
    requires Computed(scan, unresolved, memberships, r) && d in r.eligible && d in scan.documents && scan.documents[d].snapshot.Some?
    requires t.resourceType == "kgm/document" && t.resourceId == DocumentId(scan.c, d) && t.relation != "parent"
    ensures t in r.desired
       <==> exists i :: 0 <= i < |scan.documents[d].snapshot.value.permissions|
                        && OwnEntry(scan.documents[d].snapshot.value.permissions[i], scan.documents[d].parents, scan.folders.Keys)
                        && Expresses(scan.c, t, scan.documents[d].snapshot.value.permissions[i])
  {
    assert Eligible(scan, unresolved, d);
    hide Normalize, FolderId, GroupId, UserId, DocumentId, GroupsSettled, Folded, ResourceTuples, FromGroups, FromFolders, FromDocuments, ExcludedFor, OwnEntry, Expresses;
    EntryTuples(scan, unresolved, scan.documents[d].snapshot, scan.documents[d].parents, t);
    DesiredOfDocument(scan, unresolved, memberships, r, d, t);
  }

  ghost predicate ExpressedIn(scan: Scan, f: string, t: PermissionTuple)
    requires f in scan.folders
  {
    && scan.folders[f].snapshot.Some?
    && exists i :: 0 <= i < |scan.folders[f].snapshot.value.permissions|
                   && OwnEntry(scan.folders[f].snapshot.value.permissions[i], scan.folders[f].parents, scan.folders.Keys)
                   && Expresses(scan.c, t, scan.folders[f].snapshot.value.permissions[i])
  }

  /** The relations written for a folder id are those of the own entries of the folders that share it. */
  lemma FolderEntries(scan: Scan, unresolved: set<string>, memberships: map<string, GroupResolver.Membership>, r: SyncResult, folder: string, t: PermissionTuple)
    requires Computed(scan, unresolved, memberships, r)
    requires t.resourceType == "kgm/folder" && t.resourceId == FolderId(scan.c, folder) && t.relation != "parent"
    ensures t in r.desired <==> exists f :: f in scan.folders && SameFolder(f, folder) && Usable(scan.folders[f].snapshot, unresolved)
                                            && ExpressedIn(scan, f, t)
  {
    hide Normalize, FolderId, GroupId, UserId, Computed, ResourceTuples, SameFolder, OwnEntry, Expresses;
    if t in r.desired {
      var f := FolderOf(scan, unresolved, memberships, r, folder, t);
      EntryTuples(scan, unresolved, scan.folders[f].snapshot, scan.folders[f].parents, t);
    }
    if f :| f in scan.folders && SameFolder(f, folder) && Usable(scan.folders[f].snapshot, unresolved) && ExpressedIn(scan, f, t) {
      SameFolderId(scan.c, f, folder);
      EntryTuples(scan, unresolved, scan.folders[f].snapshot, scan.folders[f].parents, t);
      FolderTuplesDesired(scan, unresolved, memberships, r, f, t);
    }
  }
}
