/** The delegated permission scan: which documents may be retrieved, and the tuples that say so. */
module DesiredState {
  import opened Outcomes
  import opened Digraph
  import opened FolderHierarchy
  import opened Identifiers
  import opened TupleStore
  import GroupResolver

  // ----- the captured access lists

  datatype Detail = Detail(inherited: bool, inheritedFrom: Option<string>)

  datatype Permission = Permission(kind: string, role: string, emailAddress: Option<string>, deleted: bool,
                                   pendingOwner: bool, details: seq<Detail>)

  /** What a digest covers of an entry: neither the order of its details nor its place in the list. */
  datatype CanonicalPermission = CanonicalPermission(kind: string, role: string, emailAddress: Option<string>, deleted: bool,
                                                     pendingOwner: bool, details: multiset<Detail>)

  function CanonicalOf(p: Permission): CanonicalPermission {
    CanonicalPermission(p.kind, p.role, p.emailAddress, p.deleted, p.pendingOwner, multiset(p.details))
  }

  function CanonicalList(permissions: seq<Permission>): seq<CanonicalPermission> {
    seq(|permissions|, i requires 0 <= i < |permissions| => CanonicalOf(permissions[i]))
  }

  function Canonical(permissions: seq<Permission>): multiset<CanonicalPermission> {
    multiset(CanonicalList(permissions))
  }

  /** The version of an access list is its digest, which stands for what it is computed from; a
      cutover leaves it blank. */
  datatype Version = Blank | DigestOf(entries: multiset<CanonicalPermission>)

  datatype Snapshot = Snapshot(permissions: seq<Permission>, complete: bool)

  datatype FolderRow = FolderRow(parents: seq<string>, snapshot: Option<Snapshot>)

  datatype DocumentRow = DocumentRow(parents: seq<string>, snapshot: Option<Snapshot>, exclusionReason: string, version: Version)

  function PrincipalEmail(p: Permission): string {
    if p.emailAddress.Some? then Normalize(p.emailAddress.value) else ""
  }

  const SUPPORTED_ROLES := {"reader", "commenter", "writer", "fileOrganizer", "organizer", "owner"}

  function RoleRelation(role: string): string {
    if role == "fileOrganizer" then "file_organizer" else role
  }

  // ----- why a resource is left out

  predicate IsSupported(p: Permission) {
    p.role in SUPPORTED_ROLES && p.kind in {"user", "group"} && PrincipalEmail(p) != ""
  }

  predicate IsUnresolved(p: Permission, unresolved: set<string>) {
    p.kind == "group" && PrincipalEmail(p) in unresolved
  }

  /** Nothing about the entry keeps the resource out; a deleted principal is passed over. */
  predicate EntryUsable(p: Permission, unresolved: set<string>) {
    p.deleted || (IsSupported(p) && !p.pendingOwner && !IsUnresolved(p, unresolved))
  }

  function EntryReason(p: Permission, unresolved: set<string>): (r: string)
    ensures r == "" <==> EntryUsable(p, unresolved)
    ensures r == "unsupported_permission" <==> !p.deleted && !IsSupported(p)
    ensures r == "group_membership_unresolved" <==> !p.deleted && IsSupported(p) && !p.pendingOwner && IsUnresolved(p, unresolved)
  {
    if p.deleted then ""
    else if !IsSupported(p) then "unsupported_permission"
    else if p.pendingOwner then "permission_metadata_incomplete"
    else if IsUnresolved(p, unresolved) then "group_membership_unresolved"
    else ""
  }

  /** The whole list is known, nothing in it opens the resource to the public or to a domain, and
      every entry can be expressed. */
  predicate Usable(snapshot: Option<Snapshot>, unresolved: set<string>) {
    && snapshot.Some? && snapshot.value.complete
    && forall i :: 0 <= i < |snapshot.value.permissions| ==>
         var p := snapshot.value.permissions[i]; p.kind != "anyone" && p.kind != "domain" && EntryUsable(p, unresolved)
  }

  predicate HasKind(permissions: seq<Permission>, kind: string) {
    exists i :: 0 <= i < |permissions| && permissions[i].kind == kind
  }

  predicate AllUsable(permissions: seq<Permission>, unresolved: set<string>, n: nat)
    requires n <= |permissions|
  {
    forall i :: 0 <= i < n ==> EntryUsable(permissions[i], unresolved)
  }

  /** The reason of the first entry that has one, or none. */
  ghost predicate FirstEntryReason(permissions: seq<Permission>, unresolved: set<string>, r: string) {
    if r == "" then AllUsable(permissions, unresolved, |permissions|)
    else exists i :: 0 <= i < |permissions| && r == EntryReason(permissions[i], unresolved) && AllUsable(permissions, unresolved, i)
  }

  /** Why an access list keeps its resource out: an incomplete list comes before a public link, that
      before a domain, and these before any single entry. */
  ghost predicate AclReason(snapshot: Option<Snapshot>, unresolved: set<string>, r: string) {
    if snapshot.None? || !snapshot.value.complete then r == "permission_metadata_incomplete"
    else if HasKind(snapshot.value.permissions, "anyone") then r == "public_link_not_supported"
    else if HasKind(snapshot.value.permissions, "domain") then r == "domain_wide_visibility_not_supported"
    else FirstEntryReason(snapshot.value.permissions, unresolved, r)
  }

  method FirstReason(permissions: seq<Permission>, unresolved: set<string>) returns (r: string)
    ensures FirstEntryReason(permissions, unresolved, r)
    ensures r == "" <==> AllUsable(permissions, unresolved, |permissions|)
  {
    for i := 0 to |permissions|
      invariant AllUsable(permissions, unresolved, i)
    {
      r := EntryReason(permissions[i], unresolved);
      if r != "" { return; }
    }
    r := "";
  }

  method ResourceAclReason(snapshot: Option<Snapshot>, unresolved: set<string>) returns (r: string)
    ensures r == "" <==> Usable(snapshot, unresolved)
    ensures AclReason(snapshot, unresolved, r)
  {
    if snapshot.None? || !snapshot.value.complete {
      return "permission_metadata_incomplete";
    }
    if HasKind(snapshot.value.permissions, "anyone") {
      return "public_link_not_supported";
    }
    if HasKind(snapshot.value.permissions, "domain") {
      return "domain_wide_visibility_not_supported";
    }
    r := FirstReason(snapshot.value.permissions, unresolved);
  }

  predicate HasInvalidParent(document: DocumentRow, invalidFolders: set<string>) {
    exists i :: 0 <= i < |document.parents| && document.parents[i] in invalidFolders
  }

  /** Why a document is kept out: its content type comes before an invalid folder above it, and that
      before its own list. */
  ghost predicate KeptOutFor(document: DocumentRow, unresolved: set<string>, invalidAbove: bool, r: string) {
    if document.exclusionReason == "unsupported_mime_type" then r == document.exclusionReason
    else if invalidAbove then r == "permission_metadata_incomplete"
    else AclReason(document.snapshot, unresolved, r)
  }

  /** The content type is judged by the content scan alone, so that reason is kept. */
  method DocumentReason(document: DocumentRow, unresolved: set<string>, invalidFolders: set<string>) returns (r: string)
    ensures r == "" <==> Admissible(document, unresolved, invalidFolders)
    ensures KeptOutFor(document, unresolved, HasInvalidParent(document, invalidFolders), r)
  {
    if document.exclusionReason == "unsupported_mime_type" {
      return document.exclusionReason;
    }
    if HasInvalidParent(document, invalidFolders) {
      return "permission_metadata_incomplete";
    }
    r := ResourceAclReason(document.snapshot, unresolved);
  }

  predicate Admissible(document: DocumentRow, unresolved: set<string>, invalidFolders: set<string>) {
    && document.exclusionReason != "unsupported_mime_type"
    && (forall i :: 0 <= i < |document.parents| ==> document.parents[i] !in invalidFolders)
    && Usable(document.snapshot, unresolved)
  }

  // ----- the tuples of a resource

  /** Every source of the inheritance is a parent in scope, so the parent tuple carries the entry. */
  predicate SafelyInherited(p: Permission, parents: seq<string>, scope: set<string>) {
    && p.details != []
    && forall i :: 0 <= i < |p.details| ==>
         && p.details[i].inherited && p.details[i].inheritedFrom.Some?
         && p.details[i].inheritedFrom.value in parents && p.details[i].inheritedFrom.value in scope
  }

  function ParentTuple(c: nat, kind: string, id: string, parent: string): PermissionTuple {
    PermissionTuple(kind, id, "parent", "kgm/folder", FolderId(c, parent), "")
  }

  function EntryTuple(c: nat, kind: string, id: string, p: Permission): PermissionTuple {
    if p.kind == "user" then PermissionTuple(kind, id, RoleRelation(p.role), "kgm/user", UserId(c, PrincipalEmail(p)), "")
    else PermissionTuple(kind, id, RoleRelation(p.role), "kgm/group", GroupId(c, PrincipalEmail(p)), "member")
  }

  /** A parent tuple for every parent in scope, and an entry tuple for every entry that is neither
      deleted nor carried by such a parent. */
  function ResourceTuples(c: nat, kind: string, id: string, parents: seq<string>, permissions: seq<Permission>, scope: set<string>): set<PermissionTuple> {
    (set i | 0 <= i < |parents| && parents[i] in scope :: ParentTuple(c, kind, id, parents[i]))
    + set i | 0 <= i < |permissions| && !permissions[i].deleted && !SafelyInherited(permissions[i], parents, scope)
        :: EntryTuple(c, kind, id, permissions[i])
  }

  function FolderTuples(c: nat, f: string, row: FolderRow, scope: set<string>): set<PermissionTuple>
    requires row.snapshot.Some?
  {
    ResourceTuples(c, "kgm/folder", FolderId(c, f), row.parents, row.snapshot.value.permissions, scope)
  }

  function DocumentTuples(c: nat, d: nat, row: DocumentRow, scope: set<string>): set<PermissionTuple>
    requires row.snapshot.Some?
  {
    ResourceTuples(c, "kgm/document", DocumentId(c, d), row.parents, row.snapshot.value.permissions, scope)
  }

  function MemberTuple(c: nat, group: string, email: string): PermissionTuple {
    PermissionTuple("kgm/group", GroupId(c, group), "member", "kgm/user", UserId(c, email), "")
  }

  function NestedTuple(c: nat, group: string, child: string): PermissionTuple {
    PermissionTuple("kgm/group", GroupId(c, group), "member", "kgm/group", GroupId(c, child), "member")
  }

  function GroupTuples(c: nat, group: string, m: GroupResolver.Membership): set<PermissionTuple> {
    (set email | email in m.users :: MemberTuple(c, group, email))
    + set child | child in m.childGroups :: NestedTuple(c, group, child)
  }

  // ----- what the scan starts from

  /** The rows in scope, and what the Directory API would answer. */
  datatype Scan = Scan(c: nat, folders: map<string, FolderRow>, documents: map<nat, DocumentRow>, directory: GroupResolver.Directory) {
    function Hierarchy(): Folders {
      map f | f in folders :: folders[f].parents
    }

    /** Folders whose own access list cannot be expressed. */
    function Unusable(unresolved: set<string>): set<string> {
      set f | f in folders && !Usable(folders[f].snapshot, unresolved)
    }
  }

  predicate References(permissions: seq<Permission>, group: string) {
    exists i :: 0 <= i < |permissions| && !permissions[i].deleted && permissions[i].kind == "group"
                && group != "" && PrincipalEmail(permissions[i]) == group
  }

  function GroupsOf(snapshot: Option<Snapshot>): (r: set<string>)
    ensures forall g :: g in r <==> snapshot.Some? && References(snapshot.value.permissions, g)
  {
    if snapshot.None? then {}
    else
      var ps := snapshot.value.permissions;
      set i | 0 <= i < |ps| && !ps[i].deleted && ps[i].kind == "group" && PrincipalEmail(ps[i]) != "" :: PrincipalEmail(ps[i])
  }

  function ReferencedGroups(scan: Scan): (r: set<string>)
  {
    (set f, g | f in scan.folders && g in GroupsOf(scan.folders[f].snapshot) :: g)
    + set d, g | d in scan.documents && g in GroupsOf(scan.documents[d].snapshot) :: g
  }

  datatype SyncResult = SyncResult(desired: set<PermissionTuple>, eligible: map<nat, Version>, excluded: map<nat, string>, groupsResolved: nat)

  // ----- growing the desired set

  ghost predicate FromGroups(c: nat, memberships: map<string, GroupResolver.Membership>, groups: set<string>, t: PermissionTuple) {
    exists g :: g in groups && g in memberships && t in GroupTuples(c, g, memberships[g])
  }

  ghost predicate FromFolders(scan: Scan, unresolved: set<string>, folders: set<string>, t: PermissionTuple) {
    exists f :: f in folders && f in scan.folders && Usable(scan.folders[f].snapshot, unresolved)
                && t in FolderTuples(scan.c, f, scan.folders[f], scan.folders.Keys)
  }

  ghost predicate FromDocuments(scan: Scan, documents: set<nat>, t: PermissionTuple) {
    exists d :: d in documents && d in scan.documents && scan.documents[d].snapshot.Some?
                && t in DocumentTuples(scan.c, d, scan.documents[d], scan.folders.Keys)
  }

  method AddGroups(c: nat, memberships: map<string, GroupResolver.Membership>) returns (desired: set<PermissionTuple>)
    ensures forall t :: t in desired <==> FromGroups(c, memberships, memberships.Keys, t)
  {
    desired := {};
    var todo := memberships.Keys;
    while todo != {}
      invariant todo <= memberships.Keys
      invariant forall t :: t in desired <==> FromGroups(c, memberships, memberships.Keys - todo, t)
    {
      var g :| g in todo;
      todo := todo - {g};
      desired := desired + GroupTuples(c, g, memberships[g]);
    }
    assert memberships.Keys - todo == memberships.Keys;
  }

  method AddFolders(scan: Scan, unresolved: set<string>) returns (tuples: set<PermissionTuple>, invalid: set<string>)
    ensures forall t :: t in tuples <==> FromFolders(scan, unresolved, scan.folders.Keys, t)
    ensures forall f :: f in invalid <==> f in scan.folders && !Usable(scan.folders[f].snapshot, unresolved)
  {
    tuples, invalid := {}, {};
    var todo := scan.folders.Keys;
    while todo != {}
      invariant todo <= scan.folders.Keys
      invariant forall t :: t in tuples <==> FromFolders(scan, unresolved, scan.folders.Keys - todo, t)
      invariant forall f :: f in invalid <==> f in scan.folders.Keys - todo && !Usable(scan.folders[f].snapshot, unresolved)
    {
      var f :| f in todo;
      todo := todo - {f};
      var reason := ResourceAclReason(scan.folders[f].snapshot, unresolved);
      if reason != "" {
        invalid := invalid + {f};
      } else {
        tuples := tuples + FolderTuples(scan.c, f, scan.folders[f], scan.folders.Keys);
      }
    }
    assert scan.folders.Keys - todo == scan.folders.Keys;
  }

  /** The document is admissible and at least one tuple would back it. */
  predicate Backed(scan: Scan, unresolved: set<string>, invalidFolders: set<string>, d: nat)
    requires d in scan.documents
  {
    && Admissible(scan.documents[d], unresolved, invalidFolders)
    && DocumentTuples(scan.c, d, scan.documents[d], scan.folders.Keys) != {}
  }

  ghost function BackedDocuments(scan: Scan, unresolved: set<string>, invalidFolders: set<string>): (backed: set<nat>)
    ensures forall d :: d in backed <==> d in scan.documents && Backed(scan, unresolved, invalidFolders, d)
  {
    set d | d in scan.documents && Backed(scan, unresolved, invalidFolders, d)
  }

  /** The documents dealt with, sorted into eligible and excluded ones. */
  ghost predicate Sorted(documents: map<nat, DocumentRow>, backed: set<nat>, done: set<nat>,
                         eligible: map<nat, Version>, excluded: map<nat, string>)
  {
    && (forall d :: d in eligible <==> d in done && d in backed)
    && (forall d :: d in excluded <==> d in done && d !in backed)
    && (forall d :: d in eligible ==> d in documents && eligible[d] == documents[d].version)
    && (forall d :: d in excluded ==> excluded[d] != "")
  }

  /** The reason that keeps a document out, the lack of any tuple being the last one looked at. */
  ghost predicate ExcludedFor(scan: Scan, unresolved: set<string>, invalidAbove: bool, d: nat, r: string)
    requires d in scan.documents
  {
    if KeptOutFor(scan.documents[d], unresolved, invalidAbove, "") then r == "no_effective_grants"
    else KeptOutFor(scan.documents[d], unresolved, invalidAbove, r)
  }

  ghost predicate Reasoned(scan: Scan, unresolved: set<string>, invalidFolders: set<string>, excluded: map<nat, string>) {
    forall d :: d in excluded ==>
      d in scan.documents && ExcludedFor(scan, unresolved, HasInvalidParent(scan.documents[d], invalidFolders), d, excluded[d])
  }

  method JudgeDocument(scan: Scan, unresolved: set<string>, invalidFolders: set<string>, d: nat)
      returns (reason: string, tuples: set<PermissionTuple>)
    requires d in scan.documents
    ensures reason == "" <==> Backed(scan, unresolved, invalidFolders, d)
    ensures reason == "" ==> tuples == DocumentTuples(scan.c, d, scan.documents[d], scan.folders.Keys)
    ensures reason != "" ==> ExcludedFor(scan, unresolved, HasInvalidParent(scan.documents[d], invalidFolders), d, reason)
  {
    tuples := {};
    reason := DocumentReason(scan.documents[d], unresolved, invalidFolders);
    if reason == "" {
      tuples := DocumentTuples(scan.c, d, scan.documents[d], scan.folders.Keys);
      if tuples == {} { reason := "no_effective_grants"; }
    }
  }

  lemma DocumentsGrow(scan: Scan, tuples: set<PermissionTuple>, eligible: set<nat>, d: nat)
    requires d in scan.documents && scan.documents[d].snapshot.Some?
    requires forall t :: t in tuples <==> FromDocuments(scan, eligible, t)
    ensures forall t :: t in tuples + DocumentTuples(scan.c, d, scan.documents[d], scan.folders.Keys) <==> FromDocuments(scan, eligible + {d}, t)
  {
  }

  lemma SortsExcluded(documents: map<nat, DocumentRow>, backed: set<nat>, done: set<nat>,
                      eligible: map<nat, Version>, excluded: map<nat, string>, d: nat, reason: string)
    requires Sorted(documents, backed, done, eligible, excluded)
    requires d in documents && d !in done && d !in backed && reason != ""
    ensures Sorted(documents, backed, done + {d}, eligible, excluded[d := reason])
  {
  }

  lemma SortsEligible(documents: map<nat, DocumentRow>, backed: set<nat>, done: set<nat>,
                      eligible: map<nat, Version>, excluded: map<nat, string>, d: nat)
    requires Sorted(documents, backed, done, eligible, excluded)
    requires d in documents && d !in done && d in backed
    ensures Sorted(documents, backed, done + {d}, eligible[d := documents[d].version], excluded)
  {
  }

  method AddDocuments(scan: Scan, unresolved: set<string>, invalidFolders: set<string>)
      returns (tuples: set<PermissionTuple>, eligible: map<nat, Version>, excluded: map<nat, string>)
    ensures Sorted(scan.documents, BackedDocuments(scan, unresolved, invalidFolders), scan.documents.Keys, eligible, excluded)
    ensures forall t :: t in tuples <==> FromDocuments(scan, eligible.Keys, t)
    ensures Reasoned(scan, unresolved, invalidFolders, excluded)
  {
    tuples, eligible, excluded := {}, map[], map[];
    ghost var backed := BackedDocuments(scan, unresolved, invalidFolders);
    var todo, done := scan.documents.Keys, {};
    while todo != {}
      invariant todo !! done && todo + done == scan.documents.Keys
      invariant Sorted(scan.documents, backed, done, eligible, excluded)
      invariant forall t :: t in tuples <==> FromDocuments(scan, eligible.Keys, t)
      invariant Reasoned(scan, unresolved, invalidFolders, excluded)
      decreases todo
    {
      var d :| d in todo;
      var reason, documentTuples := JudgeDocument(scan, unresolved, invalidFolders, d);
      if reason != "" {
        SortsExcluded(scan.documents, backed, done, eligible, excluded, d, reason);
        excluded := excluded[d := reason];
      } else {
        SortsEligible(scan.documents, backed, done, eligible, excluded, d);
        DocumentsGrow(scan, tuples, eligible.Keys, d);
        tuples := tuples + documentTuples;
        assert eligible.Keys + {d} == eligible[d := scan.documents[d].version].Keys;
        eligible := eligible[d := scan.documents[d].version];
      }
      todo, done := todo - {d}, done + {d};
    }
    assert done == scan.documents.Keys;
  }

  // ----- the whole scan

  /** Resolution of every group that is mentioned, or of none. */
  ghost predicate GroupsSettled(scan: Scan, unresolved: set<string>, memberships: map<string, GroupResolver.Membership>) {
    var groups := ReferencedGroups(scan);
    if GroupResolver.Resolvable(scan.directory, groups) then
      && unresolved == {}
      && (forall g :: g in memberships <==> ReachableFrom(GroupResolver.Nesting(scan.directory), groups, g))
      && (forall g :: g in memberships ==> g in scan.directory && memberships[g] == scan.directory[g])
    else unresolved == groups && memberships == map[]
  }

  method SettleGroups(scan: Scan) returns (memberships: map<string, GroupResolver.Membership>, unresolved: set<string>)
    ensures GroupsSettled(scan, unresolved, memberships)
  {
    var groups := ReferencedGroups(scan);
    memberships, unresolved := map[], {};
    var answer, fetches := GroupResolver.Resolve(scan.directory, groups);
    if answer.Ok? {
      memberships := answer.value;
    } else {
      unresolved := groups;
    }
  }

  /** A document is eligible exactly when its content type is supported, no folder at or above any
      parent is invalid, its own list is usable, and some tuple backs it. */
  ghost predicate Eligible(scan: Scan, unresolved: set<string>, d: nat) {
    && d in scan.documents
    && var row := scan.documents[d];
       && row.exclusionReason != "unsupported_mime_type"
       && (forall i :: 0 <= i < |row.parents| ==> !HasInvalidAncestor(scan.Hierarchy(), scan.Unusable(unresolved), row.parents[i]))
       && Usable(row.snapshot, unresolved)
       && DocumentTuples(scan.c, d, row, scan.folders.Keys) != {}
  }

  /** Some folder at or above a parent of the document has a list that cannot be expressed. */
  ghost predicate InvalidAbove(scan: Scan, unresolved: set<string>, d: nat)
    requires d in scan.documents
  {
    var parents := scan.documents[d].parents;
    exists i :: 0 <= i < |parents| && HasInvalidAncestor(scan.Hierarchy(), scan.Unusable(unresolved), parents[i])
  }

  /** Eligible and excluded documents are all there are; each excluded one has the reason that comes
      first in the order of the checks. */
  ghost predicate Partitioned(scan: Scan, unresolved: set<string>, r: SyncResult) {
    && (forall d :: d in r.eligible <==> Eligible(scan, unresolved, d))
    && (forall d :: d in r.excluded <==> d in scan.documents && !Eligible(scan, unresolved, d))
    && (forall d :: d in r.eligible ==> r.eligible[d] == scan.documents[d].version)
    && (forall d :: d in r.excluded ==> r.excluded[d] != "" && ExcludedFor(scan, unresolved, InvalidAbove(scan, unresolved, d), d, r.excluded[d]))
  }

  ghost predicate Exact(scan: Scan, unresolved: set<string>, memberships: map<string, GroupResolver.Membership>, r: SyncResult) {
    forall t :: t in r.desired <==>
      || FromGroups(scan.c, memberships, memberships.Keys, t)
      || FromFolders(scan, unresolved, scan.folders.Keys, t)
      || FromDocuments(scan, r.eligible.Keys, t)
  }

  /** Fails exactly on a folder cycle; otherwise the documents are partitioned and the desired set
      holds the tuples of the groups, the usable folders and the eligible documents, no other. */
  method DesiredStateOf(scan: Scan)
      returns (r: Result<SyncResult>, ghost unresolved: set<string>, ghost memberships: map<string, GroupResolver.Membership>)
    ensures r.Ok? <==> Acyclic(ParentEdges(scan.Hierarchy()))
    ensures r.Err? ==> r.code == "folder_hierarchy_cycle"
    ensures r.Ok? ==> GroupsSettled(scan, unresolved, memberships)
    ensures r.Ok? ==> Partitioned(scan, unresolved, r.value) && Exact(scan, unresolved, memberships, r.value)
    ensures r.Ok? ==> r.value.groupsResolved == |memberships|
  {
    var acyclic, rank := ValidateAcyclic(scan.Hierarchy());
    if acyclic.Fail? {
      return Err(acyclic.code), {}, map[];
    }
    var resolved, open := SettleGroups(scan);
    memberships, unresolved := resolved, open;
    var groupTuples := AddGroups(scan.c, resolved);
    var folderTuples, invalid := AddFolders(scan, open);
    var invalidFolders := IncludeDescendants(invalid, scan.Hierarchy());
    var documentTuples, eligible, excluded := AddDocuments(scan, open, invalidFolders);
    r := Ok(SyncResult(groupTuples + folderTuples + documentTuples, eligible, excluded, |resolved|));
    assert invalid == scan.Unusable(open);
    SortedIsPartitioned(scan, open, invalidFolders, r.value);
  }

  lemma SortedIsPartitioned(scan: Scan, unresolved: set<string>, invalidFolders: set<string>, r: SyncResult)
    requires Sorted(scan.documents, BackedDocuments(scan, unresolved, invalidFolders), scan.documents.Keys, r.eligible, r.excluded)
    requires scan.Unusable(unresolved) <= invalidFolders && ClosedUnderChildren(scan.Hierarchy(), invalidFolders)
    requires forall s :: scan.Unusable(unresolved) <= s && ClosedUnderChildren(scan.Hierarchy(), s) ==> invalidFolders <= s
    requires Reasoned(scan, unresolved, invalidFolders, r.excluded)
    ensures Partitioned(scan, unresolved, r)
  {
    forall d | d in scan.documents
      ensures Backed(scan, unresolved, invalidFolders, d) <==> Eligible(scan, unresolved, d)
      ensures HasInvalidParent(scan.documents[d], invalidFolders) == InvalidAbove(scan, unresolved, d)
    {
      BackedIsEligible(scan, unresolved, invalidFolders, d);
      InvalidParentIsAbove(scan, unresolved, invalidFolders, d);
    }
  }

  lemma InvalidParentIsAbove(scan: Scan, unresolved: set<string>, invalidFolders: set<string>, d: nat)
    requires d in scan.documents
    requires scan.Unusable(unresolved) <= invalidFolders && ClosedUnderChildren(scan.Hierarchy(), invalidFolders)
    requires forall s :: scan.Unusable(unresolved) <= s && ClosedUnderChildren(scan.Hierarchy(), s) ==> invalidFolders <= s
    ensures HasInvalidParent(scan.documents[d], invalidFolders) <==> InvalidAbove(scan, unresolved, d)
  {
    var parents := scan.documents[d].parents;
    forall i | 0 <= i < |parents|
      ensures parents[i] in invalidFolders <==> HasInvalidAncestor(scan.Hierarchy(), scan.Unusable(unresolved), parents[i])
    {
      DescendantsExactly(scan.Hierarchy(), scan.Unusable(unresolved), invalidFolders, parents[i]);
    }
  }

  lemma BackedIsEligible(scan: Scan, unresolved: set<string>, invalidFolders: set<string>, d: nat)
    requires d in scan.documents
    requires scan.Unusable(unresolved) <= invalidFolders && ClosedUnderChildren(scan.Hierarchy(), invalidFolders)
    requires forall s :: scan.Unusable(unresolved) <= s && ClosedUnderChildren(scan.Hierarchy(), s) ==> invalidFolders <= s
    ensures Backed(scan, unresolved, invalidFolders, d) <==> Eligible(scan, unresolved, d)
  {
    InvalidParentIsAbove(scan, unresolved, invalidFolders, d);
  }

  // ----- what the result means for the tuple store

  ghost predicate Backs(t: PermissionTuple, c: nat, d: nat) {
    t.resourceType == "kgm/document" && t.resourceId == DocumentId(c, d)
  }

  lemma ResourceTuplesName(c: nat, kind: string, id: string, parents: seq<string>, permissions: seq<Permission>, scope: set<string>, t: PermissionTuple)
    requires t in ResourceTuples(c, kind, id, parents, permissions, scope)
    ensures t.resourceType == kind && t.resourceId == id
  {
  }

  /** Only the documents' own tuples name a document. */
  lemma TupleKinds(scan: Scan, unresolved: set<string>, memberships: map<string, GroupResolver.Membership>, t: PermissionTuple)
    ensures FromGroups(scan.c, memberships, memberships.Keys, t) ==> t.resourceType == "kgm/group"
    ensures FromFolders(scan, unresolved, scan.folders.Keys, t) ==> t.resourceType == "kgm/folder"
  {
    if FromFolders(scan, unresolved, scan.folders.Keys, t) {
      var f :| f in scan.folders && Usable(scan.folders[f].snapshot, unresolved) && t in FolderTuples(scan.c, f, scan.folders[f], scan.folders.Keys);
      ResourceTuplesName(scan.c, "kgm/folder", FolderId(scan.c, f), scan.folders[f].parents, scan.folders[f].snapshot.value.permissions, scan.folders.Keys, t);
    }
  }

  lemma OwnTuple(scan: Scan, documents: set<nat>, t: PermissionTuple) returns (d: nat)
    requires FromDocuments(scan, documents, t)
    ensures d in documents && Backs(t, scan.c, d) && d in scan.documents && scan.documents[d].snapshot.Some?
    ensures t in DocumentTuples(scan.c, d, scan.documents[d], scan.folders.Keys)
  {
    d :| d in documents && d in scan.documents && scan.documents[d].snapshot.Some?
         && t in DocumentTuples(scan.c, d, scan.documents[d], scan.folders.Keys);
    ResourceTuplesName(scan.c, "kgm/document", DocumentId(scan.c, d), scan.documents[d].parents, scan.documents[d].snapshot.value.permissions, scan.folders.Keys, t);
  }

  lemma EligibleIsBacked(scan: Scan, unresolved: set<string>, d: nat) returns (t: PermissionTuple)
    requires Eligible(scan, unresolved, d)
    ensures Backs(t, scan.c, d) && forall documents :: d in documents ==> FromDocuments(scan, documents, t)
  {
    t :| t in DocumentTuples(scan.c, d, scan.documents[d], scan.folders.Keys);
    ResourceTuplesName(scan.c, "kgm/document", DocumentId(scan.c, d), scan.documents[d].parents, scan.documents[d].snapshot.value.permissions, scan.folders.Keys, t);
  }

  /** Retrieval is allowed for exactly the documents that some tuple of the desired set backs. */
  lemma EligibleIffGranted(scan: Scan, unresolved: set<string>, memberships: map<string, GroupResolver.Membership>, r: SyncResult, d: nat)
    requires Partitioned(scan, unresolved, r) && Exact(scan, unresolved, memberships, r)
    ensures d in r.eligible <==> exists t :: t in r.desired && Backs(t, scan.c, d)
  {
    if d in r.eligible {
      var t := EligibleIsBacked(scan, unresolved, d);
      assert t in r.desired;
    }
    forall t | t in r.desired && Backs(t, scan.c, d) ensures d in r.eligible {
      TupleKinds(scan, unresolved, memberships, t);
      var e := OwnTuple(scan, r.eligible.Keys, t);
      DocumentIdInjective(scan.c, d, scan.c, e);
    }
  }

  // ----- the digest covers all that the tuples depend on

  lemma InCanonical(ps: seq<Permission>, x: CanonicalPermission)
    ensures x in Canonical(ps) <==> exists i :: 0 <= i < |ps| && CanonicalOf(ps[i]) == x
  {
    var cs := CanonicalList(ps);
    assert x in Canonical(ps) <==> x in cs;
    assert forall i :: 0 <= i < |ps| ==> cs[i] == CanonicalOf(ps[i]);
  }

  lemma DetailAt(ds: seq<Detail>, es: seq<Detail>, i: nat) returns (j: nat)
    requires multiset(ds) == multiset(es) && i < |ds|
    ensures j < |es| && es[j] == ds[i]
  {
    assert ds[i] in multiset(ds);
    assert ds[i] in es;
    j :| 0 <= j < |es| && es[j] == ds[i];
  }

  /** An inheritance is as safe, however its details are ordered. */
  lemma InheritanceUnordered(p: Permission, q: Permission, parents: seq<string>, scope: set<string>)
    requires CanonicalOf(p) == CanonicalOf(q) && SafelyInherited(p, parents, scope)
    ensures SafelyInherited(q, parents, scope)
  {
    assert |multiset(p.details)| == |p.details| && |multiset(q.details)| == |q.details|;
    forall i | 0 <= i < |q.details|
      ensures q.details[i].inherited && q.details[i].inheritedFrom.Some?
              && q.details[i].inheritedFrom.value in parents && q.details[i].inheritedFrom.value in scope
    {
      var j := DetailAt(q.details, p.details, i);
    }
  }

  lemma EntryTupleKept(c: nat, kind: string, id: string, parents: seq<string>, ps: seq<Permission>, qs: seq<Permission>, scope: set<string>, i: nat)
    requires Canonical(ps) == Canonical(qs) && i < |ps| && !ps[i].deleted && !SafelyInherited(ps[i], parents, scope)
    ensures EntryTuple(c, kind, id, ps[i]) in ResourceTuples(c, kind, id, parents, qs, scope)
  {
    InCanonical(ps, CanonicalOf(ps[i]));
    InCanonical(qs, CanonicalOf(ps[i]));
    var j :| 0 <= j < |qs| && CanonicalOf(qs[j]) == CanonicalOf(ps[i]);
    if SafelyInherited(qs[j], parents, scope) { InheritanceUnordered(qs[j], ps[i], parents, scope); }
    assert EntryTuple(c, kind, id, qs[j]) == EntryTuple(c, kind, id, ps[i]);
  }

  lemma TuplesWithin(c: nat, kind: string, id: string, parents: seq<string>, ps: seq<Permission>, qs: seq<Permission>, scope: set<string>)
    requires Canonical(ps) == Canonical(qs)
    ensures ResourceTuples(c, kind, id, parents, ps, scope) <= ResourceTuples(c, kind, id, parents, qs, scope)
  {
    forall i | 0 <= i < |ps| && !ps[i].deleted && !SafelyInherited(ps[i], parents, scope)
      ensures EntryTuple(c, kind, id, ps[i]) in ResourceTuples(c, kind, id, parents, qs, scope)
    {
      EntryTupleKept(c, kind, id, parents, ps, qs, scope, i);
    }
  }

  /** Access lists of one version yield the same tuples. */
  lemma VersionFixesTuples(c: nat, kind: string, id: string, parents: seq<string>, ps: seq<Permission>, qs: seq<Permission>, scope: set<string>)
    requires Canonical(ps) == Canonical(qs)
    ensures ResourceTuples(c, kind, id, parents, ps, scope) == ResourceTuples(c, kind, id, parents, qs, scope)
  {
    TuplesWithin(c, kind, id, parents, ps, qs, scope);
    TuplesWithin(c, kind, id, parents, qs, ps, scope);
  }

  /** The desired tuples that name an eligible document are those of its own row. */
  lemma DesiredOfDocument(scan: Scan, unresolved: set<string>, memberships: map<string, GroupResolver.Membership>, r: SyncResult, d: nat, t: PermissionTuple)
    requires Partitioned(scan, unresolved, r) && Exact(scan, unresolved, memberships, r) && d in r.eligible
    ensures t in r.desired && Backs(t, scan.c, d) <==> t in DocumentTuples(scan.c, d, scan.documents[d], scan.folders.Keys)
  {
    var row := scan.documents[d];
    if t in r.desired && Backs(t, scan.c, d) {
      TupleKinds(scan, unresolved, memberships, t);
      var e := OwnTuple(scan, r.eligible.Keys, t);
      DocumentIdInjective(scan.c, d, scan.c, e);
    }
    if t in DocumentTuples(scan.c, d, row, scan.folders.Keys) {
      ResourceTuplesName(scan.c, "kgm/document", DocumentId(scan.c, d), row.parents, row.snapshot.value.permissions, scan.folders.Keys, t);
      assert FromDocuments(scan, r.eligible.Keys, t);
    }
  }

  lemma RolesAreNotViewers(p: Permission)
    requires IsSupported(p)
    ensures RoleRelation(p.role) != "oauth_viewer"
  {
  }

  lemma ResourceTuplesRelation(c: nat, kind: string, id: string, parents: seq<string>, permissions: seq<Permission>, scope: set<string>, t: PermissionTuple)
    requires t in ResourceTuples(c, kind, id, parents, permissions, scope)
    ensures t.relation == "parent" || exists i :: 0 <= i < |permissions| && !permissions[i].deleted && t.relation == RoleRelation(permissions[i].role)
  {
  }

  lemma UsableIsSupported(snapshot: Option<Snapshot>, unresolved: set<string>, i: nat)
    requires Usable(snapshot, unresolved) && i < |snapshot.value.permissions| && !snapshot.value.permissions[i].deleted
    ensures IsSupported(snapshot.value.permissions[i])
  {
  }

  lemma ResourceTuplesDelegated(c: nat, kind: string, id: string, parents: seq<string>, snapshot: Option<Snapshot>,
                                unresolved: set<string>, scope: set<string>, t: PermissionTuple)
    requires Usable(snapshot, unresolved)
    requires t in ResourceTuples(c, kind, id, parents, snapshot.value.permissions, scope)
    ensures t.relation != "oauth_viewer"
  {
    var ps := snapshot.value.permissions;
    ResourceTuplesRelation(c, kind, id, parents, ps, scope, t);
    if t.relation != "parent" {
      var i :| 0 <= i < |ps| && !ps[i].deleted && t.relation == RoleRelation(ps[i].role);
      UsableIsSupported(snapshot, unresolved, i);
      RolesAreNotViewers(ps[i]);
    }
  }

  /** The desired set never holds a direct per-user grant. */
  lemma NoViewerDesired(scan: Scan, unresolved: set<string>, memberships: map<string, GroupResolver.Membership>, r: SyncResult, t: PermissionTuple)
    requires Partitioned(scan, unresolved, r) && Exact(scan, unresolved, memberships, r) && t in r.desired
    ensures t.relation != "oauth_viewer"
  {
    if FromFolders(scan, unresolved, scan.folders.Keys, t) {
      var f :| f in scan.folders && Usable(scan.folders[f].snapshot, unresolved) && t in FolderTuples(scan.c, f, scan.folders[f], scan.folders.Keys);
      ResourceTuplesDelegated(scan.c, "kgm/folder", FolderId(scan.c, f), scan.folders[f].parents, scan.folders[f].snapshot, unresolved, scan.folders.Keys, t);
    } else if FromDocuments(scan, r.eligible.Keys, t) {
      var d :| d in r.eligible.Keys && d in scan.documents && scan.documents[d].snapshot.Some?
               && t in DocumentTuples(scan.c, d, scan.documents[d], scan.folders.Keys);
      assert Eligible(scan, unresolved, d);
      ResourceTuplesDelegated(scan.c, "kgm/document", DocumentId(scan.c, d), scan.documents[d].parents, scan.documents[d].snapshot, unresolved, scan.folders.Keys, t);
    }
  }

  /** The desired set stays within what the connection's scoped read returns. */
  lemma DesiredIsManaged(scan: Scan, unresolved: set<string>, memberships: map<string, GroupResolver.Membership>, r: SyncResult, t: PermissionTuple)
    requires Exact(scan, unresolved, memberships, r) && t in r.desired
    ensures Managed(t, ConnectionPrefix(scan.c))
  {
    var c := scan.c;
    assert MANAGED_RESOURCE_TYPES[0] == "kgm/group" && MANAGED_RESOURCE_TYPES[1] == "kgm/folder" && MANAGED_RESOURCE_TYPES[2] == "kgm/document";
    TupleKinds(scan, unresolved, memberships, t);
    if FromDocuments(scan, r.eligible.Keys, t) {
      var d := OwnTuple(scan, r.eligible.Keys, t);
      assert ConnectionPrefix(c) <= DocumentId(c, d);
    } else if FromFolders(scan, unresolved, scan.folders.Keys, t) {
      var f :| f in scan.folders && Usable(scan.folders[f].snapshot, unresolved) && t in FolderTuples(c, f, scan.folders[f], scan.folders.Keys);
      ResourceTuplesName(c, "kgm/folder", FolderId(c, f), scan.folders[f].parents, scan.folders[f].snapshot.value.permissions, scan.folders.Keys, t);
      assert ConnectionPrefix(c) <= FolderId(c, f);
    } else {
      var g :| g in memberships && t in GroupTuples(c, g, memberships[g]);
      assert ConnectionPrefix(c) <= GroupId(c, g);
    }
  }
}
