/** One delegated permission run up to its commit: scan, reconcile, verify. */
module DelegatedSync {
  import opened Digraph
  import opened DesiredState
  import opened FolderHierarchy
  import opened Identifiers
  import opened Outcomes
  import opened TupleStore

  predicate AllManaged(tuples: set<PermissionTuple>, c: nat) {
    forall t :: t in tuples ==> Managed(t, ConnectionPrefix(c))
  }

  /** Makes everything the store holds for the connection match the desired set. With no other
      writer only a failing call, or a desired tuple out of scope, keeps it from succeeding. */
  method ReconcileManaged(db: SpiceDb, c: nat, desired: set<PermissionTuple>, size: nat, faults: Faults)
      returns (r: Result<Reconciliation>)
    requires size >= 1
    modifies db
    ensures Between(db.tuples, old(db.tuples), ManagedOf(old(db.tuples), ConnectionPrefix(c)), desired)
    ensures r.Ok? ==> ManagedOf(db.tuples, ConnectionPrefix(c)) == desired && (desired != {} ==> r.value.revision != "")
    ensures r.Ok? <==> (&& !faults.readFails && !faults.rereadFails && AllManaged(desired, c)
                        && BatchCount(Updates(ManagedOf(old(db.tuples), ConnectionPrefix(c)), desired), size) <= faults.batches)
  {
    if faults.readFails {
      return Err("spicedb_operation_failed");
    }
    var current := db.ReadManagedTuples(ConnectionPrefix(c));
    r := WriteDifference(db, current, desired, size, faults.batches);
    if r.Err? || faults.rereadFails {
      return Err("spicedb_operation_failed");
    }
    var verified := db.ReadManagedTuples(ConnectionPrefix(c));
    assert forall t :: t in verified <==> t in desired && Managed(t, ConnectionPrefix(c));
    if verified != desired {
      return Err("relationship_verification_mismatch");
    }
  }

  /** What a run relies on when it enables documents: exactly the eligible ones are backed by a
      tuple, none is backed by a direct per-user grant, and there is a revision to show for it. */
  ghost predicate Backing(tuples: set<PermissionTuple>, c: nat, eligible: set<nat>, revision: string) {
    && (forall d: nat :: d in eligible <==> exists t :: t in tuples && Backs(t, c, d))
    && (forall t :: t in tuples && Managed(t, ConnectionPrefix(c)) ==> t.relation != "oauth_viewer")
    && (eligible != {} ==> revision != "")
  }

  /** A run up to its commit. It fails exactly on a folder cycle or a failing call; then the store holds
      for the connection what the scan comes to. The tuples of other connections stay as they are
      whatever happens. */
  method SynchronizeTuples(db: SpiceDb, scan: Scan, size: nat, faults: Faults)
      returns (r: Result<(SyncResult, string)>, ghost unresolved: set<string>, ghost memberships: map<string, GroupResolver.Membership>,
               ghost computed: SyncResult)
    requires size >= 1
    modifies db
    ensures Acyclic(ParentEdges(scan.Hierarchy())) ==>
              GroupsSettled(scan, unresolved, memberships) && Partitioned(scan, unresolved, computed) && Exact(scan, unresolved, memberships, computed)
    ensures r.Ok? <==> && Acyclic(ParentEdges(scan.Hierarchy())) && !faults.readFails && !faults.rereadFails
                       && BatchCount(Updates(ManagedOf(old(db.tuples), ConnectionPrefix(scan.c)), computed.desired), size) <= faults.batches
    ensures r.Ok? ==> r.value.0 == computed && ManagedOf(db.tuples, ConnectionPrefix(scan.c)) == computed.desired
    ensures r.Ok? ==> Backing(db.tuples, scan.c, r.value.0.eligible.Keys, r.value.1)
    ensures r.Err? ==> r.code == if Acyclic(ParentEdges(scan.Hierarchy())) then "spicedb_operation_failed" else "folder_hierarchy_cycle"
    ensures forall t :: !Managed(t, ConnectionPrefix(scan.c)) ==> (t in db.tuples <==> t in old(db.tuples))
  {
    computed := SyncResult({}, map[], map[], 0);
    var state;
    state, unresolved, memberships := DesiredStateOf(scan);
    if state.Err? {
      return Err(state.code), unresolved, memberships, computed;
    }
    var result := state.value;
    computed := result;
    DesiredInScope(scan, unresolved, memberships, result);
    if exists t :: t in result.desired && t.relation == "oauth_viewer" {
      return Err("oauth_viewer_in_delegated_state"), unresolved, memberships, computed;
    }
    var written := ReconcileManaged(db, scan.c, result.desired, size, faults);
    if written.Err? {
      return Err("spicedb_operation_failed"), unresolved, memberships, computed;
    }
    StoreBacksEligible(scan, unresolved, memberships, result, db.tuples, written.value.revision);
    r := Ok((result, written.value.revision));
  }

  lemma DesiredInScope(scan: Scan, unresolved: set<string>, memberships: map<string, GroupResolver.Membership>, result: SyncResult)
    requires Partitioned(scan, unresolved, result) && Exact(scan, unresolved, memberships, result)
    ensures AllManaged(result.desired, scan.c)
    ensures forall t :: t in result.desired ==> t.relation != "oauth_viewer"
  {
    forall t | t in result.desired ensures Managed(t, ConnectionPrefix(scan.c)) && t.relation != "oauth_viewer" {
      DesiredIsManaged(scan, unresolved, memberships, result, t);
      NoViewerDesired(scan, unresolved, memberships, result, t);
    }
  }

  lemma BackingIsManaged(t: PermissionTuple, c: nat, d: nat)
    requires Backs(t, c, d)
    ensures Managed(t, ConnectionPrefix(c))
  {
    assert MANAGED_RESOURCE_TYPES[2] == "kgm/document";
    assert ConnectionPrefix(c) <= DocumentId(c, d);
  }

  lemma StoreBacksEligible(scan: Scan, unresolved: set<string>, memberships: map<string, GroupResolver.Membership>,
                           result: SyncResult, tuples: set<PermissionTuple>, revision: string)
    requires Partitioned(scan, unresolved, result) && Exact(scan, unresolved, memberships, result)
    requires ManagedOf(tuples, ConnectionPrefix(scan.c)) == result.desired
    requires result.desired != {} ==> revision != ""
    ensures Backing(tuples, scan.c, result.eligible.Keys, revision)
  {
    DesiredInScope(scan, unresolved, memberships, result);
    forall d: nat ensures d in result.eligible <==> exists t :: t in tuples && Backs(t, scan.c, d) {
      EligibleIffGranted(scan, unresolved, memberships, result, d);
      forall t | Backs(t, scan.c, d) ensures t in tuples <==> t in result.desired {
        BackingIsManaged(t, scan.c, d);
        assert t in ManagedOf(tuples, ConnectionPrefix(scan.c)) <==> t in tuples;
      }
    }
    forall t | t in tuples && Managed(t, ConnectionPrefix(scan.c)) ensures t.relation != "oauth_viewer" {
      assert t in ManagedOf(tuples, ConnectionPrefix(scan.c));
    }
  }
}
