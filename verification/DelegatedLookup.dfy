/** The lookup of the delegated mode: SpiceDB says what the user may view, the rows say what is verified. */
module DelegatedLookup {
  import opened DelegatedEvidence
  import opened DelegatedTheorems
  import opened DesiredState
  import opened DriveAccess
  import opened Identifiers
  import opened StoreAccess
  import opened TupleStore
  import GroupResolver

  /** What a call of `LookupResources` answers: the ids of the documents the user may view. */
  ghost predicate AnswersView(resources: set<string>, tuples: set<PermissionTuple>, user: string) {
    forall id :: id in resources <==> Views(tuples, "kgm/document", id, user)
  }

  /** `_delegated_allowed_ids` */
  method DelegatedAllowedIds(table: Table, c: nat, resources: set<string>, cutoff: int, ghost tuples: set<PermissionTuple>, ghost email: string)
      returns (allowed: set<nat>)
    requires AnswersView(resources, tuples, UserId(c, email))
    ensures forall d :: d in allowed <==> Allows(table, tuples, c, email, cutoff, d)
  {
    allowed := {};
    if resources == {} {
      assert forall d: nat :: DocumentId(c, d) !in resources;
      return;
    }
    var candidates := set d | d in table && VerifiedAt(table[d], table[d].sourceVersion, cutoff);
    allowed := set d | d in candidates && DocumentId(c, d) in resources;
  }

  /** The document's row is verified and young enough, and the user may view it in the store. */
  ghost predicate Allows(table: Table, tuples: set<PermissionTuple>, c: nat, email: string, cutoff: int, d: nat) {
    && d in table && table[d].active && table[d].eligible && table[d].spicedbVersion == table[d].sourceVersion
    && table[d].verifiedAt.Some? && table[d].verifiedAt.value >= cutoff
    && Views(tuples, "kgm/document", DocumentId(c, d), UserId(c, email))
  }

  /** The groups that no resolution was had for. */
  ghost function Unresolved(scan: Scan): set<string> {
    if GroupResolver.Resolvable(scan.directory, ReferencedGroups(scan)) then {} else ReferencedGroups(scan)
  }

  /** A scan that was computed, at a store that holds what it desires: the user may view exactly the
      eligible documents whose captured lists, at the document or above it, let the user in. */
  lemma ScanDecidesView(scan: Scan, result: SyncResult, store: set<PermissionTuple>, d: nat, email: string)
    requires Computes(scan, result) && Folded(scan.directory) && ManagedOf(store, ConnectionPrefix(scan.c)) == result.desired
    ensures Views(store, "kgm/document", DocumentId(scan.c, d), UserId(scan.c, email))
       <==> d in result.eligible && d in scan.documents && DocumentOpens(scan, Unresolved(scan), d, Normalize(email))
  {
    var unresolved, memberships :| GroupsSettled(scan, unresolved, memberships) && Partitioned(scan, unresolved, result)
                                   && Exact(scan, unresolved, memberships, result);
    assert unresolved == Unresolved(scan);
    assert DriveAccess.Computed(scan, unresolved, memberships, result);
    hide *;
    StoreViewIsAccess(scan, unresolved, memberships, result, store, d, email);
  }

  /** What a delegated lookup allows in any reachable state was verified, within the age, by a run that
      computed it at the version its row has now, from a list with the entries of the present one unless
      a cutover blanked that version. If the store holds what that run desired, the lists the run had
      captured let the user in. */
  lemma AllowedIsOpened(w0: World, steps: seq<Step>, d: nat, email: string, cutoff: int) returns (i: nat, rereads: seq<nat>, j: nat, k: nat)
    requires Initial(w0)
    requires var w := Run(w0, steps); Allows(w.table, w.tuples, w0.connection, email, cutoff, d)
    ensures var w := Run(w0, steps);
            && Trace(w.log, i, rereads, j, k, d, w.table[d].sourceVersion, w.table[d].verifiedAt.value)
            && w.table[d].verifiedAt.value >= cutoff && w.log[i].scan.c == w0.connection && d in w.log[i].result.eligible
            && (w.table[d].sourceVersion != Blank ==> SameEntries(w.log[i].scan.documents[d].snapshot.value, w.table[d].acl))
            && (Folded(w.log[i].scan.directory) && ManagedOf(w.tuples, ConnectionPrefix(w0.connection)) == w.log[i].result.desired ==>
                  DocumentOpens(w.log[i].scan, Unresolved(w.log[i].scan), d, Normalize(email)))
  {
    i, rereads, j, k := VerifiedIsEvident(w0, steps, d, cutoff);
    var w := Run(w0, steps);
    var m := EntryWasTrue(w0, steps, i);
    ScanOfConnection(w0, steps, m, i);
    if Folded(w.log[i].scan.directory) && ManagedOf(w.tuples, ConnectionPrefix(w0.connection)) == w.log[i].result.desired {
      hide Folded, Computes, ManagedOf, Run;
      ScanDecidesView(w.log[i].scan, w.log[i].result, w.tuples, d, email);
    }
  }
}
