/** What delegated evidence is worth: a verified document was backed by exactly the tuples of a list
    of the version its row holds, and when that is the list the row holds. */
module DelegatedTheorems {
  import opened DelegatedEvidence
  import opened DelegatedSync
  import opened DesiredState
  import opened Identifiers
  import opened Outcomes
  import opened TupleStore

  // ----- the history is true

  /** What an entry says was so when the step that wrote it was taken. */
  ghost predicate TrueAt(v: World, event: Event) {
    match event
    case Computed(_, scan, result, age) => ReadsTable(scan, v.connection, v.table) && Computes(scan, result) && age == |v.older|
    case KindRead(_, kind, at, tuples) => IsKind(kind) && at <= |v.older| && tuples == KindOf(StoreAt(v, at), v.connection, kind)
    case TuplesVerified(r, revision) => r in v.runs && FoundDesired(v.runs[r]) && v.runs[r].revision == revision
    case DocumentsCommitted(r, t) => r in v.runs && v.runs[r].phase.TimeRead? && v.runs[r].time == t
  }

  ghost predicate AddsTruth(v: World, u: World) {
    && u.connection == v.connection
    && (u.log == v.log || exists event :: u.log == v.log + [event] && TrueAt(v, event))
  }

  lemma StepAddsTruth(v: World, s: Step)
    ensures AddsTruth(v, Apply(v, s))
  {
    var u := Apply(v, s);
    if u.log != v.log {
      match s {
        case ComputeDesired(r, scan, result) => assert u.log == v.log + [Computed(r, scan, result, |v.older|)];
        case RereadKind(r, kind, at) => assert u.log == v.log + [KindRead(r, kind, at, KindOf(StoreAt(v, at), v.connection, kind))];
        case VerifyTuples(r) => assert u.log == v.log + [TuplesVerified(r, v.runs[r].revision)];
        case CommitDocuments(r) => assert u.log == v.log + [DocumentsCommitted(r, v.runs[r].time)];
        case _ =>
      }
    }
  }

  lemma {:induction false} RunMore(w: World, steps: seq<Step>, s: Step)
    ensures Run(w, steps + [s]) == Apply(Run(w, steps), s)
    decreases |steps|
  {
    if steps == [] {
      assert [] + [s] == [s] && [s][1..] == [];
      assert Run(Apply(w, s), []) == Apply(w, s);
    } else {
      assert (steps + [s])[1..] == steps[1..] + [s];
      RunMore(Apply(w, steps[0]), steps[1..], s);
    }
  }

  /** Step n of the run wrote entry i, and it was so. */
  ghost predicate WroteTruth(w: World, steps: seq<Step>, n: nat, i: nat) {
    && n < |steps| && |Run(w, steps[..n]).log| == i && i < |Run(w, steps).log|
    && TrueAt(Run(w, steps[..n]), Run(w, steps).log[i]) && Run(w, steps[..n]).connection == w.connection
  }

  /** Every entry was written by some step of the run, and said the truth of that step. */
  lemma {:induction false} EntryWasTrue(w: World, steps: seq<Step>, i: nat) returns (n: nat)
    requires |w.log| <= i < |Run(w, steps).log|
    ensures WroteTruth(w, steps, n, i)
    decreases |steps|
  {
    assert steps != [];
    var init, last := steps[..|steps| - 1], steps[|steps| - 1];
    assert steps == init + [last];
    RunMore(w, init, last);
    StepAddsTruth(Run(w, init), last);
    SameConnection(w, init);
    if i < |Run(w, init).log| {
      n := EntryWasTrue(w, init, i);
      assert steps[..n] == init[..n];
    } else {
      n := |init|;
      assert steps[..n] == init;
    }
  }

  lemma {:induction false} SameConnection(w: World, steps: seq<Step>)
    ensures Run(w, steps).connection == w.connection
    decreases |steps|
  {
    if steps != [] {
      StepAddsTruth(w, steps[0]);
      SameConnection(Apply(w, steps[0]), steps[1..]);
    }
  }

  /** The log only grows, and the store's past with it. */
  lemma {:induction false} PastGrows(w: World, steps: seq<Step>, n: nat, m: nat)
    requires n <= m <= |steps|
    ensures |Run(w, steps[..n]).log| <= |Run(w, steps[..m]).log| && |Run(w, steps[..n]).older| <= |Run(w, steps[..m]).older|
    decreases m - n
  {
    if n < m {
      PastGrows(w, steps, n, m - 1);
      OneMore(w, steps, m - 1);
      StepAddsTruth(Run(w, steps[..m - 1]), steps[m - 1]);
      StoreMoves(Run(w, steps[..m - 1]), steps[m - 1]);
    }
  }

  lemma OneMore(w: World, steps: seq<Step>, n: nat)
    requires n < |steps|
    ensures Run(w, steps[..n + 1]) == Apply(Run(w, steps[..n]), steps[n])
  {
    assert steps[..n + 1] == steps[..n] + [steps[n]];
    RunMore(w, steps[..n], steps[n]);
  }

  /** Entries are written in the order of the steps. */
  lemma EarlierEntry(w: World, steps: seq<Step>, n: nat, i: nat, m: nat, j: nat)
    requires WroteTruth(w, steps, n, i) && WroteTruth(w, steps, m, j) && i < j
    ensures n < m
  {
    if m <= n { PastGrows(w, steps, m, n); }
  }

  /** A step leaves the store as it is, or adds one state to its past. */
  lemma StoreMoves(v: World, s: Step)
    ensures var u := Apply(v, s); (u.older == v.older && u.tuples == v.tuples) || u.older == v.older + [v.tuples]
  {
  }

  /** A state of the store's past was its present between any two steps that enclose it. */
  lemma {:induction false} StoreWas(w: World, steps: seq<Step>, m: nat, q: nat, at: nat) returns (n: nat)
    requires m <= q <= |steps| && |Run(w, steps[..m]).older| <= at <= |Run(w, steps[..q]).older|
    ensures m <= n <= q && Run(w, steps[..n]).tuples == StoreAt(Run(w, steps[..q]), at)
    decreases q
  {
    if at == |Run(w, steps[..q]).older| {
      n := q;
    } else {
      OneMore(w, steps, q - 1);
      StoreMoves(Run(w, steps[..q - 1]), steps[q - 1]);
      n := StoreWas(w, steps, m, q - 1, at);
    }
  }

  // ----- what stands behind a verified document

  /** The lists have the same entries, in whatever order. */
  predicate SameEntries(a: Snapshot, b: Snapshot) {
    Canonical(a.permissions) == Canonical(b.permissions)
  }

  /** A document that passes the verified predicate carries evidence committed, within the maximum age,
      by a run that computed its tuples from a list of the very version the row holds now, and that
      list has the entries the row's list has now unless a cutover blanked the version. */
  lemma VerifiedIsEvident(w0: World, steps: seq<Step>, d: nat, cutoff: int) returns (i: nat, rereads: seq<nat>, j: nat, k: nat)
    requires Initial(w0)
    requires var w := Run(w0, steps); d in w.table && VerifiedAt(w.table[d], w.table[d].sourceVersion, cutoff)
    ensures var w := Run(w0, steps);
            && Trace(w.log, i, rereads, j, k, d, w.table[d].sourceVersion, w.table[d].verifiedAt.value)
            && w.table[d].verifiedAt.value >= cutoff
            && (w.table[d].sourceVersion != Blank ==> SameEntries(w.log[i].scan.documents[d].snapshot.value, w.table[d].acl))
  {
    RunKeeps(w0, steps);
    var w := Run(w0, steps);
    var row := w.table[d];
    assert RowOk(w.log, d, row);
    i, rereads, j, k :| Trace(w.log, i, rereads, j, k, d, row.spicedbVersion, row.verifiedAt.value);
  }

  /** The store's tuples of the kind are exactly the desired ones of it. */
  predicate HoldsKind(tuples: set<PermissionTuple>, desired: set<PermissionTuple>, c: nat, kind: nat) {
    IsKind(kind) && KindOf(tuples, c, kind) == KindOf(desired, c, kind)
  }

  /** What one answer of the second read says of the store: between the computing and the read there
      was a state that held of the kind exactly what is desired. */
  lemma KindWasHeld(w0: World, steps: seq<Step>, i: nat, e: nat, kind: nat, m: nat) returns (n: nat, q: nat)
    requires Initial(w0) && |Run(w0, steps).log| > i && Run(w0, steps).log[i].Computed?
    requires IsKind(kind) && ReadFor(Run(w0, steps).log, i, e, kind) && WroteTruth(w0, steps, m, i)
    ensures m < q && WroteTruth(w0, steps, q, e) && m <= n <= q
    ensures HoldsKind(Run(w0, steps[..n]).tuples, Run(w0, steps).log[i].result.desired, w0.connection, kind)
  {
    var log := Run(w0, steps).log;
    q := EntryWasTrue(w0, steps, e);
    EarlierEntry(w0, steps, m, i, q, e);
    n := StoreWas(w0, steps, m, q, log[e].at);
  }

  ghost predicate BacksExactly(tuples: set<PermissionTuple>, c: nat, eligible: set<nat>) {
    forall e: nat :: e in eligible <==> exists t :: t in tuples && Backs(t, c, e)
  }

  /** The tuples name the document exactly as its scanned row says. */
  ghost predicate NamesExactly(tuples: set<PermissionTuple>, scan: Scan, d: nat)
    requires d in scan.documents && scan.documents[d].snapshot.Some?
  {
    forall t :: t in tuples && Backs(t, scan.c, d) <==> t in DocumentTuples(scan.c, d, scan.documents[d], scan.folders.Keys)
  }

  ghost predicate NoViewerIn(tuples: set<PermissionTuple>, c: nat, kind: nat) {
    IsKind(kind) && forall t :: t in KindOf(tuples, c, kind) ==> t.relation != "oauth_viewer"
  }

  const DOCUMENTS: nat := 2

  /** Whatever names a document of the connection is in the answer for documents. */
  lemma NamedByKind(tuples: set<PermissionTuple>, c: nat, d: nat, t: PermissionTuple)
    requires Backs(t, c, d)
    ensures t in tuples <==> t in KindOf(tuples, c, DOCUMENTS)
  {
    assert MANAGED_RESOURCE_TYPES[DOCUMENTS] == "kgm/document";
    assert ConnectionPrefix(c) <= DocumentId(c, d);
  }

  lemma NamedAsDesired(tuples: set<PermissionTuple>, desired: set<PermissionTuple>, c: nat, d: nat, t: PermissionTuple)
    requires HoldsKind(tuples, desired, c, DOCUMENTS) && Backs(t, c, d)
    ensures t in tuples <==> t in desired
  {
    NamedByKind(tuples, c, d, t);
    NamedByKind(desired, c, d, t);
  }

  /** A state that holds the desired tuples of documents backs exactly the eligible ones. */
  lemma DocumentsBack(scan: Scan, result: SyncResult, tuples: set<PermissionTuple>)
    requires Computes(scan, result) && HoldsKind(tuples, result.desired, scan.c, DOCUMENTS)
    ensures BacksExactly(tuples, scan.c, result.eligible.Keys)
  {
    var unresolved, memberships :| GroupsSettled(scan, unresolved, memberships) && Partitioned(scan, unresolved, result)
                                   && Exact(scan, unresolved, memberships, result);
    hide *;
    forall d: nat ensures d in result.eligible.Keys <==> exists t :: t in tuples && Backs(t, scan.c, d) {
      EligibleIffGranted(scan, unresolved, memberships, result, d);
      forall t | Backs(t, scan.c, d) ensures t in tuples <==> t in result.desired {
        NamedAsDesired(tuples, result.desired, scan.c, d, t);
      }
    }
    BacksEach(tuples, scan.c, result.eligible.Keys);
  }

  lemma BacksEach(tuples: set<PermissionTuple>, c: nat, eligible: set<nat>)
    requires forall d: nat :: d in eligible <==> exists t :: t in tuples && Backs(t, c, d)
    ensures BacksExactly(tuples, c, eligible)
  {
  }

  /** Such a state names an eligible document as its scanned row says. */
  lemma DocumentNamed(scan: Scan, result: SyncResult, tuples: set<PermissionTuple>, d: nat)
    requires Computes(scan, result) && HoldsKind(tuples, result.desired, scan.c, DOCUMENTS)
    requires d in result.eligible && d in scan.documents && scan.documents[d].snapshot.Some?
    ensures NamesExactly(tuples, scan, d)
  {
    var unresolved, memberships :| GroupsSettled(scan, unresolved, memberships) && Partitioned(scan, unresolved, result)
                                   && Exact(scan, unresolved, memberships, result);
    hide Exact, Partitioned, HoldsKind, Backs, DocumentTuples;
    forall t ensures t in tuples && Backs(t, scan.c, d) <==> t in DocumentTuples(scan.c, d, scan.documents[d], scan.folders.Keys) {
      DesiredOfDocument(scan, unresolved, memberships, result, d, t);
      if Backs(t, scan.c, d) { NamedAsDesired(tuples, result.desired, scan.c, d, t); }
    }
  }

  lemma NoViewerDesiredOf(scan: Scan, result: SyncResult, tuples: set<PermissionTuple>, kind: nat)
    requires Computes(scan, result) && HoldsKind(tuples, result.desired, scan.c, kind)
    ensures NoViewerIn(tuples, scan.c, kind)
  {
    var unresolved, memberships :| GroupsSettled(scan, unresolved, memberships) && Partitioned(scan, unresolved, result)
                                   && Exact(scan, unresolved, memberships, result);
    hide Exact, Partitioned;
    forall t | t in KindOf(tuples, scan.c, kind) ensures t.relation != "oauth_viewer" {
      assert t in KindOf(result.desired, scan.c, kind);
      NoViewerDesired(scan, unresolved, memberships, result, t);
    }
  }

  /** The tuples that the list the row holds now yields, under the parents and folders of the scan. */
  function TuplesNow(scan: Scan, d: nat, acl: Snapshot): set<PermissionTuple>
    requires d in scan.documents
  {
    ResourceTuples(scan.c, "kgm/document", DocumentId(scan.c, d), scan.documents[d].parents, acl.permissions, scan.folders.Keys)
  }

  /** Every kind was held exactly in some state of its own between step m and step q. */
  ghost predicate HeldByKind(w0: World, steps: seq<Step>, scan: Scan, result: SyncResult, m: nat, q: nat, ns: seq<nat>) {
    && q <= |steps| && |ns| == |MANAGED_RESOURCE_TYPES|
    && forall kind: nat :: IsKind(kind) ==> HeldAt(w0, steps, scan, result, m, q, ns[kind], kind)
  }

  ghost predicate HeldAt(w0: World, steps: seq<Step>, scan: Scan, result: SyncResult, m: nat, q: nat, n: nat, kind: nat)
    requires q <= |steps|
  {
    && m <= n <= q
    && HoldsKind(Run(w0, steps[..n]).tuples, result.desired, scan.c, kind) && NoViewerIn(Run(w0, steps[..n]).tuples, scan.c, kind)
  }

  lemma TraceWasHeld(w0: World, steps: seq<Step>, i: nat, rereads: seq<nat>, j: nat, k: nat, d: nat, version: Version, t: nat)
      returns (m: nat, q: nat, ns: seq<nat>)
    requires Initial(w0) && Trace(Run(w0, steps).log, i, rereads, j, k, d, version, t)
    ensures var log := Run(w0, steps).log;
            && WroteTruth(w0, steps, m, i) && WroteTruth(w0, steps, q, k) && log[i].scan.c == w0.connection
            && HeldByKind(w0, steps, log[i].scan, log[i].result, m, q, ns)
  {
    hide Trace;
    TraceParts(Run(w0, steps).log, i, rereads, j, k, d, version, t);
    m := EntryWasTrue(w0, steps, i);
    q := EntryWasTrue(w0, steps, k);
    ScanOfConnection(w0, steps, m, i);
    hide *;
    var n0 := KindHeldAt(w0, steps, i, rereads, j, k, m, q, 0);
    var n1 := KindHeldAt(w0, steps, i, rereads, j, k, m, q, 1);
    var n2 := KindHeldAt(w0, steps, i, rereads, j, k, m, q, 2);
    ns := [n0, n1, n2];
    HeldByThree(w0, steps, Run(w0, steps).log[i].scan, Run(w0, steps).log[i].result, m, q, n0, n1, n2);
  }

  lemma TraceParts(log: seq<Event>, i: nat, rereads: seq<nat>, j: nat, k: nat, d: nat, version: Version, t: nat)
    requires Trace(log, i, rereads, j, k, d, version, t)
    ensures i < j < k < |log| && log[i].Computed? && AllRead(log, i, rereads, j)
  {
  }

  lemma ScanOfConnection(w0: World, steps: seq<Step>, m: nat, i: nat)
    requires WroteTruth(w0, steps, m, i) && Run(w0, steps).log[i].Computed?
    ensures Run(w0, steps).log[i].scan.c == w0.connection
  {
  }

  lemma HeldByThree(w0: World, steps: seq<Step>, scan: Scan, result: SyncResult, m: nat, q: nat, n0: nat, n1: nat, n2: nat)
    requires q <= |steps| && HeldAt(w0, steps, scan, result, m, q, n0, 0)
    requires HeldAt(w0, steps, scan, result, m, q, n1, 1) && HeldAt(w0, steps, scan, result, m, q, n2, 2)
    ensures HeldByKind(w0, steps, scan, result, m, q, [n0, n1, n2])
  {
    hide HeldAt;
  }

  lemma KindHeldAt(w0: World, steps: seq<Step>, i: nat, rereads: seq<nat>, j: nat, k: nat, m: nat, q: nat, kind: nat) returns (n: nat)
    requires Initial(w0) && IsKind(kind) && i < j < k < |Run(w0, steps).log| && Run(w0, steps).log[i].Computed?
    requires AllRead(Run(w0, steps).log, i, rereads, j) && WroteTruth(w0, steps, m, i) && WroteTruth(w0, steps, q, k)
    ensures HeldAt(w0, steps, Run(w0, steps).log[i].scan, Run(w0, steps).log[i].result, m, q, n, kind)
  {
    assert ReadFor(Run(w0, steps).log, i, rereads[kind], kind);
    var p;
    n, p := KindWasHeld(w0, steps, i, rereads[kind], kind, m);
    EarlierEntry(w0, steps, p, rereads[kind], q, k);
    NoViewerDesiredOf(Run(w0, steps).log[i].scan, Run(w0, steps).log[i].result, Run(w0, steps[..n]).tuples, kind);
  }

  /** A verified document's run compared each kind with a state of the store between the computing and
      the commit that held of that kind exactly what the scan comes to, with no direct grant in it. At
      the state of the documents' kind exactly the eligible documents were named by a tuple, and this
      one by the very tuples its present list yields, unless a cutover blanked the version. */
  lemma VerifiedIsBacked(w0: World, steps: seq<Step>, d: nat, cutoff: int)
      returns (i: nat, rereads: seq<nat>, j: nat, k: nat, m: nat, q: nat, ns: seq<nat>)
    requires Initial(w0)
    requires var w := Run(w0, steps); d in w.table && VerifiedAt(w.table[d], w.table[d].sourceVersion, cutoff)
    ensures var w := Run(w0, steps);
            && Trace(w.log, i, rereads, j, k, d, w.table[d].sourceVersion, w.table[d].verifiedAt.value)
            && w.table[d].verifiedAt.value >= cutoff && w.log[j].revision != ""
            && WroteTruth(w0, steps, m, i) && WroteTruth(w0, steps, q, k) && w.log[i].scan.c == w0.connection
            && HeldByKind(w0, steps, w.log[i].scan, w.log[i].result, m, q, ns)
            && var tuples := Run(w0, steps[..ns[DOCUMENTS]]).tuples;
               && BacksExactly(tuples, w0.connection, w.log[i].result.eligible.Keys) && NamesExactly(tuples, w.log[i].scan, d)
               && (w.table[d].sourceVersion != Blank ==>
                     forall t :: t in tuples && Backs(t, w0.connection, d) <==> t in TuplesNow(w.log[i].scan, d, w.table[d].acl))
  {
    i, rereads, j, k := VerifiedIsEvident(w0, steps, d, cutoff);
    var w := Run(w0, steps);
    m, q, ns := TraceWasHeld(w0, steps, i, rereads, j, k, d, w.table[d].sourceVersion, w.table[d].verifiedAt.value);
    var scan, result := w.log[i].scan, w.log[i].result;
    assert HeldAt(w0, steps, scan, result, m, q, ns[DOCUMENTS], DOCUMENTS);
    DocumentsBack(scan, result, Run(w0, steps[..ns[DOCUMENTS]]).tuples);
    DocumentNamed(scan, result, Run(w0, steps[..ns[DOCUMENTS]]).tuples, d);
    DesiresSome(scan, result, d);
    if w.table[d].sourceVersion != Blank {
      VersionFixesTuples(scan.c, "kgm/document", DocumentId(scan.c, d), scan.documents[d].parents,
                         scan.documents[d].snapshot.value.permissions, w.table[d].acl.permissions, scan.folders.Keys);
    }
  }

  lemma DesiresSome(scan: Scan, result: SyncResult, d: nat)
    requires Computes(scan, result) && d in result.eligible
    ensures result.desired != {}
  {
    var unresolved, memberships :| GroupsSettled(scan, unresolved, memberships) && Partitioned(scan, unresolved, result)
                                   && Exact(scan, unresolved, memberships, result);
    hide Exact, Partitioned;
    EligibleIffGranted(scan, unresolved, memberships, result, d);
  }

  // ----- when one state held it all

  ghost predicate AgreesWithReads(tuples: set<PermissionTuple>, c: nat, run: PermissionRun) {
    forall kind: nat :: IsKind(kind) ==> kind in run.rereads && KindOf(tuples, c, kind) == run.rereads[kind].tuples
  }

  /** Once a run has compared, a state of the store held exactly the desired tuples if and only if each
      kind was in it as the run read it: if no writer changed one kind between the reads. */
  lemma HeldAtOnceExactly(w: World, r: nat, at: nat)
    requires Inv(w) && r in w.runs && IsVerified(w.runs[r].phase) && at <= |w.older|
    ensures ManagedOf(StoreAt(w, at), ConnectionPrefix(w.connection)) == w.runs[r].result.desired
       <==> AgreesWithReads(StoreAt(w, at), w.connection, w.runs[r])
  {
    var run := w.runs[r];
    assert RunOk(w.log, |w.older|, w.connection, r, run);
    forall kind: nat | IsKind(kind) ensures kind in run.rereads && run.rereads[kind].tuples == KindOf(run.result.desired, w.connection, kind) {
      forall other | other in run.rereads
        ensures IsKind(other) && KindOf(run.rereads[other].tuples, w.connection, other) == run.rereads[other].tuples
      {
        assert RereadOk(w.log, w.connection, r, run, other);
      }
      FoundByKind(w.connection, run, kind);
    }
    DesiredIsAllManaged(run.scan, run.result);
    ManagedByKind(StoreAt(w, at), run.result.desired, w.connection);
  }

  lemma DesiredIsAllManaged(scan: Scan, result: SyncResult)
    requires Computes(scan, result)
    ensures ManagedOf(result.desired, ConnectionPrefix(scan.c)) == result.desired
  {
    var unresolved, memberships :| GroupsSettled(scan, unresolved, memberships) && Partitioned(scan, unresolved, result)
                                   && Exact(scan, unresolved, memberships, result);
    hide Exact, Partitioned;
    DesiredInScope(scan, unresolved, memberships, result);
  }

  /** Sets of the connection's tuples are equal if they are so kind by kind. */
  lemma ManagedByKind(a: set<PermissionTuple>, b: set<PermissionTuple>, c: nat)
    ensures ManagedOf(a, ConnectionPrefix(c)) == ManagedOf(b, ConnectionPrefix(c))
       <==> forall kind: nat :: IsKind(kind) ==> KindOf(a, c, kind) == KindOf(b, c, kind)
  {
    if forall kind: nat :: IsKind(kind) ==> KindOf(a, c, kind) == KindOf(b, c, kind) {
      ManagedWithin(a, b, c);
      ManagedWithin(b, a, c);
    } else {
      var kind: nat :| IsKind(kind) && KindOf(a, c, kind) != KindOf(b, c, kind);
      KindIsManaged(a, c, kind);
      KindIsManaged(b, c, kind);
    }
  }

  lemma KindIsManaged(a: set<PermissionTuple>, c: nat, kind: nat)
    requires IsKind(kind)
    ensures KindOf(a, c, kind) == KindOf(ManagedOf(a, ConnectionPrefix(c)), c, kind)
  {
  }

  lemma ManagedWithin(a: set<PermissionTuple>, b: set<PermissionTuple>, c: nat)
    requires forall kind: nat :: IsKind(kind) ==> KindOf(a, c, kind) == KindOf(b, c, kind)
    ensures ManagedOf(a, ConnectionPrefix(c)) <= ManagedOf(b, ConnectionPrefix(c))
  {
    forall t | t in ManagedOf(a, ConnectionPrefix(c)) ensures t in b {
      var kind :| 0 <= kind < |MANAGED_RESOURCE_TYPES| && MANAGED_RESOURCE_TYPES[kind] == t.resourceType;
      assert t in KindOf(a, c, kind);
    }
  }

  // ----- when the version pins the list

  function OtherList(acl: Snapshot): Snapshot {
    Snapshot(acl.permissions + [Permission("user", "reader", None, false, false, [])], true)
  }

  lemma OtherListDiffers(acl: Snapshot)
    ensures !SameEntries(OtherList(acl), acl) && !SameEntries(acl, OtherList(acl))
  {
    assert |Canonical(OtherList(acl).permissions)| == |CanonicalList(OtherList(acl).permissions)|;
    assert |Canonical(acl.permissions)| == |CanonicalList(acl.permissions)|;
  }

  /** The rows the guarded update accepts hold the list the tuples were computed from, if and only if
      the version is not blank. */
  lemma GuardPinsListExactly(version: Version, acl: Snapshot)
    requires Versioned(version, acl)
    ensures version != Blank <==>
            forall row: Row :: StillAt(row, version) && Versioned(row.sourceVersion, row.acl) ==> SameEntries(row.acl, acl)
  {
    if version == Blank {
      var row := Row(true, false, OtherList(acl), Blank, Blank, None);
      OtherListDiffers(acl);
      assert StillAt(row, version) && Versioned(row.sourceVersion, row.acl);
    }
  }

  /** If the run's commit enables the document in this state, then with the list it was computed from. */
  ghost predicate EnablesOwnList(v: World, r: nat, d: nat, basis: DocumentRow) {
    r in v.runs && v.runs[r].phase.TimeRead? && d in v.table && StillAt(v.table[d], basis.version) && basis.snapshot.Some? ==>
      SameEntries(Apply(v, CommitDocuments(r)).table[d].acl, basis.snapshot.value)
  }

  /** Until its commit, a run enables a document with the list it computed the tuples from, whatever
      else happens, if and only if the version it read was not blank. */
  lemma CommitPinsListExactly(w: World, r: nat, d: nat)
    requires Inv(w) && r in w.runs && w.runs[r].phase.TimeRead? && d in w.runs[r].result.eligible && d in w.table
    ensures d in w.runs[r].scan.documents
    ensures w.runs[r].scan.documents[d].version != Blank <==>
            forall steps :: EnablesOwnList(Run(w, steps), r, d, w.runs[r].scan.documents[d])
  {
    hide Inv, EnablesOwnList;
    BasisIsRead(w, r, d);
    var basis := w.runs[r].scan.documents[d];
    if basis.version != Blank {
      forall steps ensures EnablesOwnList(Run(w, steps), r, d, basis) {
        RunKeeps(w, steps);
        VersionPins(Run(w, steps), r, d, basis);
      }
    } else {
      var n, v := BlankedMeanwhile(w, r, d, basis.snapshot.value);
      EnablesAnotherList(w, v, n, r, d, basis);
    }
  }

  lemma BasisIsRead(w: World, r: nat, d: nat)
    requires Inv(w) && r in w.runs && w.runs[r].phase.TimeRead? && d in w.runs[r].result.eligible
    ensures d in w.runs[r].scan.documents && w.runs[r].scan.documents[d].snapshot.Some?
    ensures Versioned(w.runs[r].scan.documents[d].version, w.runs[r].scan.documents[d].snapshot.value)
  {
    assert RunOk(w.log, |w.older|, w.connection, r, w.runs[r]);
    assert ComputedAt(Computed(r, w.runs[r].scan, w.runs[r].result, w.runs[r].age), d, w.runs[r].result.eligible[d]);
  }

  lemma CommitKeepsList(v: World, r: nat, d: nat)
    requires d in v.table
    ensures d in Apply(v, CommitDocuments(r)).table && Apply(v, CommitDocuments(r)).table[d].acl == v.table[d].acl
  {
  }

  lemma VersionPins(v: World, r: nat, d: nat, basis: DocumentRow)
    requires Inv(v) && basis.snapshot.Some?
    requires basis.version != Blank && Versioned(basis.version, basis.snapshot.value)
    ensures EnablesOwnList(v, r, d, basis)
  {
    if d in v.table {
      assert RowOk(v.log, d, v.table[d]);
      CommitKeepsList(v, r, d);
    }
  }

  lemma EnablesAnotherList(w: World, v: World, n: nat, r: nat, d: nat, basis: DocumentRow)
    requires r in w.runs && w.runs[r].phase.TimeRead? && n !in w.runs && n in v.runs && v.runs == w.runs[n := v.runs[n]]
    requires basis.version == Blank && basis.snapshot.Some? && d in v.table
    requires v.table[d] == Row(true, v.table[d].eligible, OtherList(basis.snapshot.value), Blank, Blank, None)
    ensures !EnablesOwnList(v, r, d, basis)
  {
    OtherListDiffers(basis.snapshot.value);
    CommitKeepsList(v, r, d);
  }

  lemma RunsTwo(w: World, a: Step, b: Step)
    ensures Run(w, [a, b]) == Apply(Apply(w, a), b)
  {
    assert [a, b][1..] == [b] && [b][1..] == [];
    assert Run(Apply(w, a), [b]) == Run(Apply(Apply(w, a), b), []);
  }

  lemma {:induction false} FreshNumber(s: set<nat>) returns (n: nat)
    ensures forall x :: x in s ==> x < n
    decreases s
  {
    if s == {} {
      n := 0;
    } else {
      var x :| x in s;
      var m := FreshNumber(s - {x});
      n := if m > x then m else x + 1;
      assert forall y :: y in s ==> y == x || y in s - {x};
    }
  }

  /** Another run's scan brings a new list, a cutover blanks its version: the guard cannot tell. */
  lemma BlankedMeanwhile(w: World, r: nat, d: nat, acl: Snapshot) returns (n: nat, v: World)
    requires r in w.runs && w.runs[r].phase.TimeRead? && d in w.table
    ensures n !in w.runs && v == Run(w, [PersistScan(n, map[d := OtherList(acl)]), DenyDocuments({d})])
    ensures n in v.runs && v.log == w.log && v.runs == w.runs[n := v.runs[n]]
    ensures d in v.table && v.table[d] == Row(true, v.table[d].eligible, OtherList(acl), Blank, Blank, None)
  {
    n := FreshNumber(w.runs.Keys);
    var scan, deny := PersistScan(n, map[d := OtherList(acl)]), DenyDocuments({d});
    v := Apply(Apply(w, scan), deny);
    RunsTwo(w, scan, deny);
  }
}
