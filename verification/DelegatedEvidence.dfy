/** Delegated runs interleaved with metadata syncs that change access lists: the evidence of a
    document was committed by a run that computed its tuples from a list of the version the row holds,
    and that then found exactly its tuples in the store. */
module DelegatedEvidence {
  import opened DesiredState
  import opened Digraph
  import opened FolderHierarchy
  import opened Outcomes
  import opened TupleStore

  /** The digest of an access list; it is never blank. */
  function VersionOf(acl: Snapshot): Version {
    DigestOf(Canonical(acl.permissions))
  }

  /** The columns of a document row that the runs and syncs write, with its captured access list. */
  datatype Row = Row(active: bool, eligible: bool, acl: Snapshot, sourceVersion: Version, spicedbVersion: Version, verifiedAt: Option<nat>)

  type Table = map<nat, Row>

  // ----- the updates

  function Unverified(row: Row): Row {
    row.(eligible := false, spicedbVersion := Blank, verifiedAt := None)
  }

  /** The complete scan of a run: rows found get their list and version, others leave the scope. */
  function ScannedRow(table: Table, found: map<nat, Snapshot>, d: nat): Row
    requires d in table
  {
    if d in found then table[d].(active := true, acl := found[d], sourceVersion := VersionOf(found[d]))
    else if table[d].active then Unverified(table[d]).(active := false)
    else table[d]
  }

  function Scanned(table: Table, found: map<nat, Snapshot>): Table {
    map d | d in table :: ScannedRow(table, found, d)
  }

  /** The row is still in scope and still has the version the tuples were computed from. */
  predicate StillAt(row: Row, version: Version) {
    row.active && row.sourceVersion == version
  }

  function CommittedRow(row: Row, version: Option<Version>, excluded: bool, time: nat): Row {
    if excluded then Unverified(row)
    else if version.Some? && StillAt(row, version.value)
    then row.(eligible := true, spicedbVersion := version.value, verifiedAt := Some(time))
    else row
  }

  function VersionFor(eligible: map<nat, Version>, d: nat): Option<Version> {
    if d in eligible then Some(eligible[d]) else None
  }

  function CommittedTable(table: Table, eligible: map<nat, Version>, excluded: set<nat>, time: nat): Table {
    map d | d in table :: CommittedRow(table[d], VersionFor(eligible, d), d in excluded, time)
  }

  predicate VerifiedAt(row: Row, version: Version, cutoff: int) {
    && row.active && row.eligible && row.verifiedAt.Some? && row.verifiedAt.value >= cutoff
    && row.sourceVersion == version && row.spicedbVersion == version
  }

  /** What a metadata sync writes over a row, from what it read of it before. */
  function SyncedRow(existing: Option<Row>, acl: Snapshot, perUser: bool, excluded: bool, cutoff: int): Row {
    var version := VersionOf(acl);
    if existing.Some? && !perUser && !excluded && VerifiedAt(existing.value, version, cutoff)
    then Row(true, true, acl, version, version, existing.value.verifiedAt)
    else Row(true, false, acl, version, Blank, None)
  }

  // ----- the system

  /** `age` is the number of writes the store had seen. */
  datatype Event =
    | Computed(run: nat, scan: Scan, result: SyncResult, age: nat)
    | KindRead(run: nat, kind: nat, at: nat, tuples: set<PermissionTuple>)
    | TuplesVerified(run: nat, revision: string)
    | DocumentsCommitted(run: nat, time: nat)

  datatype Phase = ScanPersisted | DesiredComputed | GrantsVerified | TimeRead | RunOver

  /** What one call of the second read returned, from which state of the store, and its entry. */
  datatype Reread = Reread(at: nat, entry: nat, tuples: set<PermissionTuple>)

  /** A run with what it read in one query and made of it; `freshFrom` is the state its last batch led
      to, which its revision stands for. */
  datatype PermissionRun = PermissionRun(phase: Phase, scan: Scan, result: SyncResult, age: nat, computedAt: nat, freshFrom: nat,
                                         revision: string, rereads: map<nat, Reread>, verifiedAt: nat, time: nat)

  /** What a metadata sync read of a file's row before it writes it. */
  datatype Existing = Existing(document: nat, row: Option<Row>)

  /** `tuples` is the present state of the store, `older` are all its states before. */
  datatype World = World(connection: nat, table: Table, tuples: set<PermissionTuple>, older: seq<set<PermissionTuple>>,
                         runs: map<nat, PermissionRun>, known: map<nat, Existing>, now: nat, log: seq<Event>)

  datatype Step =
    | Tick(seconds: nat)
    // a delegated run
    | PersistScan(r: nat, found: map<nat, Snapshot>)
    | ComputeDesired(r: nat, scan: Scan, result: SyncResult)
    | WriteBatch(r: nat, batch: seq<Update>, token: string)
    | RereadKind(r: nat, kind: nat, at: nat)
    | VerifyTuples(r: nat)
    | ReadTime(r: nat)
    | CommitDocuments(r: nat)
    | StopRun(r: nat)
    // any other writer
    | ForeignWrite(batch: seq<Update>)
    // a metadata sync, file by file
    | ReadExisting(m: nat, d: nat)
    | WriteMetadata(m: nat, acl: Snapshot, perUser: bool, excluded: bool, maxAge: nat)
    | LeaveScope(documents: set<nat>)
    // a new root or delegated subject, the per-user mode and the cutover
    | Rescope(documents: set<nat>)
    | MarkReady(d: nat)
    | DenyDocuments(documents: set<nat>)

  function ActiveIn(table: Table): set<nat> {
    set d | d in table && table[d].active
  }

  const NO_SCAN := Scan(0, map[], map[], map[])
  const NO_RESULT := SyncResult({}, map[], map[], 0)

  function NewRun(): PermissionRun {
    PermissionRun(ScanPersisted, NO_SCAN, NO_RESULT, 0, 0, 0, "", map[], 0, 0)
  }

  ghost function PersistScanWorld(w: World, r: nat, found: map<nat, Snapshot>): World {
    if r in w.runs then w
    else w.(table := Scanned(w.table, found), runs := w.runs[r := NewRun()])
  }

  /** The scan holds the documents in scope, each with the list and the version of its row. */
  predicate ReadsTable(scan: Scan, c: nat, table: Table) {
    && scan.c == c && scan.documents.Keys == ActiveIn(table)
    && forall d :: d in scan.documents ==> d in table && HoldsRow(scan.documents[d], table[d])
  }

  predicate HoldsRow(document: DocumentRow, row: Row) {
    document.snapshot == Some(row.acl) && document.version == row.sourceVersion
  }

  /** The result is what the desired state of the scan comes to. */
  ghost predicate Computes(scan: Scan, result: SyncResult) {
    && Acyclic(ParentEdges(scan.Hierarchy()))
    && exists unresolved, memberships ::
         GroupsSettled(scan, unresolved, memberships) && Partitioned(scan, unresolved, result) && Exact(scan, unresolved, memberships, result)
  }

  /** The documents are read with their lists in one query; the rest of the scan is as it may be. */
  ghost function ComputeWorld(w: World, r: nat, scan: Scan, result: SyncResult): World {
    if r !in w.runs || !w.runs[r].phase.ScanPersisted? || !ReadsTable(scan, w.connection, w.table) || !Computes(scan, result) then w
    else w.(runs := w.runs[r := NewRun().(phase := DesiredComputed, scan := scan, result := result, age := |w.older|, computedAt := |w.log|)],
            log := w.log + [Computed(r, scan, result, |w.older|)])
  }

  function Written(w: World, batch: seq<Update>): World {
    w.(tuples := Applied(w.tuples, batch), older := w.older + [w.tuples])
  }

  /** One batch of the run; its token stands for the state it led to. */
  ghost function WriteBatchWorld(w: World, r: nat, batch: seq<Update>, token: string): World {
    if r !in w.runs || !w.runs[r].phase.DesiredComputed? || w.runs[r].rereads != map[] || batch == [] || token == "" then w
    else Written(w, batch).(runs := w.runs[r := w.runs[r].(freshFrom := |w.older| + 1, revision := token)])
  }

  /** The state of the store after that many writes. */
  function StoreAt(w: World, at: nat): set<PermissionTuple>
    requires at <= |w.older|
  {
    if at < |w.older| then w.older[at] else w.tuples
  }

  /** A call with a revision may be answered from any state at least as fresh, one without from the
      present state only. */
  predicate FreshEnough(run: PermissionRun, present: nat, at: nat) {
    at <= present && if run.revision == "" then at == present else at >= run.freshFrom
  }

  predicate IsKind(kind: nat) {
    kind < |MANAGED_RESOURCE_TYPES|
  }

  function KindOf(tuples: set<PermissionTuple>, c: nat, kind: nat): set<PermissionTuple>
    requires IsKind(kind)
  {
    OfKind(tuples, c, MANAGED_RESOURCE_TYPES[kind])
  }

  /** The second read asks for one resource type after the other; each call sees a state of its own. */
  ghost function RereadWorld(w: World, r: nat, kind: nat, at: nat): World {
    if r !in w.runs || !w.runs[r].phase.DesiredComputed? || !IsKind(kind) || kind in w.runs[r].rereads || !FreshEnough(w.runs[r], |w.older|, at) then w
    else
      var tuples := KindOf(StoreAt(w, at), w.connection, kind);
      w.(runs := w.runs[r := w.runs[r].(rereads := w.runs[r].rereads[kind := Reread(at, |w.log|, tuples)])],
         log := w.log + [KindRead(r, kind, at, tuples)])
  }

  function Found(rereads: map<nat, Reread>): set<PermissionTuple> {
    set kind, t | kind in rereads && t in rereads[kind].tuples :: t
  }

  /** The three answers together are exactly the desired tuples; a run that desires any has written a
      batch, and so has a revision. */
  ghost predicate FoundDesired(run: PermissionRun) {
    && (forall kind: nat :: IsKind(kind) ==> kind in run.rereads)
    && Found(run.rereads) == run.result.desired && (run.result.desired != {} ==> run.revision != "")
  }

  ghost function VerifyWorld(w: World, r: nat): World {
    if r !in w.runs || !w.runs[r].phase.DesiredComputed? || !FoundDesired(w.runs[r]) then w
    else w.(runs := w.runs[r := w.runs[r].(phase := GrantsVerified, verifiedAt := |w.log|)],
            log := w.log + [TuplesVerified(r, w.runs[r].revision)])
  }

  ghost function ReadTimeWorld(w: World, r: nat): World {
    if r !in w.runs || !w.runs[r].phase.GrantsVerified? then w
    else w.(runs := w.runs[r := w.runs[r].(phase := TimeRead, time := w.now)])
  }

  ghost function CommitWorld(w: World, r: nat): World {
    if r !in w.runs || !w.runs[r].phase.TimeRead? then w
    else
      var run := w.runs[r];
      w.(table := CommittedTable(w.table, run.result.eligible, run.result.excluded.Keys, run.time),
         runs := w.runs[r := run.(phase := RunOver)], log := w.log + [DocumentsCommitted(r, run.time)])
  }

  ghost function WriteMetadataWorld(w: World, m: nat, acl: Snapshot, perUser: bool, excluded: bool, maxAge: nat): World {
    if m !in w.known then w
    else w.(table := w.table[w.known[m].document := SyncedRow(w.known[m].row, acl, perUser, excluded, w.now - maxAge)])
  }

  ghost function Apply(w: World, s: Step): World {
    match s
    case Tick(seconds) => w.(now := w.now + seconds)
    case PersistScan(r, found) => PersistScanWorld(w, r, found)
    case ComputeDesired(r, scan, result) => ComputeWorld(w, r, scan, result)
    case WriteBatch(r, batch, token) => WriteBatchWorld(w, r, batch, token)
    case RereadKind(r, kind, at) => RereadWorld(w, r, kind, at)
    case VerifyTuples(r) => VerifyWorld(w, r)
    case ReadTime(r) => ReadTimeWorld(w, r)
    case CommitDocuments(r) => CommitWorld(w, r)
    case StopRun(r) => if r in w.runs then w.(runs := w.runs[r := w.runs[r].(phase := RunOver)]) else w
    case ForeignWrite(batch) => Written(w, batch)
    case ReadExisting(m, d) => w.(known := w.known[m := Existing(d, if d in w.table then Some(w.table[d]) else None)])
    case WriteMetadata(m, acl, perUser, excluded, maxAge) => WriteMetadataWorld(w, m, acl, perUser, excluded, maxAge)
    case LeaveScope(documents) =>
      w.(table := map d | d in w.table :: if d in documents then Unverified(w.table[d]).(active := false) else w.table[d])
    case Rescope(documents) =>
      w.(table := map d | d in w.table :: if d in documents then w.table[d].(eligible := false) else w.table[d])
    case MarkReady(d) =>
      if d in w.table && w.table[d].active && w.table[d].sourceVersion != Blank then w.(table := w.table[d := w.table[d].(eligible := true)]) else w
    case DenyDocuments(documents) =>
      w.(table := map d | d in w.table :: if d in documents then Unverified(w.table[d]).(sourceVersion := Blank) else w.table[d])
  }

  ghost function Run(w: World, steps: seq<Step>): World
    decreases |steps|
  {
    if steps == [] then w else Run(Apply(w, steps[0]), steps[1..])
  }

  // ----- what holds in every state

  /** The version is that of the list, or was blanked by a cutover. */
  predicate Versioned(version: Version, acl: Snapshot) {
    version == Blank || version == VersionOf(acl)
  }

  /** The run read the document at the version. */
  predicate ComputedAt(event: Event, d: nat, version: Version) {
    && event.Computed? && d in event.result.eligible && event.result.eligible[d] == version
    && d in event.scan.documents && event.scan.documents[d].version == version
    && event.scan.documents[d].snapshot.Some? && Versioned(version, event.scan.documents[d].snapshot.value)
  }

  /** Entry e is what the run of the first entry read of one kind: exactly the desired tuples of it,
      from a state the store was in after the run had computed them. */
  predicate ReadFor(log: seq<Event>, i: nat, e: nat, kind: nat)
    requires i < |log| && log[i].Computed? && IsKind(kind)
  {
    && i < e < |log| && log[e].KindRead? && log[e].run == log[i].run && log[e].kind == kind && log[e].at >= log[i].age
    && log[e].tuples == KindOf(log[i].result.desired, log[i].scan.c, kind)
  }

  /** Every kind was read between the entries. */
  ghost predicate AllRead(log: seq<Event>, i: nat, rereads: seq<nat>, j: nat)
    requires i < |log| && log[i].Computed?
  {
    && |rereads| == |MANAGED_RESOURCE_TYPES|
    && forall kind: nat :: IsKind(kind) ==> rereads[kind] < j && ReadFor(log, i, rereads[kind], kind)
  }

  /** A run computed the document's tuples at the version, then read each kind, then compared, then
      committed at t. */
  ghost predicate Trace(log: seq<Event>, i: nat, rereads: seq<nat>, j: nat, k: nat, d: nat, version: Version, t: nat) {
    && i < j < k < |log| && ComputedAt(log[i], d, version) && Computes(log[i].scan, log[i].result)
    && AllRead(log, i, rereads, j)
    && log[j].TuplesVerified? && log[j].run == log[i].run && (log[i].result.desired != {} ==> log[j].revision != "")
    && log[k] == DocumentsCommitted(log[i].run, t)
  }

  ghost predicate Evident(log: seq<Event>, d: nat, version: Version, t: nat) {
    exists i, rereads, j, k :: Trace(log, i, rereads, j, k, d, version, t)
  }

  ghost predicate RowOk(log: seq<Event>, d: nat, row: Row) {
    && Versioned(row.sourceVersion, row.acl)
    && (row.verifiedAt.Some? ==> Evident(log, d, row.spicedbVersion, row.verifiedAt.value))
  }

  ghost predicate TableOk(log: seq<Event>, table: Table) {
    forall d :: d in table ==> RowOk(log, d, table[d])
  }

  ghost predicate ReadsOk(log: seq<Event>, known: map<nat, Existing>) {
    forall m :: m in known && known[m].row.Some? ==> RowOk(log, known[m].document, known[m].row.value)
  }

  predicate At(log: seq<Event>, i: nat, event: Event) {
    i < |log| && log[i] == event
  }

  ghost predicate BasesOk(r: nat, scan: Scan, result: SyncResult, age: nat) {
    forall d :: d in result.eligible ==> ComputedAt(Computed(r, scan, result, age), d, result.eligible[d])
  }

  predicate InWork(phase: Phase) {
    phase.DesiredComputed? || IsVerified(phase)
  }

  predicate IsVerified(phase: Phase) {
    phase.GrantsVerified? || phase.TimeRead?
  }

  predicate RereadOk(log: seq<Event>, c: nat, r: nat, run: PermissionRun, kind: nat)
    requires kind in run.rereads
  {
    var read := run.rereads[kind];
    && IsKind(kind) && run.computedAt < read.entry && run.age <= read.at
    && At(log, read.entry, KindRead(r, kind, read.at, read.tuples)) && KindOf(read.tuples, c, kind) == read.tuples
  }

  ghost predicate RereadsOk(log: seq<Event>, c: nat, r: nat, run: PermissionRun) {
    forall kind: nat :: kind in run.rereads ==> RereadOk(log, c, r, run, kind)
  }

  ghost predicate VerifiedOk(log: seq<Event>, c: nat, r: nat, run: PermissionRun) {
    && FoundDesired(run) && run.computedAt < run.verifiedAt && At(log, run.verifiedAt, TuplesVerified(r, run.revision))
    && forall kind: nat :: IsKind(kind) ==> run.rereads[kind].entry < run.verifiedAt
  }

  /** `n` is the number of writes the store has seen. */
  ghost predicate RunOk(log: seq<Event>, n: nat, c: nat, r: nat, run: PermissionRun) {
    InWork(run.phase) ==>
      && At(log, run.computedAt, Computed(r, run.scan, run.result, run.age)) && run.scan.c == c && run.age <= n
      && (run.revision != "" ==> run.age <= run.freshFrom)
      && Computes(run.scan, run.result) && BasesOk(r, run.scan, run.result, run.age) && RereadsOk(log, c, r, run)
      && (IsVerified(run.phase) ==> VerifiedOk(log, c, r, run))
  }

  ghost predicate RunsOk(log: seq<Event>, n: nat, c: nat, runs: map<nat, PermissionRun>) {
    forall r :: r in runs ==> RunOk(log, n, c, r, runs[r])
  }

  ghost predicate Inv(w: World) {
    TableOk(w.log, w.table) && ReadsOk(w.log, w.known) && RunsOk(w.log, |w.older|, w.connection, w.runs)
  }

  // ----- the history grows

  lemma AllReadGrows(log: seq<Event>, more: seq<Event>, i: nat, rereads: seq<nat>, j: nat)
    requires i < |log| && log[i].Computed? && AllRead(log, i, rereads, j)
    ensures AllRead(log + more, i, rereads, j)
  {
    forall kind: nat | IsKind(kind) ensures ReadFor(log + more, i, rereads[kind], kind) { assert ReadFor(log, i, rereads[kind], kind); }
  }

  lemma TraceGrows(log: seq<Event>, more: seq<Event>, i: nat, rereads: seq<nat>, j: nat, k: nat, d: nat, version: Version, t: nat)
    requires Trace(log, i, rereads, j, k, d, version, t)
    ensures Trace(log + more, i, rereads, j, k, d, version, t)
  {
    assert log[i].Computed?;
    hide Computes, ComputedAt, AllRead;
    AllReadGrows(log, more, i, rereads, j);
  }

  lemma RunGrows(log: seq<Event>, more: seq<Event>, n: nat, m: nat, c: nat, r: nat, run: PermissionRun)
    requires RunOk(log, n, c, r, run) && n <= m
    ensures RunOk(log + more, m, c, r, run)
  {
    forall kind: nat | InWork(run.phase) && kind in run.rereads ensures RereadOk(log + more, c, r, run, kind) {
      assert RereadOk(log, c, r, run, kind);
    }
  }

  lemma RowGrows(log: seq<Event>, more: seq<Event>, d: nat, row: Row)
    requires RowOk(log, d, row)
    ensures RowOk(log + more, d, row)
  {
    if row.verifiedAt.Some? {
      var i, rereads, j, k :| Trace(log, i, rereads, j, k, d, row.spicedbVersion, row.verifiedAt.value);
      TraceGrows(log, more, i, rereads, j, k, d, row.spicedbVersion, row.verifiedAt.value);
    }
  }

  lemma HistoryGrows(w: World, more: seq<Event>, n: nat)
    requires Inv(w) && |w.older| <= n
    ensures TableOk(w.log + more, w.table) && ReadsOk(w.log + more, w.known) && RunsOk(w.log + more, n, w.connection, w.runs)
  {
    forall d | d in w.table ensures RowOk(w.log + more, d, w.table[d]) {
      RowGrows(w.log, more, d, w.table[d]);
    }
    forall m | m in w.known && w.known[m].row.Some? ensures RowOk(w.log + more, w.known[m].document, w.known[m].row.value) {
      RowGrows(w.log, more, w.known[m].document, w.known[m].row.value);
    }
    forall r | r in w.runs ensures RunOk(w.log + more, n, w.connection, r, w.runs[r]) {
      RunGrows(w.log, more, |w.older|, n, w.connection, r, w.runs[r]);
    }
  }

  lemma WritesKeep(w: World, batch: seq<Update>)
    requires Inv(w)
    ensures Inv(Written(w, batch))
  {
    HistoryGrows(w, [], |w.older| + 1);
    assert w.log + [] == w.log;
  }

  // ----- the steps of a run

  lemma ScanKeeps(log: seq<Event>, table: Table, found: map<nat, Snapshot>)
    requires TableOk(log, table)
    ensures TableOk(log, Scanned(table, found))
  {
    forall d | d in table ensures RowOk(log, d, ScannedRow(table, found, d)) {
      assert RowOk(log, d, table[d]);
    }
  }

  lemma PersistScanKeeps(w: World, r: nat, found: map<nat, Snapshot>)
    requires Inv(w)
    ensures Inv(PersistScanWorld(w, r, found))
  {
    ScanKeeps(w.log, w.table, found);
  }

  lemma BasesAreOk(w: World, r: nat, scan: Scan, result: SyncResult, age: nat)
    requires TableOk(w.log, w.table) && ReadsTable(scan, w.connection, w.table) && Computes(scan, result)
    ensures BasesOk(r, scan, result, age)
  {
    var unresolved, memberships :| GroupsSettled(scan, unresolved, memberships) && Partitioned(scan, unresolved, result)
                                   && Exact(scan, unresolved, memberships, result);
    forall d | d in result.eligible ensures ComputedAt(Computed(r, scan, result, age), d, result.eligible[d]) {
      assert Eligible(scan, unresolved, d);
      assert HoldsRow(scan.documents[d], w.table[d]) && RowOk(w.log, d, w.table[d]);
    }
  }

  lemma ComputeKeeps(w: World, r: nat, scan: Scan, result: SyncResult)
    requires Inv(w)
    ensures Inv(ComputeWorld(w, r, scan, result))
  {
    if ComputeWorld(w, r, scan, result) != w {
      HistoryGrows(w, [Computed(r, scan, result, |w.older|)], |w.older|);
      BasesAreOk(w, r, scan, result, |w.older|);
    }
  }

  lemma WriteBatchKeeps(w: World, r: nat, batch: seq<Update>, token: string)
    requires Inv(w)
    ensures Inv(WriteBatchWorld(w, r, batch, token))
  {
    if WriteBatchWorld(w, r, batch, token) != w {
      WritesKeep(w, batch);
      assert RunOk(w.log, |w.older| + 1, w.connection, r, w.runs[r]);
    }
  }

  lemma RereadsGrow(log: seq<Event>, c: nat, r: nat, run: PermissionRun, kind: nat, at: nat, tuples: set<PermissionTuple>)
    requires RereadsOk(log, c, r, run) && IsKind(kind) && run.age <= at && run.computedAt < |log| && KindOf(tuples, c, kind) == tuples
    ensures RereadsOk(log + [KindRead(r, kind, at, tuples)], c, r, run.(rereads := run.rereads[kind := Reread(at, |log|, tuples)]))
  {
    hide KindOf;
    var after := run.(rereads := run.rereads[kind := Reread(at, |log|, tuples)]);
    forall other | other in after.rereads ensures RereadOk(log + [KindRead(r, kind, at, tuples)], c, r, after, other) {
      if other != kind { assert RereadOk(log, c, r, run, other); }
    }
  }

  /** The run's own row after one more call. */
  lemma RereadsMore(log: seq<Event>, n: nat, c: nat, r: nat, run: PermissionRun, kind: nat, at: nat, tuples: set<PermissionTuple>)
    requires RunOk(log, n, c, r, run) && run.phase.DesiredComputed? && IsKind(kind) && FreshEnough(run, n, at)
    requires KindOf(tuples, c, kind) == tuples
    ensures RunOk(log + [KindRead(r, kind, at, tuples)], n, c, r, run.(rereads := run.rereads[kind := Reread(at, |log|, tuples)]))
  {
    hide Computes, BasesOk, RereadsOk, KindOf;
    RereadsGrow(log, c, r, run, kind, at, tuples);
  }

  lemma RereadKeeps(w: World, r: nat, kind: nat, at: nat)
    requires Inv(w)
    ensures Inv(RereadWorld(w, r, kind, at))
  {
    if RereadWorld(w, r, kind, at) != w {
      var tuples := KindOf(StoreAt(w, at), w.connection, kind);
      HistoryGrows(w, [KindRead(r, kind, at, tuples)], |w.older|);
      RereadsMore(w.log, |w.older|, w.connection, r, w.runs[r], kind, at, tuples);
      hide RunOk;
    }
  }

  lemma VerifyKeeps(w: World, r: nat)
    requires Inv(w)
    ensures Inv(VerifyWorld(w, r))
  {
    var v := VerifyWorld(w, r);
    if v != w {
      HistoryGrows(w, [TuplesVerified(r, w.runs[r].revision)], |w.older|);
      assert RunOk(w.log, |w.older|, w.connection, r, w.runs[r]);
      forall kind: nat | kind in v.runs[r].rereads ensures RereadOk(v.log, v.connection, r, v.runs[r], kind) && v.runs[r].rereads[kind].entry < |w.log| {
        assert RereadOk(w.log, w.connection, r, w.runs[r], kind);
      }
    }
  }

  lemma ReadTimeKeeps(w: World, r: nat)
    requires Inv(w)
    ensures Inv(ReadTimeWorld(w, r))
  {
    if r in w.runs {
      var run := w.runs[r];
      assert RunOk(w.log, |w.older|, w.connection, r, run);
      assert run.phase.GrantsVerified? ==> RunOk(w.log, |w.older|, w.connection, r, run.(phase := TimeRead, time := w.now)) by {
        forall kind | kind in run.rereads && run.phase.GrantsVerified?
          ensures RereadOk(w.log, w.connection, r, run.(phase := TimeRead, time := w.now), kind)
        {
          assert RereadOk(w.log, w.connection, r, run, kind);
        }
      }
    }
  }

  /** What was found of each kind is what is desired of it. */
  lemma FoundByKind(c: nat, run: PermissionRun, kind: nat)
    requires FoundDesired(run) && IsKind(kind)
    requires forall other :: other in run.rereads ==> IsKind(other) && KindOf(run.rereads[other].tuples, c, other) == run.rereads[other].tuples
    ensures run.rereads[kind].tuples == KindOf(run.result.desired, c, kind)
  {
    forall t ensures t in run.rereads[kind].tuples <==> t in KindOf(run.result.desired, c, kind) {
      if t in run.rereads[kind].tuples {
        assert t in KindOf(run.rereads[kind].tuples, c, kind) && t in Found(run.rereads);
      } else if t in KindOf(run.result.desired, c, kind) {
        assert t in Found(run.rereads);
        var other :| other in run.rereads && t in run.rereads[other].tuples;
        assert t in KindOf(run.rereads[other].tuples, c, other);
        KindsDiffer(kind, other);
      }
    }
  }

  lemma KindsDiffer(a: nat, b: nat)
    requires IsKind(a) && IsKind(b)
    ensures MANAGED_RESOURCE_TYPES[a] == MANAGED_RESOURCE_TYPES[b] <==> a == b
  {
    assert MANAGED_RESOURCE_TYPES[0] == "kgm/group" && MANAGED_RESOURCE_TYPES[1] == "kgm/folder" && MANAGED_RESOURCE_TYPES[2] == "kgm/document";
    assert "kgm/group"[4] != "kgm/folder"[4] && "kgm/group"[4] != "kgm/document"[4] && "kgm/folder"[4] != "kgm/document"[4];
  }

  /** The entries of a run's reads, in the order of the kinds. */
  ghost function EntriesOf(run: PermissionRun): (rereads: seq<nat>)
    requires forall kind: nat :: IsKind(kind) ==> kind in run.rereads
    ensures |rereads| == |MANAGED_RESOURCE_TYPES| && forall kind: nat :: IsKind(kind) ==> rereads[kind] == run.rereads[kind].entry
  {
    assert IsKind(0) && IsKind(1) && IsKind(2);
    [run.rereads[0].entry, run.rereads[1].entry, run.rereads[2].entry]
  }

  lemma RunRead(log: seq<Event>, c: nat, r: nat, run: PermissionRun)
    requires At(log, run.computedAt, Computed(r, run.scan, run.result, run.age)) && run.scan.c == c
    requires RereadsOk(log, c, r, run) && VerifiedOk(log, c, r, run)
    ensures forall kind: nat :: IsKind(kind) ==> kind in run.rereads
    ensures AllRead(log, run.computedAt, EntriesOf(run), run.verifiedAt)
  {
    forall kind: nat | IsKind(kind) ensures ReadFor(log, run.computedAt, run.rereads[kind].entry, kind) {
      assert RereadOk(log, c, r, run, kind);
      forall other | other in run.rereads ensures IsKind(other) && KindOf(run.rereads[other].tuples, c, other) == run.rereads[other].tuples {
        assert RereadOk(log, c, r, run, other);
      }
      FoundByKind(c, run, kind);
    }
  }

  lemma RunTraces(log: seq<Event>, n: nat, c: nat, r: nat, run: PermissionRun, d: nat)
    requires RunOk(log, n, c, r, run) && run.phase.TimeRead? && d in run.result.eligible
    ensures Evident(log + [DocumentsCommitted(r, run.time)], d, run.result.eligible[d], run.time)
  {
    hide Computes, BasesOk, RereadsOk;
    BasisRead(log, n, c, r, run, d);
    RunRead(log, c, r, run);
    CommitTraces(log, run.computedAt, EntriesOf(run), run.verifiedAt, d, run.result.eligible[d], run.time);
  }

  lemma BasisRead(log: seq<Event>, n: nat, c: nat, r: nat, run: PermissionRun, d: nat)
    requires RunOk(log, n, c, r, run) && run.phase.TimeRead? && d in run.result.eligible
    ensures run.computedAt < |log| && ComputedAt(log[run.computedAt], d, run.result.eligible[d])
  {
  }

  lemma CommitTraces(log: seq<Event>, i: nat, rereads: seq<nat>, j: nat, d: nat, version: Version, t: nat)
    requires i < j < |log| && ComputedAt(log[i], d, version) && Computes(log[i].scan, log[i].result) && AllRead(log, i, rereads, j)
    requires log[j].TuplesVerified? && log[j].run == log[i].run && (log[i].result.desired != {} ==> log[j].revision != "")
    ensures Evident(log + [DocumentsCommitted(log[i].run, t)], d, version, t)
  {
    var more := [DocumentsCommitted(log[i].run, t)];
    AllReadGrows(log, more, i, rereads, j);
    hide Computes, AllRead;
    assert Trace(log + more, i, rereads, j, |log|, d, version, t);
  }

  lemma CommittedRowOk(log: seq<Event>, n: nat, c: nat, r: nat, run: PermissionRun, d: nat, row: Row)
    requires RowOk(log, d, row) && RunOk(log, n, c, r, run) && run.phase.TimeRead?
    ensures RowOk(log + [DocumentsCommitted(r, run.time)], d,
                  CommittedRow(row, VersionFor(run.result.eligible, d), d in run.result.excluded.Keys, run.time))
  {
    var more := [DocumentsCommitted(r, run.time)];
    RowGrows(log, more, d, row);
    if d in run.result.eligible {
      RunTraces(log, n, c, r, run, d);
    }
  }

  lemma CommittedTableOk(log: seq<Event>, n: nat, c: nat, r: nat, run: PermissionRun, table: Table)
    requires TableOk(log, table) && RunOk(log, n, c, r, run) && run.phase.TimeRead?
    ensures TableOk(log + [DocumentsCommitted(r, run.time)], CommittedTable(table, run.result.eligible, run.result.excluded.Keys, run.time))
  {
    hide RowOk, RunOk, CommittedRow;
    forall d | d in table
      ensures RowOk(log + [DocumentsCommitted(r, run.time)], d,
                    CommittedRow(table[d], VersionFor(run.result.eligible, d), d in run.result.excluded.Keys, run.time))
    {
      CommittedRowOk(log, n, c, r, run, d, table[d]);
    }
  }

  lemma CommitKeeps(w: World, r: nat)
    requires Inv(w)
    ensures Inv(CommitWorld(w, r))
  {
    if r in w.runs && w.runs[r].phase.TimeRead? {
      var run := w.runs[r];
      HistoryGrows(w, [DocumentsCommitted(r, run.time)], |w.older|);
      CommittedTableOk(w.log, |w.older|, w.connection, r, run, w.table);
      hide TableOk;
    }
  }

  lemma WriteMetadataKeeps(w: World, m: nat, acl: Snapshot, perUser: bool, excluded: bool, maxAge: nat)
    requires Inv(w)
    ensures Inv(WriteMetadataWorld(w, m, acl, perUser, excluded, maxAge))
  {
    if m in w.known {
      var d := w.known[m].document;
      assert RowOk(w.log, d, SyncedRow(w.known[m].row, acl, perUser, excluded, w.now - maxAge));
    }
  }

  predicate OfRunOrSync(s: Step) {
    s.PersistScan? || s.ComputeDesired? || s.WriteBatch? || s.RereadKind? || s.VerifyTuples? || s.ReadTime? || s.ForeignWrite? || s.CommitDocuments? || s.WriteMetadata?
  }

  lemma OtherStepKeeps(w: World, s: Step)
    requires Inv(w) && !OfRunOrSync(s)
    ensures Inv(Apply(w, s))
  {
    match s {
      case ReadExisting(m, d) => if d in w.table { assert RowOk(w.log, d, w.table[d]); }
      case LeaveScope(documents) => RowsWithdrawn(w, documents, Apply(w, s).table);
      case DenyDocuments(documents) => RowsWithdrawn(w, documents, Apply(w, s).table);
      case MarkReady(d) => if d in w.table { assert RowOk(w.log, d, w.table[d]); }
      case Rescope(documents) => RescopeKeeps(w, documents);
      case _ =>
    }
  }

  lemma RescopeKeeps(w: World, documents: set<nat>)
    requires Inv(w)
    ensures TableOk(w.log, Apply(w, Rescope(documents)).table)
  {
    forall d | d in w.table ensures RowOk(w.log, d, Apply(w, Rescope(documents)).table[d]) {
      assert RowOk(w.log, d, w.table[d]);
    }
  }

  lemma StepKeeps(w: World, s: Step)
    requires Inv(w)
    ensures Inv(Apply(w, s))
  {
    hide Inv;
    match s {
      case PersistScan(r, found) => PersistScanKeeps(w, r, found);
      case ComputeDesired(r, scan, result) => ComputeKeeps(w, r, scan, result);
      case WriteBatch(r, batch, token) => WriteBatchKeeps(w, r, batch, token);
      case RereadKind(r, kind, at) => RereadKeeps(w, r, kind, at);
      case VerifyTuples(r) => VerifyKeeps(w, r);
      case ReadTime(r) => ReadTimeKeeps(w, r);
      case ForeignWrite(batch) => WritesKeep(w, batch);
      case CommitDocuments(r) => CommitKeeps(w, r);
      case WriteMetadata(m, acl, perUser, excluded, maxAge) => WriteMetadataKeeps(w, m, acl, perUser, excluded, maxAge);
      case _ => OtherStepKeeps(w, s);
    }
  }

  predicate Withdrawn(before: Row, after: Row) {
    after.verifiedAt.None? && after.acl == before.acl && (after.sourceVersion == Blank || after.sourceVersion == before.sourceVersion)
  }

  lemma RowsWithdrawn(w: World, documents: set<nat>, table: Table)
    requires Inv(w) && table.Keys == w.table.Keys
    requires forall d :: d in table ==> table[d] == w.table[d] || Withdrawn(w.table[d], table[d])
    ensures TableOk(w.log, table)
  {
    forall d | d in table ensures RowOk(w.log, d, table[d]) {
      assert RowOk(w.log, d, w.table[d]);
    }
  }

  lemma {:induction false} RunKeeps(w: World, steps: seq<Step>)
    requires Inv(w)
    ensures Inv(Run(w, steps))
    decreases |steps|
  {
    if steps != [] {
      StepKeeps(w, steps[0]);
      RunKeeps(Apply(w, steps[0]), steps[1..]);
    }
  }

  /** Nothing happened yet; the table may hold documents, none of them verified. */
  predicate Initial(w: World) {
    && w.runs == map[] && w.known == map[] && w.log == [] && w.older == []
    && forall d :: d in w.table ==> w.table[d].verifiedAt.None? && Versioned(w.table[d].sourceVersion, w.table[d].acl)
  }

  // ----- the transactions, row after row

  class Documents {
    var rows: Table

    constructor (table: Table)
      ensures rows == table
    {
      rows := table;
    }

    /** One conditional update for each eligible document; counts those that hit. */
    method EnableEligible(eligible: map<nat, Version>, time: nat) returns (verified: nat)
      modifies this
      ensures rows == CommittedTable(old(rows), eligible, {}, time)
      ensures verified == |Hits(old(rows), eligible)|
    {
      ghost var before := rows;
      var todo := eligible.Keys;
      verified := 0;
      assert Hits(before, eligible) * todo == Hits(before, eligible);
      while todo != {}
        invariant todo <= eligible.Keys && EnabledFor(before, eligible, todo, time, rows)
        invariant verified + |Hits(before, eligible) * todo| == |Hits(before, eligible)|
      {
        var d :| d in todo;
        EnablesOne(before, eligible, todo, time, rows, d);
        TakesOne(Hits(before, eligible), todo, d);
        todo := todo - {d};
        if d in rows && StillAt(rows[d], eligible[d]) {
          rows := rows[d := rows[d].(eligible := true, spicedbVersion := eligible[d], verifiedAt := Some(time))];
          verified := verified + 1;
        }
      }
      assert rows == CommittedTable(before, eligible, {}, time);
    }

    method WithdrawExcluded(excluded: set<nat>)
      modifies this
      ensures rows.Keys == old(rows).Keys
      ensures forall d :: d in rows ==> rows[d] == if d in excluded then Unverified(old(rows)[d]) else old(rows)[d]
    {
      ghost var before := rows;
      var left := excluded;
      while left != {}
        invariant left <= excluded && rows.Keys == before.Keys
        invariant forall d :: d in rows ==> rows[d] == if d in excluded && d !in left then Unverified(before[d]) else before[d]
      {
        var d :| d in left;
        left := left - {d};
        if d in rows {
          rows := rows[d := Unverified(rows[d])];
        }
      }
    }

    /** `_commit_verified_documents`: the eligible documents, then the excluded ones. */
    method CommitVerifiedDocuments(eligible: map<nat, Version>, excluded: set<nat>, time: nat) returns (verified: nat)
      modifies this
      ensures rows == CommittedTable(old(rows), eligible, excluded, time)
      ensures verified == |Hits(old(rows), eligible)|
    {
      ghost var before := rows;
      verified := EnableEligible(eligible, time);
      WithdrawExcluded(excluded);
      assert rows == CommittedTable(before, eligible, excluded, time);
    }

    /** `_persist_complete_scan`: each file found updates its row; then rows not seen leave the scope. */
    method PersistCompleteScan(found: map<nat, Snapshot>)
      modifies this
      ensures rows == Scanned(old(rows), found)
    {
      ghost var before := rows;
      var todo, seen := found.Keys, {};
      while todo != {}
        invariant todo <= found.Keys && seen == found.Keys - todo && rows.Keys == before.Keys
        invariant forall d :: d in rows ==> rows[d] == if d in seen then ScannedRow(before, found, d) else before[d]
        decreases todo
      {
        var d :| d in todo;
        todo, seen := todo - {d}, seen + {d};
        if d in rows {
          rows := rows[d := rows[d].(active := true, acl := found[d], sourceVersion := VersionOf(found[d]))];
        }
      }
      rows := map d | d in rows :: if rows[d].active && d !in seen then Unverified(rows[d]).(active := false) else rows[d];
      assert rows == Scanned(before, found);
    }
  }

  lemma TakesOne<T>(s: set<T>, todo: set<T>, x: T)
    requires x in todo
    ensures |s * todo| == |s * (todo - {x})| + if x in s then 1 else 0
  {
    if x in s {
      assert s * todo == s * (todo - {x}) + {x};
    } else {
      assert s * todo == s * (todo - {x});
    }
  }

  /** The rows of the eligible documents dealt with are enabled if they still match. */
  ghost predicate EnabledFor(before: Table, eligible: map<nat, Version>, todo: set<nat>, time: nat, table: Table) {
    && table.Keys == before.Keys
    && forall d :: d in table ==> table[d] == CommittedRow(before[d], if d in todo then None else VersionFor(eligible, d), false, time)
  }

  lemma EnablesOne(before: Table, eligible: map<nat, Version>, todo: set<nat>, time: nat, table: Table, d: nat)
    requires EnabledFor(before, eligible, todo, time, table) && d in todo && d in eligible
    ensures d in table ==> table[d] == before[d]
    ensures if d in table && StillAt(table[d], eligible[d])
            then EnabledFor(before, eligible, todo - {d}, time,
                            table[d := table[d].(eligible := true, spicedbVersion := eligible[d], verifiedAt := Some(time))])
            else EnabledFor(before, eligible, todo - {d}, time, table)
  {
  }

  /** The eligible documents whose row still has the version their tuples were computed from. */
  function Hits(table: Table, eligible: map<nat, Version>): (r: set<nat>)
    ensures forall d :: d in r <==> d in eligible && d in table && StillAt(table[d], eligible[d])
  {
    set d | d in eligible && d in table && StillAt(table[d], eligible[d])
  }
}
