/** What a delegated run can meet: undisturbed it verifies; a version blanked twice lets it enable a
    document with tuples of an old list; and writes between its reads can let it verify a set of
    tuples that the store never held. */
module DelegatedExamples {
  import opened DelegatedEvidence
  import opened DelegatedTheorems
  import opened DesiredState
  import opened Digraph
  import opened FolderHierarchy
  import opened Identifiers
  import opened Outcomes
  import opened Text
  import opened TupleStore

  // ----- undisturbed reads

  lemma {:induction false} RunAppend(w: World, a: seq<Step>, b: seq<Step>)
    ensures Run(w, a + b) == Run(Run(w, a), b)
    decreases |a|
  {
    if a == [] {
      assert a + b == b;
    } else {
      assert (a + b)[1..] == a[1..] + b;
      RunAppend(Apply(w, a[0]), a[1..], b);
    }
  }

  /** The world after the run has read the kind from the present state. */
  function AfterReread(w: World, r: nat, kind: nat): World
    requires r in w.runs && IsKind(kind)
  {
    var tuples := KindOf(w.tuples, w.connection, kind);
    w.(runs := w.runs[r := w.runs[r].(rereads := w.runs[r].rereads[kind := Reread(|w.older|, |w.log|, tuples)])],
       log := w.log + [KindRead(r, kind, |w.older|, tuples)])
  }

  predicate MayReread(w: World, r: nat, kind: nat) {
    && r in w.runs && w.runs[r].phase.DesiredComputed? && IsKind(kind) && kind !in w.runs[r].rereads
    && w.runs[r].revision != "" && w.runs[r].freshFrom <= |w.older|
  }

  lemma Rereads(w: World, r: nat, kind: nat)
    requires MayReread(w, r, kind)
    ensures Apply(w, RereadKind(r, kind, |w.older|)) == AfterReread(w, r, kind)
  {
  }

  function AllReread(w: World, r: nat): World
    requires r in w.runs
  {
    AfterReread(AfterReread(AfterReread(w, r, 0), r, 1), r, 2)
  }

  lemma FoundAll(w: World, r: nat)
    requires r in w.runs && w.runs[r].rereads == map[]
    ensures Found(AllReread(w, r).runs[r].rereads) == ManagedOf(w.tuples, ConnectionPrefix(w.connection))
  {
    var rereads := AllReread(w, r).runs[r].rereads;
    assert rereads.Keys == {0, 1, 2};
    forall t | t in ManagedOf(w.tuples, ConnectionPrefix(w.connection)) ensures t in Found(rereads) {
      var kind :| 0 <= kind < |MANAGED_RESOURCE_TYPES| && MANAGED_RESOURCE_TYPES[kind] == t.resourceType;
      assert t in rereads[kind].tuples;
    }
    forall t | t in Found(rereads) ensures t in ManagedOf(w.tuples, ConnectionPrefix(w.connection)) {
      var kind :| kind in rereads && t in rereads[kind].tuples;
      assert t in KindOf(w.tuples, w.connection, kind);
    }
  }

  function Rereading(w: World, r: nat): seq<Step> {
    [RereadKind(r, 0, |w.older|), RereadKind(r, 1, |w.older|), RereadKind(r, 2, |w.older|)]
  }

  lemma RereadsAll(w: World, r: nat)
    requires MayReread(w, r, 0) && w.runs[r].rereads == map[]
    ensures Run(w, Rereading(w, r)) == AllReread(w, r)
  {
    var s := Rereading(w, r);
    Rereads(w, r, 0);
    var w1 := AfterReread(w, r, 0);
    Rereads(w1, r, 1);
    var w2 := AfterReread(w1, r, 1);
    Rereads(w2, r, 2);
    RunsThree(w, s[0], s[1], s[2]);
  }

  lemma RunsThree(w: World, a: Step, b: Step, c: Step)
    ensures Run(w, [a, b, c]) == Apply(Apply(Apply(w, a), b), c)
  {
    assert [a, b, c] == [a, b] + [c];
    RunMore(w, [a, b], c);
    RunsTwo(w, a, b);
  }

  /** A run that nobody disturbs once the store holds the desired tuples goes on to its commit. */
  lemma UndisturbedVerifies(w: World, r: nat) returns (steps: seq<Step>)
    requires MayReread(w, r, 0) && w.runs[r].rereads == map[]
    requires ManagedOf(w.tuples, ConnectionPrefix(w.connection)) == w.runs[r].result.desired
    ensures var v := Run(w, steps);
            && v.table == w.table && r in v.runs && v.runs == w.runs[r := v.runs[r]] && v.runs[r].phase.TimeRead? && v.runs[r].time == w.now
            && v.runs[r].scan == w.runs[r].scan && v.runs[r].result == w.runs[r].result
            && w.log <= v.log && forall i :: |w.log| <= i < |v.log| ==> !v.log[i].Computed?
  {
    hide KindOf, Applied;
    var last := [VerifyTuples(r), ReadTime(r)];
    steps := Rereading(w, r) + last;
    RereadsAll(w, r);
    FoundAll(w, r);
    RunAppend(w, Rereading(w, r), last);
    RunsTwo(AllReread(w, r), last[0], last[1]);
    KeptByReads(w, r);
    ThenVerifies(AllReread(w, r), r);
    hide AllReread, Found, KindOf;
  }

  lemma KeptByReads(w: World, r: nat)
    requires MayReread(w, r, 0) && w.runs[r].rereads == map[]
    ensures var v := AllReread(w, r);
            && v.table == w.table && v.now == w.now && r in v.runs && v.runs == w.runs[r := v.runs[r]] && v.runs[r].phase.DesiredComputed?
            && v.runs[r].scan == w.runs[r].scan && v.runs[r].result == w.runs[r].result && v.runs[r].revision == w.runs[r].revision
            && v.runs[r].rereads.Keys == {0, 1, 2}
            && w.log <= v.log && forall i :: |w.log| <= i < |v.log| ==> !v.log[i].Computed?
  {
  }

  lemma ThenVerifies(w: World, r: nat)
    requires r in w.runs && w.runs[r].phase.DesiredComputed? && FoundDesired(w.runs[r])
    ensures var v := Apply(Apply(w, VerifyTuples(r)), ReadTime(r));
            && v.table == w.table && v.runs == w.runs[r := w.runs[r].(phase := TimeRead, verifiedAt := |w.log|, time := w.now)]
            && v.log == w.log + [TuplesVerified(r, w.runs[r].revision)]
  {
    hide FoundDesired;
  }

  // ----- a blank version may mislead

  const READER := Permission("user", "reader", Some("a"), false, false, [])
  const LIST := Snapshot([READER], true)

  function GrantOfReader(d: nat): PermissionTuple {
    EntryTuple(0, "kgm/document", DocumentId(0, d), READER)
  }

  lemma ReaderIsUsable()
    ensures Usable(Some(LIST), {}) && GroupsOf(Some(LIST)) == {}
  {
    assert Strip("a") == "a" && Lower("a") == "a";
  }

  lemma OneTuple(kind: string, id: string, scope: set<string>)
    ensures ResourceTuples(0, kind, id, [], LIST.permissions, scope) == {EntryTuple(0, kind, id, READER)}
  {
    assert LIST.permissions[0] == READER && !SafelyInherited(READER, [], scope);
  }

  lemma ReaderTuplesNamed(d: nat)
    ensures KindOf({GrantOfReader(d)}, 0, 2) == {GrantOfReader(d)} && Managed(GrantOfReader(d), ConnectionPrefix(0))
  {
    assert MANAGED_RESOURCE_TYPES[2] == "kgm/document" && ConnectionPrefix(0) <= DocumentId(0, d);
  }

  const BLANKED := Scan(0, map[], map[0 := DocumentRow([], Some(LIST), "", Blank)], map[])

  function BlankedResult(): SyncResult {
    SyncResult({GrantOfReader(0)}, map[0 := Blank], map[], 0)
  }

  lemma NoGroups(scan: Scan)
    requires ReferencedGroups(scan) == {} && scan.directory == map[]
    ensures GroupsSettled(scan, {}, map[])
  {
    assert forall e :: !ReachableFrom(GroupResolver.Nesting(scan.directory), {}, e);
  }

  lemma BlankedComputes()
    ensures Computes(BLANKED, BlankedResult())
  {
    CycleStartsInGraph(ParentEdges(BLANKED.Hierarchy()));
    ReaderIsUsable();
    NoGroups(BLANKED);
    OneTuple("kgm/document", DocumentId(0, 0), BLANKED.folders.Keys);
    assert Eligible(BLANKED, {}, 0);
    assert Partitioned(BLANKED, {}, BlankedResult());
    forall t ensures t in {GrantOfReader(0)} <==> FromDocuments(BLANKED, {0}, t) {}
    assert Exact(BLANKED, {}, map[], BlankedResult());
  }

  function RowOf(version: Version): Row {
    Row(true, false, LIST, version, Blank, None)
  }

  function Start(): World {
    World(0, map[0 := RowOf(VersionOf(LIST))], {GrantOfReader(0)}, [], map[], map[], 0, [])
  }

  /** The run has read the version while it was blank, and written its batch. */
  function BlankedWritten(): World {
    var run := NewRun().(phase := DesiredComputed, scan := BLANKED, result := BlankedResult(), freshFrom := 1, revision := "r");
    World(0, map[0 := RowOf(Blank)], {GrantOfReader(0)}, [{GrantOfReader(0)}], map[1 := run], map[], 0, [Computed(1, BLANKED, BlankedResult(), 0)])
  }

  lemma ScansAndDenies()
    ensures Run(Start(), [PersistScan(1, map[0 := LIST]), DenyDocuments({0})]) == Start().(table := map[0 := RowOf(Blank)], runs := map[1 := NewRun()])
  {
    RunsTwo(Start(), PersistScan(1, map[0 := LIST]), DenyDocuments({0}));
    var w := Apply(Start(), PersistScan(1, map[0 := LIST]));
    assert w.table == map[0 := RowOf(VersionOf(LIST))];
    assert Apply(w, DenyDocuments({0})).table == map[0 := RowOf(Blank)];
  }

  lemma ComputesBlanked(w: World)
    requires w == Start().(table := map[0 := RowOf(Blank)], runs := map[1 := NewRun()])
    ensures Apply(Apply(w, ComputeDesired(1, BLANKED, BlankedResult())), WriteBatch(1, [Touch(GrantOfReader(0))], "r")) == BlankedWritten()
  {
    hide Computes, GrantOfReader;
    BlankedComputes();
    assert ActiveIn(w.table) == {0};
    assert ReadsTable(BLANKED, 0, w.table);
    var batch := [Touch(GrantOfReader(0))];
    var v := Apply(w, ComputeDesired(1, BLANKED, BlankedResult()));
    assert v.log == [Computed(1, BLANKED, BlankedResult(), 0)];
    assert batch[..0] == [];
    assert Applied({GrantOfReader(0)}, batch) == {GrantOfReader(0)};
    assert Apply(v, WriteBatch(1, batch, "r")).runs == BlankedWritten().runs;
  }

  lemma GetsToCommit() returns (steps: seq<Step>)
    ensures var w := Run(Start(), steps);
            && 0 in w.table && w.table[0] == RowOf(Blank) && 1 in w.runs && w.runs[1].phase.TimeRead? && w.runs[1].time == 0
            && w.runs[1].scan == BLANKED && w.runs[1].result == BlankedResult()
            && forall i :: 0 <= i < |w.log| && w.log[i].Computed? ==> w.log[i].scan == BLANKED
  {
    hide Apply, Run, Found, KindOf;
    var a := [PersistScan(1, map[0 := LIST]), DenyDocuments({0})];
    var b := [ComputeDesired(1, BLANKED, BlankedResult()), WriteBatch(1, [Touch(GrantOfReader(0))], "r")];
    ScansAndDenies();
    var w := Run(Start(), a);
    ComputesBlanked(w);
    RunsTwo(w, b[0], b[1]);
    ReaderTuplesNamed(0);
    var v := BlankedWritten();
    assert ManagedOf(v.tuples, ConnectionPrefix(0)) == {GrantOfReader(0)};
    var c := UndisturbedVerifies(v, 1);
    steps := a + b + c;
    RunAppend(Start(), a, b);
    RunAppend(Start(), a + b, c);
  }

  /** A document passes the verified predicate although every list a run ever computed from differs
      from the one its row holds. */
  ghost predicate Misled(w: World, d: nat) {
    && d in w.table && VerifiedAt(w.table[d], w.table[d].sourceVersion, 0)
    && forall i :: 0 <= i < |w.log| && w.log[i].Computed? ==>
         var documents := w.log[i].scan.documents;
         d in documents && documents[d].snapshot.Some? && !SameEntries(documents[d].snapshot.value, w.table[d].acl)
  }

  /** A cutover blanks the version before a run reads it and once more after another scan has brought
      a new list. The run then enables the document with tuples of the old list. */
  lemma BlankVersionMayMislead() returns (w0: World, steps: seq<Step>)
    ensures Initial(w0) && Misled(Run(w0, steps), 0)
  {
    w0 := Start();
    var before := GetsToCommit();
    var w := Run(w0, before);
    var n, v := BlankedMeanwhile(w, 1, 0, LIST);
    var meanwhile := [PersistScan(n, map[0 := OtherList(LIST)]), DenyDocuments({0})];
    steps := before + meanwhile + [CommitDocuments(1)];
    RunAppend(w0, before, meanwhile);
    RunMore(w0, before + meanwhile, CommitDocuments(1));
    CommitMisleads(w, v, n);
  }

  lemma CommitMisleads(w: World, v: World, n: nat)
    requires 1 in w.runs && w.runs[1].phase.TimeRead? && w.runs[1].time == 0 && w.runs[1].result == BlankedResult()
    requires forall i :: 0 <= i < |w.log| && w.log[i].Computed? ==> w.log[i].scan == BLANKED
    requires v.log == w.log && n !in w.runs && n in v.runs && v.runs == w.runs[n := v.runs[n]]
    requires 0 in v.table && v.table[0] == Row(true, v.table[0].eligible, OtherList(LIST), Blank, Blank, None)
    ensures Misled(Apply(v, CommitDocuments(1)), 0)
  {
    hide SameEntries, OtherList;
    OtherListDiffers(LIST);
    var u := Apply(v, CommitDocuments(1));
    assert u.log == v.log + [DocumentsCommitted(1, 0)];
    assert u.table[0] == Row(true, true, OtherList(LIST), Blank, Blank, Some(0));
  }

  // ----- writes between the reads may mislead

  const LISTED := Scan(0, map["f" := FolderRow([], Some(LIST))], map[0 := DocumentRow([], Some(LIST), "", VersionOf(LIST))], map[])

  function FolderTuple(): PermissionTuple {
    EntryTuple(0, "kgm/folder", FolderId(0, "f"), READER)
  }

  function ListedDesired(): set<PermissionTuple> {
    {FolderTuple(), GrantOfReader(0)}
  }

  function ListedResult(): SyncResult {
    SyncResult(ListedDesired(), map[0 := VersionOf(LIST)], map[], 0)
  }

  lemma ListedIsAcyclic()
    ensures Acyclic(ParentEdges(LISTED.Hierarchy()))
  {
    var edges := ParentEdges(LISTED.Hierarchy());
    CycleStartsInGraph(edges);
    RankedExcludesCycles(edges, map["f" := 0]);
  }

  lemma ListedTuples(t: PermissionTuple)
    ensures FromFolders(LISTED, {}, LISTED.folders.Keys, t) <==> t == FolderTuple()
    ensures FromDocuments(LISTED, {0}, t) <==> t == GrantOfReader(0)
  {
    ReaderIsUsable();
    OneTuple("kgm/folder", FolderId(0, "f"), LISTED.folders.Keys);
    OneTuple("kgm/document", DocumentId(0, 0), LISTED.folders.Keys);
    assert "f" in LISTED.folders;
  }

  lemma ListedComputes()
    ensures Computes(LISTED, ListedResult())
  {
    ListedIsAcyclic();
    ReaderIsUsable();
    NoGroups(LISTED);
    OneTuple("kgm/document", DocumentId(0, 0), LISTED.folders.Keys);
    assert Eligible(LISTED, {}, 0);
    assert Partitioned(LISTED, {}, ListedResult());
    forall t ensures t in ListedDesired() <==> FromFolders(LISTED, {}, LISTED.folders.Keys, t) || FromDocuments(LISTED, {0}, t) {
      ListedTuples(t);
    }
    assert Exact(LISTED, {}, map[], ListedResult());
  }

  /** The grant of a document that another writer's run wants gone. */
  function StoreBefore(): set<PermissionTuple> {
    {FolderTuple(), GrantOfReader(0), GrantOfReader(1)}
  }

  lemma TuplesDiffer()
    ensures FolderTuple() != GrantOfReader(0) && FolderTuple() != GrantOfReader(1) && GrantOfReader(0) != GrantOfReader(1)
    ensures Managed(FolderTuple(), ConnectionPrefix(0)) && Managed(GrantOfReader(0), ConnectionPrefix(0)) && Managed(GrantOfReader(1), ConnectionPrefix(0))
    ensures FolderTuple().resourceType == MANAGED_RESOURCE_TYPES[1]
    ensures GrantOfReader(0).resourceType == GrantOfReader(1).resourceType == MANAGED_RESOURCE_TYPES[2]
  {
    KindsDiffer(1, 2);
    DocumentIdInjective(0, 0, 0, 1);
    ReaderTuplesNamed(0);
    ReaderTuplesNamed(1);
    assert ConnectionPrefix(0) <= FolderId(0, "f");
  }

  lemma WhatIsRead()
    ensures KindOf(StoreBefore(), 0, 0) == {} && KindOf(StoreBefore(), 0, 1) == {FolderTuple()} && KindOf({GrantOfReader(0)}, 0, 2) == {GrantOfReader(0)}
  {
    TuplesDiffer();
    KindsDiffer(0, 1);
    KindsDiffer(0, 2);
    hide FolderTuple, GrantOfReader;
  }

  function Listed(): World {
    World(0, map[0 := RowOf(VersionOf(LIST))], StoreBefore(), [], map[], map[], 0, [])
  }

  /** The run has computed what it desires and written its batch, which changed nothing. */
  function ListedWritten(): World {
    var run := NewRun().(phase := DesiredComputed, scan := LISTED, result := ListedResult(), freshFrom := 1, revision := "r");
    Listed().(older := [StoreBefore()], runs := map[1 := run], log := [Computed(1, LISTED, ListedResult(), 0)])
  }

  lemma ComputesListed()
    ensures Run(Listed(), [PersistScan(1, map[0 := LIST]), ComputeDesired(1, LISTED, ListedResult()), WriteBatch(1, [Touch(GrantOfReader(0))], "r")])
         == ListedWritten()
  {
    hide Computes, GrantOfReader, FolderTuple;
    var batch := [Touch(GrantOfReader(0))];
    RunsThree(Listed(), PersistScan(1, map[0 := LIST]), ComputeDesired(1, LISTED, ListedResult()), WriteBatch(1, batch, "r"));
    var w1 := Apply(Listed(), PersistScan(1, map[0 := LIST]));
    assert w1.table == Listed().table && w1 == Listed().(runs := map[1 := NewRun()]);
    ListedComputes();
    assert ActiveIn(w1.table) == {0};
    assert ReadsTable(LISTED, 0, w1.table);
    var w2 := Apply(w1, ComputeDesired(1, LISTED, ListedResult()));
    assert w2.log == [Computed(1, LISTED, ListedResult(), 0)];
    assert batch[..0] == [];
    assert Applied(StoreBefore(), batch) == StoreBefore();
    assert Apply(w2, WriteBatch(1, batch, "r")).runs == ListedWritten().runs;
  }

  /** Another writer deletes a folder tuple, already read, and a document tuple, not yet read. */
  function OtherBatch(): seq<Update> {
    [Delete(FolderTuple()), Delete(GrantOfReader(1))]
  }

  lemma OtherBatchLeaves()
    ensures Applied(StoreBefore(), OtherBatch()) == {GrantOfReader(0)}
  {
    TuplesDiffer();
    hide FolderTuple, GrantOfReader;
    var batch := OtherBatch();
    assert batch[..1] == [Delete(FolderTuple())] && batch[..1][..0] == [];
    assert Applied(StoreBefore(), batch[..1]) == {GrantOfReader(0), GrantOfReader(1)};
  }

  function BetweenReads(): World {
    Written(AfterReread(AfterReread(ListedWritten(), 1, 0), 1, 1), OtherBatch())
  }

  function Straddling(): seq<Step> {
    [RereadKind(1, 0, 1), RereadKind(1, 1, 1), ForeignWrite(OtherBatch())]
  }

  lemma Writes(w: World, batch: seq<Update>)
    ensures Apply(w, ForeignWrite(batch)) == Written(w, batch)
  {
  }

  lemma Straddles()
    ensures Run(ListedWritten(), Straddling()) == BetweenReads()
  {
    hide Applied, KindOf, Run, Apply, OtherBatch, StoreBefore, Written;
    var w, s := ListedWritten(), Straddling();
    RunsThree(w, s[0], s[1], s[2]);
    Rereads(w, 1, 0);
    Rereads(AfterReread(w, 1, 0), 1, 1);
    Writes(AfterReread(AfterReread(w, 1, 0), 1, 1), OtherBatch());
  }

  lemma StillFindsAll()
    ensures MayReread(BetweenReads(), 1, 2) && FoundDesired(AfterReread(BetweenReads(), 1, 2).runs[1])
  {
    WhatIsRead();
    OtherBatchLeaves();
    hide FolderTuple, GrantOfReader, Applied, KindOf;
    var w := BetweenReads();
    var rereads := AfterReread(w, 1, 2).runs[1].rereads;
    assert rereads.Keys == {0, 1, 2};
    assert rereads[0].tuples == {} && rereads[1].tuples == {FolderTuple()} && rereads[2].tuples == {GrantOfReader(0)};
    assert FolderTuple() in Found(rereads) && GrantOfReader(0) in Found(rereads);
  }

  /** The run verified its tuples although no state of the store ever held exactly these. */
  predicate VerifiedUnheld(w: World, r: nat) {
    && r in w.runs && w.runs[r].phase.GrantsVerified?
    && forall at :: 0 <= at <= |w.older| ==> ManagedOf(StoreAt(w, at), ConnectionPrefix(w.connection)) != w.runs[r].result.desired
  }

  lemma NeverHeld()
    ensures ManagedOf(StoreBefore(), ConnectionPrefix(0)) != ListedDesired()
    ensures ManagedOf({GrantOfReader(0)}, ConnectionPrefix(0)) != ListedDesired()
  {
    TuplesDiffer();
    hide FolderTuple, GrantOfReader;
    assert GrantOfReader(1) in ManagedOf(StoreBefore(), ConnectionPrefix(0));
    assert FolderTuple() !in ManagedOf({GrantOfReader(0)}, ConnectionPrefix(0));
  }

  /** The reads of the second check straddle another writer's batch: together they show the desired
      tuples, which the store held at no time. */
  lemma StraddlingReadsMayMislead() returns (w0: World, steps: seq<Step>)
    ensures Initial(w0) && VerifiedUnheld(Run(w0, steps), 1)
  {
    w0 := Listed();
    var first := [PersistScan(1, map[0 := LIST]), ComputeDesired(1, LISTED, ListedResult()), WriteBatch(1, [Touch(GrantOfReader(0))], "r")];
    steps := first + Straddling() + [RereadKind(1, 2, 2), VerifyTuples(1)];
    ComputesListed();
    Straddles();
    EndsVerified();
    hide Run, Apply, VerifiedUnheld, Straddling, BetweenReads, ListedWritten;
    RunAppend(w0, first, Straddling());
    RunAppend(w0, first + Straddling(), [RereadKind(1, 2, 2), VerifyTuples(1)]);
  }

  lemma EndsVerified()
    ensures VerifiedUnheld(Run(BetweenReads(), [RereadKind(1, 2, 2), VerifyTuples(1)]), 1)
  {
    var w := BetweenReads();
    StillFindsAll();
    Rereads(w, 1, 2);
    VerifiesUnheld(AfterReread(w, 1, 2));
    RunsTwo(w, RereadKind(1, 2, 2), VerifyTuples(1));
    hide Run, Apply, VerifiedUnheld, Applied, KindOf;
  }

  lemma VerifiesUnheld(w: World)
    requires w == AfterReread(BetweenReads(), 1, 2) && FoundDesired(w.runs[1])
    ensures VerifiedUnheld(Apply(w, VerifyTuples(1)), 1)
  {
    OtherBatchLeaves();
    NeverHeld();
    hide FoundDesired, Applied, FolderTuple, GrantOfReader, KindOf, ManagedOf;
    var v := Apply(w, VerifyTuples(1));
    assert v.older == [StoreBefore(), StoreBefore()] && v.tuples == {GrantOfReader(0)};
  }
}
