/** The breadth-first walk over a Drive tree: shared parents, shortcuts back up and failing
    listings included. */
module DriveWalk {
  import opened Outcomes

  datatype Entry = Entry(id: string, isFolder: bool, name: string)

  /** The pages a folder listing delivers, and whether it fails after them. */
  datatype Listing = Listing(entries: seq<Entry>, fails: bool)

  type Tree = map<string, Listing>

  /** A folder path: the root path and then one name for each level below it. */
  type FolderPath = seq<string>

  datatype Emitted = Emitted(entry: Entry, path: FolderPath)
  datatype Pending = Pending(id: string, path: FolderPath)

  function Children(tree: Tree, f: string): seq<Entry> {
    if f in tree then tree[f].entries else []
  }

  predicate Fails(tree: Tree, f: string) {
    f in tree ==> tree[f].fails
  }

  datatype Root = Root(id: string, path: string)

  /** `path` spells a chain of folders from the root down to f. */
  ghost predicate PathTo(tree: Tree, root: Root, f: string, path: FolderPath)
    decreases |path|
  {
    && path != []
    && if |path| == 1 then f == root.id && path[0] == root.path
       else exists p :: PathTo(tree, root, p, path[..|path| - 1]) && Entry(f, true, path[|path| - 1]) in Children(tree, p)
  }

  ghost predicate Reachable(tree: Tree, root: Root, f: string) {
    exists path :: PathTo(tree, root, f, path)
  }

  ghost predicate ListedAt(tree: Tree, root: Root, e: Entry, path: FolderPath) {
    exists p :: PathTo(tree, root, p, path) && e in Children(tree, p)
  }

  lemma PathToChild(tree: Tree, root: Root, p: string, path: FolderPath, e: Entry)
    requires PathTo(tree, root, p, path) && e in Children(tree, p) && e.isFolder
    ensures PathTo(tree, root, e.id, path + [e.name])
  {
    assert (path + [e.name])[..|path|] == path;
    assert Entry(e.id, true, e.name) == e;
  }

  // ----- the account of a walk under way

  /** The folders found so far in the order they were queued, with the position of each; the
      emitted entries, with the position of each file and each folder. */
  datatype Account = Account(found: seq<Pending>, at: map<string, nat>,
                             out: seq<Emitted>, files: map<string, nat>, folders: map<string, nat>)

  ghost predicate Indexed(found: seq<Pending>, at: map<string, nat>) {
    && (forall i :: 0 <= i < |found| ==> found[i].id in at && at[found[i].id] == i)
    && (forall f :: f in at ==> at[f] < |found| && found[at[f]].id == f)
  }

  ghost predicate Chains(tree: Tree, root: Root, found: seq<Pending>) {
    forall i :: 0 <= i < |found| ==> PathTo(tree, root, found[i].id, found[i].path)
  }

  /** Folders are queued level by level, and so far not below level + 1. */
  ghost predicate Levels(found: seq<Pending>, level: nat) {
    && (forall i, j :: 0 <= i <= j < |found| ==> |found[i].path| <= |found[j].path|)
    && (forall i :: 0 <= i < |found| ==> |found[i].path| <= level + 1)
  }

  ghost predicate Listed(tree: Tree, root: Root, out: seq<Emitted>) {
    forall i :: 0 <= i < |out| ==> ListedAt(tree, root, out[i].entry, out[i].path)
  }

  /** `kind` gives the one position at which each id of its kind was emitted. */
  ghost predicate OnceEach(out: seq<Emitted>, isFolder: bool, kind: map<string, nat>) {
    && (forall id :: id in kind ==> kind[id] < |out| && out[kind[id]].entry.id == id && out[kind[id]].entry.isFolder == isFolder)
    && (forall i :: 0 <= i < |out| && out[i].entry.isFolder == isFolder ==> out[i].entry.id in kind && kind[out[i].entry.id] == i)
  }

  ghost predicate FilesUpTo(out: seq<Emitted>, files: map<string, nat>, level: nat) {
    forall id :: id in files ==> files[id] < |out| && |out[files[id]].path| <= level
  }

  ghost predicate FoldersEmitted(root: Root, s: Account, includeFolders: bool) {
    && root.id !in s.folders
    && (includeFolders ==> forall f :: f in s.at && f != root.id ==> f in s.folders)
    && (!includeFolders ==> s.folders == map[])
    && (forall f :: f in s.folders ==> f in s.at)
  }

  /** Entry j of the i-th folder is accounted for, no deeper than the folder's own entries. */
  ghost predicate CoveredAt(tree: Tree, s: Account, i: nat, j: nat)
    requires i < |s.found| && j < |Children(tree, s.found[i].id)|
  {
    var e := Children(tree, s.found[i].id)[j];
    if e.isFolder then e.id in s.at && s.at[e.id] < |s.found| && |s.found[s.at[e.id]].path| <= |s.found[i].path| + 1
    else e.id in s.files && s.files[e.id] < |s.out| && |s.out[s.files[e.id]].path| <= |s.found[i].path|
  }

  ghost predicate Covered(tree: Tree, s: Account, i: nat, k: nat)
    requires i < |s.found|
  {
    forall j :: 0 <= j < k && j < |Children(tree, s.found[i].id)| ==> CoveredAt(tree, s, i, j)
  }

  ghost predicate CoveredBefore(tree: Tree, s: Account, h: nat)
    requires h <= |s.found|
  {
    forall i :: 0 <= i < h ==> Covered(tree, s, i, |Children(tree, s.found[i].id)|)
  }

  ghost predicate Walking(tree: Tree, root: Root, includeFolders: bool, s: Account, level: nat) {
    && Indexed(s.found, s.at) && s.found != [] && s.found[0] == Pending(root.id, [root.path])
    && Chains(tree, root, s.found)
    && Levels(s.found, level)
    && Listed(tree, root, s.out)
    && OnceEach(s.out, false, s.files) && OnceEach(s.out, true, s.folders)
    && FilesUpTo(s.out, s.files, level)
    && FoldersEmitted(root, s, includeFolders)
  }

  // ----- one entry of a listing

  function WithFolder(s: Account, path: FolderPath, e: Entry): Account {
    s.(found := s.found + [Pending(e.id, path + [e.name])], at := s.at[e.id := |s.found|])
  }

  function WithEmitted(s: Account, path: FolderPath, e: Entry): Account {
    var y := Emitted(e, path);
    if e.isFolder then s.(out := s.out + [y], folders := s.folders[e.id := |s.out|])
    else s.(out := s.out + [y], files := s.files[e.id := |s.out|])
  }

  /** Later accounts only extend earlier ones. */
  ghost predicate Extends(s: Account, s': Account) {
    && |s.found| <= |s'.found| && (forall i :: 0 <= i < |s.found| ==> s'.found[i] == s.found[i])
    && |s.out| <= |s'.out| && (forall i :: 0 <= i < |s.out| ==> s'.out[i] == s.out[i])
    && (forall f :: f in s.at ==> f in s'.at && s'.at[f] == s.at[f])
    && (forall f :: f in s.files ==> f in s'.files && s'.files[f] == s.files[f])
  }

  lemma CoverageKept(tree: Tree, s: Account, s': Account, i: nat, k: nat)
    requires Extends(s, s') && i < |s.found| && Covered(tree, s, i, k)
    ensures Covered(tree, s', i, k)
  {
    forall j | 0 <= j < k && j < |Children(tree, s'.found[i].id)| ensures CoveredAt(tree, s', i, j) {
      assert CoveredAt(tree, s, i, j);
    }
  }

  lemma CoverageBeforeKept(tree: Tree, s: Account, s': Account, h: nat)
    requires Extends(s, s') && h <= |s.found| && CoveredBefore(tree, s, h)
    ensures CoveredBefore(tree, s', h)
  {
    forall i | 0 <= i < h ensures Covered(tree, s', i, |Children(tree, s'.found[i].id)|) {
      CoverageKept(tree, s, s', i, |Children(tree, s.found[i].id)|);
    }
  }

  lemma IndexedMore(found: seq<Pending>, at: map<string, nat>, last: Pending)
    requires Indexed(found, at) && last.id !in at
    ensures Indexed(found + [last], at[last.id := |found|])
  {
  }

  lemma LevelsMore(found: seq<Pending>, level: nat, last: Pending)
    requires Levels(found, level) && |last.path| == level + 1
    ensures Levels(found + [last], level)
  {
  }

  lemma QueueFolder(tree: Tree, root: Root, s: Account, h: nat, e: Entry)
    requires h < |s.found| && Indexed(s.found, s.at) && Chains(tree, root, s.found) && Levels(s.found, |s.found[h].path|)
    requires e in Children(tree, s.found[h].id) && e.isFolder && e.id !in s.at
    ensures var s' := WithFolder(s, s.found[h].path, e);
            && Indexed(s'.found, s'.at) && s'.found[0] == s.found[0]
            && Chains(tree, root, s'.found) && Levels(s'.found, |s.found[h].path|)
  {
    var last := Pending(e.id, s.found[h].path + [e.name]);
    PathToChild(tree, root, s.found[h].id, s.found[h].path, e);
    IndexedMore(s.found, s.at, last);
    LevelsMore(s.found, |s.found[h].path|, last);
  }

  lemma OnceMore(out: seq<Emitted>, isFolder: bool, kind: map<string, nat>, y: Emitted)
    requires OnceEach(out, isFolder, kind) && (y.entry.isFolder == isFolder ==> y.entry.id !in kind)
    ensures OnceEach(out + [y], isFolder, if y.entry.isFolder == isFolder then kind[y.entry.id := |out|] else kind)
  {
  }

  lemma EmitEntry(tree: Tree, root: Root, s: Account, path: FolderPath, e: Entry)
    requires Listed(tree, root, s.out) && OnceEach(s.out, false, s.files) && OnceEach(s.out, true, s.folders)
    requires FilesUpTo(s.out, s.files, |path|)
    requires ListedAt(tree, root, e, path)
    requires if e.isFolder then e.id !in s.folders else e.id !in s.files
    ensures var s' := WithEmitted(s, path, e);
            && Listed(tree, root, s'.out) && OnceEach(s'.out, false, s'.files) && OnceEach(s'.out, true, s'.folders)
            && FilesUpTo(s'.out, s'.files, |path|)
  {
    OnceMore(s.out, false, s.files, Emitted(e, path));
    OnceMore(s.out, true, s.folders, Emitted(e, path));
  }

  lemma EmittedExtends(s: Account, path: FolderPath, e: Entry)
    requires if e.isFolder then e.id !in s.folders else e.id !in s.files
    ensures Extends(s, WithEmitted(s, path, e))
  {
  }

  lemma FolderExtends(s: Account, path: FolderPath, e: Entry)
    requires e.id !in s.at
    ensures Extends(s, WithFolder(s, path, e))
  {
  }

  lemma ExtendsTransitive(s: Account, s': Account, s'': Account)
    requires Extends(s, s') && Extends(s', s'')
    ensures Extends(s, s'')
  {
  }

  /** The h-th folder is being listed, and k of its entries are accounted for. */
  ghost predicate ListingFolder(tree: Tree, root: Root, includeFolders: bool, s: Account, h: nat, k: nat) {
    && h < |s.found| && k <= |Children(tree, s.found[h].id)|
    && Walking(tree, root, includeFolders, s, |s.found[h].path|)
    && CoveredBefore(tree, s, h) && Covered(tree, s, h, k)
  }

  lemma ListsNewFolder(tree: Tree, root: Root, includeFolders: bool, s: Account, h: nat, k: nat, e: Entry, path: FolderPath, s': Account)
    requires ListingFolder(tree, root, includeFolders, s, h, k) && k < |Children(tree, s.found[h].id)|
    requires e == Children(tree, s.found[h].id)[k] && path == s.found[h].path && e.isFolder && e.id !in s.at
    requires s' == WithFolder(if includeFolders then WithEmitted(s, path, e) else s, path, e)
    ensures Extends(s, s') && ListingFolder(tree, root, includeFolders, s', h, k + 1)
  {
    var s1 := if includeFolders then WithEmitted(s, path, e) else s;
    assert ListedAt(tree, root, e, path);
    if includeFolders {
      EmitEntry(tree, root, s, path, e);
      EmittedExtends(s, path, e);
    }
    QueueFolder(tree, root, s1, h, e);
    FolderExtends(s1, path, e);
    ExtendsTransitive(s, s1, s');
    CoverageKept(tree, s, s', h, k);
    CoverageBeforeKept(tree, s, s', h);
    assert CoveredAt(tree, s', h, k);
  }

  lemma ListsNewFile(tree: Tree, root: Root, includeFolders: bool, s: Account, h: nat, k: nat, e: Entry, path: FolderPath)
    requires ListingFolder(tree, root, includeFolders, s, h, k) && k < |Children(tree, s.found[h].id)|
    requires e == Children(tree, s.found[h].id)[k] && path == s.found[h].path && !e.isFolder && e.id !in s.files
    ensures Extends(s, WithEmitted(s, path, e)) && ListingFolder(tree, root, includeFolders, WithEmitted(s, path, e), h, k + 1)
  {
    var s' := WithEmitted(s, path, e);
    assert ListedAt(tree, root, e, path);
    EmitEntry(tree, root, s, path, e);
    EmittedExtends(s, path, e);
    CoverageKept(tree, s, s', h, k);
    CoverageBeforeKept(tree, s, s', h);
    assert CoveredAt(tree, s', h, k);
  }

  lemma ListsAgain(tree: Tree, root: Root, includeFolders: bool, s: Account, h: nat, k: nat, e: Entry)
    requires ListingFolder(tree, root, includeFolders, s, h, k) && k < |Children(tree, s.found[h].id)|
    requires e == Children(tree, s.found[h].id)[k] && if e.isFolder then e.id in s.at else e.id in s.files
    ensures ListingFolder(tree, root, includeFolders, s, h, k + 1)
  {
    assert CoveredAt(tree, s, h, k);
  }

  /** The program's variables while the h-th folder is being listed. */
  ghost predicate Mirrors(s: Account, h: nat, folder: Pending, queue: seq<Pending>, seenFolders: set<string>, seenFiles: set<string>, out: seq<Emitted>) {
    && h < |s.found| && s.found[h] == folder && queue == s.found[h + 1..] && out == s.out
    && seenFolders == s.at.Keys && seenFiles == s.files.Keys
  }

  lemma MirrorsFolder(s: Account, h: nat, folder: Pending, queue: seq<Pending>, seenFolders: set<string>, seenFiles: set<string>,
                      out: seq<Emitted>, e: Entry, includeFolders: bool)
    requires Mirrors(s, h, folder, queue, seenFolders, seenFiles, out) && e.isFolder
    ensures Mirrors(WithFolder(if includeFolders then WithEmitted(s, folder.path, e) else s, folder.path, e), h, folder,
                    queue + [Pending(e.id, folder.path + [e.name])], seenFolders + {e.id}, seenFiles,
                    if includeFolders then out + [Emitted(e, folder.path)] else out)
  {
  }

  lemma MirrorsFile(s: Account, h: nat, folder: Pending, queue: seq<Pending>, seenFolders: set<string>, seenFiles: set<string>,
                    out: seq<Emitted>, e: Entry)
    requires Mirrors(s, h, folder, queue, seenFolders, seenFiles, out) && !e.isFolder
    ensures Mirrors(WithEmitted(s, folder.path, e), h, folder, queue, seenFolders, seenFiles + {e.id}, out + [Emitted(e, folder.path)])
  {
  }

  /** Lists the h-th folder: queues the folders not seen before, emits the files not seen before. */
  method ListFolder(tree: Tree, root: Root, includeFolders: bool, folder: Pending, queue: seq<Pending>, seenFolders: set<string>,
                    seenFiles: set<string>, out: seq<Emitted>, ghost s: Account, ghost h: nat)
    returns (queue': seq<Pending>, seenFolders': set<string>, seenFiles': set<string>, out': seq<Emitted>, ghost s': Account)
    requires Mirrors(s, h, folder, queue, seenFolders, seenFiles, out)
    requires ListingFolder(tree, root, includeFolders, s, h, 0)
    ensures Mirrors(s', h, folder, queue', seenFolders', seenFiles', out')
    ensures ListingFolder(tree, root, includeFolders, s', h, |Children(tree, folder.id)|)
    ensures Extends(s, s')
  {
    queue', seenFolders', seenFiles', out', s' := queue, seenFolders, seenFiles, out, s;
    var entries := Children(tree, folder.id);
    var k := 0;
    while k < |entries|
      invariant k <= |entries|
      invariant Mirrors(s', h, folder, queue', seenFolders', seenFiles', out')
      invariant ListingFolder(tree, root, includeFolders, s', h, k)
      invariant Extends(s, s')
    {
      var e := entries[k];
      if e.isFolder && e.id !in seenFolders' {
        ghost var before := s';
        MirrorsFolder(s', h, folder, queue', seenFolders', seenFiles', out', e, includeFolders);
        s' := WithFolder(if includeFolders then WithEmitted(s', folder.path, e) else s', folder.path, e);
        ListsNewFolder(tree, root, includeFolders, before, h, k, e, folder.path, s');
        ExtendsTransitive(s, before, s');
        seenFolders' := seenFolders' + {e.id};
        queue' := queue' + [Pending(e.id, folder.path + [e.name])];
        out' := if includeFolders then out' + [Emitted(e, folder.path)] else out';
      } else if !e.isFolder && e.id !in seenFiles' {
        MirrorsFile(s', h, folder, queue', seenFolders', seenFiles', out', e);
        ListsNewFile(tree, root, includeFolders, s', h, k, e, folder.path);
        ExtendsTransitive(s, s', WithEmitted(s', folder.path, e));
        s' := WithEmitted(s', folder.path, e);
        seenFiles' := seenFiles' + {e.id};
        out' := out' + [Emitted(e, folder.path)];
      } else {
        ListsAgain(tree, root, includeFolders, s', h, k, e);
      }
      k := k + 1;
    }
  }

  lemma CoversOneMore(tree: Tree, s: Account, h: nat)
    requires h < |s.found| && CoveredBefore(tree, s, h) && Covered(tree, s, h, |Children(tree, s.found[h].id)|)
    ensures CoveredBefore(tree, s, h + 1)
  {
  }

  // ----- the whole walk

  /** What the documentation promises of a walk that ended. */
  ghost predicate WalksAll(tree: Tree, root: Root, out: seq<Emitted>, includeFolders: bool) {
    && Listed(tree, root, out)
    && EveryFileOnce(tree, root, out)
    && LeastDepth(tree, root, out)
    && EveryFolderOnce(tree, root, out, includeFolders)
  }

  ghost predicate Emits(out: seq<Emitted>, id: string, isFolder: bool) {
    exists i :: 0 <= i < |out| && out[i].entry.id == id && out[i].entry.isFolder == isFolder
  }

  ghost predicate NoneTwice(out: seq<Emitted>, isFolder: bool) {
    forall i, j :: 0 <= i < j < |out| && out[i].entry.isFolder == isFolder && out[j].entry.isFolder == isFolder ==>
      out[i].entry.id != out[j].entry.id
  }

  ghost predicate EveryFileOnce(tree: Tree, root: Root, out: seq<Emitted>) {
    && NoneTwice(out, false)
    && forall e, path :: ListedAt(tree, root, e, path) && !e.isFolder ==> Emits(out, e.id, false)
  }

  ghost predicate EveryFolderOnce(tree: Tree, root: Root, out: seq<Emitted>, includeFolders: bool) {
    && NoneTwice(out, true)
    && !Emits(out, root.id, true)
    && (includeFolders ==> forall f :: Reachable(tree, root, f) && f != root.id ==> Emits(out, f, true))
    && (!includeFolders ==> forall f :: !Emits(out, f, true))
  }

  /** No listing below the root shows the file at a shorter path than the one emitted. */
  ghost predicate LeastDepth(tree: Tree, root: Root, out: seq<Emitted>) {
    forall e, path, i ::
      ListedAt(tree, root, e, path) && !e.isFolder && 0 <= i < |out| && !out[i].entry.isFolder && out[i].entry.id == e.id ==>
        |out[i].path| <= |path|
  }

  /** Nothing waits any more: every chain of folders ends at a folder that was found, at a path
      no longer than the chain. */
  lemma {:induction false} ChainsWereFound(tree: Tree, root: Root, s: Account, f: string, path: FolderPath)
    requires Indexed(s.found, s.at) && s.found != [] && s.found[0] == Pending(root.id, [root.path])
    requires CoveredBefore(tree, s, |s.found|)
    requires PathTo(tree, root, f, path)
    ensures f in s.at && |s.found[s.at[f]].path| <= |path|
    decreases |path|
  {
    if |path| > 1 {
      var shorter := path[..|path| - 1];
      var p :| PathTo(tree, root, p, shorter) && Entry(f, true, path[|path| - 1]) in Children(tree, p);
      ChainsWereFound(tree, root, s, p, shorter);
      var i := s.at[p];
      var j :| 0 <= j < |Children(tree, p)| && Children(tree, p)[j] == Entry(f, true, path[|path| - 1]);
      assert Covered(tree, s, i, |Children(tree, p)|);
      assert CoveredAt(tree, s, i, j);
    }
  }

  lemma FilesWereFound(tree: Tree, root: Root, s: Account, e: Entry, path: FolderPath)
    requires Indexed(s.found, s.at) && s.found != [] && s.found[0] == Pending(root.id, [root.path])
    requires CoveredBefore(tree, s, |s.found|)
    requires ListedAt(tree, root, e, path) && !e.isFolder
    ensures e.id in s.files && s.files[e.id] < |s.out| && |s.out[s.files[e.id]].path| <= |path|
  {
    var p :| PathTo(tree, root, p, path) && e in Children(tree, p);
    ChainsWereFound(tree, root, s, p, path);
    var j :| 0 <= j < |Children(tree, p)| && Children(tree, p)[j] == e;
    assert Covered(tree, s, s.at[p], |Children(tree, p)|);
    assert CoveredAt(tree, s, s.at[p], j);
  }

  lemma FoundIsReachable(tree: Tree, root: Root, s: Account)
    requires Indexed(s.found, s.at) && s.found != [] && s.found[0] == Pending(root.id, [root.path])
    requires Chains(tree, root, s.found) && CoveredBefore(tree, s, |s.found|)
    ensures forall f :: Reachable(tree, root, f) <==> f in s.at
  {
    forall f ensures Reachable(tree, root, f) <==> f in s.at {
      if f in s.at {
        assert PathTo(tree, root, f, s.found[s.at[f]].path);
      } else if Reachable(tree, root, f) {
        var path :| PathTo(tree, root, f, path);
        ChainsWereFound(tree, root, s, f, path);
      }
    }
  }

  lemma OnceMeans(out: seq<Emitted>, isFolder: bool, kind: map<string, nat>)
    requires OnceEach(out, isFolder, kind)
    ensures NoneTwice(out, isFolder)
    ensures forall id :: Emits(out, id, isFolder) <==> id in kind
  {
    forall id | id in kind ensures Emits(out, id, isFolder) {
      assert out[kind[id]].entry.id == id;
    }
  }

  lemma FinishedWalksAll(tree: Tree, root: Root, includeFolders: bool, s: Account, level: nat)
    requires Walking(tree, root, includeFolders, s, level) && CoveredBefore(tree, s, |s.found|)
    ensures WalksAll(tree, root, s.out, includeFolders)
  {
    OnceMeans(s.out, false, s.files);
    OnceMeans(s.out, true, s.folders);
    FoundIsReachable(tree, root, s);
    forall e, path | ListedAt(tree, root, e, path) && !e.isFolder
      ensures e.id in s.files && s.files[e.id] < |s.out| && |s.out[s.files[e.id]].path| <= |path|
    {
      FilesWereFound(tree, root, s, e, path);
    }
  }

  /** The ids a folder can have: the root's and those some listing shows. */
  ghost function Universe(tree: Tree, root: Root): set<string> {
    {root.id} + set f, e | f in tree && e in tree[f].entries :: e.id
  }

  lemma FoundInUniverse(tree: Tree, root: Root, s: Account)
    requires Indexed(s.found, s.at) && Chains(tree, root, s.found)
    ensures s.at.Keys <= Universe(tree, root)
  {
    forall f | f in s.at ensures f in Universe(tree, root) {
      var path := s.found[s.at[f]].path;
      assert PathTo(tree, root, f, path);
      if |path| > 1 {
        var p :| PathTo(tree, root, p, path[..|path| - 1]) && Entry(f, true, path[|path| - 1]) in Children(tree, p);
        assert Entry(f, true, path[|path| - 1]).id == f;
      }
    }
  }

  /** Between two rounds: h folders are listed and the others wait. */
  ghost predicate BetweenRounds(tree: Tree, root: Root, includeFolders: bool, s: Account, level: nat, h: nat) {
    && h <= |s.found|
    && Walking(tree, root, includeFolders, s, level) && CoveredBefore(tree, s, h)
    && (h < |s.found| ==> level <= |s.found[h].path|)
  }

  lemma NextRound(tree: Tree, root: Root, includeFolders: bool, s: Account, level: nat, h: nat)
    requires BetweenRounds(tree, root, includeFolders, s, level, h) && h < |s.found|
    ensures ListingFolder(tree, root, includeFolders, s, h, 0)
  {
  }

  lemma EndsRound(tree: Tree, root: Root, includeFolders: bool, s: Account, h: nat)
    requires h < |s.found| && ListingFolder(tree, root, includeFolders, s, h, |Children(tree, s.found[h].id)|)
    ensures BetweenRounds(tree, root, includeFolders, s, |s.found[h].path|, h + 1)
  {
    CoversOneMore(tree, s, h);
  }

  lemma StartsWalking(tree: Tree, root: Root, includeFolders: bool)
    ensures Walking(tree, root, includeFolders, Account([Pending(root.id, [root.path])], map[root.id := 0], [], map[], map[]), 1)
  {
    assert PathTo(tree, root, root.id, [root.path]);
  }

  /** The measure of the loop: a round either finds a folder or shortens the queue. */
  lemma RoundDecreases(tree: Tree, root: Root, s: Account, s': Account, h: nat)
    requires Extends(s, s') && Indexed(s.found, s.at) && Indexed(s'.found, s'.at) && Chains(tree, root, s'.found) && h < |s.found|
    ensures s.at.Keys <= s'.at.Keys <= Universe(tree, root)
    ensures s.at.Keys == s'.at.Keys ==> |s'.found| == |s.found|
  {
    FoundInUniverse(tree, root, s');
    if |s'.found| > |s.found| {
      var f := s'.found[|s.found|].id;
      assert f in s'.at.Keys && f !in s.at.Keys;
    }
  }

  ghost predicate FailedSoFar(tree: Tree, s: Account, h: nat, failed: set<string>) {
    forall f :: f in failed <==> f in s.at && s.at[f] < h && Fails(tree, f)
  }

  lemma FailuresKept(tree: Tree, s: Account, s': Account, h: nat, failed: set<string>, folder: Pending)
    requires FailedSoFar(tree, s, h, failed) && Extends(s, s') && h < |s.found| && folder == s.found[h]
    requires Indexed(s.found, s.at) && Indexed(s'.found, s'.at)
    ensures folder.id !in failed
    ensures FailedSoFar(tree, s', h + 1, if Fails(tree, folder.id) then failed + {folder.id} else failed)
  {
    forall f | f in s'.at && s'.at[f] <= h ensures f in s.at && s.at[f] == s'.at[f] {
      assert s.found[s'.at[f]] == s'.found[s'.at[f]];
    }
  }

  ghost predicate SomeListingFails(tree: Tree, root: Root) {
    exists f :: Reachable(tree, root, f) && Fails(tree, f)
  }

  ghost predicate FailingFolders(tree: Tree, root: Root, failed: set<string>) {
    forall f :: f in failed <==> Reachable(tree, root, f) && Fails(tree, f)
  }

  /** Either fewer folders remain to be found, or none was found. */
  ghost predicate Progresses(tree: Tree, root: Root, s: Account, s': Account) {
    || Universe(tree, root) - s'.at.Keys < Universe(tree, root) - s.at.Keys
    || (Universe(tree, root) - s'.at.Keys == Universe(tree, root) - s.at.Keys && |s'.found| == |s.found|)
  }

  lemma RoundProgresses(tree: Tree, root: Root, s: Account, s': Account, h: nat)
    requires Extends(s, s') && Indexed(s.found, s.at) && Indexed(s'.found, s'.at) && Chains(tree, root, s'.found) && h < |s.found|
    ensures Progresses(tree, root, s, s')
  {
    RoundDecreases(tree, root, s, s', h);
  }

  lemma RoundEnds(tree: Tree, root: Root, includeFolders: bool, s: Account, s': Account, h: nat, folder: Pending, level: nat)
    requires BetweenRounds(tree, root, includeFolders, s, level, h) && h < |s.found| && folder == s.found[h] && Extends(s, s')
    requires ListingFolder(tree, root, includeFolders, s', h, |Children(tree, folder.id)|)
    ensures s'.found[h] == folder && BetweenRounds(tree, root, includeFolders, s', |folder.path|, h + 1)
    ensures Fails(tree, folder.id) ==> SomeListingFails(tree, root)
  {
    EndsRound(tree, root, includeFolders, s', h);
    assert PathTo(tree, root, folder.id, folder.path);
  }

  lemma WalkEnds(tree: Tree, root: Root, includeFolders: bool, s: Account, level: nat, h: nat, failed: set<string>)
    requires BetweenRounds(tree, root, includeFolders, s, level, h) && h == |s.found|
    requires FailedSoFar(tree, s, h, failed)
    ensures WalksAll(tree, root, s.out, includeFolders)
    ensures FailingFolders(tree, root, failed)
    ensures SomeListingFails(tree, root) ==> failed != {}
  {
    FoundIsReachable(tree, root, s);
    FinishedWalksAll(tree, root, includeFolders, s, level);
  }

  /** The program's variables between two rounds. */
  ghost predicate Waiting(tree: Tree, root: Root, includeFolders: bool, s: Account, level: nat, h: nat, failed: set<string>,
                          queue: seq<Pending>, seenFolders: set<string>, seenFiles: set<string>, out: seq<Emitted>, errors: nat)
  {
    && BetweenRounds(tree, root, includeFolders, s, level, h)
    && FailedSoFar(tree, s, h, failed) && errors == |failed|
    && queue == s.found[h..] && out == s.out
    && seenFolders == s.at.Keys && seenFiles == s.files.Keys
  }

  lemma RoundWaits(tree: Tree, root: Root, includeFolders: bool, s: Account, s': Account, level: nat, h: nat, failed: set<string>, folder: Pending,
                   queue': seq<Pending>, seenFolders': set<string>, seenFiles': set<string>, out': seq<Emitted>)
    requires BetweenRounds(tree, root, includeFolders, s, level, h) && h < |s.found| && folder == s.found[h] && Extends(s, s')
    requires ListingFolder(tree, root, includeFolders, s', h, |Children(tree, folder.id)|)
    requires FailedSoFar(tree, s, h, failed) && Mirrors(s', h, folder, queue', seenFolders', seenFiles', out')
    ensures Waiting(tree, root, includeFolders, s', |folder.path|, h + 1, if Fails(tree, folder.id) then failed + {folder.id} else failed,
                    queue', seenFolders', seenFiles', out', |failed| + if Fails(tree, folder.id) then 1 else 0)
    ensures Fails(tree, folder.id) ==> SomeListingFails(tree, root)
    ensures Progresses(tree, root, s, s')
  {
    RoundEnds(tree, root, includeFolders, s, s', h, folder, level);
    RoundProgresses(tree, root, s, s', h);
    FailuresKept(tree, s, s', h, failed, folder);
    FailureCounted(tree, failed, folder.id);
  }

  lemma FailureCounted(tree: Tree, failed: set<string>, f: string)
    requires f !in failed
    ensures |if Fails(tree, f) then failed + {f} else failed| == |failed| + if Fails(tree, f) then 1 else 0
  {
  }

  lemma RoundBegins(tree: Tree, root: Root, includeFolders: bool, s: Account, level: nat, h: nat, failed: set<string>,
                    queue: seq<Pending>, seenFolders: set<string>, seenFiles: set<string>, out: seq<Emitted>, errors: nat)
    requires Waiting(tree, root, includeFolders, s, level, h, failed, queue, seenFolders, seenFiles, out, errors) && queue != []
    ensures h < |s.found| && queue[0] == s.found[h] && BetweenRounds(tree, root, includeFolders, s, level, h)
    ensures FailedSoFar(tree, s, h, failed) && errors == |failed|
    ensures ListingFolder(tree, root, includeFolders, s, h, 0) && Mirrors(s, h, queue[0], queue[1..], seenFolders, seenFiles, out)
  {
    NextRound(tree, root, includeFolders, s, level, h);
  }

  /** One round of the walk: lists the folder at the head of the queue, and notes a failure. */
  method WalkRound(tree: Tree, root: Root, includeFolders: bool, queue: seq<Pending>, seenFolders: set<string>, seenFiles: set<string>,
                   out: seq<Emitted>, errors: nat, ghost s: Account, ghost level: nat, ghost h: nat, ghost failed: set<string>)
    returns (queue': seq<Pending>, seenFolders': set<string>, seenFiles': set<string>, out': seq<Emitted>, errors': nat,
             ghost s': Account, ghost failed': set<string>)
    requires Waiting(tree, root, includeFolders, s, level, h, failed, queue, seenFolders, seenFiles, out, errors) && queue != []
    ensures Waiting(tree, root, includeFolders, s', |queue[0].path|, h + 1, failed', queue', seenFolders', seenFiles', out', errors')
    ensures Fails(tree, queue[0].id) ==> SomeListingFails(tree, root)
    ensures !Fails(tree, queue[0].id) ==> failed' == failed
    ensures Progresses(tree, root, s, s')
  {
    var folder := queue[0];
    RoundBegins(tree, root, includeFolders, s, level, h, failed, queue, seenFolders, seenFiles, out, errors);
    queue', seenFolders', seenFiles', out', s' :=
      ListFolder(tree, root, includeFolders, folder, queue[1..], seenFolders, seenFiles, out, s, h);
    RoundWaits(tree, root, includeFolders, s, s', level, h, failed, folder, queue', seenFolders', seenFiles', out');
    errors', failed' := errors, failed;
    if Fails(tree, folder.id) {
      errors' := errors + 1;
      failed' := failed + {folder.id};
    }
  }

  /** Without a failing listing below the root the walk ends and walks all. In the strict form
      it raises exactly when some listing below the root fails; in the tolerant form it still
      walks all that the listings show, and counts each failing folder once. */
  method WalkFiles(tree: Tree, root: Root, tolerant: bool, includeFolders: bool)
    returns (r: Outcome, out: seq<Emitted>, errors: nat, ghost failed: set<string>)
    ensures r.Fail? <==> !tolerant && SomeListingFails(tree, root)
    ensures r.Pass? ==> WalksAll(tree, root, out, includeFolders)
    ensures r.Pass? ==> errors == |failed| && FailingFolders(tree, root, failed)
  {
    var queue := [Pending(root.id, [root.path])];
    var seenFolders := {root.id};
    var seenFiles: set<string> := {};
    out, errors, failed := [], 0, {};
    ghost var s := Account(queue, map[root.id := 0], [], map[], map[]);
    ghost var level: nat, h: nat := 1, 0;
    StartsWalking(tree, root, includeFolders);
    while queue != []
      invariant Waiting(tree, root, includeFolders, s, level, h, failed, queue, seenFolders, seenFiles, out, errors)
      invariant !tolerant ==> failed == {}
      decreases Universe(tree, root) - s.at.Keys, |s.found| - h
    {
      var folder := queue[0];
      ghost var listed := |folder.path|;
      queue, seenFolders, seenFiles, out, errors, s, failed :=
        WalkRound(tree, root, includeFolders, queue, seenFolders, seenFiles, out, errors, s, level, h, failed);
      level, h := listed, h + 1;
      if Fails(tree, folder.id) && !tolerant {
        return Fail("listing"), out, errors, failed;
      }
    }
    WalkEnds(tree, root, includeFolders, s, level, h, failed);
    r := Pass;
  }
}
