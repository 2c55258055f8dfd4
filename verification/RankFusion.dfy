/** Reciprocal rank fusion of the vector and the keyword ranking. */
module RankFusion {
  import opened Evidence
  import opened Text

  datatype Key = Key(document: int, chunk: string)

  function KeyOf(c: RetrievedChunk): Key {
    Key(c.sourceDocumentId, c.chunkId)
  }

  datatype Ranking = Ranking(mode: string, chunks: seq<RetrievedChunk>)

  /** One place in one ranking; ranks count from one. */
  datatype Entry = Entry(mode: string, rank: nat, chunk: RetrievedChunk)

  function EntriesOf(r: Ranking, n: nat): (es: seq<Entry>)
    requires n <= |r.chunks|
    ensures |es| == n && forall i :: 0 <= i < n ==> es[i] == Entry(r.mode, i + 1, r.chunks[i])
  {
    seq(n, i requires 0 <= i < n => Entry(r.mode, i + 1, r.chunks[i]))
  }

  function Entries(rs: seq<Ranking>): seq<Entry> {
    if rs == [] then [] else Entries(rs[..|rs| - 1]) + EntriesOf(rs[|rs| - 1], |rs[|rs| - 1].chunks|)
  }

  // ----- what is known of a key after some entries

  /** The sum of the reciprocal ranks, sixty added to each. */
  function Score(es: seq<Entry>, k: Key): (s: real)
    ensures s >= 0.0
  {
    if es == [] then 0.0
    else Score(es[..|es| - 1], k) + if KeyOf(es[|es| - 1].chunk) == k then 1.0 / (60 + es[|es| - 1].rank) as real else 0.0
  }

  /** `tuple(sorted(modes))` for the two modes there are. */
  function SortedModes(modes: set<string>): seq<string> {
    (if "keyword" in modes then ["keyword"] else []) + if "vector" in modes then ["vector"] else []
  }

  // ----- the order of the result

  function ScoreIn(scores: map<Key, real>, k: Key): real {
    if k in scores then scores[k] else 0.0
  }

  /** Higher scores first, then lower document ids, then lower chunk ids. */
  predicate Before(scores: map<Key, real>, a: Key, b: Key) {
    || ScoreIn(scores, a) > ScoreIn(scores, b)
    || (ScoreIn(scores, a) == ScoreIn(scores, b) && (a.document < b.document || (a.document == b.document && LexBefore(a.chunk, b.chunk))))
  }

  lemma BeforeChain(scores: map<Key, real>, a: Key, b: Key, c: Key)
    requires Before(scores, a, b) && Before(scores, b, c)
    ensures Before(scores, a, c)
  {
    if a.document == b.document == c.document && LexBefore(a.chunk, b.chunk) && LexBefore(b.chunk, c.chunk) {
      LexChain(a.chunk, b.chunk, c.chunk);
    }
  }

  lemma BeforeOne(scores: map<Key, real>, a: Key, b: Key)
    ensures a == b || Before(scores, a, b) || Before(scores, b, a)
  {
    LexOne(a.chunk, b.chunk);
  }

  function InsertKey(scores: map<Key, real>, ks: seq<Key>, k: Key): seq<Key> {
    if ks == [] || Before(scores, ks[|ks| - 1], k) then ks + [k] else InsertKey(scores, ks[..|ks| - 1], k) + [ks[|ks| - 1]]
  }

  /** `sorted(scores, key=...)` */
  function SortKeys(scores: map<Key, real>, ks: seq<Key>): seq<Key> {
    if ks == [] then [] else InsertKey(scores, SortKeys(scores, ks[..|ks| - 1]), ks[|ks| - 1])
  }

  ghost predicate InOrder(scores: map<Key, real>, ks: seq<Key>) {
    forall i, j :: 0 <= i < j < |ks| ==> Before(scores, ks[i], ks[j])
  }

  lemma {:induction false} InsertKeyElements(scores: map<Key, real>, ks: seq<Key>, k: Key)
    ensures |InsertKey(scores, ks, k)| == |ks| + 1
    ensures forall x :: x in InsertKey(scores, ks, k) <==> x in ks || x == k
  {
    if ks != [] {
      InsertKeyElements(scores, ks[..|ks| - 1], k);
      assert ks == ks[..|ks| - 1] + [ks[|ks| - 1]];
    }
  }

  lemma AppendInOrder(scores: map<Key, real>, ks: seq<Key>, k: Key)
    requires InOrder(scores, ks) && forall x :: x in ks ==> Before(scores, x, k)
    ensures InOrder(scores, ks + [k])
  {
  }

  lemma {:induction false} InsertKeyInOrder(scores: map<Key, real>, ks: seq<Key>, k: Key)
    requires InOrder(scores, ks) && k !in ks
    ensures InOrder(scores, InsertKey(scores, ks, k))
  {
    if ks == [] {
    } else if Before(scores, ks[|ks| - 1], k) {
      forall x | x in ks ensures Before(scores, x, k) {
        if x != ks[|ks| - 1] { BeforeChain(scores, x, ks[|ks| - 1], k); }
      }
      AppendInOrder(scores, ks, k);
    } else {
      var init, last := ks[..|ks| - 1], ks[|ks| - 1];
      BeforeOne(scores, last, k);
      InsertKeyInOrder(scores, init, k);
      InsertKeyElements(scores, init, k);
      forall x | x in InsertKey(scores, init, k) ensures Before(scores, x, last) {
        if x != k {
          var i :| 0 <= i < |init| && init[i] == x;
          assert Before(scores, ks[i], ks[|ks| - 1]);
        }
      }
      AppendInOrder(scores, InsertKey(scores, init, k), last);
    }
  }

  predicate AllDifferent(ks: seq<Key>) {
    forall i, j :: 0 <= i < j < |ks| ==> ks[i] != ks[j]
  }

  lemma {:induction false} SortKeysInOrder(scores: map<Key, real>, ks: seq<Key>)
    requires AllDifferent(ks)
    ensures InOrder(scores, SortKeys(scores, ks)) && |SortKeys(scores, ks)| == |ks|
    ensures forall x :: x in SortKeys(scores, ks) <==> x in ks
  {
    if ks != [] {
      var init, last := ks[..|ks| - 1], ks[|ks| - 1];
      assert ks == init + [last];
      SortKeysInOrder(scores, init);
      InsertKeyElements(scores, SortKeys(scores, init), last);
      InsertKeyInOrder(scores, SortKeys(scores, init), last);
    }
  }

  function TopKeys(scores: map<Key, real>, ks: seq<Key>, limit: nat): seq<Key> {
    var sorted := SortKeys(scores, ks);
    if |sorted| <= limit then sorted else sorted[..limit]
  }

  /** The best keys in order: none left out comes before one that is in. */
  lemma TopKeysAreBest(scores: map<Key, real>, ks: seq<Key>, limit: nat)
    requires AllDifferent(ks)
    ensures var top := TopKeys(scores, ks, limit);
            && |top| == (if |ks| <= limit then |ks| else limit) && InOrder(scores, top)
            && (forall k :: k in top ==> k in ks)
            && forall i, k :: 0 <= i < |top| && k in ks && k !in top ==> Before(scores, top[i], k)
  {
    SortKeysInOrder(scores, ks);
    var sorted, top := SortKeys(scores, ks), TopKeys(scores, ks, limit);
    forall k | k in top ensures k in ks { assert k in sorted; }
    forall i, k | 0 <= i < |top| && k in ks && k !in top ensures Before(scores, top[i], k) {
      assert k in sorted;
      assert forall n :: 0 <= n < |top| ==> top[n] == sorted[n] && top[n] in top;
      var j :| 0 <= j < |sorted| && sorted[j] == k;
    }
  }

  // ----- the dictionaries of the loop

  /** `keys` is the order in which keys were first set. */
  datatype Tables = Tables(keys: seq<Key>, scores: map<Key, real>, chunks: map<Key, RetrievedChunk>, modes: map<Key, set<string>>) {
    function Add(e: Entry): Tables {
      var k := KeyOf(e.chunk);
      Tables(if k in scores then keys else keys + [k],
             scores[k := ScoreIn(scores, k) + 1.0 / (60 + e.rank) as real],
             if k in chunks then chunks else chunks[k := e.chunk],
             modes[k := (if k in modes then modes[k] else {}) + {e.mode}])
    }
  }

  function TablesOf(es: seq<Entry>): Tables {
    if es == [] then Tables([], map[], map[], map[]) else TablesOf(es[..|es| - 1]).Add(es[|es| - 1])
  }

  lemma {:induction false} TablesDomain(es: seq<Entry>)
    ensures var t := TablesOf(es);
            && AllDifferent(t.keys) && t.scores.Keys == t.chunks.Keys == t.modes.Keys
            && forall k :: k in t.keys <==> k in t.scores
  {
    if es != [] { TablesDomain(es[..|es| - 1]); }
  }

  /** The key stands somewhere in the entries. */
  ghost predicate Occurs(es: seq<Entry>, k: Key) {
    exists i :: 0 <= i < |es| && KeyOf(es[i].chunk) == k
  }

  /** What the dictionaries hold of a key: the sum of its reciprocal ranks, the chunk of its first
      entry, and the modes it was found by. */
  ghost predicate Tells(t: Tables, es: seq<Entry>, k: Key) {
    && (k in t.scores <==> Occurs(es, k)) && t.scores.Keys == t.chunks.Keys == t.modes.Keys
    && ScoreIn(t.scores, k) == Score(es, k)
    && (k in t.modes ==> forall m :: m in t.modes[k] <==> FoundBy(es, k, m))
    && (k in t.chunks ==> IsFirst(es, k, t.chunks[k]))
  }

  ghost predicate FoundBy(es: seq<Entry>, k: Key, mode: string) {
    exists i :: 0 <= i < |es| && KeyOf(es[i].chunk) == k && es[i].mode == mode
  }

  ghost predicate IsFirst(es: seq<Entry>, k: Key, c: RetrievedChunk) {
    exists i :: 0 <= i < |es| && es[i].chunk == c && KeyOf(c) == k && forall j :: 0 <= j < i ==> KeyOf(es[j].chunk) != k
  }

  lemma OccursMore(es: seq<Entry>, e: Entry, k: Key)
    ensures Occurs(es + [e], k) <==> Occurs(es, k) || KeyOf(e.chunk) == k
    ensures forall m :: FoundBy(es + [e], k, m) <==> FoundBy(es, k, m) || (KeyOf(e.chunk) == k && e.mode == m)
  {
    var more := es + [e];
    assert more[|es|] == e && forall i :: 0 <= i < |es| ==> more[i] == es[i];
  }

  lemma IsFirstMore(es: seq<Entry>, e: Entry, k: Key, c: RetrievedChunk)
    ensures IsFirst(es, k, c) ==> IsFirst(es + [e], k, c)
    ensures !Occurs(es, k) && KeyOf(e.chunk) == k ==> IsFirst(es + [e], k, e.chunk)
  {
    var more := es + [e];
    assert more[|es|] == e && forall i :: 0 <= i < |es| ==> more[i] == es[i];
  }

  lemma TellsMore(t: Tables, es: seq<Entry>, e: Entry, k: Key)
    requires Tells(t, es, k)
    ensures Tells(t.Add(e), es + [e], k)
  {
    OccursMore(es, e, k);
    assert (es + [e])[..|es|] == es && (es + [e])[|es|] == e;
    if k in t.chunks { IsFirstMore(es, e, k, t.chunks[k]); }
    IsFirstMore(es, e, k, e.chunk);
  }

  lemma {:induction false} TablesTell(es: seq<Entry>, k: Key)
    ensures Tells(TablesOf(es), es, k)
  {
    if es != [] {
      TablesTell(es[..|es| - 1], k);
      TellsMore(TablesOf(es[..|es| - 1]), es[..|es| - 1], es[|es| - 1], k);
      assert es == es[..|es| - 1] + [es[|es| - 1]];
    }
  }

  // ----- the fused ranking

  function Fused(t: Tables, k: Key): RetrievedChunk
    requires k in t.chunks && k in t.scores && k in t.modes
  {
    t.chunks[k].(relevance := t.scores[k], modes := SortedModes(t.modes[k]))
  }

  method AddRanking(r: Ranking, t0: Tables, ghost es: seq<Entry>) returns (t: Tables)
    requires t0 == TablesOf(es)
    ensures t == TablesOf(es + EntriesOf(r, |r.chunks|))
  {
    hide TablesOf, Tables.Add;
    t := t0;
    assert es + EntriesOf(r, 0) == es;
    for i := 0 to |r.chunks|
      invariant t == TablesOf(es + EntriesOf(r, i))
    {
      EntryMore(es, r, i);
      t := t.Add(Entry(r.mode, i + 1, r.chunks[i]));
    }
  }

  lemma TablesAppend(es: seq<Entry>, e: Entry)
    ensures TablesOf(es + [e]) == TablesOf(es).Add(e)
  {
    assert (es + [e])[..|es + [e]| - 1] == es;
  }

  lemma EntryMore(es: seq<Entry>, r: Ranking, i: nat)
    requires i < |r.chunks|
    ensures TablesOf(es + EntriesOf(r, i + 1)) == TablesOf(es + EntriesOf(r, i)).Add(Entry(r.mode, i + 1, r.chunks[i]))
  {
    var e := Entry(r.mode, i + 1, r.chunks[i]);
    assert es + EntriesOf(r, i + 1) == es + EntriesOf(r, i) + [e];
    TablesAppend(es + EntriesOf(r, i), e);
  }

  method Tabulate(rs: seq<Ranking>) returns (t: Tables)
    ensures t == TablesOf(Entries(rs))
  {
    t := Tables([], map[], map[], map[]);
    for i := 0 to |rs|
      invariant t == TablesOf(Entries(rs[..i]))
    {
      assert rs[..i + 1][..i] == rs[..i] && rs[..i + 1][i] == rs[i];
      t := AddRanking(rs[i], t, Entries(rs[..i]));
    }
    assert rs[..|rs|] == rs;
  }

  predicate AllSet(t: Tables, ks: seq<Key>) {
    forall i :: 0 <= i < |ks| ==> ks[i] in t.chunks && ks[i] in t.scores && ks[i] in t.modes
  }

  function FusedAll(t: Tables, ks: seq<Key>): (r: seq<RetrievedChunk>)
    requires AllSet(t, ks)
    ensures |r| == |ks| && forall i :: 0 <= i < |ks| ==> r[i] == Fused(t, ks[i])
  {
    seq(|ks|, i requires 0 <= i < |ks| => Fused(t, ks[i]))
  }

  /** The best keys of the dictionaries. */
  function Best(t: Tables, limit: nat): seq<Key> {
    TopKeys(t.scores, t.keys, limit)
  }

  lemma BestIsSet(es: seq<Entry>, limit: nat)
    ensures AllSet(TablesOf(es), Best(TablesOf(es), limit)) && |Best(TablesOf(es), limit)| <= limit
  {
    TablesDomain(es);
    TopKeysAreBest(TablesOf(es).scores, TablesOf(es).keys, limit);
  }

  function Fuse(rs: seq<Ranking>, limit: nat): (r: seq<RetrievedChunk>)
    ensures |r| <= limit
  {
    BestIsSet(Entries(rs), limit);
    FusedAll(TablesOf(Entries(rs)), Best(TablesOf(Entries(rs)), limit))
  }

  lemma FusedOccur(es: seq<Entry>)
    ensures var t := TablesOf(es); forall k :: k in t.scores && k in t.chunks && k in t.modes ==> Occurs(es, k) && KeyOf(Fused(t, k)) == k
  {
    var t := TablesOf(es);
    forall k | k in t.scores && k in t.chunks && k in t.modes ensures Occurs(es, k) && KeyOf(Fused(t, k)) == k {
      TablesTell(es, k);
      assert IsFirst(es, k, t.chunks[k]);
    }
  }

  /** `fuse_chunk_rankings` */
  method FuseChunkRankings(rs: seq<Ranking>, limit: nat) returns (fused: seq<RetrievedChunk>)
    ensures fused == Fuse(rs, limit)
  {
    hide TablesOf, Entries, Best, Fused;
    var t := Tabulate(rs);
    BestIsSet(Entries(rs), limit);
    var top := Best(t, limit);
    fused := [];
    for i := 0 to |top|
      invariant AllSet(t, top) && fused == FusedAll(t, top)[..i]
    {
      fused := fused + [Fused(t, top[i])];
    }
  }

  /** Each fused chunk is the first one with its key, its relevance is the sum of the reciprocal ranks,
      its modes those it was found by. */
  lemma FusedIsSum(rs: seq<Ranking>, limit: nat, i: nat)
    requires i < |Fuse(rs, limit)|
    ensures var es, c := Entries(rs), Fuse(rs, limit)[i];
            && c.relevance == Score(es, KeyOf(c))
            && (exists first :: IsFirst(es, KeyOf(c), first) && c.text == first.text)
            && (forall m :: m in {"keyword", "vector"} ==> (m in c.modes <==> FoundBy(es, KeyOf(c), m)))
  {
    var es := Entries(rs);
    var t := TablesOf(es);
    BestIsSet(es, limit);
    var k := Best(t, limit)[i];
    TablesTell(es, k);
    FusedOccur(es);
    assert IsFirst(es, k, t.chunks[k]);
  }

  /** The fused chunks come best first, and no key left out comes before one that is in. */
  lemma FusedAreBest(rs: seq<Ranking>, limit: nat, i: nat, k: Key)
    requires i < |Fuse(rs, limit)| && Occurs(Entries(rs), k)
    requires forall j :: 0 <= j <= i ==> KeyOf(Fuse(rs, limit)[j]) != k
    ensures var best := KeyOf(Fuse(rs, limit)[i]);
            || Score(Entries(rs), best) > Score(Entries(rs), k)
            || (Score(Entries(rs), best) == Score(Entries(rs), k)
                && (best.document < k.document || (best.document == k.document && LexBefore(best.chunk, k.chunk))))
  {
    var es := Entries(rs);
    TablesDomain(es);
    var t := TablesOf(es);
    TopKeysAreBest(t.scores, t.keys, limit);
    FusedOccur(es);
    var top := Best(t, limit);
    TablesTell(es, k);
    TablesTell(es, top[i]);
    assert KeyOf(Fuse(rs, limit)[i]) == top[i];
    if k in top {
      var j :| 0 <= j < |top| && top[j] == k;
      assert KeyOf(Fuse(rs, limit)[j]) == k;
    }
    assert Before(t.scores, top[i], k);
  }
}
