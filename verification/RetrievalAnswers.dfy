/** What one retrieval hands on, said of the graph and the question alone: the chunks that the picked
    places hold, ranked by their places in the two rankings, and the facts that the picked edges state. */
module RetrievalAnswers {
  import opened Evidence
  import opened Outcomes
  import opened RankFusion
  import opened Retrieval
  import opened RetrievalPicks
  import opened Retriever
  import opened Text

  // ----- what makes a row usable

  const ORIGIN_FIELDS := {SourceDocumentId, ConnectionId, DriveFileId, PermissionsVersion}

  /** All carry the same provenance. */
  predicate OneOrigin(items: seq<Props>) {
    forall i :: 0 <= i < |items| ==> Sourced(items[i]) && forall f :: f in ORIGIN_FIELDS ==> f in items[i] && f in items[0] && items[i][f] == items[0][f]
  }

  predicate HasText(p: Props, f: Field) {
    f in p && p[f].Str? && p[f].s != ""
  }

  predicate UsableMatch(m: Match, allowed: set<int>) {
    && OneOrigin([m.chunk, m.belongs, m.document]) && HasText(m.chunk, ChunkIdField) && HasText(m.chunk, TextField)
    && exists d :: d in allowed && Get(m.chunk, SourceDocumentId) == Int(d)
  }

  predicate UsableFactMatch(f: FactMatch, allowed: set<int>) {
    && OneOrigin([f.source, f.fact, f.target, f.at.chunk, f.at.belongs, f.at.document])
    && HasText(f.source, NameField) && HasText(f.target, NameField) && f.kind != ""
    && HasText(f.at.chunk, ChunkIdField) && HasText(f.at.chunk, TextField)
    && exists d :: d in allowed && Get(f.source, SourceDocumentId) == Int(d)
  }

  lemma ProvenanceEqual(p: Props, q: Props)
    ensures (forall j :: 0 <= j < |PROVENANCE_FIELDS| ==> Get(p, PROVENANCE_FIELDS[j]) == Get(q, PROVENANCE_FIELDS[j]))
       <==> forall f :: f in ORIGIN_FIELDS ==> Get(p, f) == Get(q, f)
  {
    assert PROVENANCE_FIELDS[0] == SourceDocumentId && PROVENANCE_FIELDS[1] == ConnectionId
        && PROVENANCE_FIELDS[2] == DriveFileId && PROVENANCE_FIELDS[3] == PermissionsVersion;
  }

  lemma ConsistentIsOneOrigin(items: seq<Props>, allowed: set<int>)
    requires items != []
    ensures Consistent(items, allowed) <==> OneOrigin(items) && exists d :: d in allowed && Get(items[0], SourceDocumentId) == Int(d)
  {
    forall i | 0 <= i < |items|
      ensures HasProvenance(items[i]) <==> Sourced(items[i])
      ensures (forall j :: 0 <= j < |PROVENANCE_FIELDS| ==> Get(items[i], PROVENANCE_FIELDS[j]) == Get(items[0], PROVENANCE_FIELDS[j]))
         <==> forall f :: f in ORIGIN_FIELDS ==> Get(items[i], f) == Get(items[0], f)
    {
      ProvenanceIsSourced(items[i]);
      ProvenanceEqual(items[i], items[0]);
    }
  }

  lemma UsableMatchIs(m: Match, allowed: set<int>)
    ensures ChunkUsable(m, allowed) <==> UsableMatch(m, allowed)
  {
    hide Consistent, OneOrigin;
    ConsistentIsOneOrigin([m.chunk, m.belongs, m.document], allowed);
    assert [m.chunk, m.belongs, m.document][0] == m.chunk;
  }

  lemma UsableFactIs(f: FactMatch, allowed: set<int>)
    ensures FactUsable(f, allowed) <==> UsableFactMatch(f, allowed)
  {
    hide Consistent, OneOrigin;
    ConsistentIsOneOrigin([f.source, f.fact, f.target, f.at.chunk, f.at.belongs, f.at.document], allowed);
    assert [f.source, f.fact, f.target, f.at.chunk, f.at.belongs, f.at.document][0] == f.source;
  }

  // ----- what a chunk and a fact say

  /** The chunk that a usable row stands for: its document, its id and its text. */
  function ChunkSaid(row: Row<Match>, allowed: set<int>, mode: string): Option<RetrievedChunk> {
    var p := row.item.chunk;
    if UsableMatch(row.item, allowed)
    then Some(RetrievedChunk(p[SourceDocumentId].i, p[ChunkIdField].s, p[TextField].s, row.rank.relevance, [mode])) else None
  }

  /** The fact that a usable row stands for: from its source's name by its kind to its target's name,
      with the chunk it was read from. */
  function FactSaid(row: Row<FactMatch>, allowed: set<int>): Option<RetrievedFact> {
    var m, p := row.item, row.item.at.chunk;
    if UsableFactMatch(m, allowed)
    then Some(RetrievedFact(m.source[SourceDocumentId].i, p[ChunkIdField].s, m.source[NameField].s, m.kind, m.target[NameField].s,
                            p[TextField].s, row.rank.relevance))
    else None
  }

  /** The list holds of each key the first that is said with it, in the order of the rows. */
  ghost predicate Firsts<C(!new), K>(said: seq<Option<C>>, key: C -> K, firsts: seq<C>, at: seq<nat>) {
    && |at| == |firsts| && (forall i, j :: 0 <= i < j < |at| ==> at[i] < at[j])
    && (forall i :: 0 <= i < |at| ==> at[i] < |said| && said[at[i]] == Some(firsts[i]))
    && (forall i, j :: 0 <= i < j < |firsts| ==> key(firsts[i]) != key(firsts[j]))
    && (forall k :: 0 <= k < |said| && said[k].Some? ==> MetBy(key, firsts, at, k, said[k].value))
  }

  ghost predicate MetBy<C, K>(key: C -> K, firsts: seq<C>, at: seq<nat>, k: nat, c: C) {
    exists i :: 0 <= i < |firsts| && i < |at| && at[i] <= k && key(firsts[i]) == key(c)
  }

  lemma FirstsPass<C(!new), K>(said: seq<Option<C>>, key: C -> K, firsts: seq<C>, at: seq<nat>, last: Option<C>)
    requires Firsts(said, key, firsts, at)
    requires last.Some? ==> exists i :: 0 <= i < |firsts| && key(firsts[i]) == key(last.value)
    ensures Firsts(said + [last], key, firsts, at)
  {
    var more := said + [last];
    forall k | 0 <= k < |more| && more[k].Some? ensures MetBy(key, firsts, at, k, more[k].value) {
      if k < |said| { assert MetBy(key, firsts, at, k, said[k].value); }
    }
  }

  lemma FirstsAdd<C(!new), K>(said: seq<Option<C>>, key: C -> K, firsts: seq<C>, at: seq<nat>, c: C)
    requires Firsts(said, key, firsts, at) && forall i :: 0 <= i < |firsts| ==> key(firsts[i]) != key(c)
    ensures Firsts(said + [Some(c)], key, firsts + [c], at + [|said|])
  {
    var more := said + [Some(c)];
    forall k | 0 <= k < |more| && more[k].Some? ensures MetBy(key, firsts + [c], at + [|said|], k, more[k].value) {
      if k < |said| {
        assert MetBy(key, firsts, at, k, said[k].value);
        var i :| 0 <= i < |firsts| && at[i] <= k && key(firsts[i]) == key(said[k].value);
        assert (firsts + [c])[i] == firsts[i] && (at + [|said|])[i] == at[i];
      } else {
        assert (firsts + [c])[|firsts|] == c && (at + [|said|])[|firsts|] == |said|;
      }
    }
  }

  function ChunksSaid(rows: seq<Row<Match>>, allowed: set<int>, mode: string): (r: seq<Option<RetrievedChunk>>)
    ensures |r| == |rows| && forall k :: 0 <= k < |rows| ==> r[k] == ChunkSaid(rows[k], allowed, mode)
  {
    seq(|rows|, k requires 0 <= k < |rows| => ChunkSaid(rows[k], allowed, mode))
  }

  function FactsSaid(rows: seq<Row<FactMatch>>, allowed: set<int>): (r: seq<Option<RetrievedFact>>)
    ensures |r| == |rows| && forall k :: 0 <= k < |rows| ==> r[k] == FactSaid(rows[k], allowed)
  {
    seq(|rows|, k requires 0 <= k < |rows| => FactSaid(rows[k], allowed))
  }

  lemma ChunkOfIsSaid(row: Row<Match>, allowed: set<int>, mode: string)
    ensures ChunkSaid(row, allowed, mode) == if ChunkUsable(row.item, allowed) then Some(ChunkOf(row, allowed, mode)) else None
  {
    hide Consistent, OneOrigin;
    UsableMatchIs(row.item, allowed);
  }

  lemma FactOfIsSaid(row: Row<FactMatch>, allowed: set<int>)
    ensures FactSaid(row, allowed) == if FactUsable(row.item, allowed) then Some(FactOf(row, allowed)) else None
  {
    hide Consistent, OneOrigin;
    UsableFactIs(row.item, allowed);
  }

  lemma {:induction false} ChunksAreFirsts(rows: seq<Row<Match>>, allowed: set<int>, mode: string) returns (at: seq<nat>)
    ensures Firsts(ChunksSaid(rows, allowed, mode), KeyOf, ChunksFrom(rows, allowed, mode), at)
  {
    hide ChunkUsable, ChunkOf, ChunkSaid, Firsts;
    if rows == [] {
      at := [];
      assert Firsts(ChunksSaid(rows, allowed, mode), KeyOf, [], []) by { FirstsOfNone<RetrievedChunk, Key>(KeyOf); }
    } else {
      var init, last := rows[..|rows| - 1], rows[|rows| - 1];
      at := ChunksAreFirsts(init, allowed, mode);
      var said, firsts := ChunksSaid(init, allowed, mode), ChunksFrom(init, allowed, mode);
      ChunkOfIsSaid(last, allowed, mode);
      assert ChunksSaid(rows, allowed, mode) == said + [ChunkSaid(last, allowed, mode)];
      if ChunkUsable(last.item, allowed) && KeyOf(ChunkOf(last, allowed, mode)) !in KeysOf(firsts) {
        FirstsAdd(said, KeyOf, firsts, at, ChunkOf(last, allowed, mode));
        at := at + [|said|];
      } else {
        FirstsPass(said, KeyOf, firsts, at, ChunkSaid(last, allowed, mode));
      }
    }
  }

  lemma FirstsOfNone<C(!new), K>(key: C -> K)
    ensures Firsts([], key, [], [])
  {
  }

  lemma {:induction false} FactsAreFirsts(rows: seq<Row<FactMatch>>, allowed: set<int>) returns (at: seq<nat>)
    ensures Firsts(FactsSaid(rows, allowed), KeyOfFact, FactsFrom(rows, allowed), at)
  {
    hide FactUsable, FactOf, FactSaid, Firsts;
    if rows == [] {
      at := [];
      assert Firsts(FactsSaid(rows, allowed), KeyOfFact, [], []) by { FirstsOfNone<RetrievedFact, FactKey>(KeyOfFact); }
    } else {
      var init, last := rows[..|rows| - 1], rows[|rows| - 1];
      at := FactsAreFirsts(init, allowed);
      var said, firsts := FactsSaid(init, allowed), FactsFrom(init, allowed);
      FactOfIsSaid(last, allowed);
      assert FactsSaid(rows, allowed) == said + [FactSaid(last, allowed)];
      if FactUsable(last.item, allowed) && KeyOfFact(FactOf(last, allowed)) !in FactKeysOf(firsts) {
        FirstsAdd(said, KeyOfFact, firsts, at, FactOf(last, allowed));
        at := at + [|said|];
      } else {
        FirstsPass(said, KeyOfFact, firsts, at, FactSaid(last, allowed));
      }
    }
  }

  // ----- the fused ranking

  function IdOf(c: RetrievedChunk): (int, string) {
    (c.sourceDocumentId, c.chunkId)
  }

  ghost function IdsOf(cs: seq<RetrievedChunk>): set<(int, string)> {
    set i | 0 <= i < |cs| :: IdOf(cs[i])
  }

  ghost predicate IdsOnce(cs: seq<RetrievedChunk>) {
    forall i, j :: 0 <= i < j < |cs| ==> IdOf(cs[i]) != IdOf(cs[j])
  }

  /** Where the chunk with the id stands in the ranking. */
  ghost function PlaceIn(cs: seq<RetrievedChunk>, id: (int, string)): (place: Option<nat>)
    ensures place.Some? ==> place.value < |cs| && IdOf(cs[place.value]) == id
    ensures place.None? ==> forall i :: 0 <= i < |cs| ==> IdOf(cs[i]) != id
  {
    if exists i :: 0 <= i < |cs| && IdOf(cs[i]) == id then
      var i :| 0 <= i < |cs| && IdOf(cs[i]) == id;
      Some(i)
    else None
  }

  /** Ranks count from one, and sixty is added to each. */
  function Reciprocal(place: Option<nat>): real {
    if place.Some? then 1.0 / (61 + place.value) as real else 0.0
  }

  ghost function Relevance(vector: seq<RetrievedChunk>, keyword: seq<RetrievedChunk>, id: (int, string)): real {
    Reciprocal(PlaceIn(vector, id)) + Reciprocal(PlaceIn(keyword, id))
  }

  predicate Beats(x: real, a: (int, string), y: real, b: (int, string)) {
    x > y || (x == y && (a.0 < b.0 || (a.0 == b.0 && LexBefore(a.1, b.1))))
  }

  lemma {:induction false} ScoreAppends(a: seq<Entry>, b: seq<Entry>, k: Key)
    ensures Score(a + b, k) == Score(a, k) + Score(b, k)
  {
    if b == [] {
      assert a + b == a;
    } else {
      assert (a + b)[..|a + b| - 1] == a + b[..|b| - 1];
      ScoreAppends(a, b[..|b| - 1], k);
    }
  }

  lemma {:induction false} ScoreOfRanking(r: Ranking, n: nat, k: Key)
    requires n <= |r.chunks| && IdsOnce(r.chunks)
    ensures Score(EntriesOf(r, n), k) == Reciprocal(PlaceIn(r.chunks[..n], (k.document, k.chunk)))
  {
    if n > 0 {
      var es := EntriesOf(r, n);
      assert es[..n - 1] == EntriesOf(r, n - 1);
      ScoreOfRanking(r, n - 1, k);
      var id := (k.document, k.chunk);
      PlaceMore(r.chunks, n - 1, id);
    }
  }

  lemma PlaceMore(cs: seq<RetrievedChunk>, n: nat, id: (int, string))
    requires n < |cs| && IdsOnce(cs)
    ensures PlaceIn(cs[..n + 1], id) == if IdOf(cs[n]) == id then Some(n) else PlaceIn(cs[..n], id)
    ensures IdOf(cs[n]) == id ==> PlaceIn(cs[..n], id) == None
  {
    assert cs[..n + 1][n] == cs[n] && forall i :: 0 <= i < n ==> cs[..n + 1][i] == cs[..n][i];
    var p, q := PlaceIn(cs[..n + 1], id), PlaceIn(cs[..n], id);
    if q.Some? { assert IdOf(cs[q.value]) == id; }
    if p.Some? { assert IdOf(cs[p.value]) == id; }
  }

  function TwoRankings(vector: seq<RetrievedChunk>, keyword: seq<RetrievedChunk>): seq<Ranking> {
    [Ranking("vector", vector), Ranking("keyword", keyword)]
  }

  lemma TwoEntries(vector: seq<RetrievedChunk>, keyword: seq<RetrievedChunk>)
    ensures Entries(TwoRankings(vector, keyword))
         == EntriesOf(Ranking("vector", vector), |vector|) + EntriesOf(Ranking("keyword", keyword), |keyword|)
  {
    var rs := TwoRankings(vector, keyword);
    assert rs[..1] == [rs[0]] && rs[..1][..0] == [];
    assert Entries(rs[..1]) == Entries([]) + EntriesOf(rs[0], |vector|);
  }

  lemma ScoreIsRelevance(vector: seq<RetrievedChunk>, keyword: seq<RetrievedChunk>, k: Key)
    requires IdsOnce(vector) && IdsOnce(keyword)
    ensures Score(Entries(TwoRankings(vector, keyword)), k) == Relevance(vector, keyword, (k.document, k.chunk))
    ensures Occurs(Entries(TwoRankings(vector, keyword)), k) <==> (k.document, k.chunk) in IdsOf(vector) + IdsOf(keyword)
  {
    TwoEntries(vector, keyword);
    var a, b := EntriesOf(Ranking("vector", vector), |vector|), EntriesOf(Ranking("keyword", keyword), |keyword|);
    ScoreAppends(a, b, k);
    ScoreOfRanking(Ranking("vector", vector), |vector|, k);
    ScoreOfRanking(Ranking("keyword", keyword), |keyword|, k);
    assert vector[..|vector|] == vector && keyword[..|keyword|] == keyword;
    hide Score, Entries, Relevance;
    OccursInEither(vector, keyword, k);
  }

  lemma OccursInEither(vector: seq<RetrievedChunk>, keyword: seq<RetrievedChunk>, k: Key)
    ensures var es := EntriesOf(Ranking("vector", vector), |vector|) + EntriesOf(Ranking("keyword", keyword), |keyword|);
            Occurs(es, k) <==> (k.document, k.chunk) in IdsOf(vector) + IdsOf(keyword)
  {
    var a, b := EntriesOf(Ranking("vector", vector), |vector|), EntriesOf(Ranking("keyword", keyword), |keyword|);
    var es: seq<Entry> := a + b;
    if i :| 0 <= i < |vector| && IdOf(vector[i]) == (k.document, k.chunk) { assert KeyOf(es[i].chunk) == k; }
    if i :| 0 <= i < |keyword| && IdOf(keyword[i]) == (k.document, k.chunk) { assert KeyOf(es[|a| + i].chunk) == k; }
    if i :| 0 <= i < |es| && KeyOf(es[i].chunk) == k {
      if i < |a| { assert IdOf(vector[i]) == (k.document, k.chunk); } else { assert IdOf(keyword[i - |a|]) == (k.document, k.chunk); }
    }
  }

  /** What the fused ranking is: every id of the two rankings scores the sum of its reciprocal ranks;
      the best of them come in order, and each chunk has the text it has in the vector ranking, or else
      in the keyword ranking. */
  ghost predicate FusesRankings(fused: seq<RetrievedChunk>, vector: seq<RetrievedChunk>, keyword: seq<RetrievedChunk>, limit: nat) {
    var ids := IdsOf(vector) + IdsOf(keyword);
    && |fused| == (if |ids| <= limit then |ids| else limit)
    && (forall i :: 0 <= i < |fused| ==> FusedFrom(fused[i], vector, keyword))
    && (forall i, j :: 0 <= i < j < |fused| ==> Beats(fused[i].relevance, IdOf(fused[i]), fused[j].relevance, IdOf(fused[j])))
    && (forall i, id :: 0 <= i < |fused| && id in ids && id !in IdsOf(fused)
                        ==> Beats(fused[i].relevance, IdOf(fused[i]), Relevance(vector, keyword, id), id))
  }

  ghost predicate FusedFrom(c: RetrievedChunk, vector: seq<RetrievedChunk>, keyword: seq<RetrievedChunk>) {
    var v, k := PlaceIn(vector, IdOf(c)), PlaceIn(keyword, IdOf(c));
    && (v.Some? || k.Some?) && c.relevance == Relevance(vector, keyword, IdOf(c))
    && c.text == (if v.Some? then vector[v.value].text else keyword[k.value].text)
    && c.modes == (if k.Some? then ["keyword"] else []) + (if v.Some? then ["vector"] else [])
  }

  /** The entries are those of the vector ranking, then those of the keyword ranking. */
  lemma EntriesInTurn(vector: seq<RetrievedChunk>, keyword: seq<RetrievedChunk>)
    ensures var es := Entries(TwoRankings(vector, keyword));
            && |es| == |vector| + |keyword|
            && (forall n :: 0 <= n < |vector| ==> es[n].chunk == vector[n] && es[n].mode == "vector")
            && (forall n :: |vector| <= n < |es| ==> es[n].chunk == keyword[n - |vector|] && es[n].mode == "keyword")
  {
    TwoEntries(vector, keyword);
  }

  lemma FirstIsPlaced(vector: seq<RetrievedChunk>, keyword: seq<RetrievedChunk>, k: Key, c: RetrievedChunk)
    requires IdsOnce(vector) && IdsOnce(keyword) && IsFirst(Entries(TwoRankings(vector, keyword)), k, c)
    ensures var v, w := PlaceIn(vector, (k.document, k.chunk)), PlaceIn(keyword, (k.document, k.chunk));
            (v.Some? || w.Some?) && c == if v.Some? then vector[v.value] else keyword[w.value]
  {
    hide Entries, PlaceIn;
    EntriesInTurn(vector, keyword);
    var es := Entries(TwoRankings(vector, keyword));
    var id := (k.document, k.chunk);
    var v, w := PlaceIn(vector, id), PlaceIn(keyword, id);
    assert v.Some? ==> KeyOf(es[v.value].chunk) == k;
    var i :| 0 <= i < |es| && es[i].chunk == c && KeyOf(c) == k && forall j :: 0 <= j < i ==> KeyOf(es[j].chunk) != k;
    assert IdOf(c) == id;
    if i < |vector| {
      assert vector[i] == c;
    } else {
      assert keyword[i - |vector|] == c;
    }
  }

  lemma FoundInPlace(vector: seq<RetrievedChunk>, keyword: seq<RetrievedChunk>, k: Key)
    ensures FoundBy(Entries(TwoRankings(vector, keyword)), k, "vector") <==> PlaceIn(vector, (k.document, k.chunk)).Some?
    ensures FoundBy(Entries(TwoRankings(vector, keyword)), k, "keyword") <==> PlaceIn(keyword, (k.document, k.chunk)).Some?
  {
    hide Entries, PlaceIn;
    EntriesInTurn(vector, keyword);
    var es := Entries(TwoRankings(vector, keyword));
    var id := (k.document, k.chunk);
    var v, w := PlaceIn(vector, id), PlaceIn(keyword, id);
    if v.Some? { assert KeyOf(es[v.value].chunk) == k; }
    if w.Some? { assert KeyOf(es[|vector| + w.value].chunk) == k; }
    if FoundBy(es, k, "vector") {
      var i :| 0 <= i < |es| && KeyOf(es[i].chunk) == k && es[i].mode == "vector";
      assert i < |vector| && IdOf(vector[i]) == id;
    }
    if FoundBy(es, k, "keyword") {
      var i :| 0 <= i < |es| && KeyOf(es[i].chunk) == k && es[i].mode == "keyword";
      assert i >= |vector| && IdOf(keyword[i - |vector|]) == id;
    }
  }

  lemma FusedHasForm(vector: seq<RetrievedChunk>, keyword: seq<RetrievedChunk>, limit: nat, i: nat)
    requires IdsOnce(vector) && IdsOnce(keyword) && i < |Fuse(TwoRankings(vector, keyword), limit)|
    ensures FusedFrom(Fuse(TwoRankings(vector, keyword), limit)[i], vector, keyword)
  {
    var es := Entries(TwoRankings(vector, keyword));
    var t := TablesOf(es);
    BestIsSet(es, limit);
    var k := Best(t, limit)[i];
    TablesTell(es, k);
    FusedOccur(es);
    assert IsFirst(es, k, t.chunks[k]);
    FirstIsPlaced(vector, keyword, k, t.chunks[k]);
    FoundInPlace(vector, keyword, k);
    ScoreIsRelevance(vector, keyword, k);
  }

  /** The keys of the dictionaries are the ids of the two rankings. */
  lemma KeysAreIds(vector: seq<RetrievedChunk>, keyword: seq<RetrievedChunk>)
    requires IdsOnce(vector) && IdsOnce(keyword)
    ensures |TablesOf(Entries(TwoRankings(vector, keyword))).keys| == |IdsOf(vector) + IdsOf(keyword)|
  {
    var es := Entries(TwoRankings(vector, keyword));
    var keys := TablesOf(es).keys;
    TablesDomain(es);
    var ids := seq(|keys|, i requires 0 <= i < |keys| => (keys[i].document, keys[i].chunk));
    forall id ensures id in IdsOf(vector) + IdsOf(keyword) <==> id in ids {
      var k := Key(id.0, id.1);
      ScoreIsRelevance(vector, keyword, k);
      TablesTell(es, k);
      if id in ids {
        var i :| 0 <= i < |ids| && ids[i] == id;
        assert keys[i] == k;
      }
      if k in keys {
        var i :| 0 <= i < |keys| && keys[i] == k;
        assert ids[i] == id;
      }
    }
    ListsCount(ids, IdsOf(vector) + IdsOf(keyword));
  }

  /** A fused chunk beats each id that does not stand at or before it. */
  lemma FusedBeats(vector: seq<RetrievedChunk>, keyword: seq<RetrievedChunk>, limit: nat, i: nat, id: (int, string))
    requires IdsOnce(vector) && IdsOnce(keyword) && i < |Fuse(TwoRankings(vector, keyword), limit)| && id in IdsOf(vector) + IdsOf(keyword)
    requires forall j :: 0 <= j <= i ==> IdOf(Fuse(TwoRankings(vector, keyword), limit)[j]) != id
    ensures var c := Fuse(TwoRankings(vector, keyword), limit)[i];
            Beats(c.relevance, IdOf(c), Relevance(vector, keyword, id), id)
  {
    hide Score, Relevance, Entries, FusedFrom, Fuse, LexBefore, IdsOf;
    var fused := Fuse(TwoRankings(vector, keyword), limit);
    var k := Key(id.0, id.1);
    ScoreIsRelevance(vector, keyword, k);
    ScoreIsRelevance(vector, keyword, KeyOf(fused[i]));
    FusedHasForm(vector, keyword, limit, i);
    FusedFromHasRelevance(fused[i], vector, keyword);
    FusedAreBest(TwoRankings(vector, keyword), limit, i, k);
  }

  lemma FusedDiffer(vector: seq<RetrievedChunk>, keyword: seq<RetrievedChunk>, limit: nat, i: nat, j: nat)
    requires i < j < |Fuse(TwoRankings(vector, keyword), limit)|
    ensures IdOf(Fuse(TwoRankings(vector, keyword), limit)[i]) != IdOf(Fuse(TwoRankings(vector, keyword), limit)[j])
  {
    var es := Entries(TwoRankings(vector, keyword));
    TablesDomain(es);
    BestIsSet(es, limit);
    BestDiffer(TablesOf(es), limit, i, j);
    FusedAt(es, limit, i);
    FusedAt(es, limit, j);
  }

  lemma FusedCount(vector: seq<RetrievedChunk>, keyword: seq<RetrievedChunk>, limit: nat)
    requires IdsOnce(vector) && IdsOnce(keyword)
    ensures var ids := IdsOf(vector) + IdsOf(keyword);
            |Fuse(TwoRankings(vector, keyword), limit)| == if |ids| <= limit then |ids| else limit
  {
    var t := TablesOf(Entries(TwoRankings(vector, keyword)));
    TablesDomain(Entries(TwoRankings(vector, keyword)));
    TopKeysAreBest(t.scores, t.keys, limit);
    KeysAreIds(vector, keyword);
  }

  /** Reciprocal rank fusion of two rankings. */
  lemma FuseFuses(vector: seq<RetrievedChunk>, keyword: seq<RetrievedChunk>, limit: nat)
    requires IdsOnce(vector) && IdsOnce(keyword)
    ensures FusesRankings(Fuse(TwoRankings(vector, keyword), limit), vector, keyword, limit)
  {
    hide Fuse, FusedFrom, Beats, Relevance, IdsOnce;
    var fused := Fuse(TwoRankings(vector, keyword), limit);
    FusedCount(vector, keyword, limit);
    forall i | 0 <= i < |fused| ensures FusedFrom(fused[i], vector, keyword) {
      FusedHasForm(vector, keyword, limit, i);
    }
    forall i, j | 0 <= i < j < |fused|
      ensures Beats(fused[i].relevance, IdOf(fused[i]), fused[j].relevance, IdOf(fused[j]))
    {
      FusedIsAmong(fused[j], vector, keyword);
      FusedFromHasRelevance(fused[j], vector, keyword);
      forall n | 0 <= n <= i ensures IdOf(fused[n]) != IdOf(fused[j]) {
        FusedDiffer(vector, keyword, limit, n, j);
      }
      FusedBeats(vector, keyword, limit, i, IdOf(fused[j]));
    }
    forall i, id | 0 <= i < |fused| && id in IdsOf(vector) + IdsOf(keyword) && id !in IdsOf(fused)
      ensures Beats(fused[i].relevance, IdOf(fused[i]), Relevance(vector, keyword, id), id)
    {
      FusedBeats(vector, keyword, limit, i, id);
    }
  }

  lemma FusedFromHasRelevance(c: RetrievedChunk, vector: seq<RetrievedChunk>, keyword: seq<RetrievedChunk>)
    requires FusedFrom(c, vector, keyword)
    ensures c.relevance == Relevance(vector, keyword, IdOf(c))
  {
  }

  lemma FusedIsAmong(c: RetrievedChunk, vector: seq<RetrievedChunk>, keyword: seq<RetrievedChunk>)
    requires FusedFrom(c, vector, keyword)
    ensures IdOf(c) in IdsOf(vector) + IdsOf(keyword)
  {
  }

  lemma FusedAt(es: seq<Entry>, limit: nat, i: nat)
    requires i < |Best(TablesOf(es), limit)| && AllSet(TablesOf(es), Best(TablesOf(es), limit))
    ensures KeyOf(FusedAll(TablesOf(es), Best(TablesOf(es), limit))[i]) == Best(TablesOf(es), limit)[i]
  {
    FusedOccur(es);
  }

  lemma BestDiffer(t: Tables, limit: nat, i: nat, j: nat)
    requires AllDifferent(t.keys) && i < j < |Best(t, limit)|
    ensures Best(t, limit)[i] != Best(t, limit)[j]
  {
    TopKeysAreBest(t.scores, t.keys, limit);
    assert Before(t.scores, Best(t, limit)[i], Best(t, limit)[j]);
    LexOne(Best(t, limit)[i].chunk, Best(t, limit)[i].chunk);
  }

  // ----- one retrieval

  function FactIdOf(f: RetrievedFact): (int, string, string, string, string) {
    (f.sourceDocumentId, f.chunkId, f.sourceName, f.relationshipType, f.targetName)
  }

  lemma FirstsById(said: seq<Option<RetrievedChunk>>, chunks: seq<RetrievedChunk>, at: seq<nat>)
    requires Firsts(said, KeyOf, chunks, at)
    ensures Firsts(said, IdOf, chunks, at) && IdsOnce(chunks)
  {
    forall i, j | 0 <= i < j < |chunks| ensures IdOf(chunks[i]) != IdOf(chunks[j]) {
      assert KeyOf(chunks[i]) != KeyOf(chunks[j]);
    }
    forall k | 0 <= k < |said| && said[k].Some? ensures MetBy(IdOf, chunks, at, k, said[k].value) {
      assert MetBy(KeyOf, chunks, at, k, said[k].value);
    }
  }

  lemma FactFirstsById(said: seq<Option<RetrievedFact>>, facts: seq<RetrievedFact>, at: seq<nat>)
    requires Firsts(said, KeyOfFact, facts, at)
    ensures Firsts(said, FactIdOf, facts, at)
  {
    forall i, j | 0 <= i < j < |facts| ensures FactIdOf(facts[i]) != FactIdOf(facts[j]) {
      assert KeyOfFact(facts[i]) != KeyOfFact(facts[j]);
    }
    forall k | 0 <= k < |said| && said[k].Some? ensures MetBy(FactIdOf, facts, at, k, said[k].value) {
      assert MetBy(KeyOfFact, facts, at, k, said[k].value);
    }
  }

  /** One term has to be met if the question has no more, and otherwise two. */
  function Minimum(terms: seq<string>): nat {
    if |terms| < 2 then |terms| else 2
  }

  ghost predicate PicksByVector(g: Graph, allowed: set<int>, q: Question, similarity: Props -> Option<real>, rows: seq<Row<Match>>, places: seq<nat>) {
    if q.vector then
      && (forall i :: i in VectorHits(g, allowed, similarity, q.minimumScore) ==> HasVector(g, similarity, i))
      && Picks(rows, VectorHits(g, allowed, similarity, q.minimumScore), VectorShown(g, similarity), q.limit, places)
    else rows == []
  }

  ghost predicate PicksByTerms(g: Graph, allowed: set<int>, q: Question, rows: seq<Row<Match>>, places: seq<nat>) {
    if q.terms != [] then
      && (forall i :: i in KeywordHits(g, allowed, q.terms, Minimum(q.terms)) ==> EndsKnown(g, i))
      && Picks(rows, KeywordHits(g, allowed, q.terms, Minimum(q.terms)), KeywordShown(g, q.terms), q.limit, places)
    else rows == []
  }

  ghost predicate PicksFacts(g: Graph, allowed: set<int>, q: Question, rows: seq<Row<FactMatch>>, places: seq<FactPlace>) {
    if q.terms != [] then
      && (forall p :: p in FactHits(g, allowed, q.terms, Minimum(q.terms)) ==> FactEndsKnown(g, p))
      && Picks(rows, FactHits(g, allowed, q.terms, Minimum(q.terms)), FactShown(g, q.terms), q.limit, places)
    else rows == []
  }

  lemma PicksOfNone<P(!new), T>(rows: seq<Row<T>>, hits: set<P>, shown: P --> Row<T>, limit: nat, places: seq<P>)
    requires (forall p :: p in hits ==> shown.requires(p)) && Picks(rows, hits, shown, limit, places) && forall p :: p !in hits
    ensures rows == []
  {
    assert hits == {};
  }

  lemma NothingAllowed(g: Graph, i: nat)
    ensures !ChunkAt(g, {}, i) && !FactAt(g, {}, i)
  {
  }

  lemma VectorRowsPicked(g: Graph, allowed: set<int>, q: Question, similarity: Props -> Option<real>) returns (rows: seq<Row<Match>>, places: seq<nat>)
    ensures PicksByVector(g, allowed, q, similarity, rows, places)
    ensures rows == if q.vector then VectorQuery(g, allowed, QueryOf(q), similarity) else []
    ensures allowed == {} ==> rows == []
  {
    hide VectorQuery, ChunkAt, FactAt, Picks;
    rows, places := [], [];
    if q.vector {
      rows := VectorQuery(g, allowed, QueryOf(q), similarity);
      places := VectorQueryPicks(g, allowed, QueryOf(q), similarity);
      if allowed == {} {
        forall i: nat ensures !ChunkAt(g, {}, i) { NothingAllowed(g, i); }
        PicksOfNone(rows, VectorHits(g, allowed, similarity, q.minimumScore), VectorShown(g, similarity), q.limit, places);
      }
    }
  }

  lemma TermRowsPicked(g: Graph, allowed: set<int>, q: Question) returns (rows: seq<Row<Match>>, places: seq<nat>)
    ensures PicksByTerms(g, allowed, q, rows, places)
    ensures rows == if q.terms != [] then ChunkQuery(g, allowed, QueryOf(q)) else []
    ensures allowed == {} ==> rows == []
  {
    hide ChunkQuery, ChunkAt, FactAt, Picks, KeywordTerms;
    rows, places := [], [];
    if q.terms != [] {
      rows := ChunkQuery(g, allowed, QueryOf(q));
      places := ChunkQueryPicks(g, allowed, QueryOf(q));
      if allowed == {} {
        forall i: nat ensures !ChunkAt(g, {}, i) { NothingAllowed(g, i); }
        PicksOfNone(rows, KeywordHits(g, allowed, q.terms, Minimum(q.terms)), KeywordShown(g, q.terms), q.limit, places);
      }
    }
  }

  lemma FactRowsPicked(g: Graph, allowed: set<int>, q: Question) returns (rows: seq<Row<FactMatch>>, places: seq<FactPlace>)
    ensures PicksFacts(g, allowed, q, rows, places)
    ensures rows == if q.terms != [] then FactQuery(g, allowed, QueryOf(q)) else []
    ensures allowed == {} ==> rows == []
  {
    hide FactQuery, ChunkAt, FactAt, Picks, FactTerms;
    rows, places := [], [];
    if q.terms != [] {
      rows := FactQuery(g, allowed, QueryOf(q));
      places := FactQueryPicks(g, allowed, QueryOf(q));
      if allowed == {} {
        forall i: nat ensures !FactAt(g, {}, i) { NothingAllowed(g, i); }
        PicksOfNone(rows, FactHits(g, allowed, q.terms, Minimum(q.terms)), FactShown(g, q.terms), q.limit, places);
      }
    }
  }

  /** The chunks of one retrieval: of the allowed chunks that are similar enough to the question, and of
      those that hold enough of its terms, the best as far as the limit goes; of these the usable ones,
      each once; and of the two lists the best by the sum of their reciprocal ranks. */
  lemma ChunksRetrieved(g: Graph, allowed: set<int>, q: Question, similarity: Props -> Option<real>)
      returns (vectorRows: seq<Row<Match>>, vectorPlaces: seq<nat>, vectorAt: seq<nat>, vector: seq<RetrievedChunk>,
               keywordRows: seq<Row<Match>>, keywordPlaces: seq<nat>, keywordAt: seq<nat>, keyword: seq<RetrievedChunk>)
    ensures PicksByVector(g, allowed, q, similarity, vectorRows, vectorPlaces)
    ensures Firsts(ChunksSaid(vectorRows, allowed, "vector"), IdOf, vector, vectorAt)
    ensures PicksByTerms(g, allowed, q, keywordRows, keywordPlaces)
    ensures Firsts(ChunksSaid(keywordRows, allowed, "keyword"), IdOf, keyword, keywordAt)
    ensures FusesRankings(Retrieved(g, allowed, q, similarity).chunks, vector, keyword, q.limit)
  {
    vectorRows, vectorPlaces := VectorRowsPicked(g, allowed, q, similarity);
    keywordRows, keywordPlaces := TermRowsPicked(g, allowed, q);
    vector, keyword := ChunksFrom(vectorRows, allowed, "vector"), ChunksFrom(keywordRows, allowed, "keyword");
    hide PicksByVector, PicksByTerms, FusesRankings, Firsts, ChunkUsable, ChunkOf, Fuse, FactsFrom, VectorQuery, ChunkQuery, FactQuery;
    vectorAt := ChunksAreFirsts(vectorRows, allowed, "vector");
    FirstsById(ChunksSaid(vectorRows, allowed, "vector"), vector, vectorAt);
    keywordAt := ChunksAreFirsts(keywordRows, allowed, "keyword");
    FirstsById(ChunksSaid(keywordRows, allowed, "keyword"), keyword, keywordAt);
    FuseFuses(vector, keyword, q.limit);
    if allowed == {} || (!q.vector && q.terms == []) { FusesNothing(q.limit); }
  }

  lemma FusesNothing(limit: nat)
    ensures FusesRankings([], [], [], limit)
  {
    assert IdsOf([]) + IdsOf([]) == {};
  }

  /** The facts of one retrieval: of the allowed facts that hold enough of the question's terms, the
      best as far as the limit goes; of these the usable ones, each once, each naming its edge's source,
      kind and target with the text of the chunk it was read from. */
  lemma FactsRetrieved(g: Graph, allowed: set<int>, q: Question, similarity: Props -> Option<real>)
      returns (rows: seq<Row<FactMatch>>, places: seq<FactPlace>, at: seq<nat>)
    ensures PicksFacts(g, allowed, q, rows, places)
    ensures Firsts(FactsSaid(rows, allowed), FactIdOf, Retrieved(g, allowed, q, similarity).facts, at)
  {
    rows, places := FactRowsPicked(g, allowed, q);
    hide PicksFacts, Firsts, FactUsable, FactOf, Fuse, ChunksFrom, VectorQuery, ChunkQuery, FactQuery;
    at := FactsAreFirsts(rows, allowed);
    FactFirstsById(FactsSaid(rows, allowed), FactsFrom(rows, allowed), at);
  }
}
