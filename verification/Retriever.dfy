/** From query rows to evidence: the second check of every row, and the whole of one retrieval. */
module Retriever {
  import opened Evidence
  import opened Outcomes
  import opened RankFusion
  import opened Retrieval

  /** `_has_consistent_allowed_provenance` */
  predicate Consistent(items: seq<Props>, allowed: set<int>) {
    && items != []
    && (forall i :: 0 <= i < |items| ==> HasProvenance(items[i]))
    && (forall i, j :: 0 < i < |items| && 0 <= j < |PROVENANCE_FIELDS| ==> Get(items[i], PROVENANCE_FIELDS[j]) == Get(items[0], PROVENANCE_FIELDS[j]))
    && Allowed(Get(items[0], SourceDocumentId), allowed)
  }

  predicate IsText(v: Value) {
    v.Str? && v.s != ""
  }

  predicate ChunkUsable(m: Match, allowed: set<int>) {
    Consistent([m.chunk, m.belongs, m.document], allowed) && IsText(Get(m.chunk, ChunkIdField)) && IsText(Get(m.chunk, TextField))
  }

  function ChunkOf(row: Row<Match>, allowed: set<int>, mode: string): (c: RetrievedChunk)
    requires ChunkUsable(row.item, allowed)
    ensures c.sourceDocumentId in allowed && c.chunkId != "" && c.text != ""
  {
    var m := row.item;
    assert Consistent([m.chunk, m.belongs, m.document], allowed) && [m.chunk, m.belongs, m.document][0] == m.chunk;
    RetrievedChunk(Get(m.chunk, SourceDocumentId).i, Get(m.chunk, ChunkIdField).s, Get(m.chunk, TextField).s, row.rank.relevance, [mode])
  }

  /** The usable rows, each chunk once. */
  function ChunksFrom(rows: seq<Row<Match>>, allowed: set<int>, mode: string): seq<RetrievedChunk> {
    if rows == [] then []
    else
      var before, row := ChunksFrom(rows[..|rows| - 1], allowed, mode), rows[|rows| - 1];
      if ChunkUsable(row.item, allowed) && KeyOf(ChunkOf(row, allowed, mode)) !in KeysOf(before)
      then before + [ChunkOf(row, allowed, mode)] else before
  }

  function KeysOf(chunks: seq<RetrievedChunk>): (r: set<Key>)
    ensures forall i :: 0 <= i < |chunks| ==> KeyOf(chunks[i]) in r
  {
    set i | 0 <= i < |chunks| :: KeyOf(chunks[i])
  }

  ghost predicate ChunksIn(cs: seq<RetrievedChunk>, allowed: set<int>) {
    forall i :: 0 <= i < |cs| ==> cs[i].sourceDocumentId in allowed
  }

  ghost predicate NoChunkTwice(cs: seq<RetrievedChunk>) {
    forall i, j :: 0 <= i < j < |cs| ==> KeyOf(cs[i]) != KeyOf(cs[j])
  }

  /** The chunks are of allowed documents, no two of them the same. */
  lemma {:induction false} ChunksAllowed(rows: seq<Row<Match>>, allowed: set<int>, mode: string)
    ensures ChunksIn(ChunksFrom(rows, allowed, mode), allowed) && NoChunkTwice(ChunksFrom(rows, allowed, mode))
  {
    if rows != [] {
      ChunksAllowed(rows[..|rows| - 1], allowed, mode);
      var before, row := ChunksFrom(rows[..|rows| - 1], allowed, mode), rows[|rows| - 1];
      if ChunkUsable(row.item, allowed) && KeyOf(ChunkOf(row, allowed, mode)) !in KeysOf(before) {
        assert ChunksFrom(rows, allowed, mode) == before + [ChunkOf(row, allowed, mode)];
      }
    }
  }

  method Chunks(rows: seq<Row<Match>>, allowed: set<int>, mode: string) returns (chunks: seq<RetrievedChunk>)
    ensures chunks == ChunksFrom(rows, allowed, mode)
  {
    chunks := [];
    var seen: set<Key> := {};
    for i := 0 to |rows|
      invariant chunks == ChunksFrom(rows[..i], allowed, mode) && seen == KeysOf(chunks)
    {
      assert rows[..i + 1][..i] == rows[..i] && rows[..i + 1][i] == rows[i];
      if ChunkUsable(rows[i].item, allowed) {
        var c := ChunkOf(rows[i], allowed, mode);
        if KeyOf(c) !in seen {
          KeysMore(chunks, c);
          seen := seen + {KeyOf(c)};
          chunks := chunks + [c];
        }
      }
    }
    assert rows[..|rows|] == rows;
  }

  lemma KeysMore(chunks: seq<RetrievedChunk>, c: RetrievedChunk)
    ensures KeysOf(chunks + [c]) == KeysOf(chunks) + {KeyOf(c)}
  {
    var more := chunks + [c];
    assert more[|chunks|] == c && forall i :: 0 <= i < |chunks| ==> more[i] == chunks[i];
  }

  // ----- facts

  datatype FactKey = FactKey(document: int, chunk: string, source: string, kind: string, target: string)

  function KeyOfFact(f: RetrievedFact): FactKey {
    FactKey(f.sourceDocumentId, f.chunkId, f.sourceName, f.relationshipType, f.targetName)
  }

  predicate FactUsable(f: FactMatch, allowed: set<int>) {
    && Consistent([f.source, f.fact, f.target, f.at.chunk, f.at.belongs, f.at.document], allowed)
    && IsText(Get(f.source, NameField)) && IsText(Get(f.target, NameField)) && f.kind != ""
    && IsText(Get(f.at.chunk, ChunkIdField)) && IsText(Get(f.at.chunk, TextField))
  }

  function FactOf(row: Row<FactMatch>, allowed: set<int>): (f: RetrievedFact)
    requires FactUsable(row.item, allowed)
    ensures f.sourceDocumentId in allowed && f.chunkId != "" && f.text != ""
  {
    var f := row.item;
    assert [f.source, f.fact, f.target, f.at.chunk, f.at.belongs, f.at.document][0] == f.source;
    RetrievedFact(Get(f.source, SourceDocumentId).i, Get(f.at.chunk, ChunkIdField).s, Get(f.source, NameField).s, f.kind,
                  Get(f.target, NameField).s, Get(f.at.chunk, TextField).s, row.rank.relevance)
  }

  function FactKeysOf(facts: seq<RetrievedFact>): (r: set<FactKey>)
    ensures forall i :: 0 <= i < |facts| ==> KeyOfFact(facts[i]) in r
  {
    set i | 0 <= i < |facts| :: KeyOfFact(facts[i])
  }

  function FactsFrom(rows: seq<Row<FactMatch>>, allowed: set<int>): seq<RetrievedFact> {
    if rows == [] then []
    else
      var before, row := FactsFrom(rows[..|rows| - 1], allowed), rows[|rows| - 1];
      if FactUsable(row.item, allowed) && KeyOfFact(FactOf(row, allowed)) !in FactKeysOf(before)
      then before + [FactOf(row, allowed)] else before
  }

  ghost predicate FactsIn(fs: seq<RetrievedFact>, allowed: set<int>) {
    forall i :: 0 <= i < |fs| ==> fs[i].sourceDocumentId in allowed
  }

  ghost predicate NoFactTwice(fs: seq<RetrievedFact>) {
    forall i, j :: 0 <= i < j < |fs| ==> KeyOfFact(fs[i]) != KeyOfFact(fs[j])
  }

  lemma {:induction false} FactsAllowed(rows: seq<Row<FactMatch>>, allowed: set<int>)
    ensures FactsIn(FactsFrom(rows, allowed), allowed) && NoFactTwice(FactsFrom(rows, allowed))
  {
    if rows != [] {
      FactsAllowed(rows[..|rows| - 1], allowed);
      var before, row := FactsFrom(rows[..|rows| - 1], allowed), rows[|rows| - 1];
      if FactUsable(row.item, allowed) && KeyOfFact(FactOf(row, allowed)) !in FactKeysOf(before) {
        assert FactsFrom(rows, allowed) == before + [FactOf(row, allowed)];
      }
    }
  }

  method FactsOf(rows: seq<Row<FactMatch>>, allowed: set<int>) returns (facts: seq<RetrievedFact>)
    ensures facts == FactsFrom(rows, allowed)
  {
    facts := [];
    var seen: set<FactKey> := {};
    for i := 0 to |rows|
      invariant facts == FactsFrom(rows[..i], allowed) && seen == FactKeysOf(facts)
    {
      assert rows[..i + 1][..i] == rows[..i] && rows[..i + 1][i] == rows[i];
      if FactUsable(rows[i].item, allowed) {
        var f := FactOf(rows[i], allowed);
        if KeyOfFact(f) !in seen {
          FactKeysMore(facts, f);
          seen := seen + {KeyOfFact(f)};
          facts := facts + [f];
        }
      }
    }
    assert rows[..|rows|] == rows;
  }

  lemma FactKeysMore(facts: seq<RetrievedFact>, f: RetrievedFact)
    ensures FactKeysOf(facts + [f]) == FactKeysOf(facts) + {KeyOfFact(f)}
  {
    var more := facts + [f];
    assert more[|facts|] == f && forall i :: 0 <= i < |facts| ==> more[i] == facts[i];
  }

  // ----- one retrieval

  /** The question as prepared: its terms, and the similarity to its vector if it has one. */
  datatype Question = Question(terms: seq<string>, vector: bool, limit: nat, minimumScore: real)

  function QueryOf(q: Question): Query {
    Query(q.terms, if |q.terms| < 2 then |q.terms| else 2, q.limit, q.minimumScore)
  }

  function Retrieved(g: Graph, allowed: set<int>, q: Question, similarity: Props -> Option<real>): RetrievalEvidence {
    if allowed == {} || (!q.vector && q.terms == []) then RetrievalEvidence([], [])
    else
      var vectorRows := if q.vector then VectorQuery(g, allowed, QueryOf(q), similarity) else [];
      var chunkRows := if q.terms != [] then ChunkQuery(g, allowed, QueryOf(q)) else [];
      var factRows := if q.terms != [] then FactQuery(g, allowed, QueryOf(q)) else [];
      RetrievalEvidence(
        Fuse([Ranking("vector", ChunksFrom(vectorRows, allowed, "vector")), Ranking("keyword", ChunksFrom(chunkRows, allowed, "keyword"))], q.limit),
        FactsFrom(factRows, allowed))
  }

  method Retrieve(g: Graph, allowed: set<int>, q: Question, similarity: Props -> Option<real>) returns (evidence: RetrievalEvidence)
    ensures evidence == Retrieved(g, allowed, q, similarity)
  {
    if allowed == {} || (!q.vector && q.terms == []) {
      return RetrievalEvidence([], []);
    }
    var vectorRows, chunkRows, factRows := [], [], [];
    if q.vector {
      vectorRows := VectorQuery(g, allowed, QueryOf(q), similarity);
    }
    if q.terms != [] {
      chunkRows := ChunkQuery(g, allowed, QueryOf(q));
      factRows := FactQuery(g, allowed, QueryOf(q));
    }
    var vectorChunks := Chunks(vectorRows, allowed, "vector");
    var keywordChunks := Chunks(chunkRows, allowed, "keyword");
    var fused := FuseChunkRankings([Ranking("vector", vectorChunks), Ranking("keyword", keywordChunks)], q.limit);
    var facts := FactsOf(factRows, allowed);
    evidence := RetrievalEvidence(fused, facts);
  }

  /** Retrieval over the whole graph is retrieval over the graph cut down to the allowed documents,
      limits and ranking included. */
  lemma RetrievalSeesOnlyAllowed(g: Graph, allowed: set<int>, q: Question, similarity: Props -> Option<real>)
    ensures Retrieved(g, allowed, q, similarity) == Retrieved(Cut(g, allowed), allowed, q, similarity)
  {
    NonInterference(g, allowed, QueryOf(q), similarity);
  }

  ghost predicate RankingsIn(rs: seq<Ranking>, allowed: set<int>) {
    forall r :: 0 <= r < |rs| ==> ChunksIn(rs[r].chunks, allowed)
  }

  lemma {:induction false} EntriesFromRankings(rs: seq<Ranking>, allowed: set<int>)
    requires RankingsIn(rs, allowed)
    ensures forall i :: 0 <= i < |Entries(rs)| ==> Entries(rs)[i].chunk.sourceDocumentId in allowed
  {
    if rs != [] {
      EntriesFromRankings(rs[..|rs| - 1], allowed);
    }
  }

  lemma FusedAllowed(rs: seq<Ranking>, limit: nat, allowed: set<int>)
    requires RankingsIn(rs, allowed)
    ensures ChunksIn(Fuse(rs, limit), allowed)
  {
    EntriesFromRankings(rs, allowed);
    forall i | 0 <= i < |Fuse(rs, limit)| ensures Fuse(rs, limit)[i].sourceDocumentId in allowed {
      FusedIsOfEntry(rs, limit, i);
    }
  }

  /** Everything retrieved is of an allowed document. */
  lemma RetrievedIsAllowed(g: Graph, allowed: set<int>, q: Question, similarity: Props -> Option<real>)
    ensures ChunksIn(Retrieved(g, allowed, q, similarity).chunks, allowed) && FactsIn(Retrieved(g, allowed, q, similarity).facts, allowed)
  {
    if !(allowed == {} || (!q.vector && q.terms == [])) {
      var vectorRows := if q.vector then VectorQuery(g, allowed, QueryOf(q), similarity) else [];
      var chunkRows := if q.terms != [] then ChunkQuery(g, allowed, QueryOf(q)) else [];
      var factRows := if q.terms != [] then FactQuery(g, allowed, QueryOf(q)) else [];
      ChunksAllowed(vectorRows, allowed, "vector");
      ChunksAllowed(chunkRows, allowed, "keyword");
      FactsAllowed(factRows, allowed);
      FusedAllowed([Ranking("vector", ChunksFrom(vectorRows, allowed, "vector")), Ranking("keyword", ChunksFrom(chunkRows, allowed, "keyword"))], q.limit, allowed);
    }
  }

  lemma FusedIsOfEntry(rs: seq<Ranking>, limit: nat, i: nat)
    requires i < |Fuse(rs, limit)|
    ensures exists j :: 0 <= j < |Entries(rs)| && Entries(rs)[j].chunk.sourceDocumentId == Fuse(rs, limit)[i].sourceDocumentId
  {
    FusedIsSum(rs, limit, i);
    var es, c := Entries(rs), Fuse(rs, limit)[i];
    var first :| IsFirst(es, KeyOf(c), first) && c.text == first.text;
    var j :| 0 <= j < |es| && es[j].chunk == first && KeyOf(first) == KeyOf(c);
    assert es[j].chunk.sourceDocumentId == c.sourceDocumentId;
  }
}
