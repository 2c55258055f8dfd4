/** What one replacement leaves alone, that it can be repeated, and the writer's loops. */
module GraphReplacement {
  import opened Outcomes
  import opened GraphWriter

  // ----- everything but one document

  ghost predicate SameDocuments(m: map<nat, DocumentNode>, n: map<nat, DocumentNode>, d: nat) {
    forall c :: c != d ==> (c in m <==> c in n) && (c in m && c in n ==> m[c] == n[c])
  }

  ghost predicate SameChunks(m: map<string, ChunkNode>, n: map<string, ChunkNode>, d: nat) {
    forall c :: (c in m && m[c].provenance.document != d) || (c in n && n[c].provenance.document != d) ==> c in m && c in n && m[c] == n[c]
  }

  ghost predicate SameEntities(m: map<string, EntityNode>, n: map<string, EntityNode>, d: nat) {
    forall e :: (e in m && m[e].provenance.document != d) || (e in n && n[e].provenance.document != d) ==> e in m && e in n && m[e] == n[e]
  }

  ghost predicate SameBelongs(m: map<BelongsKey, Provenance>, n: map<BelongsKey, Provenance>, d: nat) {
    forall k :: (k in m && m[k].document != d) || (k in n && n[k].document != d) ==> k in m && k in n && m[k] == n[k]
  }

  ghost predicate SameMentions(m: map<MentionKey, Provenance>, n: map<MentionKey, Provenance>, d: nat) {
    forall k :: (k in m && m[k].document != d) || (k in n && n[k].document != d) ==> k in m && k in n && m[k] == n[k]
  }

  ghost predicate SameFacts(m: map<FactKey, FactEdge>, n: map<FactKey, FactEdge>, d: nat) {
    forall k :: (k in m && m[k].provenance.document != d) || (k in n && n[k].provenance.document != d) ==> k in m && k in n && m[k] == n[k]
  }

  /** The graphs agree on every node and edge that does not carry the document's provenance. */
  ghost predicate SameOutside(g: Graph, h: Graph, d: nat) {
    && SameDocuments(g.documents, h.documents, d) && SameChunks(g.chunks, h.chunks, d) && SameEntities(g.entities, h.entities, d)
    && SameBelongs(g.belongs, h.belongs, d) && SameMentions(g.mentions, h.mentions, d) && SameFacts(g.facts, h.facts, d)
  }

  lemma SameOutsideFurther(g: Graph, h: Graph, i: Graph, d: nat)
    requires SameOutside(g, h, d) && SameOutside(h, i, d)
    ensures SameOutside(g, i, d)
  {
  }

  lemma DeleteChunksOutside(g: Graph, d: nat)
    requires Separate(g)
    ensures SameOutside(g, DeleteChunks(g, d), d)
  {
    var h := DeleteChunks(g, d);
    forall k | k in g.belongs && g.belongs[k].document != d ensures k in h.belongs { assert BelongsOk(g, k); }
    forall k | k in g.mentions && g.mentions[k].document != d ensures k in h.mentions { assert MentionOk(g, k); }
  }

  lemma DeleteEntitiesOutside(g: Graph, d: nat)
    requires Separate(g)
    ensures SameOutside(g, DeleteEntities(g, d), d)
  {
    var h := DeleteEntities(g, d);
    forall k | k in g.mentions && g.mentions[k].document != d ensures k in h.mentions { assert MentionOk(g, k); }
    forall k | k in g.facts && g.facts[k].provenance.document != d ensures k in h.facts { assert FactOk(g, k); }
  }

  lemma CreateChunkOutside(g: Graph, p: Provenance, c: ExtractedChunk)
    requires Separate(g) && CreateChunk(g, p, c).Ok?
    ensures SameOutside(g, CreateChunk(g, p, c).value, p.document)
  {
    var k := BelongsKey(ChunkId(p.document, c.index), p.document);
    assert k in g.belongs ==> BelongsOk(g, k);
  }

  lemma {:induction false} CreateChunksOutside(g: Graph, p: Provenance, cs: seq<ExtractedChunk>)
    requires Separate(g) && p.document in g.documents && CreateChunks(g, p, cs).Ok?
    ensures SameOutside(g, CreateChunks(g, p, cs).value, p.document)
  {
    if cs != [] {
      CreateChunksOutside(g, p, cs[..|cs| - 1]);
      CreateChunksSeparate(g, p, cs[..|cs| - 1]);
      var h := CreateChunks(g, p, cs[..|cs| - 1]).value;
      CreateChunkOutside(h, p, cs[|cs| - 1]);
      SameOutsideFurther(g, h, CreateChunks(g, p, cs).value, p.document);
    }
  }

  lemma MergeEntityOutside(g: Graph, p: Provenance, e: ExtractedEntity)
    requires Separate(g)
    ensures SameOutside(g, MergeEntity(g, p, e), p.document)
  {
    var chunk, id := ChunkId(p.document, e.chunkIndex), IdOf(p.document, e);
    if chunk in g.chunks {
      EntityIdOwned(p.document, e.kind, e.normalizedName);
      ChunkOfOwnId(g, p.document, e.chunkIndex);
      if id in g.entities { OwnerIsUnique(id, p.document, g.entities[id].provenance.document); }
      var k := MentionKey(chunk, id);
      assert k in g.mentions ==> MentionOk(g, k);
    }
  }

  lemma {:induction false} MergeEntitiesOutside(g: Graph, p: Provenance, es: seq<ExtractedEntity>)
    requires Separate(g)
    ensures SameOutside(g, MergeEntities(g, p, es), p.document)
  {
    if es != [] {
      MergeEntitiesOutside(g, p, es[..|es| - 1]);
      MergeEntitiesSeparate(g, p, es[..|es| - 1]);
      var h := MergeEntities(g, p, es[..|es| - 1]);
      MergeEntityOutside(h, p, es[|es| - 1]);
      SameOutsideFurther(g, h, MergeEntities(g, p, es), p.document);
    }
  }

  lemma MergeRowOutside(g: Graph, p: Provenance, row: FactRow)
    requires Separate(g) && RowOwned(p.document, row)
    ensures SameOutside(g, MergeRow(g, p, row), p.document)
  {
    var k := row.key;
    if k.source in g.entities {
      OwnerIsUnique(k.source, p.document, g.entities[k.source].provenance.document);
      assert k in g.facts ==> FactOk(g, k);
    }
  }

  lemma {:induction false} MergeRowsOutside(g: Graph, p: Provenance, rows: seq<FactRow>)
    requires Separate(g) && forall i :: 0 <= i < |rows| ==> RowOwned(p.document, rows[i])
    ensures SameOutside(g, MergeRows(g, p, rows), p.document)
  {
    if rows != [] {
      MergeRowsOutside(g, p, rows[..|rows| - 1]);
      MergeRowsSeparate(g, p, rows[..|rows| - 1]);
      var h := MergeRows(g, p, rows[..|rows| - 1]);
      MergeRowOutside(h, p, rows[|rows| - 1]);
      SameOutsideFurther(g, h, MergeRows(g, p, rows), p.document);
    }
  }

  lemma EntitiesOutside(h: Graph, p: Provenance, es: seq<ExtractedEntity>, rs: seq<ExtractedRelationship>)
    requires Separate(h) && ReplaceEntities(h, p, es, rs).Ok?
    ensures SameOutside(h, ReplaceEntities(h, p, es, rs).value, p.document)
  {
    var w := DeleteEntities(h, p.document);
    DeleteEntitiesOutside(h, p.document);
    DeleteEntitiesSeparate(h, p.document);
    var m := MergeEntities(w, p, es);
    MergeEntitiesOutside(w, p, es);
    MergeEntitiesSeparate(w, p, es);
    RowsOwned(p.document, es, rs);
    var rows := RowsOf(p.document, es, rs);
    MergeRowsOutside(m, p, rows);
    SameOutsideFurther(h, w, m, p.document);
    SameOutsideFurther(h, m, MergeRows(m, p, rows), p.document);
  }

  lemma ChunksOutside(u: Graph, p: Provenance, cs: seq<ExtractedChunk>)
    requires Separate(u) && ReplaceChunks(u, p, cs).Ok?
    ensures Separate(ReplaceChunks(u, p, cs).value) && SameOutside(u, ReplaceChunks(u, p, cs).value, p.document)
  {
    var v := DeleteChunks(u, p.document);
    DeleteChunksOutside(u, p.document);
    DeleteChunksSeparate(u, p.document);
    CreateChunksOutside(v, p, cs);
    CreateChunksSeparate(v, p, cs);
    SameOutsideFurther(u, v, ReplaceChunks(u, p, cs).value, p.document);
  }

  /** Replacing one document leaves the nodes and edges of all others as they were. */
  lemma OthersUnchanged(g: Graph, s: Source, cs: seq<ExtractedChunk>, es: seq<ExtractedEntity>, rs: seq<ExtractedRelationship>)
    requires Separate(g) && ReplaceDocument(g, s, cs, es, rs).Ok?
    ensures SameOutside(g, ReplaceDocument(g, s, cs, es, rs).value, s.document)
  {
    var p := DocumentProvenance(s).value;
    var u := UpsertDocument(g, p, s);
    UpsertSeparate(g, p, s);
    ChunksOutside(u, p, cs);
    var h := ReplaceChunks(u, p, cs).value;
    EntitiesOutside(h, p, es, rs);
    SameOutsideFurther(g, u, h, s.document);
    SameOutsideFurther(g, h, ReplaceEntities(h, p, es, rs).value, s.document);
  }

  // ----- twice is as good as once

  /** The document stripped of all but its node. */
  function Stripped(g: Graph, p: Provenance, s: Source): Graph {
    DeleteEntities(DeleteChunks(UpsertDocument(g, p, s), p.document), p.document)
  }

  lemma StrippedNodesAgree(g: Graph, h: Graph, p: Provenance, s: Source)
    requires SameOutside(g, h, p.document)
    ensures Stripped(g, p, s).documents == Stripped(h, p, s).documents
    ensures Stripped(g, p, s).chunks == Stripped(h, p, s).chunks
    ensures Stripped(g, p, s).entities == Stripped(h, p, s).entities
  {
  }

  lemma StrippedBelongs(g: Graph, p: Provenance, s: Source, k: BelongsKey)
    requires Separate(g)
    ensures k in Stripped(g, p, s).belongs <==> k in g.belongs && g.belongs[k].document != p.document
    ensures k in Stripped(g, p, s).belongs ==> Stripped(g, p, s).belongs[k] == g.belongs[k]
  {
    assert k in g.belongs ==> BelongsOk(g, k);
  }

  lemma StrippedBelongsAgree(g: Graph, h: Graph, p: Provenance, s: Source)
    requires Separate(g) && Separate(h) && SameBelongs(g.belongs, h.belongs, p.document)
    ensures Stripped(g, p, s).belongs == Stripped(h, p, s).belongs
  {
    var m, n := Stripped(g, p, s).belongs, Stripped(h, p, s).belongs;
    forall k ensures (k in m <==> k in n) && (k in m && k in n ==> m[k] == n[k]) {
      StrippedBelongs(g, p, s, k);
      StrippedBelongs(h, p, s, k);
    }
  }

  lemma StrippedMentions(g: Graph, p: Provenance, s: Source, k: MentionKey)
    requires Separate(g)
    ensures k in Stripped(g, p, s).mentions <==> k in g.mentions && g.mentions[k].document != p.document
    ensures k in Stripped(g, p, s).mentions ==> Stripped(g, p, s).mentions[k] == g.mentions[k]
  {
    assert k in g.mentions ==> MentionOk(g, k);
  }

  lemma StrippedMentionsWithin(g: Graph, h: Graph, p: Provenance, s: Source, k: MentionKey)
    requires Separate(g) && Separate(h) && SameMentions(g.mentions, h.mentions, p.document) && k in Stripped(g, p, s).mentions
    ensures k in Stripped(h, p, s).mentions && Stripped(h, p, s).mentions[k] == Stripped(g, p, s).mentions[k]
  {
    hide Separate, Stripped;
    StrippedMentions(g, p, s, k);
    StrippedMentions(h, p, s, k);
  }

  lemma StrippedMentionsAgree(g: Graph, h: Graph, p: Provenance, s: Source)
    requires Separate(g) && Separate(h) && SameMentions(g.mentions, h.mentions, p.document)
    ensures Stripped(g, p, s).mentions == Stripped(h, p, s).mentions
  {
    hide Separate, Stripped;
    var m, n := Stripped(g, p, s).mentions, Stripped(h, p, s).mentions;
    forall k | k in m ensures k in n && n[k] == m[k] { StrippedMentionsWithin(g, h, p, s, k); }
    forall k | k in n ensures k in m { StrippedMentionsWithin(h, g, p, s, k); }
  }

  lemma StrippedFacts(g: Graph, p: Provenance, s: Source, k: FactKey)
    requires Separate(g)
    ensures k in Stripped(g, p, s).facts <==> k in g.facts && g.facts[k].provenance.document != p.document
    ensures k in Stripped(g, p, s).facts ==> Stripped(g, p, s).facts[k] == g.facts[k]
  {
    assert k in g.facts ==> FactOk(g, k);
  }

  lemma StrippedFactsAgree(g: Graph, h: Graph, p: Provenance, s: Source)
    requires Separate(g) && Separate(h) && SameFacts(g.facts, h.facts, p.document)
    ensures Stripped(g, p, s).facts == Stripped(h, p, s).facts
  {
    var m, n := Stripped(g, p, s).facts, Stripped(h, p, s).facts;
    forall k ensures (k in m <==> k in n) && (k in m && k in n ==> m[k] == n[k]) {
      StrippedFacts(g, p, s, k);
      StrippedFacts(h, p, s, k);
    }
  }

  /** Graphs that differ in the document only are the same once it is stripped. */
  lemma StrippedAgree(g: Graph, h: Graph, p: Provenance, s: Source)
    requires Separate(g) && Separate(h) && SameOutside(g, h, p.document)
    ensures Stripped(g, p, s) == Stripped(h, p, s)
  {
    StrippedNodesAgree(g, h, p, s);
    StrippedBelongsAgree(g, h, p, s);
    StrippedMentionsAgree(g, h, p, s);
    StrippedFactsAgree(g, h, p, s);
  }

  lemma DeleteEntitiesPastChunk(g: Graph, p: Provenance, c: ExtractedChunk, d: nat)
    requires CreateChunk(g, p, c).Ok?
    ensures CreateChunk(DeleteEntities(g, d), p, c) == Ok(DeleteEntities(CreateChunk(g, p, c).value, d))
  {
  }

  lemma {:induction false} DeleteEntitiesPastChunks(g: Graph, p: Provenance, cs: seq<ExtractedChunk>, d: nat)
    ensures CreateChunks(g, p, cs).Ok? ==> CreateChunks(DeleteEntities(g, d), p, cs) == Ok(DeleteEntities(CreateChunks(g, p, cs).value, d))
    ensures CreateChunks(g, p, cs).Err? ==> CreateChunks(DeleteEntities(g, d), p, cs) == CreateChunks(g, p, cs)
  {
    if cs != [] {
      DeleteEntitiesPastChunks(g, p, cs[..|cs| - 1], d);
      var before := CreateChunks(g, p, cs[..|cs| - 1]);
      if before.Ok? && CreateChunk(before.value, p, cs[|cs| - 1]).Ok? {
        DeleteEntitiesPastChunk(before.value, p, cs[|cs| - 1], d);
      }
    }
  }

  /** What a replacement makes of the stripped graph. */
  ghost function Rebuilt(t: Graph, p: Provenance, cs: seq<ExtractedChunk>, es: seq<ExtractedEntity>, rs: seq<ExtractedRelationship>): Result<Graph> {
    match CreateChunks(t, p, cs)
    case Err(code) => Err(code)
    case Ok(h) =>
      if Anchored(h, p.document, es) != |es| then Err("ChunkNodeMissingError")
      else Ok(MergeRows(MergeEntities(h, p, es), p, RowsOf(p.document, es, rs)))
  }

  lemma ReplaceIsRebuild(g: Graph, s: Source, cs: seq<ExtractedChunk>, es: seq<ExtractedEntity>, rs: seq<ExtractedRelationship>)
    requires DocumentProvenance(s).Ok?
    ensures var p := DocumentProvenance(s).value; ReplaceDocument(g, s, cs, es, rs) == Rebuilt(Stripped(g, p, s), p, cs, es, rs)
  {
    var p := DocumentProvenance(s).value;
    DeleteEntitiesPastChunks(DeleteChunks(UpsertDocument(g, p, s), p.document), p, cs, p.document);
  }

  /** Replacing a document twice with the same input is replacing it once. */
  lemma TwiceIsOnce(g: Graph, s: Source, cs: seq<ExtractedChunk>, es: seq<ExtractedEntity>, rs: seq<ExtractedRelationship>)
    requires Separate(g) && ReplaceDocument(g, s, cs, es, rs).Ok?
    ensures ReplaceDocument(ReplaceDocument(g, s, cs, es, rs).value, s, cs, es, rs) == ReplaceDocument(g, s, cs, es, rs)
  {
    var p := DocumentProvenance(s).value;
    var h := ReplaceDocument(g, s, cs, es, rs).value;
    ReplaceKeepsSeparate(g, s, cs, es, rs);
    OthersUnchanged(g, s, cs, es, rs);
    StrippedAgree(g, h, p, s);
    ReplaceIsRebuild(g, s, cs, es, rs);
    ReplaceIsRebuild(h, s, cs, es, rs);
  }

  // ----- when a replacement fails

  lemma {:induction false} AnchoredAll(g: Graph, d: nat, es: seq<ExtractedEntity>)
    ensures Anchored(g, d, es) <= |es|
    ensures Anchored(g, d, es) == |es| <==> forall i :: 0 <= i < |es| ==> ChunkId(d, es[i].chunkIndex) in g.chunks
  {
    if es != [] { AnchoredAll(g, d, es[..|es| - 1]); }
  }

  /** Writing the entities fails exactly when a mention names a chunk that is not there. */
  lemma FailsIffChunkMissing(g: Graph, p: Provenance, es: seq<ExtractedEntity>, rs: seq<ExtractedRelationship>)
    ensures ReplaceEntities(g, p, es, rs).Err? <==> exists i :: 0 <= i < |es| && ChunkId(p.document, es[i].chunkIndex) !in g.chunks
  {
    AnchoredAll(DeleteEntities(g, p.document), p.document, es);
  }

  // ----- what the document holds afterwards

  lemma {:induction false} CreatedChunks(g: Graph, p: Provenance, cs: seq<ExtractedChunk>, id: string)
    requires CreateChunks(g, p, cs).Ok?
    ensures var h := CreateChunks(g, p, cs).value;
            && (id in h.chunks <==> id in g.chunks || exists i :: 0 <= i < |cs| && id == ChunkId(p.document, cs[i].index))
            && (id in g.chunks ==> id in h.chunks && h.chunks[id] == g.chunks[id])
            && forall i :: 0 <= i < |cs| && id == ChunkId(p.document, cs[i].index) ==> id in h.chunks && h.chunks[id] == ChunkNode(cs[i].index, cs[i].text, p)
  {
    if cs != [] {
      CreatedChunks(g, p, cs[..|cs| - 1], id);
      var n := |cs| - 1;
      assert forall i :: 0 <= i < n ==> cs[..n][i] == cs[i];
      assert cs[n] == cs[|cs| - 1];
    }
  }

  /** After a replacement the document's chunks are exactly the extracted ones. */
  lemma ChunksAreExact(g: Graph, p: Provenance, cs: seq<ExtractedChunk>, id: string)
    requires Separate(g) && ReplaceChunks(g, p, cs).Ok?
    ensures var h := ReplaceChunks(g, p, cs).value;
            && (id in ChunksOf(h, p.document) <==> exists i :: 0 <= i < |cs| && id == ChunkId(p.document, cs[i].index))
            && forall i :: 0 <= i < |cs| ==> ChunkId(p.document, cs[i].index) in h.chunks && h.chunks[ChunkId(p.document, cs[i].index)].text == cs[i].text
  {
    var cleared := DeleteChunks(g, p.document);
    CreatedChunks(cleared, p, cs, id);
    forall i | 0 <= i < |cs|
      ensures var h := ReplaceChunks(g, p, cs).value; ChunkId(p.document, cs[i].index) in h.chunks && h.chunks[ChunkId(p.document, cs[i].index)].text == cs[i].text
    {
      CreatedChunks(cleared, p, cs, ChunkId(p.document, cs[i].index));
    }
  }

  // ----- any number of replacements

  datatype Input = Input(source: Source, chunks: seq<ExtractedChunk>, entities: seq<ExtractedEntity>, relationships: seq<ExtractedRelationship>)

  /** A replacement that fails is rolled back. */
  ghost function After(g: Graph, inputs: seq<Input>): Graph {
    if inputs == [] then g
    else
      var h, i := After(g, inputs[..|inputs| - 1]), inputs[|inputs| - 1];
      var r := ReplaceDocument(h, i.source, i.chunks, i.entities, i.relationships);
      if r.Ok? then r.value else h
  }

  lemma {:induction false} NoEdgeEverCrosses(g: Graph, inputs: seq<Input>)
    requires Separate(g)
    ensures Separate(After(g, inputs))
  {
    if inputs != [] {
      NoEdgeEverCrosses(g, inputs[..|inputs| - 1]);
      var h, i := After(g, inputs[..|inputs| - 1]), inputs[|inputs| - 1];
      if ReplaceDocument(h, i.source, i.chunks, i.entities, i.relationships).Ok? {
        ReplaceKeepsSeparate(h, i.source, i.chunks, i.entities, i.relationships);
      }
    }
  }
}
