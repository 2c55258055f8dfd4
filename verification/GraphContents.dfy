/** What the graph holds of a document after a replacement: exactly its entities, its mentions and the
    relationships both of whose ends are known and unambiguous, from their sources to their targets. */
module GraphContents {
  import opened ExtractionGraph
  import opened GraphReplacement
  import opened GraphWriter

  // ----- what the extraction says

  /** The entity at i is the last one with its id: its name and type are the ones the node keeps. */
  predicate LastWithId(d: nat, es: seq<ExtractedEntity>, id: string, i: nat) {
    i < |es| && IdOf(d, es[i]) == id && forall j :: i < j < |es| ==> IdOf(d, es[j]) != id
  }

  /** The name, with the type if one is given, stands for the node with the id and for no other. */
  ghost predicate StandsFor(d: nat, es: seq<ExtractedEntity>, name: string, kind: string, id: string) {
    && (exists i :: 0 <= i < |es| && Named(es[i], name, kind) && IdOf(d, es[i]) == id)
    && (forall i :: 0 <= i < |es| && Named(es[i], name, kind) ==> IdOf(d, es[i]) == id)
  }

  predicate Named(e: ExtractedEntity, name: string, kind: string) {
    e.name == name && (kind != "" ==> e.kind == kind)
  }

  /** The relationship joins the two nodes, in this direction. */
  ghost predicate Joins(d: nat, es: seq<ExtractedEntity>, r: ExtractedRelationship, k: FactKey) {
    k.kind == r.kind && StandsFor(d, es, r.sourceName, r.sourceType, k.source) && StandsFor(d, es, r.targetName, r.targetType, k.target)
  }

  ghost predicate LastJoining(d: nat, es: seq<ExtractedEntity>, rs: seq<ExtractedRelationship>, k: FactKey, i: nat) {
    i < |rs| && Joins(d, es, rs[i], k) && forall j :: i < j < |rs| ==> !Joins(d, es, rs[j], k)
  }

  ghost predicate HoldsEntities(g: Graph, d: nat, es: seq<ExtractedEntity>) {
    && (forall id :: id in g.entities && g.entities[id].provenance.document == d <==> exists i :: 0 <= i < |es| && IdOf(d, es[i]) == id)
    && (forall id, i: nat :: LastWithId(d, es, id, i) ==> id in g.entities && g.entities[id].name == es[i].name && g.entities[id].kind == es[i].kind)
    && (forall k :: k in g.mentions && g.mentions[k].document == d <==>
          exists i :: 0 <= i < |es| && ChunkId(d, es[i].chunkIndex) == k.chunk && IdOf(d, es[i]) == k.entity)
  }

  ghost predicate HoldsFacts(g: Graph, d: nat, es: seq<ExtractedEntity>, rs: seq<ExtractedRelationship>) {
    && (forall k :: k in g.facts && g.facts[k].provenance.document == d <==> exists i :: 0 <= i < |rs| && Joins(d, es, rs[i], k))
    && (forall k, i: nat :: LastJoining(d, es, rs, k, i) ==> k in g.facts && g.facts[k].chunkIndex == rs[i].chunkIndex)
  }

  // ----- entities

  ghost predicate WithId(d: nat, es: seq<ExtractedEntity>, id: string) {
    exists i :: 0 <= i < |es| && IdOf(d, es[i]) == id
  }

  ghost predicate Mentioned(d: nat, es: seq<ExtractedEntity>, k: MentionKey) {
    exists i :: 0 <= i < |es| && ChunkId(d, es[i].chunkIndex) == k.chunk && IdOf(d, es[i]) == k.entity
  }

  predicate AllAnchored(g: Graph, d: nat, es: seq<ExtractedEntity>) {
    forall i :: 0 <= i < |es| ==> ChunkId(d, es[i].chunkIndex) in g.chunks
  }

  lemma WithIdMore(d: nat, es: seq<ExtractedEntity>, e: ExtractedEntity)
    ensures forall id :: WithId(d, es + [e], id) <==> WithId(d, es, id) || IdOf(d, e) == id
    ensures forall k :: Mentioned(d, es + [e], k) <==> Mentioned(d, es, k) || (ChunkId(d, e.chunkIndex) == k.chunk && IdOf(d, e) == k.entity)
  {
    var more := es + [e];
    assert more[|es|] == e && forall i :: 0 <= i < |es| ==> more[i] == es[i];
  }

  lemma {:induction false} MergingKeeps(g: Graph, p: Provenance, es: seq<ExtractedEntity>)
    ensures var h := MergeEntities(g, p, es); h.chunks == g.chunks && h.facts == g.facts
  {
    if es != [] { MergingKeeps(g, p, es[..|es| - 1]); }
  }

  /** The node with the id, once the entities are merged. */
  lemma {:induction false} EntityMerged(g: Graph, p: Provenance, es: seq<ExtractedEntity>, id: string)
    requires AllAnchored(g, p.document, es)
    ensures var h := MergeEntities(g, p, es);
            && (id in h.entities <==> id in g.entities || WithId(p.document, es, id))
            && (id in h.entities ==> if WithId(p.document, es, id) then h.entities[id].provenance == p else h.entities[id] == g.entities[id])
  {
    if es != [] {
      var n := |es| - 1;
      assert es[..n] + [es[n]] == es && es[..n][..n] == es[..n];
      EntityMerged(g, p, es[..n], id);
      MergingKeeps(g, p, es[..n]);
      WithIdMore(p.document, es[..n], es[n]);
      hide WithId, IdOf, ChunkId;
    }
  }

  lemma {:induction false} MentionMerged(g: Graph, p: Provenance, es: seq<ExtractedEntity>, k: MentionKey)
    requires AllAnchored(g, p.document, es)
    ensures var h := MergeEntities(g, p, es);
            && (k in h.mentions <==> k in g.mentions || Mentioned(p.document, es, k))
            && (k in h.mentions ==> if Mentioned(p.document, es, k) then h.mentions[k] == p else h.mentions[k] == g.mentions[k])
  {
    if es != [] {
      var n := |es| - 1;
      assert es[..n] + [es[n]] == es;
      MentionMerged(g, p, es[..n], k);
      MergingKeeps(g, p, es[..n]);
      WithIdMore(p.document, es[..n], es[n]);
      hide Mentioned, IdOf, ChunkId;
    }
  }

  lemma {:induction false} LastNames(g: Graph, p: Provenance, es: seq<ExtractedEntity>, id: string, i: nat)
    requires AllAnchored(g, p.document, es) && LastWithId(p.document, es, id, i)
    ensures id in MergeEntities(g, p, es).entities && MergeEntities(g, p, es).entities[id] == EntityNode(es[i].name, es[i].kind, p)
  {
    hide IdOf, ChunkId;
    var n := |es| - 1;
    MergingKeeps(g, p, es[..n]);
    if i < n {
      assert IdOf(p.document, es[n]) != id;
      LastNames(g, p, es[..n], id, i);
    }
  }

  // ----- rows

  lemma {:induction false} RowsKeepEntities(g: Graph, p: Provenance, rows: seq<FactRow>)
    ensures var h := MergeRows(g, p, rows); h.entities == g.entities && h.mentions == g.mentions && h.chunks == g.chunks
  {
    if rows != [] { RowsKeepEntities(g, p, rows[..|rows| - 1]); }
  }

  ghost predicate RowFor(rows: seq<FactRow>, k: FactKey) {
    exists i :: 0 <= i < |rows| && rows[i].key == k
  }

  predicate EndsIn(g: Graph, k: FactKey) {
    k.source in g.entities && k.target in g.entities
  }

  lemma RowForMore(rows: seq<FactRow>, row: FactRow)
    ensures forall k :: RowFor(rows + [row], k) <==> RowFor(rows, k) || row.key == k
  {
    var more := rows + [row];
    assert more[|rows|] == row && forall i :: 0 <= i < |rows| ==> more[i] == rows[i];
  }

  lemma {:induction false} RowMerged(g: Graph, p: Provenance, rows: seq<FactRow>, k: FactKey)
    ensures var h := MergeRows(g, p, rows);
            && h.entities == g.entities
            && (k in h.facts <==> k in g.facts || (RowFor(rows, k) && EndsIn(g, k)))
            && (k in h.facts ==> if RowFor(rows, k) && EndsIn(g, k) then h.facts[k].provenance == p else h.facts[k] == g.facts[k])
  {
    if rows != [] {
      var n := |rows| - 1;
      RowMerged(g, p, rows[..n], k);
      RowForMore(rows[..n], rows[n]);
      assert rows == rows[..n] + [rows[n]];
      hide RowFor;
    }
  }

  // ----- relationships

  lemma OnlyOne(d: nat, es: seq<ExtractedEntity>, name: string, kind: string, id: string)
    ensures StandsFor(d, es, name, kind, id) <==> EndpointIds(d, es, name, kind) == {id}
  {
    hide IdOf;
    var ids := EndpointIds(d, es, name, kind);
    forall i | 0 <= i < |es| ensures Named(es[i], name, kind) <==> Names(es[i], name, kind) {}
    if ids == {id} {
      assert id in ids;
      forall i | 0 <= i < |es| && Named(es[i], name, kind) ensures IdOf(d, es[i]) == id { assert IdOf(d, es[i]) in ids; }
    }
    if StandsFor(d, es, name, kind, id) {
      forall x ensures x in ids <==> x == id {}
    }
  }

  /** A relationship is resolvable exactly if it joins two nodes, and then its key is theirs. */
  lemma JoinsByKey(d: nat, es: seq<ExtractedEntity>, r: ExtractedRelationship, k: FactKey)
    ensures Joins(d, es, r, k) <==> Resolvable(d, es, r) && FactKeyOf(d, es, r) == k
  {
    OnlyOne(d, es, r.sourceName, r.sourceType, k.source);
    OnlyOne(d, es, r.targetName, r.targetType, k.target);
    hide StandsFor, EndpointIds;
    var sources, targets := EndpointIds(d, es, r.sourceName, r.sourceType), EndpointIds(d, es, r.targetName, r.targetType);
    if sources == {k.source} && targets == {k.target} {
      assert |sources| == 1 && |targets| == 1;
      assert Only(sources) in {k.source} && Only(targets) in {k.target};
    }
  }

  ghost predicate SomeJoins(d: nat, es: seq<ExtractedEntity>, rs: seq<ExtractedRelationship>, k: FactKey) {
    exists i :: 0 <= i < |rs| && Joins(d, es, rs[i], k)
  }

  lemma SomeJoinsMore(d: nat, es: seq<ExtractedEntity>, rs: seq<ExtractedRelationship>, r: ExtractedRelationship)
    ensures forall k :: SomeJoins(d, es, rs + [r], k) <==> SomeJoins(d, es, rs, k) || Joins(d, es, r, k)
  {
    var more := rs + [r];
    assert more[|rs|] == r && forall i :: 0 <= i < |rs| ==> more[i] == rs[i];
  }

  lemma {:induction false} RowsOfJoining(d: nat, es: seq<ExtractedEntity>, rs: seq<ExtractedRelationship>, k: FactKey)
    ensures RowFor(RowsOf(d, es, rs), k) <==> SomeJoins(d, es, rs, k)
  {
    if rs != [] {
      var n := |rs| - 1;
      RowsOfJoining(d, es, rs[..n], k);
      SomeJoinsMore(d, es, rs[..n], rs[n]);
      assert rs == rs[..n] + [rs[n]];
      JoinsByKey(d, es, rs[n], k);
      hide RowFor, SomeJoins, Joins, Resolvable, FactKeyOf;
      if Resolvable(d, es, rs[n]) {
        RowForMore(RowsOf(d, es, rs[..n]), FactRow(FactKeyOf(d, es, rs[n]), rs[n].chunkIndex));
      } else {
        assert RowsOf(d, es, rs) == RowsOf(d, es, rs[..n]);
      }
    }
  }

  lemma {:induction false} LastRow(g: Graph, p: Provenance, es: seq<ExtractedEntity>, rs: seq<ExtractedRelationship>, k: FactKey, i: nat)
    requires LastJoining(p.document, es, rs, k, i) && EndsIn(g, k)
    ensures k in MergeRows(g, p, RowsOf(p.document, es, rs)).facts
    ensures MergeRows(g, p, RowsOf(p.document, es, rs)).facts[k] == FactEdge(rs[i].chunkIndex, p)
    decreases |rs|
  {
    hide Joins, Resolvable, FactKeyOf;
    var d, n := p.document, |rs| - 1;
    JoinsByKey(d, es, rs[n], k);
    var init := RowsOf(d, es, rs[..n]);
    RowsKeepEntities(g, p, init);
    if i < n {
      assert !Joins(d, es, rs[n], k);
      LastRow(g, p, es, rs[..n], k, i);
    }
    if Resolvable(d, es, rs[n]) {
      var row := FactRow(FactKeyOf(d, es, rs[n]), rs[n].chunkIndex);
      assert RowsOf(d, es, rs) == init + [row];
      assert MergeRows(g, p, init + [row]) == MergeRow(MergeRows(g, p, init), p, row) by { assert (init + [row])[..|init|] == init; }
    } else {
      assert RowsOf(d, es, rs) == init;
    }
  }

  // ----- the whole replacement

  lemma EntitiesHeld(g: Graph, p: Provenance, es: seq<ExtractedEntity>, rs: seq<ExtractedRelationship>)
    requires Separate(g) && ReplaceEntities(g, p, es, rs).Ok?
    ensures HoldsEntities(ReplaceEntities(g, p, es, rs).value, p.document, es)
  {
    var d, cleared := p.document, DeleteEntities(g, p.document);
    AnchoredAll(cleared, d, es);
    DeleteEntitiesSeparate(g, d);
    var h := MergeEntities(cleared, p, es);
    var rows := RowsOf(d, es, rs);
    RowsKeepEntities(h, p, rows);
    var after := MergeRows(h, p, rows);
    hide Resolvable, RowsOf, MergeRows, MergeEntities, IdOf, ChunkId;
    forall id ensures id in after.entities && after.entities[id].provenance.document == d <==> exists i :: 0 <= i < |es| && IdOf(d, es[i]) == id {
      EntityMerged(cleared, p, es, id);
    }
    forall id, i: nat | LastWithId(d, es, id, i) ensures id in after.entities && after.entities[id].name == es[i].name && after.entities[id].kind == es[i].kind {
      LastNames(cleared, p, es, id, i);
    }
    forall k ensures k in after.mentions && after.mentions[k].document == d
                <==> exists i :: 0 <= i < |es| && ChunkId(d, es[i].chunkIndex) == k.chunk && IdOf(d, es[i]) == k.entity {
      MentionMerged(cleared, p, es, k);
      assert k in cleared.mentions ==> MentionOk(cleared, k);
    }
  }

  lemma JoinedAreHeld(g: Graph, p: Provenance, es: seq<ExtractedEntity>, r: ExtractedRelationship, k: FactKey)
    requires AllAnchored(g, p.document, es) && Joins(p.document, es, r, k)
    ensures EndsIn(MergeEntities(g, p, es), k)
  {
    hide IdOf;
    EntityMerged(g, p, es, k.source);
    EntityMerged(g, p, es, k.target);
  }

  /** Which facts of the document there are, once the rows are merged into a graph without any. */
  lemma FactHeld(cleared: Graph, p: Provenance, es: seq<ExtractedEntity>, rs: seq<ExtractedRelationship>, k: FactKey)
    requires AllAnchored(cleared, p.document, es) && (k in cleared.facts ==> cleared.facts[k].provenance.document != p.document)
    ensures var after := MergeRows(MergeEntities(cleared, p, es), p, RowsOf(p.document, es, rs));
            k in after.facts && after.facts[k].provenance.document == p.document <==> SomeJoins(p.document, es, rs, k)
  {
    hide RowsOf, MergeRows, MergeEntities, Joins, AllAnchored, EndsIn, RowFor;
    MergingKeeps(cleared, p, es);
    RowMerged(MergeEntities(cleared, p, es), p, RowsOf(p.document, es, rs), k);
    RowsOfJoining(p.document, es, rs, k);
    if i :| 0 <= i < |rs| && Joins(p.document, es, rs[i], k) { JoinedAreHeld(cleared, p, es, rs[i], k); }
  }

  lemma ClearedOfFacts(g: Graph, d: nat, k: FactKey)
    requires Separate(g) && k in DeleteEntities(g, d).facts
    ensures DeleteEntities(g, d).facts[k].provenance.document != d
  {
    assert FactOk(g, k);
  }

  lemma FactsHeld(g: Graph, p: Provenance, es: seq<ExtractedEntity>, rs: seq<ExtractedRelationship>)
    requires Separate(g) && ReplaceEntities(g, p, es, rs).Ok?
    ensures HoldsFacts(ReplaceEntities(g, p, es, rs).value, p.document, es, rs)
  {
    var d, cleared := p.document, DeleteEntities(g, p.document);
    AnchoredAll(cleared, d, es);
    var h := MergeEntities(cleared, p, es);
    var after := MergeRows(h, p, RowsOf(d, es, rs));
    hide Resolvable, RowsOf, MergeRows, MergeEntities, IdOf, ChunkId, Joins, Separate, DeleteEntities;
    forall k ensures k in after.facts && after.facts[k].provenance.document == d <==> exists i :: 0 <= i < |rs| && Joins(d, es, rs[i], k) {
      if k in cleared.facts { ClearedOfFacts(g, d, k); }
      FactHeld(cleared, p, es, rs, k);
    }
    forall k, i: nat | LastJoining(d, es, rs, k, i) ensures k in after.facts && after.facts[k].chunkIndex == rs[i].chunkIndex {
      JoinedAreHeld(cleared, p, es, rs[i], k);
      LastRow(h, p, es, rs, k, i);
    }
  }

  /** After a replacement the graph holds of the document exactly what was extracted: its chunks, its
      entities with their mentions, and the relationships that join two nodes, each in its direction. */
  lemma HoldsWhatWasExtracted(g: Graph, s: Source, cs: seq<ExtractedChunk>, es: seq<ExtractedEntity>, rs: seq<ExtractedRelationship>)
    requires Separate(g) && ReplaceDocument(g, s, cs, es, rs).Ok?
    ensures var h := ReplaceDocument(g, s, cs, es, rs).value;
            HoldsChunks(h, s.document, cs) && HoldsEntities(h, s.document, es) && HoldsFacts(h, s.document, es, rs)
  {
    var p := DocumentProvenance(s).value;
    UpsertSeparate(g, p, s);
    var u := UpsertDocument(g, p, s);
    ChunksOutside(u, p, cs);
    hide Separate, ReplaceEntities, ReplaceChunks, HoldsEntities, HoldsFacts, HoldsChunks;
    EntitiesHeld(ReplaceChunks(u, p, cs).value, p, es, rs);
    FactsHeld(ReplaceChunks(u, p, cs).value, p, es, rs);
    ReplacedHolds(g, s, cs, es, rs);
  }

  lemma {:induction false} MergesKeepDocuments(g: Graph, p: Provenance, es: seq<ExtractedEntity>)
    ensures MergeEntities(g, p, es).documents == g.documents
    decreases |es|
  {
    if es != [] { MergesKeepDocuments(g, p, es[..|es| - 1]); }
  }

  lemma {:induction false} RowsKeepDocuments(g: Graph, p: Provenance, rows: seq<FactRow>)
    ensures MergeRows(g, p, rows).documents == g.documents
    decreases |rows|
  {
    if rows != [] { RowsKeepDocuments(g, p, rows[..|rows| - 1]); }
  }

  lemma {:induction false} ChunksKeepDocuments(g: Graph, p: Provenance, cs: seq<ExtractedChunk>)
    ensures CreateChunks(g, p, cs).Ok? ==> CreateChunks(g, p, cs).value.documents == g.documents
    decreases |cs|
  {
    if cs != [] { ChunksKeepDocuments(g, p, cs[..|cs| - 1]); }
  }

  /** The document's node shows what its row does, and no other node of a document changed. */
  lemma ShowsItsRow(g: Graph, s: Source, cs: seq<ExtractedChunk>, es: seq<ExtractedEntity>, rs: seq<ExtractedRelationship>)
    requires ReplaceDocument(g, s, cs, es, rs).Ok?
    ensures ReplaceDocument(g, s, cs, es, rs).value.documents
         == g.documents[s.document := DocumentNode(Provenance(s.document, s.connection, s.driveFile, s.version), s.contentHash, s.title)]
  {
    hide CreateChunks, MergeEntities, MergeRows, RowsOf, Anchored;
    var p := DocumentProvenance(s).value;
    var u := UpsertDocument(g, p, s);
    ChunksKeepDocuments(DeleteChunks(u, p.document), p, cs);
    var cleared := DeleteEntities(ReplaceChunks(u, p, cs).value, p.document);
    MergesKeepDocuments(cleared, p, es);
    RowsKeepDocuments(MergeEntities(cleared, p, es), p, RowsOf(p.document, es, rs));
  }

  // ----- when a replacement succeeds

  predicate NoIndexTwice(cs: seq<ExtractedChunk>) {
    forall i, j :: 0 <= i < j < |cs| ==> cs[i].index != cs[j].index
  }

  ghost predicate HasIndex(cs: seq<ExtractedChunk>, index: nat) {
    exists i :: 0 <= i < |cs| && cs[i].index == index
  }

  lemma {:induction false} CreatedExactly(g: Graph, p: Provenance, cs: seq<ExtractedChunk>)
    requires forall i: nat :: ChunkId(p.document, i) !in g.chunks
    ensures CreateChunks(g, p, cs).Ok? <==> NoIndexTwice(cs)
    ensures CreateChunks(g, p, cs).Ok? ==> forall n: nat :: ChunkId(p.document, n) in CreateChunks(g, p, cs).value.chunks <==> HasIndex(cs, n)
    decreases |cs|
  {
    hide ChunkId;
    if cs != [] {
      var init, last := cs[..|cs| - 1], cs[|cs| - 1];
      assert cs == init + [last];
      CreatedExactly(g, p, init);
      IndexMore(init, last);
      forall n: nat ensures ChunkId(p.document, n) == ChunkId(p.document, last.index) <==> n == last.index {
        if ChunkId(p.document, n) == ChunkId(p.document, last.index) { ChunkIdInjective(p.document, n, p.document, last.index); }
      }
    }
  }

  lemma IndexMore(init: seq<ExtractedChunk>, last: ExtractedChunk)
    ensures NoIndexTwice(init + [last]) <==> NoIndexTwice(init) && !HasIndex(init, last.index)
    ensures forall n: nat :: HasIndex(init + [last], n) <==> HasIndex(init, n) || n == last.index
  {
    var cs := init + [last];
    assert cs[|init|] == last && forall i :: 0 <= i < |init| ==> cs[i] == init[i];
    forall n: nat ensures HasIndex(cs, n) <==> HasIndex(init, n) || n == last.index {
      if HasIndex(init, n) {
        var i :| 0 <= i < |init| && init[i].index == n;
        assert cs[i].index == n;
      }
    }
  }

  lemma NoneLeft(g: Graph, d: nat, i: nat)
    requires ChunksOk(g)
    ensures ChunkId(d, i) !in DeleteChunks(g, d).chunks
  {
    if ChunkId(d, i) in g.chunks { ChunkOfOwnId(g, d, i); }
  }

  /** A replacement succeeds exactly if the row is identified, no two chunks bear one index, and every
      mention names one of the chunks. */
  lemma ReplacesExactly(g: Graph, s: Source, cs: seq<ExtractedChunk>, es: seq<ExtractedEntity>, rs: seq<ExtractedRelationship>)
    requires Separate(g)
    ensures ReplaceDocument(g, s, cs, es, rs).Ok? <==>
      && s.document > 0 && s.connection > 0 && s.driveFile != "" && NoIndexTwice(cs)
      && forall i :: 0 <= i < |es| ==> HasIndex(cs, es[i].chunkIndex)
  {
    hide CreateChunks, MergeEntities, MergeRows, RowsOf, Anchored, HasIndex, NoIndexTwice, ChunkId, ReplaceEntities;
    if s.document > 0 && s.connection > 0 && s.driveFile != "" {
      var p := DocumentProvenance(s).value;
      var u := UpsertDocument(g, p, s);
      forall i: nat ensures ChunkId(p.document, i) !in DeleteChunks(u, p.document).chunks { NoneLeft(u, p.document, i); }
      CreatedExactly(DeleteChunks(u, p.document), p, cs);
      if NoIndexTwice(cs) { FailsIffChunkMissing(ReplaceChunks(u, p, cs).value, p, es, rs); }
    }
  }

  /** A relationship's node bears the name it was found by exactly if the last entity with its id does. */
  lemma BearsNameExactly(g: Graph, d: nat, es: seq<ExtractedEntity>, name: string, kind: string, id: string, i: nat)
    requires HoldsEntities(g, d, es) && StandsFor(d, es, name, kind, id) && LastWithId(d, es, id, i)
    ensures id in g.entities && (g.entities[id].name == name <==> es[i].name == name)
  {
    hide IdOf, ChunkId;
  }

  /** Two spellings of one normalized name share a node, and the later one names it. */
  lemma LaterSpellingNames(g: Graph, p: Provenance, kind: string)
    requires ChunkId(p.document, 0) in g.chunks
    ensures var es, id := [ExtractedEntity(kind, "Acme", "acme", 0), ExtractedEntity(kind, "ACME", "acme", 0)], EntityId(p.document, kind, "acme");
            && StandsFor(p.document, es, "Acme", kind, id)
            && id in MergeEntities(g, p, es).entities && MergeEntities(g, p, es).entities[id].name == "ACME"
  {
    var es, id := [ExtractedEntity(kind, "Acme", "acme", 0), ExtractedEntity(kind, "ACME", "acme", 0)], EntityId(p.document, kind, "acme");
    assert Named(es[0], "Acme", kind) && IdOf(p.document, es[0]) == id && IdOf(p.document, es[1]) == id;
    LastNames(g, p, es, id, 1);
  }
}
