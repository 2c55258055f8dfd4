/** Replacing one document's chunks, entities and relationships in the property graph. */
module GraphWriter {
  import opened Outcomes
  import opened Text

  datatype Provenance = Provenance(document: nat, connection: nat, driveFile: string, version: string)

  datatype DocumentNode = DocumentNode(provenance: Provenance, contentHash: string, title: string)
  datatype ChunkNode = ChunkNode(index: nat, text: string, provenance: Provenance)
  datatype EntityNode = EntityNode(name: string, kind: string, provenance: Provenance)
  datatype FactEdge = FactEdge(chunkIndex: nat, provenance: Provenance)

  datatype BelongsKey = BelongsKey(chunk: string, document: nat)
  datatype MentionKey = MentionKey(chunk: string, entity: string)
  datatype FactKey = FactKey(kind: string, source: string, target: string)

  /** Nodes by their unique ids, edges by their ends; a MERGE finds an edge by its ends. */
  datatype Graph = Graph(documents: map<nat, DocumentNode>, chunks: map<string, ChunkNode>, entities: map<string, EntityNode>,
                         belongs: map<BelongsKey, Provenance>, mentions: map<MentionKey, Provenance>, facts: map<FactKey, FactEdge>)

  // ----- ids

  function ChunkId(d: nat, index: nat): string {
    Decimal(d) + (":" + Decimal(index))
  }

  /** `" ".join(name.split()).lower()`, whatever it makes of the name. */
  function EntityId(d: nat, kind: string, normalizedName: string): string {
    Decimal(d) + (":" + kind + ":" + normalizedName)
  }

  /** The id begins with the document's number and a colon. */
  ghost predicate OwnedId(id: string, d: nat) {
    exists rest :: id == Decimal(d) + (":" + rest)
  }

  /** No id is owned by two documents. */
  lemma OwnerIsUnique(id: string, c: nat, d: nat)
    requires OwnedId(id, c) && OwnedId(id, d)
    ensures c == d
  {
    var a :| id == Decimal(c) + (":" + a);
    var b :| id == Decimal(d) + (":" + b);
    DecimalPrefix(c, d, ":" + a, ":" + b);
  }

  lemma EntityIdOwned(d: nat, kind: string, name: string)
    ensures OwnedId(EntityId(d, kind, name), d)
  {
    assert EntityId(d, kind, name) == Decimal(d) + (":" + (kind + ":" + name)) by {
      assert ":" + kind + ":" + name == ":" + (kind + ":" + name);
    }
  }

  lemma ChunkIdInjective(c: nat, i: nat, d: nat, j: nat)
    requires ChunkId(c, i) == ChunkId(d, j)
    ensures c == d && i == j
  {
    DecimalPrefix(c, d, ":" + Decimal(i), ":" + Decimal(j));
    assert (":" + Decimal(i))[1..] == Decimal(i) && (":" + Decimal(j))[1..] == Decimal(j);
    DecimalInjective(i, j);
  }

  // ----- the input of a replacement

  datatype ExtractedChunk = ExtractedChunk(index: nat, text: string)
  datatype ExtractedEntity = ExtractedEntity(kind: string, name: string, normalizedName: string, chunkIndex: nat)
  datatype ExtractedRelationship = ExtractedRelationship(kind: string, sourceName: string, targetName: string, chunkIndex: nat,
                                                         sourceType: string, targetType: string)

  /** What identifies the document row, and what its node shows. */
  datatype Source = Source(document: nat, connection: nat, driveFile: string, version: string, contentHash: string, title: string)

  /** `document_provenance` */
  function DocumentProvenance(s: Source): Result<Provenance> {
    if s.document == 0 || s.connection == 0 || s.driveFile == "" then Err("MissingProvenanceError")
    else Ok(Provenance(s.document, s.connection, s.driveFile, s.version))
  }

  function IdOf(d: nat, e: ExtractedEntity): string {
    EntityId(d, e.kind, e.normalizedName)
  }

  // ----- deleting

  function ChunksOf(g: Graph, d: nat): set<string> {
    set c | c in g.chunks && g.chunks[c].provenance.document == d
  }

  function EntitiesOf(g: Graph, d: nat): set<string> {
    set e | e in g.entities && g.entities[e].provenance.document == d
  }

  /** `MATCH (c:Chunk ...) DETACH DELETE c` */
  function DeleteChunks(g: Graph, d: nat): Graph {
    var gone := ChunksOf(g, d);
    g.(chunks := map c | c in g.chunks && c !in gone :: g.chunks[c],
       belongs := map k | k in g.belongs && k.chunk !in gone :: g.belongs[k],
       mentions := map k | k in g.mentions && k.chunk !in gone :: g.mentions[k])
  }

  /** `MATCH (e:Entity ...) DETACH DELETE e` */
  function DeleteEntities(g: Graph, d: nat): Graph {
    var gone := EntitiesOf(g, d);
    g.(entities := map e | e in g.entities && e !in gone :: g.entities[e],
       mentions := map k | k in g.mentions && k.entity !in gone :: g.mentions[k],
       facts := map k | k in g.facts && k.source !in gone && k.target !in gone :: g.facts[k])
  }

  // ----- creating

  function UpsertDocument(g: Graph, p: Provenance, s: Source): Graph {
    g.(documents := g.documents[p.document := DocumentNode(p, s.contentHash, s.title)])
  }

  /** One `CREATE` of a chunk and its edge; the uniqueness constraint refuses an id that is taken. */
  function CreateChunk(g: Graph, p: Provenance, c: ExtractedChunk): Result<Graph> {
    var id := ChunkId(p.document, c.index);
    if id in g.chunks then Err("ConstraintError")
    else Ok(g.(chunks := g.chunks[id := ChunkNode(c.index, c.text, p)],
               belongs := g.belongs[BelongsKey(id, p.document) := p]))
  }

  function CreateChunks(g: Graph, p: Provenance, cs: seq<ExtractedChunk>): Result<Graph> {
    if cs == [] then Ok(g)
    else match CreateChunks(g, p, cs[..|cs| - 1])
      case Ok(h) => CreateChunk(h, p, cs[|cs| - 1])
      case Err(code) => Err(code)
  }

  function ReplaceChunks(g: Graph, p: Provenance, cs: seq<ExtractedChunk>): Result<Graph> {
    if p.document !in g.documents then Err("DocumentNodeMissingError")
    else CreateChunks(DeleteChunks(g, p.document), p, cs)
  }

  /** One row of the entity batch; a row whose chunk is missing matches nothing. */
  function MergeEntity(g: Graph, p: Provenance, e: ExtractedEntity): Graph {
    var chunk, id := ChunkId(p.document, e.chunkIndex), IdOf(p.document, e);
    if chunk !in g.chunks then g
    else g.(entities := g.entities[id := EntityNode(e.name, e.kind, p)],
            mentions := g.mentions[MentionKey(chunk, id) := p])
  }

  function MergeEntities(g: Graph, p: Provenance, es: seq<ExtractedEntity>): Graph {
    if es == [] then g else MergeEntity(MergeEntities(g, p, es[..|es| - 1]), p, es[|es| - 1])
  }

  /** The rows that matched a chunk. */
  function Anchored(g: Graph, d: nat, es: seq<ExtractedEntity>): nat {
    if es == [] then 0
    else Anchored(g, d, es[..|es| - 1]) + if ChunkId(d, es[|es| - 1].chunkIndex) in g.chunks then 1 else 0
  }

  // ----- resolving relationship endpoints

  /** The ids of the document's entities with the name, and of the type if one is given. */
  function EndpointIds(d: nat, es: seq<ExtractedEntity>, name: string, kind: string): (r: set<string>)
    ensures forall id :: id in r <==> exists i :: 0 <= i < |es| && Names(es[i], name, kind) && id == IdOf(d, es[i])
  {
    set i | 0 <= i < |es| && Names(es[i], name, kind) :: IdOf(d, es[i])
  }

  predicate Names(e: ExtractedEntity, name: string, kind: string) {
    e.name == name && (kind == "" || e.kind == kind)
  }

  /** Both endpoints are known and unambiguous. */
  predicate Resolvable(d: nat, es: seq<ExtractedEntity>, r: ExtractedRelationship) {
    |EndpointIds(d, es, r.sourceName, r.sourceType)| == 1 && |EndpointIds(d, es, r.targetName, r.targetType)| == 1
  }

  ghost function Only<T>(s: set<T>): (x: T)
    requires |s| == 1
    ensures x in s && s == {x}
  {
    var x :| x in s;
    assert |s - {x}| == 0;
    x
  }

  ghost function FactKeyOf(d: nat, es: seq<ExtractedEntity>, r: ExtractedRelationship): FactKey
    requires Resolvable(d, es, r)
  {
    FactKey(r.kind, Only(EndpointIds(d, es, r.sourceName, r.sourceType)), Only(EndpointIds(d, es, r.targetName, r.targetType)))
  }

  /** One row of a relationship batch. */
  datatype FactRow = FactRow(key: FactKey, chunkIndex: nat)

  /** The rows of the resolvable relationships, in order. */
  ghost function RowsOf(d: nat, es: seq<ExtractedEntity>, rs: seq<ExtractedRelationship>): seq<FactRow> {
    if rs == [] then []
    else
      var r := rs[|rs| - 1];
      RowsOf(d, es, rs[..|rs| - 1]) + if Resolvable(d, es, r) then [FactRow(FactKeyOf(d, es, r), r.chunkIndex)] else []
  }

  /** Matches both ends and merges the edge. */
  function MergeRow(g: Graph, p: Provenance, row: FactRow): Graph {
    if row.key.source in g.entities && row.key.target in g.entities
    then g.(facts := g.facts[row.key := FactEdge(row.chunkIndex, p)]) else g
  }

  function MergeRows(g: Graph, p: Provenance, rows: seq<FactRow>): Graph {
    if rows == [] then g else MergeRow(MergeRows(g, p, rows[..|rows| - 1]), p, rows[|rows| - 1])
  }

  ghost function ReplaceEntities(g: Graph, p: Provenance, es: seq<ExtractedEntity>, rs: seq<ExtractedRelationship>): Result<Graph> {
    var cleared := DeleteEntities(g, p.document);
    if Anchored(cleared, p.document, es) != |es| then Err("ChunkNodeMissingError")
    else Ok(MergeRows(MergeEntities(cleared, p, es), p, RowsOf(p.document, es, rs)))
  }

  /** The stages of one replacement, in one transaction of the graph store. */
  ghost function ReplaceDocument(g: Graph, s: Source, cs: seq<ExtractedChunk>, es: seq<ExtractedEntity>, rs: seq<ExtractedRelationship>): Result<Graph> {
    match DocumentProvenance(s)
    case Err(code) => Err(code)
    case Ok(p) =>
      match ReplaceChunks(UpsertDocument(g, p, s), p, cs)
      case Err(code) => Err(code)
      case Ok(h) => ReplaceEntities(h, p, es, rs)
  }

  // ----- no edge joins two documents

  ghost predicate DocumentsOk(g: Graph) {
    forall d :: d in g.documents ==> g.documents[d].provenance.document == d
  }

  ghost predicate ChunksOk(g: Graph) {
    forall c :: c in g.chunks ==> c == ChunkId(g.chunks[c].provenance.document, g.chunks[c].index)
  }

  ghost predicate EntitiesOk(g: Graph) {
    forall e :: e in g.entities ==> OwnedId(e, g.entities[e].provenance.document)
  }

  ghost predicate BelongsOk(g: Graph, k: BelongsKey) {
    k in g.belongs && k.chunk in g.chunks && k.document in g.documents
    && g.chunks[k.chunk].provenance.document == k.document == g.belongs[k].document
  }

  ghost predicate MentionOk(g: Graph, k: MentionKey) {
    k in g.mentions && k.chunk in g.chunks && k.entity in g.entities
    && g.chunks[k.chunk].provenance.document == g.entities[k.entity].provenance.document == g.mentions[k].document
  }

  ghost predicate FactOk(g: Graph, k: FactKey) {
    k in g.facts && k.source in g.entities && k.target in g.entities
    && g.entities[k.source].provenance.document == g.entities[k.target].provenance.document == g.facts[k].provenance.document
  }

  /** Every edge stays within one document, and says so. */
  ghost predicate Separate(g: Graph) {
    && DocumentsOk(g) && ChunksOk(g) && EntitiesOk(g)
    && (forall k :: k in g.belongs ==> BelongsOk(g, k))
    && (forall k :: k in g.mentions ==> MentionOk(g, k))
    && (forall k :: k in g.facts ==> FactOk(g, k))
  }

  lemma UpsertSeparate(g: Graph, p: Provenance, s: Source)
    requires Separate(g)
    ensures Separate(UpsertDocument(g, p, s))
  {
    var h := UpsertDocument(g, p, s);
    forall k | k in h.belongs ensures BelongsOk(h, k) { assert BelongsOk(g, k); }
    forall k | k in h.mentions ensures MentionOk(h, k) { assert MentionOk(g, k); }
    forall k | k in h.facts ensures FactOk(h, k) { assert FactOk(g, k); }
  }

  lemma DeleteChunksSeparate(g: Graph, d: nat)
    requires Separate(g)
    ensures Separate(DeleteChunks(g, d))
  {
    var h := DeleteChunks(g, d);
    forall k | k in h.belongs ensures BelongsOk(h, k) { assert BelongsOk(g, k); }
    forall k | k in h.mentions ensures MentionOk(h, k) { assert MentionOk(g, k); }
    forall k | k in h.facts ensures FactOk(h, k) { assert FactOk(g, k); }
  }

  lemma DeleteEntitiesSeparate(g: Graph, d: nat)
    requires Separate(g)
    ensures Separate(DeleteEntities(g, d))
  {
    var h := DeleteEntities(g, d);
    forall k | k in h.belongs ensures BelongsOk(h, k) { assert BelongsOk(g, k); }
    forall k | k in h.mentions ensures MentionOk(h, k) { assert MentionOk(g, k); }
    forall k | k in h.facts ensures FactOk(h, k) { assert FactOk(g, k); }
  }

  lemma CreateChunkSeparate(g: Graph, p: Provenance, c: ExtractedChunk)
    requires Separate(g) && p.document in g.documents && CreateChunk(g, p, c).Ok?
    ensures Separate(CreateChunk(g, p, c).value)
  {
    var h := CreateChunk(g, p, c).value;
    forall k | k in h.belongs ensures BelongsOk(h, k) { assert k in g.belongs ==> BelongsOk(g, k); }
    forall k | k in h.mentions ensures MentionOk(h, k) { assert MentionOk(g, k); }
    forall k | k in h.facts ensures FactOk(h, k) { assert FactOk(g, k); }
  }

  lemma {:induction false} CreateChunksSeparate(g: Graph, p: Provenance, cs: seq<ExtractedChunk>)
    requires Separate(g) && p.document in g.documents && CreateChunks(g, p, cs).Ok?
    ensures Separate(CreateChunks(g, p, cs).value) && CreateChunks(g, p, cs).value.documents == g.documents
  {
    if cs != [] {
      CreateChunksSeparate(g, p, cs[..|cs| - 1]);
      CreateChunkSeparate(CreateChunks(g, p, cs[..|cs| - 1]).value, p, cs[|cs| - 1]);
    }
  }

  lemma ChunkOfOwnId(g: Graph, d: nat, index: nat)
    requires ChunksOk(g) && ChunkId(d, index) in g.chunks
    ensures g.chunks[ChunkId(d, index)].provenance.document == d
  {
    var c := ChunkId(d, index);
    ChunkIdInjective(d, index, g.chunks[c].provenance.document, g.chunks[c].index);
  }

  lemma MergeEntitySeparate(g: Graph, p: Provenance, e: ExtractedEntity)
    requires Separate(g)
    ensures Separate(MergeEntity(g, p, e))
  {
    var chunk, id := ChunkId(p.document, e.chunkIndex), IdOf(p.document, e);
    if chunk in g.chunks {
      var h := MergeEntity(g, p, e);
      EntityIdOwned(p.document, e.kind, e.normalizedName);
      ChunkOfOwnId(g, p.document, e.chunkIndex);
      if id in g.entities { OwnerIsUnique(id, p.document, g.entities[id].provenance.document); }
      forall k | k in h.belongs ensures BelongsOk(h, k) { assert BelongsOk(g, k); }
      forall k | k in h.mentions ensures MentionOk(h, k) { assert k in g.mentions ==> MentionOk(g, k); }
      forall k | k in h.facts ensures FactOk(h, k) { assert FactOk(g, k); }
    }
  }

  lemma {:induction false} MergeEntitiesSeparate(g: Graph, p: Provenance, es: seq<ExtractedEntity>)
    requires Separate(g)
    ensures Separate(MergeEntities(g, p, es))
  {
    if es != [] {
      MergeEntitiesSeparate(g, p, es[..|es| - 1]);
      MergeEntitySeparate(MergeEntities(g, p, es[..|es| - 1]), p, es[|es| - 1]);
    }
  }

  ghost predicate RowOwned(d: nat, row: FactRow) {
    OwnedId(row.key.source, d) && OwnedId(row.key.target, d)
  }

  lemma EndpointOwned(d: nat, es: seq<ExtractedEntity>, name: string, kind: string, id: string)
    requires id in EndpointIds(d, es, name, kind)
    ensures OwnedId(id, d)
  {
    var i :| 0 <= i < |es| && Names(es[i], name, kind) && id == IdOf(d, es[i]);
    EntityIdOwned(d, es[i].kind, es[i].normalizedName);
  }

  lemma {:induction false} RowsOwned(d: nat, es: seq<ExtractedEntity>, rs: seq<ExtractedRelationship>)
    ensures forall i :: 0 <= i < |RowsOf(d, es, rs)| ==> RowOwned(d, RowsOf(d, es, rs)[i])
  {
    if rs != [] {
      var r := rs[|rs| - 1];
      RowsOwned(d, es, rs[..|rs| - 1]);
      if Resolvable(d, es, r) {
        var k := FactKeyOf(d, es, r);
        EndpointOwned(d, es, r.sourceName, r.sourceType, k.source);
        EndpointOwned(d, es, r.targetName, r.targetType, k.target);
      }
    }
  }

  lemma MergeRowSeparate(g: Graph, p: Provenance, row: FactRow)
    requires Separate(g) && RowOwned(p.document, row)
    ensures Separate(MergeRow(g, p, row))
  {
    var k := row.key;
    if k.source in g.entities && k.target in g.entities {
      var h := MergeRow(g, p, row);
      OwnerIsUnique(k.source, p.document, g.entities[k.source].provenance.document);
      OwnerIsUnique(k.target, p.document, g.entities[k.target].provenance.document);
      forall j | j in h.belongs ensures BelongsOk(h, j) { assert BelongsOk(g, j); }
      forall j | j in h.mentions ensures MentionOk(h, j) { assert MentionOk(g, j); }
      forall j | j in h.facts ensures FactOk(h, j) { assert j in g.facts ==> FactOk(g, j); }
    }
  }

  lemma {:induction false} MergeRowsSeparate(g: Graph, p: Provenance, rows: seq<FactRow>)
    requires Separate(g) && forall i :: 0 <= i < |rows| ==> RowOwned(p.document, rows[i])
    ensures Separate(MergeRows(g, p, rows))
  {
    if rows != [] {
      MergeRowsSeparate(g, p, rows[..|rows| - 1]);
      MergeRowSeparate(MergeRows(g, p, rows[..|rows| - 1]), p, rows[|rows| - 1]);
    }
  }

  /** A replacement keeps every edge within one document. */
  lemma ReplaceKeepsSeparate(g: Graph, s: Source, cs: seq<ExtractedChunk>, es: seq<ExtractedEntity>, rs: seq<ExtractedRelationship>)
    requires Separate(g) && ReplaceDocument(g, s, cs, es, rs).Ok?
    ensures Separate(ReplaceDocument(g, s, cs, es, rs).value)
  {
    var p := DocumentProvenance(s).value;
    var u := UpsertDocument(g, p, s);
    UpsertSeparate(g, p, s);
    DeleteChunksSeparate(u, p.document);
    CreateChunksSeparate(DeleteChunks(u, p.document), p, cs);
    var h := ReplaceChunks(u, p, cs).value;
    DeleteEntitiesSeparate(h, p.document);
    MergeEntitiesSeparate(DeleteEntities(h, p.document), p, es);
    RowsOwned(p.document, es, rs);
    MergeRowsSeparate(MergeEntities(DeleteEntities(h, p.document), p, es), p, RowsOf(p.document, es, rs));
  }
}
