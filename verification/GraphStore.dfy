/** The writer's loops over the extracted entities and relationships, against their functions. */
module GraphStore {
  import opened Outcomes
  import opened GraphWriter
  import opened GraphReplacement

  datatype Counts = Counts(entities: nat, relationships: nat, skipped: nat)

  datatype TypedName = TypedName(kind: string, name: string)

  /** The dictionaries built while the entities are gone through. */
  datatype Index = Index(byName: map<string, set<string>>, byTypeAndName: map<TypedName, set<string>>, ids: set<string>) {
    function Lookup(name: string, kind: string): set<string> {
      if kind != "" then if TypedName(kind, name) in byTypeAndName then byTypeAndName[TypedName(kind, name)] else {}
      else if name in byName then byName[name] else {}
    }

    /** `setdefault(..., set()).add(id)` in both, and the id noted. */
    function Add(e: ExtractedEntity, id: string): Index {
      Index(byName[e.name := Lookup(e.name, "") + {id}],
            byTypeAndName[TypedName(e.kind, e.name) := (if TypedName(e.kind, e.name) in byTypeAndName then byTypeAndName[TypedName(e.kind, e.name)] else {}) + {id}],
            ids + {id})
    }
  }

  function IdsOf(d: nat, es: seq<ExtractedEntity>): set<string> {
    set i | 0 <= i < |es| :: IdOf(d, es[i])
  }

  lemma EndpointsMore(d: nat, es: seq<ExtractedEntity>, i: nat, name: string, kind: string)
    requires i < |es|
    ensures EndpointIds(d, es[..i + 1], name, kind) == EndpointIds(d, es[..i], name, kind) + if Names(es[i], name, kind) then {IdOf(d, es[i])} else {}
  {
    var before, after := es[..i], es[..i + 1];
    assert after == before + [es[i]];
    forall id | id in EndpointIds(d, before, name, kind) ensures id in EndpointIds(d, after, name, kind) {
      var j :| 0 <= j < |before| && Names(before[j], name, kind) && id == IdOf(d, before[j]);
      assert Names(after[j], name, kind) && id == IdOf(d, after[j]);
    }
    assert after[i] == es[i];
  }

  lemma IdsMore(d: nat, es: seq<ExtractedEntity>, i: nat)
    requires i < |es|
    ensures IdsOf(d, es[..i + 1]) == IdsOf(d, es[..i]) + {IdOf(d, es[i])}
  {
    var before, after := es[..i], es[..i + 1];
    assert after == before + [es[i]];
    forall id | id in IdsOf(d, before) ensures id in IdsOf(d, after) {
      var j :| 0 <= j < |before| && id == IdOf(d, before[j]);
      assert id == IdOf(d, after[j]);
    }
    assert after[i] == es[i];
  }

  /** Every lookup gives the ids of the entities so far. */
  ghost predicate Indexes(x: Index, d: nat, es: seq<ExtractedEntity>) {
    && (forall name, kind :: x.Lookup(name, kind) == EndpointIds(d, es, name, kind))
    && x.ids == IdsOf(d, es)
  }

  lemma IndexesMore(x: Index, d: nat, es: seq<ExtractedEntity>, i: nat)
    requires i < |es| && Indexes(x, d, es[..i]) && es[i].kind != ""
    ensures Indexes(x.Add(es[i], IdOf(d, es[i])), d, es[..i + 1])
  {
    var y := x.Add(es[i], IdOf(d, es[i]));
    IdsMore(d, es, i);
    forall name, kind ensures y.Lookup(name, kind) == EndpointIds(d, es[..i + 1], name, kind) {
      EndpointsMore(d, es, i, name, kind);
      assert x.Lookup(name, kind) == EndpointIds(d, es[..i], name, kind);
    }
  }

  method IndexEntities(d: nat, es: seq<ExtractedEntity>) returns (x: Index)
    requires forall i :: 0 <= i < |es| ==> es[i].kind != ""
    ensures Indexes(x, d, es)
  {
    x := Index(map[], map[], {});
    for i := 0 to |es|
      invariant Indexes(x, d, es[..i])
    {
      IndexesMore(x, d, es, i);
      x := x.Add(es[i], IdOf(d, es[i]));
    }
    assert es[..|es|] == es;
  }

  method ResolveRelationship(d: nat, es: seq<ExtractedEntity>, r: ExtractedRelationship, x: Index) returns (row: Option<FactRow>)
    requires Indexes(x, d, es)
    ensures row.Some? <==> Resolvable(d, es, r)
    ensures row.Some? ==> row.value == FactRow(FactKeyOf(d, es, r), r.chunkIndex)
  {
    var sources, targets := x.Lookup(r.sourceName, r.sourceType), x.Lookup(r.targetName, r.targetType);
    if |sources| != 1 || |targets| != 1 {
      return None;
    }
    var source :| source in sources;
    var target :| target in targets;
    assert source == Only(sources) && target == Only(targets);
    row := Some(FactRow(FactKey(r.kind, source, target), r.chunkIndex));
  }

  /** The rows to write; relationships with an unknown or ambiguous end are counted and skipped. */
  method ResolveRelationships(d: nat, es: seq<ExtractedEntity>, rs: seq<ExtractedRelationship>, x: Index) returns (rows: seq<FactRow>, written: nat, skipped: nat)
    requires Indexes(x, d, es)
    ensures rows == RowsOf(d, es, rs) && written == |rows| && written + skipped == |rs|
  {
    rows, written, skipped := [], 0, 0;
    for i := 0 to |rs|
      invariant rows == RowsOf(d, es, rs[..i]) && written == |rows| && written + skipped == i
    {
      assert rs[..i + 1][..i] == rs[..i] && rs[..i + 1][i] == rs[i];
      var row := ResolveRelationship(d, es, rs[i], x);
      if row.None? {
        skipped := skipped + 1;
      } else {
        rows, written := rows + [row.value], written + 1;
      }
    }
    assert rs[..|rs|] == rs;
  }

  class Store {
    var graph: Graph

    constructor (g: Graph)
      ensures graph == g
    {
      graph := g;
    }

    method WriteRows(p: Provenance, rows: seq<FactRow>)
      modifies this
      ensures graph == MergeRows(old(graph), p, rows)
    {
      for i := 0 to |rows|
        invariant graph == MergeRows(old(graph), p, rows[..i])
      {
        assert rows[..i + 1][..i] == rows[..i];
        graph := MergeRow(graph, p, rows[i]);
      }
      assert rows[..|rows|] == rows;
    }

    /** `replace_document_entities`; on an error the surrounding transaction is rolled back. Every
        relationship is either written or counted as skipped. */
    method ReplaceDocumentEntities(p: Provenance, es: seq<ExtractedEntity>, rs: seq<ExtractedRelationship>) returns (r: Result<Counts>)
      requires forall i :: 0 <= i < |es| ==> es[i].kind != ""
      modifies this
      ensures r.Ok? ==> ReplaceEntities(old(graph), p, es, rs) == Ok(graph)
      ensures r.Err? ==> ReplaceEntities(old(graph), p, es, rs) == Err(r.code) && graph == old(graph)
      ensures r.Err? <==> exists i :: 0 <= i < |es| && ChunkId(p.document, es[i].chunkIndex) !in old(graph).chunks
      ensures r.Ok? ==> r.value.relationships + r.value.skipped == |rs| && r.value.entities == |IdsOf(p.document, es)|
    {
      FailsIffChunkMissing(graph, p, es, rs);
      var cleared := DeleteEntities(graph, p.document);
      var x := IndexEntities(p.document, es);
      if Anchored(cleared, p.document, es) != |es| {
        return Err("ChunkNodeMissingError");
      }
      graph := MergeEntities(cleared, p, es);
      var rows, written, skipped := ResolveRelationships(p.document, es, rs, x);
      WriteRows(p, rows);
      r := Ok(Counts(|x.ids|, written, skipped));
    }
  }
}
