/** Extraction of one document together with the graph it writes to, among replacements of other
    documents: a succeeded document has in the graph exactly the chunks of its current content. */
module ExtractionGraph {
  import opened Outcomes
  import opened GraphWriter
  import opened GraphReplacement
  import Machine = ExtractionMachine

  /** The machine of the document, and the whole graph. */
  datatype Joint = Joint(machine: Machine.World, graph: Graph)

  /** A step of the document's machine, with what the model found for a writing task, or a replacement
      of some other document. */
  datatype Step = Own(step: Machine.Step, source: Source, entities: seq<ExtractedEntity>, relationships: seq<ExtractedRelationship>)
                | Other(input: Input)

  /** The last check succeeds, so the task replaces the document in the graph. */
  predicate WritesNow(w: Machine.World, s: Machine.Step) {
    && s.WriteGraph? && s.t in w.tasks && w.tasks[s.t].phase.Extracting? && Machine.IsCurrent(w.row, w.tasks[s.t].expected)
  }

  /** `chunks` is the deterministic chunking of the content a hash stands for. A replacement that fails
      is rolled back. */
  ghost function Apply(d: nat, chunks: string -> seq<ExtractedChunk>, j: Joint, s: Step): Joint {
    match s
    case Other(input) => if input.source.document == d then j else j.(graph := After(j.graph, [input]))
    case Own(step, source, entities, relationships) =>
      if !WritesNow(j.machine, step) then j.(machine := Machine.Apply(j.machine, step))
      else if source.document != d then j
      else match ReplaceDocument(j.graph, source, chunks(j.machine.tasks[step.t].expected), entities, relationships)
        case Ok(g) => Joint(Machine.Apply(j.machine, step), g)
        case Err(_) => j
  }

  ghost function Run(d: nat, chunks: string -> seq<ExtractedChunk>, j: Joint, steps: seq<Step>): Joint
    decreases |steps|
  {
    if steps == [] then j else Run(d, chunks, Apply(d, chunks, j, steps[0]), steps[1..])
  }

  /** The document's chunks in the graph are exactly these, with their texts. */
  ghost predicate HoldsChunks(g: Graph, d: nat, cs: seq<ExtractedChunk>) {
    && (forall id :: id in ChunksOf(g, d) <==> exists i :: 0 <= i < |cs| && id == ChunkId(d, cs[i].index))
    && (forall i :: 0 <= i < |cs| ==> ChunkHeld(g, d, cs[i]))
  }

  predicate ChunkHeld(g: Graph, d: nat, c: ExtractedChunk) {
    ChunkId(d, c.index) in g.chunks && g.chunks[ChunkId(d, c.index)].text == c.text
  }

  // ----- what a replacement does to the chunks

  lemma {:induction false} MergeEntitiesKeepsChunks(g: Graph, p: Provenance, es: seq<ExtractedEntity>)
    ensures MergeEntities(g, p, es).chunks == g.chunks
  {
    if es != [] { MergeEntitiesKeepsChunks(g, p, es[..|es| - 1]); }
  }

  lemma {:induction false} MergeRowsKeepsChunks(g: Graph, p: Provenance, rows: seq<FactRow>)
    ensures MergeRows(g, p, rows).chunks == g.chunks
  {
    if rows != [] { MergeRowsKeepsChunks(g, p, rows[..|rows| - 1]); }
  }

  lemma EntitiesKeepChunks(g: Graph, p: Provenance, es: seq<ExtractedEntity>, rs: seq<ExtractedRelationship>)
    requires ReplaceEntities(g, p, es, rs).Ok?
    ensures ReplaceEntities(g, p, es, rs).value.chunks == g.chunks
  {
    var cleared := DeleteEntities(g, p.document);
    MergeEntitiesKeepsChunks(cleared, p, es);
    MergeRowsKeepsChunks(MergeEntities(cleared, p, es), p, RowsOf(p.document, es, rs));
  }

  lemma ReplacedHolds(g: Graph, s: Source, cs: seq<ExtractedChunk>, es: seq<ExtractedEntity>, rs: seq<ExtractedRelationship>)
    requires Separate(g) && ReplaceDocument(g, s, cs, es, rs).Ok?
    ensures HoldsChunks(ReplaceDocument(g, s, cs, es, rs).value, s.document, cs)
  {
    var p := DocumentProvenance(s).value;
    var u := UpsertDocument(g, p, s);
    UpsertSeparate(g, p, s);
    var h := ReplaceChunks(u, p, cs).value;
    EntitiesKeepChunks(h, p, es, rs);
    var after := ReplaceDocument(g, s, cs, es, rs).value;
    assert ChunksOf(after, s.document) == ChunksOf(h, s.document);
    forall id ensures id in ChunksOf(after, s.document) <==> exists i :: 0 <= i < |cs| && id == ChunkId(s.document, cs[i].index) {
      ChunksAreExact(u, p, cs, id);
    }
    forall i | 0 <= i < |cs| ensures ChunkHeld(after, s.document, cs[i]) {
      ChunksAreExact(u, p, cs, ChunkId(s.document, cs[i].index));
    }
  }

  lemma SameChunksHold(g: Graph, h: Graph, d: nat, e: nat, cs: seq<ExtractedChunk>)
    requires HoldsChunks(g, d, cs) && SameChunks(g.chunks, h.chunks, e) && d != e
    ensures HoldsChunks(h, d, cs)
  {
    assert ChunksOf(h, d) == ChunksOf(g, d);
    forall i | 0 <= i < |cs| ensures ChunkHeld(h, d, cs[i]) {
      assert ChunkHeld(g, d, cs[i]) && ChunkId(d, cs[i].index) in ChunksOf(g, d);
    }
  }

  lemma OtherHolds(g: Graph, d: nat, input: Input, cs: seq<ExtractedChunk>)
    requires Separate(g) && input.source.document != d
    ensures Separate(After(g, [input])) && (HoldsChunks(g, d, cs) ==> HoldsChunks(After(g, [input]), d, cs))
  {
    NoEdgeEverCrosses(g, [input]);
    assert [input][..0] == [] && After(g, []) == g;
    if ReplaceDocument(g, input.source, input.chunks, input.entities, input.relationships).Ok? && HoldsChunks(g, d, cs) {
      OthersUnchanged(g, input.source, input.chunks, input.entities, input.relationships);
      SameChunksHold(g, After(g, [input]), d, input.source.document, cs);
    }
  }

  // ----- machine and graph agree

  /** What the machine says the graph holds is there. */
  ghost predicate Agrees(d: nat, chunks: string -> seq<ExtractedChunk>, j: Joint) {
    && Separate(j.graph)
    && (j.machine.graph.Some? ==> HoldsChunks(j.graph, d, chunks(j.machine.graph.value)))
  }

  lemma OnlyWritersWrite(w: Machine.World, s: Machine.Step)
    ensures WritesNow(w, s) ==> Machine.Apply(w, s).graph == Some(w.tasks[s.t].expected)
    ensures !WritesNow(w, s) ==> Machine.Apply(w, s).graph == w.graph
  {
  }

  lemma StepAgrees(d: nat, chunks: string -> seq<ExtractedChunk>, j: Joint, s: Step)
    requires Agrees(d, chunks, j)
    ensures Agrees(d, chunks, Apply(d, chunks, j, s))
  {
    hide Separate, HoldsChunks, ReplaceDocument, Machine.Apply;
    match s {
      case Other(input) =>
        if input.source.document != d {
          var held := if j.machine.graph.Some? then chunks(j.machine.graph.value) else [];
          OtherHolds(j.graph, d, input, held);
        }
      case Own(step, source, entities, relationships) =>
        OnlyWritersWrite(j.machine, step);
        if WritesNow(j.machine, step) && source.document == d {
          var cs := chunks(j.machine.tasks[step.t].expected);
          if ReplaceDocument(j.graph, source, cs, entities, relationships).Ok? {
            ReplacedHolds(j.graph, source, cs, entities, relationships);
            ReplaceKeepsSeparate(j.graph, source, cs, entities, relationships);
          }
        }
    }
  }

  /** Every refresh of the run brings content the document never had. */
  ghost predicate NeverReturns(d: nat, chunks: string -> seq<ExtractedChunk>, j: Joint, steps: seq<Step>)
    decreases |steps|
  {
    steps == [] || (&& (steps[0].Own? && steps[0].step.Refresh? ==> steps[0].step.hash !in j.machine.past)
                    && NeverReturns(d, chunks, Apply(d, chunks, j, steps[0]), steps[1..]))
  }

  lemma MachineKeeps(d: nat, chunks: string -> seq<ExtractedChunk>, j: Joint, s: Step)
    requires Machine.Inv(j.machine) && (s.Own? && s.step.Refresh? ==> s.step.hash !in j.machine.past)
    ensures Machine.Inv(Apply(d, chunks, j, s).machine)
  {
    if s.Own? {
      if s.step.Refresh? {
        forall t ensures !Machine.Straggles(j.machine, t, s.step.hash) {}
      }
      Machine.StepKeeps(j.machine, s.step);
    }
  }

  lemma {:induction false} RunAgrees(d: nat, chunks: string -> seq<ExtractedChunk>, j: Joint, steps: seq<Step>)
    requires Machine.Inv(j.machine) && Agrees(d, chunks, j) && NeverReturns(d, chunks, j, steps)
    ensures Machine.Inv(Run(d, chunks, j, steps).machine) && Agrees(d, chunks, Run(d, chunks, j, steps))
    decreases |steps|
  {
    if steps != [] {
      MachineKeeps(d, chunks, j, steps[0]);
      StepAgrees(d, chunks, j, steps[0]);
      RunAgrees(d, chunks, Apply(d, chunks, j, steps[0]), steps[1..]);
    }
  }

  /** As long as content never returns, a document that is succeeded or ready has in the graph exactly
      the chunks of its current content, whatever is extracted for other documents meanwhile. */
  lemma SucceededHoldsItsChunks(d: nat, chunks: string -> seq<ExtractedChunk>, j: Joint, steps: seq<Step>)
    requires Machine.Initial(j.machine) && Separate(j.graph) && NeverReturns(d, chunks, j, steps)
    ensures var v := Run(d, chunks, j, steps);
            v.machine.row.status.Succeeded? || v.machine.row.eligible ==> HoldsChunks(v.graph, d, chunks(v.machine.row.contentHash))
  {
    RunAgrees(d, chunks, j, steps);
  }
}
