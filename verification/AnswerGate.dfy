/** The answer to one question: authorization, retrieval, recheck, context, citations. */
module AnswerGate {
  import opened ContextAssembly
  import opened Evidence
  import opened Json
  import opened Outcomes

  datatype DocumentInfo = DocumentInfo(title: string, driveFileId: string, driveUrl: string)

  datatype Citation = Citation(document: DocumentInfo, chunkId: string)

  datatype QueryResult = QueryResult(answer: string, citations: seq<Citation>, refused: bool, reason: Option<string>)

  function Refusal(): QueryResult {
    QueryResult("I do not have enough accessible context to answer that.", [], true, Some("insufficient_accessible_context"))
  }

  datatype Generated = Generated(supported: bool, answer: string)

  const ITEM_MAX_CHARS := 2000

  // ----- narrowing the evidence

  function ChunksIn(cs: seq<RetrievedChunk>, ids: set<int>): (r: seq<RetrievedChunk>)
    ensures forall c :: c in r <==> c in cs && c.sourceDocumentId in ids
  {
    if cs == [] then [] else (if cs[0].sourceDocumentId in ids then [cs[0]] else []) + ChunksIn(cs[1..], ids)
  }

  function FactsIn(fs: seq<RetrievedFact>, ids: set<int>): (r: seq<RetrievedFact>)
    ensures forall f :: f in r <==> f in fs && f.sourceDocumentId in ids
  {
    if fs == [] then [] else (if fs[0].sourceDocumentId in ids then [fs[0]] else []) + FactsIn(fs[1..], ids)
  }

  function Narrowed(e: RetrievalEvidence, ids: set<int>): RetrievalEvidence {
    RetrievalEvidence(ChunksIn(e.chunks, ids), FactsIn(e.facts, ids))
  }

  function DocumentsOf(e: RetrievalEvidence): set<int> {
    (set i | 0 <= i < |e.chunks| :: e.chunks[i].sourceDocumentId) + set i | 0 <= i < |e.facts| :: e.facts[i].sourceDocumentId
  }

  /** The places of what is left, in order: exactly those of documents in the set. */
  ghost predicate LeftAt(documents: seq<int>, ids: set<int>, at: seq<nat>) {
    && (forall i, j :: 0 <= i < j < |at| ==> at[i] < at[j])
    && (forall n: nat :: n in at <==> n < |documents| && documents[n] in ids)
  }

  lemma LeftMore(documents: seq<int>, ids: set<int>, at: seq<nat>, d: int)
    requires LeftAt(documents, ids, at)
    ensures LeftAt([d] + documents, ids, if d in ids then [0] + Shifted(at) else Shifted(at))
  {
    var shifted, all := Shifted(at), [d] + documents;
    var more := if d in ids then [0] + shifted else shifted;
    forall n: nat ensures n in more <==> n < |all| && all[n] in ids {
      if n > 0 {
        assert n - 1 in at <==> n - 1 < |documents| && documents[n - 1] in ids;
        if n - 1 in at {
          var i :| 0 <= i < |at| && at[i] == n - 1;
          assert shifted[i] == n;
        }
        if n in shifted {
          var i :| 0 <= i < |shifted| && shifted[i] == n;
          assert at[i] in at;
        }
      }
    }
  }

  function Shifted(at: seq<nat>): (r: seq<nat>)
    ensures |r| == |at| && forall i :: 0 <= i < |at| ==> r[i] == at[i] + 1
  {
    seq(|at|, i requires 0 <= i < |at| => at[i] + 1)
  }

  function ChunkDocuments(cs: seq<RetrievedChunk>): (r: seq<int>)
    ensures |r| == |cs| && forall i :: 0 <= i < |cs| ==> r[i] == cs[i].sourceDocumentId
  {
    seq(|cs|, i requires 0 <= i < |cs| => cs[i].sourceDocumentId)
  }

  function FactDocuments(fs: seq<RetrievedFact>): (r: seq<int>)
    ensures |r| == |fs| && forall i :: 0 <= i < |fs| ==> r[i] == fs[i].sourceDocumentId
  {
    seq(|fs|, i requires 0 <= i < |fs| => fs[i].sourceDocumentId)
  }

  /** The items are those at the places. */
  predicate StandAt<T(==)>(items: seq<T>, all: seq<T>, at: seq<nat>) {
    |items| == |at| && forall i :: 0 <= i < |at| ==> at[i] < |all| && items[i] == all[at[i]]
  }

  lemma StandMore<T>(items: seq<T>, all: seq<T>, at: seq<nat>, x: T)
    requires StandAt(items, all, at)
    ensures StandAt(items, [x] + all, Shifted(at)) && StandAt([x] + items, [x] + all, [0] + Shifted(at))
  {
  }

  lemma ChunksHead(cs: seq<RetrievedChunk>, ids: set<int>)
    requires cs != []
    ensures [cs[0]] + cs[1..] == cs && ChunkDocuments(cs) == [cs[0].sourceDocumentId] + ChunkDocuments(cs[1..])
    ensures ChunksIn(cs, ids) == if cs[0].sourceDocumentId in ids then [cs[0]] + ChunksIn(cs[1..], ids) else ChunksIn(cs[1..], ids)
  {
    assert cs[0].sourceDocumentId !in ids ==> [] + ChunksIn(cs[1..], ids) == ChunksIn(cs[1..], ids);
  }

  /** Narrowing keeps the chunks of the documents in their order, and drops no other. */
  lemma {:induction false} ChunksLeft(cs: seq<RetrievedChunk>, ids: set<int>) returns (at: seq<nat>)
    ensures LeftAt(ChunkDocuments(cs), ids, at) && StandAt(ChunksIn(cs, ids), cs, at)
  {
    if cs == [] {
      at := [];
    } else {
      hide *;
      var rest := ChunksLeft(cs[1..], ids);
      LeftMore(ChunkDocuments(cs[1..]), ids, rest, cs[0].sourceDocumentId);
      StandMore(ChunksIn(cs[1..], ids), cs[1..], rest, cs[0]);
      ChunksHead(cs, ids);
      at := if cs[0].sourceDocumentId in ids then [0] + Shifted(rest) else Shifted(rest);
    }
  }

  lemma FactsHead(fs: seq<RetrievedFact>, ids: set<int>)
    requires fs != []
    ensures [fs[0]] + fs[1..] == fs && FactDocuments(fs) == [fs[0].sourceDocumentId] + FactDocuments(fs[1..])
    ensures FactsIn(fs, ids) == if fs[0].sourceDocumentId in ids then [fs[0]] + FactsIn(fs[1..], ids) else FactsIn(fs[1..], ids)
  {
    assert fs[0].sourceDocumentId !in ids ==> [] + FactsIn(fs[1..], ids) == FactsIn(fs[1..], ids);
  }

  lemma {:induction false} FactsLeft(fs: seq<RetrievedFact>, ids: set<int>) returns (at: seq<nat>)
    ensures LeftAt(FactDocuments(fs), ids, at) && StandAt(FactsIn(fs, ids), fs, at)
  {
    if fs == [] {
      at := [];
    } else {
      hide *;
      var rest := FactsLeft(fs[1..], ids);
      LeftMore(FactDocuments(fs[1..]), ids, rest, fs[0].sourceDocumentId);
      StandMore(FactsIn(fs[1..], ids), fs[1..], rest, fs[0]);
      FactsHead(fs, ids);
      at := if fs[0].sourceDocumentId in ids then [0] + Shifted(rest) else Shifted(rest);
    }
  }

  lemma {:induction false} ChunksInSame(cs: seq<RetrievedChunk>, ids: set<int>, others: set<int>)
    requires forall c :: c in cs ==> (c.sourceDocumentId in ids <==> c.sourceDocumentId in others)
    ensures ChunksIn(cs, ids) == ChunksIn(cs, others)
  {
    if cs != [] { assert cs[0] in cs; ChunksInSame(cs[1..], ids, others); }
  }

  lemma {:induction false} FactsInSame(fs: seq<RetrievedFact>, ids: set<int>, others: set<int>)
    requires forall f :: f in fs ==> (f.sourceDocumentId in ids <==> f.sourceDocumentId in others)
    ensures FactsIn(fs, ids) == FactsIn(fs, others)
  {
    if fs != [] { assert fs[0] in fs; FactsInSame(fs[1..], ids, others); }
  }

  /** Only the documents of the evidence matter. */
  lemma NarrowedSame(e: RetrievalEvidence, ids: set<int>, others: set<int>)
    requires forall d :: d in DocumentsOf(e) ==> (d in ids <==> d in others)
    ensures Narrowed(e, ids) == Narrowed(e, others)
  {
    forall c | c in e.chunks ensures c.sourceDocumentId in DocumentsOf(e) {}
    forall f | f in e.facts ensures f.sourceDocumentId in DocumentsOf(e) {}
    ChunksInSame(e.chunks, ids, others);
    FactsInSame(e.facts, ids, others);
  }

  // ----- what is cited

  datatype Cited = Cited(document: int, chunk: string)

  function ItemsOf(chunks: seq<RetrievedChunk>, facts: seq<RetrievedFact>): seq<Cited> {
    seq(|chunks|, i requires 0 <= i < |chunks| => Cited(chunks[i].sourceDocumentId, chunks[i].chunkId))
    + seq(|facts|, i requires 0 <= i < |facts| => Cited(facts[i].sourceDocumentId, facts[i].chunkId))
  }

  ghost predicate NoneTwice(cited: seq<Cited>) {
    forall i, j :: 0 <= i < j < |cited| ==> cited[i] != cited[j]
  }

  /** The citations show these documents and chunks, one after the other. */
  ghost predicate Shows(citations: seq<Citation>, cited: seq<Cited>, documents: map<int, DocumentInfo>) {
    && |citations| == |cited|
    && forall i :: 0 <= i < |cited| ==> cited[i].document in documents && citations[i] == Citation(documents[cited[i].document], cited[i].chunk)
  }

  /** The first stands among the items before the second is met. */
  ghost predicate MetBefore(items: seq<Cited>, a: Cited, b: Cited) {
    exists p :: 0 <= p < |items| && items[p] == a && b !in items[..p + 1]
  }

  /** The citations follow the order in which the items are first met. */
  ghost predicate InOrderMet(cited: seq<Cited>, items: seq<Cited>) {
    forall i, j :: 0 <= i < j < |cited| ==> MetBefore(items, cited[i], cited[j])
  }

  lemma OrderMore(cited: seq<Cited>, items: seq<Cited>, x: Cited)
    requires InOrderMet(cited, items) && forall y :: y in cited <==> y in items
    ensures x in items ==> InOrderMet(cited, items + [x])
    ensures x !in items ==> InOrderMet(cited + [x], items + [x])
  {
    var more := items + [x];
    forall a, b | MetBefore(items, a, b) ensures MetBefore(more, a, b) {
      var p :| 0 <= p < |items| && items[p] == a && b !in items[..p + 1];
      assert more[p] == a && more[..p + 1] == items[..p + 1];
    }
    if x !in items {
      forall a | a in cited ensures MetBefore(more, a, x) {
        var p :| 0 <= p < |items| && items[p] == a;
        assert more[p] == a && more[..p + 1] == items[..p + 1];
      }
    }
  }

  /** Every item is cited, and cited once. */
  method Cite(items: seq<Cited>, documents: map<int, DocumentInfo>) returns (citations: seq<Citation>, ghost cited: seq<Cited>)
    requires forall i :: 0 <= i < |items| ==> items[i].document in documents
    ensures Shows(citations, cited, documents) && NoneTwice(cited) && InOrderMet(cited, items)
    ensures forall x :: x in cited <==> x in items
  {
    citations, cited := [], [];
    var seen: set<Cited> := {};
    for i := 0 to |items|
      invariant Shows(citations, cited, documents) && NoneTwice(cited) && InOrderMet(cited, items[..i])
      invariant forall x :: x in seen <==> x in items[..i]
      invariant forall x :: x in cited <==> x in seen
    {
      assert items[..i + 1] == items[..i] + [items[i]];
      OrderMore(cited, items[..i], items[i]);
      if items[i] !in seen {
        seen := seen + {items[i]};
        citations := citations + [Citation(documents[items[i].document], items[i].chunk)];
        cited := cited + [items[i]];
      }
    }
    assert items[..|items|] == items;
  }

  // ----- the context holds narrowed evidence only

  lemma {:induction false} ItemsOfNonBlank(items: seq<Item>, itemMax: nat, x: Item)
    requires itemMax >= 1 && x in NonBlank(items, itemMax)
    ensures x in items
  {
    if x in NonBlank(items[..|items| - 1], itemMax) {
      ItemsOfNonBlank(items[..|items| - 1], itemMax, x);
    }
  }

  lemma {:induction false} ChunksOfItems(items: seq<Item>, c: RetrievedChunk)
    ensures c in ChunksOf(items) ==> ChunkItem(c) in items
  {
    if items != [] { ChunksOfItems(items[..|items| - 1], c); }
  }

  lemma {:induction false} FactsOfItems(items: seq<Item>, f: RetrievedFact)
    ensures f in FactsOf(items) ==> FactItem(f) in items
  {
    if items != [] { FactsOfItems(items[..|items| - 1], f); }
  }

  lemma ContextIsEvidence(evidence: RetrievalEvidence, kept: seq<Kept>, itemMax: nat)
    requires itemMax >= 1 && KeptItems(kept) <= NonBlank(Items(evidence), itemMax)
    ensures forall c :: c in ChunksOf(KeptItems(kept)) ==> c in evidence.chunks
    ensures forall f :: f in FactsOf(KeptItems(kept)) ==> f in evidence.facts
  {
    forall c | c in ChunksOf(KeptItems(kept)) ensures c in evidence.chunks {
      ChunksOfItems(KeptItems(kept), c);
      assert ChunkItem(c) in NonBlank(Items(evidence), itemMax);
      ItemsOfNonBlank(Items(evidence), itemMax, ChunkItem(c));
    }
    forall f | f in FactsOf(KeptItems(kept)) ensures f in evidence.facts {
      FactsOfItems(KeptItems(kept), f);
      assert FactItem(f) in NonBlank(Items(evidence), itemMax);
      ItemsOfNonBlank(Items(evidence), itemMax, FactItem(f));
    }
  }

  /** Everything used is of documents in both sets. */
  ghost predicate Within(chunks: seq<RetrievedChunk>, facts: seq<RetrievedFact>, allowed: set<int>, current: set<int>) {
    && (forall c :: c in chunks ==> c.sourceDocumentId in allowed && c.sourceDocumentId in current)
    && (forall f :: f in facts ==> f.sourceDocumentId in allowed && f.sourceDocumentId in current)
  }

  lemma ItemsWithin(chunks: seq<RetrievedChunk>, facts: seq<RetrievedFact>, allowed: set<int>, current: set<int>)
    requires Within(chunks, facts, allowed, current)
    ensures forall x :: x in ItemsOf(chunks, facts) ==> x.document in allowed && x.document in current
  {
  }

  /** The context is what the evidence is assembled to within the budget. */
  ghost predicate Assembles(evidence: RetrievalEvidence, context: AssembledContext, maxChars: int) {
    exists kept :: AssembledAs(evidence, context, kept, maxChars)
  }

  ghost predicate AssembledAs(evidence: RetrievalEvidence, context: AssembledContext, kept: seq<Kept>, maxChars: int) {
    && maxChars >= 1 && context == AssembledContext(Join(Lines(kept)), ChunksOf(KeptItems(kept)), FactsOf(KeptItems(kept)))
    && Bounded(kept, maxChars, ITEM_MAX_CHARS) && StopsOnlyForRoom(kept, NonBlank(Items(evidence), ITEM_MAX_CHARS), maxChars, ITEM_MAX_CHARS)
  }

  lemma AssemblesNothing(maxChars: int)
    requires maxChars >= 1
    ensures Assembles(RetrievalEvidence([], []), AssembledContext("", [], []), maxChars)
  {
    assert Items(RetrievalEvidence([], [])) == [];
    assert AssembledAs(RetrievalEvidence([], []), AssembledContext("", [], []), [], maxChars);
  }

  predicate Supports(generate: string -> Option<Generated>, text: string) {
    text != "" && generate(text).Some? && generate(text).value.supported
  }

  /** The last stage, from evidence that was narrowed to the rechecked documents. */
  method AnswerFrom(safe: RetrievalEvidence, documents: map<int, DocumentInfo>, maxChars: int, generate: string -> Option<Generated>,
                    ghost allowed: set<int>)
      returns (r: QueryResult, ghost context: AssembledContext, ghost cited: seq<Cited>)
    requires Within(safe.chunks, safe.facts, allowed, documents.Keys)
    ensures r.refused ==> r == Refusal()
    ensures r.refused <==> maxChars < 1 || !Supports(generate, context.text)
    ensures maxChars >= 1 ==> Assembles(safe, context, maxChars)
    ensures !r.refused ==> Within(context.chunks, context.facts, allowed, documents.Keys) && context.text != "" && |context.text| <= maxChars
    ensures !r.refused ==> (forall c :: c in context.chunks ==> c in safe.chunks) && (forall f :: f in context.facts ==> f in safe.facts)
    ensures !r.refused ==> generate(context.text).Some? && generate(context.text).value == Generated(true, r.answer)
    ensures !r.refused ==> Shows(r.citations, cited, documents) && NoneTwice(cited) && InOrderMet(cited, ItemsOf(context.chunks, context.facts))
    ensures !r.refused ==> forall x :: x in cited <==> x in ItemsOf(context.chunks, context.facts)
  {
    r, context, cited := Refusal(), AssembledContext("", [], []), [];
    var assembled, kept := AssembleContext(safe, maxChars, ITEM_MAX_CHARS);
    if assembled.Err? {
      return;
    }
    context := assembled.value;
    assert AssembledAs(safe, context, kept, maxChars);
    if assembled.value.text == "" {
      return;
    }
    ContextIsEvidence(safe, kept, ITEM_MAX_CHARS);
    var answer := generate(assembled.value.text);
    if answer.None? || !answer.value.supported {
      return;
    }
    ItemsWithin(context.chunks, context.facts, allowed, documents.Keys);
    var citations;
    citations, cited := Cite(ItemsOf(assembled.value.chunks, assembled.value.facts), documents);
    r := QueryResult(answer.value.answer, citations, false, None);
  }

  /** An answer rests on documents of the first allow-list that passed the later recheck, and so does
      every citation; anything else, an error included, is the one refusal. A lookup, a retrieval or a
      recheck that is `None` raised. */
  method AnswerQuery(allowedIds: Option<set<int>>, retrieved: Option<RetrievalEvidence>, rechecked: Option<map<int, DocumentInfo>>,
                     maxChars: int, generate: string -> Option<Generated>)
      returns (r: QueryResult, ghost context: AssembledContext, ghost cited: seq<Cited>)
    ensures r.refused ==> r == Refusal()
    ensures r.refused <==> allowedIds.None? || retrieved.None? || rechecked.None? || maxChars < 1 || !Supports(generate, context.text)
    ensures allowedIds.Some? && retrieved.Some? && rechecked.Some? && maxChars >= 1 ==>
              Assembles(Narrowed(retrieved.value, allowedIds.value * rechecked.value.Keys), context, maxChars)
    ensures !r.refused ==> Within(context.chunks, context.facts, allowedIds.value, rechecked.value.Keys)
    ensures !r.refused ==> forall c :: c in context.chunks ==> c in retrieved.value.chunks
    ensures !r.refused ==> forall f :: f in context.facts ==> f in retrieved.value.facts
    ensures !r.refused ==> generate(context.text).Some? && generate(context.text).value == Generated(true, r.answer)
    ensures !r.refused ==> Shows(r.citations, cited, rechecked.value) && NoneTwice(cited) && InOrderMet(cited, ItemsOf(context.chunks, context.facts))
    ensures !r.refused ==> forall x :: x in cited <==> x in ItemsOf(context.chunks, context.facts)
  {
    hide *;
    NothingSupported(generate);
    r, context, cited := Refusal(), AssembledContext("", [], []), [];
    if allowedIds.None? || retrieved.None? || rechecked.None? {
      return;
    }
    if maxChars >= 1 { NothingLeft(retrieved.value, allowedIds.value, rechecked.value.Keys, maxChars); }
    var candidates := DocumentsOf(retrieved.value) * allowedIds.value;
    if allowedIds.value == {} || candidates == {} {
      return;
    }
    var documents := map d | d in rechecked.value && d in candidates :: rechecked.value[d];
    NarrowedSame(retrieved.value, allowedIds.value * rechecked.value.Keys, documents.Keys);
    var safe := Narrowed(retrieved.value, documents.Keys);
    NarrowedWithin(retrieved.value, allowedIds.value, documents.Keys);
    if safe.chunks == [] && safe.facts == [] {
      return;
    }
    r, context, cited := AnswerFrom(safe, documents, maxChars, generate, allowedIds.value);
    if !r.refused {
      WithinMore(context.chunks, context.facts, allowedIds.value, documents.Keys, rechecked.value.Keys);
      ShowsMore(r.citations, cited, documents, rechecked.value);
    }
  }

  /** Where no document of the evidence is in both sets, nothing is left and nothing assembled. */
  lemma NothingLeft(e: RetrievalEvidence, allowed: set<int>, current: set<int>, maxChars: int)
    requires maxChars >= 1
    ensures DocumentsOf(e) * allowed == {} ==> Assembles(Narrowed(e, allowed * current), AssembledContext("", [], []), maxChars)
    ensures Narrowed(e, allowed * current) == RetrievalEvidence([], []) ==>
              Assembles(Narrowed(e, allowed * current), AssembledContext("", [], []), maxChars)
  {
    hide Assembles, DocumentsOf, Narrowed;
    AssemblesNothing(maxChars);
    if DocumentsOf(e) * allowed == {} {
      forall d | d in DocumentsOf(e) ensures d !in allowed { assert d in allowed ==> d in DocumentsOf(e) * allowed; }
      NarrowedSame(e, allowed * current, {});
      NarrowedToNothing(e);
    }
  }

  lemma NothingSupported(generate: string -> Option<Generated>)
    ensures !Supports(generate, "") && Refusal().refused
  {
  }

  lemma NarrowedWithin(e: RetrievalEvidence, allowed: set<int>, documents: set<int>)
    requires documents <= DocumentsOf(e) * allowed
    ensures Within(Narrowed(e, documents).chunks, Narrowed(e, documents).facts, allowed, documents)
    ensures (forall c :: c in Narrowed(e, documents).chunks ==> c in e.chunks) && (forall f :: f in Narrowed(e, documents).facts ==> f in e.facts)
  {
  }

  lemma WithinMore(chunks: seq<RetrievedChunk>, facts: seq<RetrievedFact>, allowed: set<int>, current: set<int>, more: set<int>)
    requires Within(chunks, facts, allowed, current) && current <= more
    ensures Within(chunks, facts, allowed, more)
  {
  }

  lemma ShowsMore(citations: seq<Citation>, cited: seq<Cited>, documents: map<int, DocumentInfo>, more: map<int, DocumentInfo>)
    requires Shows(citations, cited, documents) && forall d :: d in documents ==> d in more && more[d] == documents[d]
    ensures Shows(citations, cited, more)
  {
  }

  lemma {:induction false} NarrowedToNothing(e: RetrievalEvidence)
    ensures Narrowed(e, {}) == RetrievalEvidence([], [])
    decreases |e.chunks| + |e.facts|
  {
    if e.chunks != [] {
      NarrowedToNothing(RetrievalEvidence(e.chunks[1..], e.facts));
    } else if e.facts != [] {
      NarrowedToNothing(RetrievalEvidence(e.chunks, e.facts[1..]));
    }
  }
}
