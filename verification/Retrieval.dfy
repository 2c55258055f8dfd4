/** The guarded graph queries: match, filter by provenance and allow-list, score, sort, take. */
module Retrieval {
  import opened Identifiers
  import opened Outcomes
  import opened Text

  // ----- the graph as the queries see it: any properties on anything

  datatype Value = Null | Int(i: int) | Str(s: string)

  datatype Field = SourceDocumentId | ConnectionId | DriveFileId | PermissionsVersion | ChunkIdField | ChunkIndex | TextField | NameField

  type Props = map<Field, Value>

  function Get(p: Props, f: Field): Value {
    if f in p then p[f] else Null
  }

  datatype Label = Document | Chunk | Entity

  datatype Node = Node(tag: Label, props: Props)

  datatype Edge = Edge(kind: string, source: nat, target: nat, props: Props)

  /** Nodes by their internal ids; edges in the order the store yields them. */
  datatype Graph = Graph(nodes: map<nat, Node>, edges: seq<Edge>)

  // ----- the guard

  const PROVENANCE_FIELDS := [SourceDocumentId, ConnectionId, DriveFileId, PermissionsVersion]

  predicate HasProvenance(p: Props) {
    forall i :: 0 <= i < |PROVENANCE_FIELDS| ==> Get(p, PROVENANCE_FIELDS[i]) != Null && Get(p, PROVENANCE_FIELDS[i]) != Str("")
  }

  predicate Allowed(v: Value, allowed: set<int>) {
    v.Int? && v.i in allowed
  }

  /** `provenance_where(alias)` */
  predicate Guard(p: Props, allowed: set<int>) {
    HasProvenance(p) && Allowed(Get(p, SourceDocumentId), allowed)
  }

  predicate SameDocument(p: Props, q: Props) {
    Get(p, SourceDocumentId) == Get(q, SourceDocumentId)
  }

  // ----- the matches

  datatype Match = Match(chunk: Props, belongs: Props, document: Props)

  /** The edge joins a chunk to a document. */
  predicate IsBelongs(g: Graph, e: Edge) {
    && e.kind == "belongs_to" && e.source in g.nodes && e.target in g.nodes
    && g.nodes[e.source].tag.Chunk? && g.nodes[e.target].tag.Document?
  }

  predicate GuardedMatch(m: Match, allowed: set<int>) {
    && Guard(m.chunk, allowed) && Guard(m.belongs, allowed) && Guard(m.document, allowed)
    && SameDocument(m.chunk, m.belongs) && SameDocument(m.chunk, m.document)
  }

  function MatchOf(g: Graph, e: Edge): Match
    requires IsBelongs(g, e)
  {
    Match(g.nodes[e.source].props, e.props, g.nodes[e.target].props)
  }

  /** The guarded chunk matches among some edges. */
  function Matches(g: Graph, edges: seq<Edge>, allowed: set<int>): (r: seq<Match>)
    ensures forall i :: 0 <= i < |r| ==> GuardedMatch(r[i], allowed)
  {
    if edges == [] then []
    else
      var e := edges[|edges| - 1];
      Matches(g, edges[..|edges| - 1], allowed)
      + if IsBelongs(g, e) && GuardedMatch(MatchOf(g, e), allowed) then [MatchOf(g, e)] else []
  }

  datatype FactMatch = FactMatch(source: Props, fact: Props, target: Props, kind: string, at: Match)

  predicate IsFact(g: Graph, e: Edge) {
    && e.source in g.nodes && e.target in g.nodes && g.nodes[e.source].tag.Entity? && g.nodes[e.target].tag.Entity?
  }

  predicate GuardedFact(g: Graph, e: Edge, allowed: set<int>)
    requires IsFact(g, e)
  {
    var source, target := g.nodes[e.source].props, g.nodes[e.target].props;
    && Guard(source, allowed) && Guard(e.props, allowed) && Guard(target, allowed)
    && SameDocument(source, e.props) && SameDocument(source, target)
  }

  /** The chunk the fact was read from. */
  predicate Anchors(m: Match, fact: Props) {
    && SameDocument(m.chunk, fact)
    && Get(m.chunk, ChunkIndex) != Null && Get(m.chunk, ChunkIndex) == Get(fact, ChunkIndex)
  }

  function Anchored(g: Graph, e: Edge, ms: seq<Match>): seq<FactMatch>
    requires IsFact(g, e)
  {
    if ms == [] then []
    else
      var m := ms[|ms| - 1];
      Anchored(g, e, ms[..|ms| - 1])
      + if Anchors(m, e.props) then [FactMatch(g.nodes[e.source].props, e.props, g.nodes[e.target].props, e.kind, m)] else []
  }

  /** Every guarded fact edge with every guarded match of its chunk. */
  function Facts(g: Graph, edges: seq<Edge>, ms: seq<Match>, allowed: set<int>): seq<FactMatch> {
    if edges == [] then []
    else
      var e := edges[|edges| - 1];
      Facts(g, edges[..|edges| - 1], ms, allowed) + if IsFact(g, e) && GuardedFact(g, e, allowed) then Anchored(g, e, ms) else []
  }

  // ----- scoring, sorting, taking

  predicate StandsAt(s: string, i: int, term: string) {
    0 <= i <= |s| - |term| && s[i..i + |term|] == term
  }

  predicate Contains(s: string, term: string) {
    exists i | 0 <= i <= |s| :: StandsAt(s, i, term)
  }

  /** `toLower(coalesce(value, ''))` */
  function LowerOf(v: Value): string {
    if v.Str? then Lower(v.s) else ""
  }

  function Matching(terms: seq<string>, texts: seq<string>): nat {
    if terms == [] then 0
    else Matching(terms[..|terms| - 1], texts) + if exists i :: 0 <= i < |texts| && Contains(texts[i], terms[|terms| - 1]) then 1 else 0
  }

  /** What the rows are sorted by: relevance, then document, then chunk index with none last. */
  datatype Rank = Rank(relevance: real, document: Value, index: Value)

  /** Strings come before numbers, and what is missing comes last. */
  predicate ValueBefore(a: Value, b: Value) {
    match (a, b)
    case (Str(s), Str(t)) => LexBefore(s, t)
    case (Str(_), _) => true
    case (Int(i), Int(j)) => i < j
    case (Int(_), Null) => true
    case _ => false
  }

  predicate RankBefore(a: Rank, b: Rank) {
    || a.relevance > b.relevance
    || (a.relevance == b.relevance && (ValueBefore(a.document, b.document) || (a.document == b.document && ValueBefore(a.index, b.index))))
  }

  datatype Row<+T> = Row(rank: Rank, item: T)

  /** Puts a row behind all that do not have to come after it. */
  function Insert<T>(rows: seq<Row<T>>, row: Row<T>): seq<Row<T>> {
    if rows == [] || !RankBefore(row.rank, rows[|rows| - 1].rank) then rows + [row]
    else Insert(rows[..|rows| - 1], row) + [rows[|rows| - 1]]
  }

  /** A stable sort: rows of equal rank keep the order the store yielded them in. */
  function Sort<T>(rows: seq<Row<T>>): seq<Row<T>> {
    if rows == [] then [] else Insert(Sort(rows[..|rows| - 1]), rows[|rows| - 1])
  }

  function Take<T>(s: seq<T>, limit: nat): seq<T> {
    if |s| <= limit then s else s[..limit]
  }

  function RankOf(relevance: real, m: Match): Rank {
    Rank(relevance, Get(m.chunk, SourceDocumentId), Get(m.chunk, ChunkIndex))
  }

  datatype Query = Query(terms: seq<string>, minimumShouldMatch: nat, limit: nat, minimumScore: real)

  function KeywordRows(ms: seq<Match>, q: Query): seq<Row<Match>> {
    if ms == [] then []
    else
      var m := ms[|ms| - 1];
      var n := Matching(q.terms, [LowerOf(Get(m.chunk, TextField))]);
      KeywordRows(ms[..|ms| - 1], q) + if n >= q.minimumShouldMatch then [Row(RankOf(n as real, m), m)] else []
  }

  /** The similarity of a chunk's vector to the question's, if it has one of the right shape. */
  function VectorRows(ms: seq<Match>, q: Query, similarity: Props -> Option<real>): seq<Row<Match>> {
    if ms == [] then []
    else
      var m := ms[|ms| - 1];
      var s := similarity(m.chunk);
      VectorRows(ms[..|ms| - 1], q, similarity) + if s.Some? && s.value >= q.minimumScore then [Row(RankOf(s.value, m), m)] else []
  }

  function FactRows(fs: seq<FactMatch>, q: Query): seq<Row<FactMatch>> {
    if fs == [] then []
    else
      var f := fs[|fs| - 1];
      var n := Matching(q.terms, [LowerOf(Get(f.source, NameField)), LowerOf(Get(f.target, NameField)), LowerOf(Get(f.at.chunk, TextField))]);
      FactRows(fs[..|fs| - 1], q) + if n >= q.minimumShouldMatch then [Row(RankOf(n as real, f.at), f)] else []
  }

  function ChunkQuery(g: Graph, allowed: set<int>, q: Query): seq<Row<Match>> {
    Take(Sort(KeywordRows(Matches(g, g.edges, allowed), q)), q.limit)
  }

  function VectorQuery(g: Graph, allowed: set<int>, q: Query, similarity: Props -> Option<real>): seq<Row<Match>> {
    Take(Sort(VectorRows(Matches(g, g.edges, allowed), q, similarity)), q.limit)
  }

  function FactQuery(g: Graph, allowed: set<int>, q: Query): seq<Row<FactMatch>> {
    Take(Sort(FactRows(Facts(g, g.edges, Matches(g, g.edges, allowed), allowed), q)), q.limit)
  }

  // ----- the graph cut down to the allowed documents

  predicate Kept(p: Props, allowed: set<int>) {
    Allowed(Get(p, SourceDocumentId), allowed)
  }

  function CutNodes(nodes: map<nat, Node>, allowed: set<int>): map<nat, Node> {
    map n | n in nodes && Kept(nodes[n].props, allowed) :: nodes[n]
  }

  /** The edges that are allowed themselves and keep both their ends. */
  function CutEdges(nodes: map<nat, Node>, edges: seq<Edge>, allowed: set<int>): seq<Edge> {
    if edges == [] then []
    else
      var e := edges[|edges| - 1];
      CutEdges(nodes, edges[..|edges| - 1], allowed)
      + if Kept(e.props, allowed) && e.source in CutNodes(nodes, allowed) && e.target in CutNodes(nodes, allowed) then [e] else []
  }

  function Cut(g: Graph, allowed: set<int>): Graph {
    Graph(CutNodes(g.nodes, allowed), CutEdges(g.nodes, g.edges, allowed))
  }

  predicate EdgeKept(g: Graph, e: Edge, allowed: set<int>) {
    Kept(e.props, allowed) && e.source in CutNodes(g.nodes, allowed) && e.target in CutNodes(g.nodes, allowed)
  }

  lemma MatchOfCut(g: Graph, e: Edge, allowed: set<int>)
    ensures EdgeKept(g, e, allowed) ==> (IsBelongs(Cut(g, allowed), e) <==> IsBelongs(g, e))
    ensures EdgeKept(g, e, allowed) && IsBelongs(g, e) ==> MatchOf(Cut(g, allowed), e) == MatchOf(g, e)
    ensures IsBelongs(g, e) && GuardedMatch(MatchOf(g, e), allowed) ==> EdgeKept(g, e, allowed)
  {
  }

  lemma {:induction false} MatchesOfCut(g: Graph, edges: seq<Edge>, allowed: set<int>)
    ensures Matches(g, edges, allowed) == Matches(Cut(g, allowed), CutEdges(g.nodes, edges, allowed), allowed)
  {
    if edges != [] {
      var init := edges[..|edges| - 1];
      MatchesOfCut(g, init, allowed);
      var e, less := edges[|edges| - 1], CutEdges(g.nodes, init, allowed);
      MatchOfCut(g, e, allowed);
      if EdgeKept(g, e, allowed) {
        assert CutEdges(g.nodes, edges, allowed) == less + [e];
        assert (less + [e])[..|less + [e]| - 1] == less && (less + [e])[|less + [e]| - 1] == e;
      } else {
        assert CutEdges(g.nodes, edges, allowed) == less;
      }
    }
  }

  lemma FactOfCut(g: Graph, e: Edge, allowed: set<int>)
    ensures EdgeKept(g, e, allowed) ==> (IsFact(Cut(g, allowed), e) <==> IsFact(g, e))
    ensures EdgeKept(g, e, allowed) && IsFact(g, e) ==> (GuardedFact(Cut(g, allowed), e, allowed) <==> GuardedFact(g, e, allowed))
    ensures IsFact(g, e) && GuardedFact(g, e, allowed) ==> EdgeKept(g, e, allowed)
  {
  }

  lemma {:induction false} AnchoredOfCut(g: Graph, e: Edge, ms: seq<Match>, allowed: set<int>)
    requires IsFact(g, e) && EdgeKept(g, e, allowed)
    ensures IsFact(Cut(g, allowed), e) && Anchored(Cut(g, allowed), e, ms) == Anchored(g, e, ms)
  {
    if ms != [] { AnchoredOfCut(g, e, ms[..|ms| - 1], allowed); }
  }

  lemma {:induction false} FactsOfCut(g: Graph, edges: seq<Edge>, ms: seq<Match>, allowed: set<int>)
    ensures Facts(g, edges, ms, allowed) == Facts(Cut(g, allowed), CutEdges(g.nodes, edges, allowed), ms, allowed)
  {
    if edges != [] {
      var init := edges[..|edges| - 1];
      FactsOfCut(g, init, ms, allowed);
      var e, less := edges[|edges| - 1], CutEdges(g.nodes, init, allowed);
      FactOfCut(g, e, allowed);
      if EdgeKept(g, e, allowed) {
        assert CutEdges(g.nodes, edges, allowed) == less + [e];
        assert (less + [e])[..|less + [e]| - 1] == less && (less + [e])[|less + [e]| - 1] == e;
        if IsFact(g, e) { AnchoredOfCut(g, e, ms, allowed); }
      } else {
        assert CutEdges(g.nodes, edges, allowed) == less;
      }
    }
  }

  /** No query sees anything of the documents that are not allowed: what it returns, its order and its
      cut-off are those of the graph without them. */
  lemma NonInterference(g: Graph, allowed: set<int>, q: Query, similarity: Props -> Option<real>)
    ensures ChunkQuery(g, allowed, q) == ChunkQuery(Cut(g, allowed), allowed, q)
    ensures VectorQuery(g, allowed, q, similarity) == VectorQuery(Cut(g, allowed), allowed, q, similarity)
    ensures FactQuery(g, allowed, q) == FactQuery(Cut(g, allowed), allowed, q)
  {
    MatchesOfCut(g, g.edges, allowed);
    FactsOfCut(g, g.edges, Matches(g, g.edges, allowed), allowed);
  }

  // ----- the sort does sort

  ghost predicate Ordered<T>(rows: seq<Row<T>>) {
    forall i, j :: 0 <= i < j < |rows| ==> !RankBefore(rows[j].rank, rows[i].rank)
  }

  lemma ValueNotAfterChain(a: Value, b: Value, c: Value)
    requires !ValueBefore(b, a) && !ValueBefore(c, b)
    ensures !ValueBefore(c, a) && (!ValueBefore(a, c) ==> a == b == c)
  {
    if a.Str? && c.Str? {
      LexOne(a.s, b.s);
      LexOne(b.s, c.s);
      LexOne(a.s, c.s);
      if LexBefore(a.s, b.s) && LexBefore(b.s, c.s) { LexChain(a.s, b.s, c.s); }
      if LexBefore(c.s, a.s) && LexBefore(a.s, b.s) { LexChain(c.s, a.s, b.s); }
    }
  }

  lemma NotAfterChain(a: Rank, b: Rank, c: Rank)
    requires !RankBefore(b, a) && !RankBefore(c, b)
    ensures !RankBefore(c, a)
  {
    hide ValueBefore;
    if a.relevance == b.relevance == c.relevance {
      ValueNotAfterChain(a.document, b.document, c.document);
      if a.document == b.document == c.document { ValueNotAfterChain(a.index, b.index, c.index); }
    }
  }

  lemma BeforeOneWay(a: Rank, b: Rank)
    requires RankBefore(a, b)
    ensures !RankBefore(b, a)
  {
    if a.relevance == b.relevance {
      ValueOneWay(a.document, b.document);
      ValueOneWay(a.index, b.index);
    }
  }

  lemma ValueOneWay(a: Value, b: Value)
    ensures ValueBefore(a, b) ==> !ValueBefore(b, a) && a != b
  {
    if a.Str? && b.Str? {
      LexOne(a.s, b.s);
      if LexBefore(a.s, b.s) && LexBefore(b.s, a.s) { LexChain(a.s, b.s, a.s); }
    }
  }

  lemma {:induction false} InsertPermutes<T>(rows: seq<Row<T>>, row: Row<T>)
    ensures multiset(Insert(rows, row)) == multiset(rows) + multiset{row}
  {
    if rows != [] && RankBefore(row.rank, rows[|rows| - 1].rank) {
      InsertPermutes(rows[..|rows| - 1], row);
      assert rows == rows[..|rows| - 1] + [rows[|rows| - 1]];
    }
  }

  /** Nothing in the rows has to come after the rank. */
  ghost predicate NoneAfter<T>(rows: seq<Row<T>>, rank: Rank) {
    forall i :: 0 <= i < |rows| ==> !RankBefore(rank, rows[i].rank)
  }

  lemma AppendOrdered<T>(rows: seq<Row<T>>, row: Row<T>)
    requires Ordered(rows) && NoneAfter(rows, row.rank)
    ensures Ordered(rows + [row])
  {
  }

  lemma {:induction false} InsertOrdered<T>(rows: seq<Row<T>>, row: Row<T>)
    requires Ordered(rows)
    ensures Ordered(Insert(rows, row))
    ensures forall rank :: NoneAfter(rows, rank) && !RankBefore(rank, row.rank) ==> NoneAfter(Insert(rows, row), rank)
  {
    if rows == [] {
    } else if !RankBefore(row.rank, rows[|rows| - 1].rank) {
      forall i | 0 <= i < |rows| ensures !RankBefore(row.rank, rows[i].rank) {
        if i < |rows| - 1 { NotAfterChain(rows[i].rank, rows[|rows| - 1].rank, row.rank); }
      }
      AppendOrdered(rows, row);
    } else {
      var init, last := rows[..|rows| - 1], rows[|rows| - 1];
      InsertOrdered(init, row);
      BeforeOneWay(row.rank, last.rank);
      assert NoneAfter(init, last.rank);
      AppendOrdered(Insert(init, row), last);
    }
  }

  /** Sorting orders the rows by rank and loses none. */
  lemma {:induction false} SortOrdered<T>(rows: seq<Row<T>>)
    ensures Ordered(Sort(rows)) && multiset(Sort(rows)) == multiset(rows)
  {
    if rows != [] {
      var init, last := rows[..|rows| - 1], rows[|rows| - 1];
      assert rows == init + [last];
      SortOrdered(init);
      InsertOrdered(Sort(init), last);
      InsertPermutes(Sort(init), last);
    }
  }
}
