/** What the limited queries return, said of the graph's edges alone: of all the matches that qualify,
    the best ones in order, each shown as its nodes have it. */
module RetrievalPicks {
  import opened Identifiers
  import opened Outcomes
  import opened Retrieval
  import opened Text

  // ----- what it takes to qualify

  /** The properties carry all four provenance fields. */
  predicate Sourced(p: Props) {
    forall f :: f in {SourceDocumentId, ConnectionId, DriveFileId, PermissionsVersion} ==> f in p && p[f] != Null && p[f] != Str("")
  }

  /** All carry provenance and name one and the same allowed document. */
  predicate OfOneAllowed(items: seq<Props>, allowed: set<int>) {
    exists d :: d in allowed && forall i :: 0 <= i < |items| ==> Sourced(items[i]) && items[i][SourceDocumentId] == Int(d)
  }

  /** The edge at i joins a chunk to a document, and all three are of one allowed document. */
  predicate ChunkAt(g: Graph, allowed: set<int>, i: nat) {
    && i < |g.edges| && g.edges[i].source in g.nodes && g.edges[i].target in g.nodes
    && g.edges[i].kind == "belongs_to" && g.nodes[g.edges[i].source].tag == Chunk && g.nodes[g.edges[i].target].tag == Document
    && OfOneAllowed([g.nodes[g.edges[i].source].props, g.edges[i].props, g.nodes[g.edges[i].target].props], allowed)
  }

  /** The edge at i joins two entities, and all three are of one allowed document. */
  predicate FactAt(g: Graph, allowed: set<int>, i: nat) {
    && i < |g.edges| && g.edges[i].source in g.nodes && g.edges[i].target in g.nodes
    && g.nodes[g.edges[i].source].tag == Entity && g.nodes[g.edges[i].target].tag == Entity
    && OfOneAllowed([g.nodes[g.edges[i].source].props, g.edges[i].props, g.nodes[g.edges[i].target].props], allowed)
  }

  /** The chunk's properties. */
  function ChunkProps(g: Graph, i: nat): Props
    requires i < |g.edges| && g.edges[i].source in g.nodes
  {
    g.nodes[g.edges[i].source].props
  }

  /** The fact was read from the chunk: same document, same chunk index. */
  predicate FactFrom(g: Graph, allowed: set<int>, p: (nat, nat)) {
    && FactAt(g, allowed, p.0) && ChunkAt(g, allowed, p.1)
    && var fact, chunk := g.edges[p.0].props, ChunkProps(g, p.1);
       && SourceDocumentId in fact && SourceDocumentId in chunk && fact[SourceDocumentId] == chunk[SourceDocumentId]
       && ChunkIndex in fact && ChunkIndex in chunk && fact[ChunkIndex] != Null && fact[ChunkIndex] == chunk[ChunkIndex]
  }

  /** The term stands somewhere in the text. */
  ghost predicate Within(term: string, text: string) {
    exists a: string, b: string :: text == a + term + b
  }

  ghost predicate WithinValue(term: string, p: Props, f: Field) {
    Within(term, if f in p && p[f].Str? then Lower(p[f].s) else "")
  }

  /** The positions of the terms that stand in the chunk's text. */
  ghost function KeywordTerms(g: Graph, terms: seq<string>, i: nat): set<nat>
    requires i < |g.edges| && g.edges[i].source in g.nodes
  {
    set k: nat | k < |terms| && WithinValue(terms[k], ChunkProps(g, i), TextField)
  }

  /** The positions of the terms that stand in a name of the fact or in its chunk's text. */
  ghost function FactTerms(g: Graph, terms: seq<string>, p: (nat, nat)): set<nat>
    requires p.0 < |g.edges| && g.edges[p.0].source in g.nodes && g.edges[p.0].target in g.nodes
    requires p.1 < |g.edges| && g.edges[p.1].source in g.nodes
  {
    set k: nat | k < |terms| && (|| WithinValue(terms[k], g.nodes[g.edges[p.0].source].props, NameField)
                                 || WithinValue(terms[k], g.nodes[g.edges[p.0].target].props, NameField)
                                 || WithinValue(terms[k], ChunkProps(g, p.1), TextField))
  }

  // ----- what a row shows

  function ShownChunk(g: Graph, i: nat, relevance: real): Row<Match>
    requires i < |g.edges| && g.edges[i].source in g.nodes && g.edges[i].target in g.nodes
  {
    var chunk := ChunkProps(g, i);
    Row(Rank(relevance, Get(chunk, SourceDocumentId), Get(chunk, ChunkIndex)), Match(chunk, g.edges[i].props, g.nodes[g.edges[i].target].props))
  }

  function ShownFact(g: Graph, p: (nat, nat), relevance: real): Row<FactMatch>
    requires p.0 < |g.edges| && g.edges[p.0].source in g.nodes && g.edges[p.0].target in g.nodes
    requires p.1 < |g.edges| && g.edges[p.1].source in g.nodes && g.edges[p.1].target in g.nodes
  {
    var at := ShownChunk(g, p.1, relevance);
    Row(at.rank, FactMatch(g.nodes[g.edges[p.0].source].props, g.edges[p.0].props, g.nodes[g.edges[p.0].target].props, g.edges[p.0].kind, at.item))
  }

  // ----- best first

  predicate ValueAtMost(a: Value, b: Value) {
    match (a, b)
    case (Str(s), Str(t)) => !LexBefore(t, s)
    case (Int(i), Int(j)) => i <= j
    case (Str(_), _) => true
    case (_, Str(_)) => false
    case (_, Null) => true
    case (Null, Int(_)) => false
  }

  /** Higher relevance first, then lower document, then lower chunk index with none last. */
  predicate NoWorse(a: Rank, b: Rank) {
    && a.relevance >= b.relevance
    && (a.relevance == b.relevance ==> ValueAtMost(a.document, b.document) && (a.document == b.document ==> ValueAtMost(a.index, b.index)))
  }

  /** The rows show some of the places that qualify, as many as the limit lets in, best first, and no
      place left out is better than one that is in. */
  ghost predicate Picks<P, T>(rows: seq<Row<T>>, hits: set<P>, shown: P --> Row<T>, limit: nat, places: seq<P>)
    requires forall p :: p in hits ==> shown.requires(p)
  {
    && |rows| == |places| == (if |hits| <= limit then |hits| else limit)
    && (forall i :: 0 <= i < |places| ==> places[i] in hits && rows[i] == shown(places[i]))
    && (forall i, j :: 0 <= i < j < |places| ==> places[i] != places[j])
    && (forall i, j :: 0 <= i < j < |rows| ==> NoWorse(rows[i].rank, rows[j].rank))
    && (forall i, p :: 0 <= i < |rows| && p in hits && p !in places ==> NoWorse(rows[i].rank, shown(p).rank))
  }

  // ----- lists without repetition

  /** The list holds exactly the elements, each once. */
  ghost predicate Lists<P(!new)>(places: seq<P>, elements: set<P>) {
    && (forall i, j :: 0 <= i < j < |places| ==> places[i] != places[j])
    && (forall p :: p in elements <==> p in places)
  }

  lemma {:induction false} ListsCount<P(!new)>(places: seq<P>, elements: set<P>)
    requires Lists(places, elements)
    ensures |places| == |elements|
  {
    if places != [] {
      var init, last := places[..|places| - 1], places[|places| - 1];
      ListsLess(places, elements);
      ListsCount(init, elements - {last});
    } else {
      assert elements == {};
    }
  }

  lemma ListsLess<P(!new)>(places: seq<P>, elements: set<P>)
    requires Lists(places, elements) && places != []
    ensures Lists(places[..|places| - 1], elements - {places[|places| - 1]}) && places[|places| - 1] in elements
  {
    var init, last := places[..|places| - 1], places[|places| - 1];
    assert places == init + [last];
    forall x | x in elements - {last} ensures x in init { assert x in places; }
  }

  lemma ListsMore<P(!new)>(places: seq<P>, elements: set<P>, p: P)
    requires Lists(places, elements) && p !in elements
    ensures Lists(places + [p], elements + {p})
  {
  }

  // ----- the sort and the limit

  ghost predicate Shows<P, T>(rows: seq<Row<T>>, places: seq<P>, shown: P --> Row<T>)
    requires forall p :: p in places ==> shown.requires(p)
  {
    |rows| == |places| && forall i :: 0 <= i < |rows| ==> rows[i] == shown(places[i])
  }

  lemma ShowsMore<P, T>(rows: seq<Row<T>>, places: seq<P>, shown: P --> Row<T>, p: P)
    requires (forall x :: x in places ==> shown.requires(x)) && Shows(rows, places, shown) && shown.requires(p)
    ensures (forall x :: x in places + [p] ==> shown.requires(x)) && Shows(rows + [shown(p)], places + [p], shown)
  {
  }

  lemma {:induction false} InsertShows<P(!new), T>(rows: seq<Row<T>>, places: seq<P>, elements: set<P>, shown: P --> Row<T>, p: P) returns (more: seq<P>)
    requires Lists(places, elements) && p !in elements && shown.requires(p)
    requires forall x :: x in places ==> shown.requires(x)
    requires Shows(rows, places, shown)
    ensures Lists(more, elements + {p}) && (forall x :: x in more ==> shown.requires(x)) && Shows(Insert(rows, shown(p)), more, shown)
    decreases |rows|
  {
    if rows == [] || !RankBefore(shown(p).rank, rows[|rows| - 1].rank) {
      more := places + [p];
      ListsMore(places, elements, p);
    } else {
      var init, last := places[..|places| - 1], places[|places| - 1];
      ListsLess(places, elements);
      var less := InsertShows(rows[..|rows| - 1], init, elements - {last}, shown, p);
      ListsMore(less, elements - {last} + {p}, last);
      assert elements - {last} + {p} + {last} == elements + {p};
      more := less + [last];
    }
  }

  lemma {:induction false} SortShows<P(!new), T>(rows: seq<Row<T>>, places: seq<P>, elements: set<P>, shown: P --> Row<T>) returns (sorted: seq<P>)
    requires Lists(places, elements) && (forall x :: x in places ==> shown.requires(x)) && Shows(rows, places, shown)
    ensures Lists(sorted, elements) && (forall x :: x in sorted ==> shown.requires(x)) && Shows(Sort(rows), sorted, shown)
    decreases |rows|
  {
    if rows == [] {
      sorted := [];
    } else {
      var init, last := places[..|places| - 1], places[|places| - 1];
      ListsLess(places, elements);
      var less := SortShows(rows[..|rows| - 1], init, elements - {last}, shown);
      sorted := InsertShows(Sort(rows[..|rows| - 1]), less, elements - {last}, shown, last);
      assert elements - {last} + {last} == elements;
    }
  }

  lemma ValueOrder(a: Value, b: Value)
    ensures ValueAtMost(a, b) <==> !ValueBefore(b, a)
    ensures a == b || ValueBefore(a, b) || ValueBefore(b, a)
  {
    if a.Str? && b.Str? { LexOne(a.s, b.s); }
  }

  lemma RankOrder(a: Rank, b: Rank)
    ensures NoWorse(a, b) <==> !RankBefore(b, a)
  {
    hide ValueBefore, ValueAtMost;
    ValueOrder(a.document, b.document);
    ValueOrder(a.index, b.index);
    ValueOneWay(a.document, b.document);
    ValueOneWay(b.document, a.document);
  }

  lemma SortedNoWorse<T>(rows: seq<Row<T>>, i: nat, j: nat)
    requires i < j < |Sort(rows)|
    ensures NoWorse(Sort(rows)[i].rank, Sort(rows)[j].rank)
  {
    hide RankBefore, NoWorse;
    SortOrdered(rows);
    RankOrder(Sort(rows)[i].rank, Sort(rows)[j].rank);
  }

  lemma LeftOutNoBetter<P(!new), T>(rows: seq<Row<T>>, sorted: seq<P>, hits: set<P>, shown: P --> Row<T>, n: nat, i: nat, p: P)
    requires Lists(sorted, hits) && (forall x :: x in hits ==> shown.requires(x)) && Shows(Sort(rows), sorted, shown)
    requires i < n <= |sorted| && p in hits && p !in sorted[..n]
    ensures NoWorse(Sort(rows)[i].rank, shown(p).rank)
  {
    hide NoWorse;
    var j :| 0 <= j < |sorted| && sorted[j] == p;
    assert forall m :: 0 <= m < n ==> sorted[m] in sorted[..n];
    SortedNoWorse(rows, i, j);
  }

  /** Sorting and taking the first rows picks the best places. */
  lemma TakesBest<P(!new), T>(rows: seq<Row<T>>, places: seq<P>, hits: set<P>, shown: P --> Row<T>, limit: nat) returns (picked: seq<P>)
    requires Lists(places, hits) && (forall x :: x in hits ==> shown.requires(x)) && Shows(rows, places, shown)
    ensures Picks(Take(Sort(rows), limit), hits, shown, limit, picked)
  {
    hide NoWorse, Sort;
    var sorted := SortShows(rows, places, hits, shown);
    ListsCount(sorted, hits);
    SortOrdered(rows);
    picked := Take(sorted, limit);
    var taken := Take(Sort(rows), limit);
    forall i, j | 0 <= i < j < |taken| ensures NoWorse(taken[i].rank, taken[j].rank) { SortedNoWorse(rows, i, j); }
    forall i, p | 0 <= i < |taken| && p in hits && p !in picked ensures NoWorse(taken[i].rank, shown(p).rank) {
      LeftOutNoBetter(rows, sorted, hits, shown, |picked|, i, p);
    }
  }

  // ----- the matches are those of the edges

  lemma ProvenanceIsSourced(p: Props)
    ensures HasProvenance(p) <==> Sourced(p)
  {
    assert PROVENANCE_FIELDS[0] == SourceDocumentId && PROVENANCE_FIELDS[1] == ConnectionId
        && PROVENANCE_FIELDS[2] == DriveFileId && PROVENANCE_FIELDS[3] == PermissionsVersion;
  }

  lemma GuardsAreOne(a: Props, b: Props, c: Props, allowed: set<int>)
    ensures Guard(a, allowed) && Guard(b, allowed) && Guard(c, allowed) && SameDocument(a, b) && SameDocument(a, c)
       <==> OfOneAllowed([a, b, c], allowed)
  {
    hide HasProvenance, Sourced;
    ProvenanceIsSourced(a);
    ProvenanceIsSourced(b);
    ProvenanceIsSourced(c);
    SourcedHasDocument(a);
    SourcedHasDocument(b);
    SourcedHasDocument(c);
    if OfOneAllowed([a, b, c], allowed) {
      var d :| d in allowed && forall i :: 0 <= i < 3 ==> Sourced([a, b, c][i]) && [a, b, c][i][SourceDocumentId] == Int(d);
      assert [a, b, c][0] == a && [a, b, c][1] == b && [a, b, c][2] == c;
    }
    if Guard(a, allowed) && Guard(b, allowed) && Guard(c, allowed) && SameDocument(a, b) && SameDocument(a, c) {
      assert Get(a, SourceDocumentId).i in allowed;
    }
  }

  lemma SourcedHasDocument(p: Props)
    ensures Sourced(p) ==> SourceDocumentId in p
  {
  }

  lemma MatchIsChunkAt(g: Graph, allowed: set<int>, i: nat)
    requires i < |g.edges|
    ensures IsBelongs(g, g.edges[i]) && GuardedMatch(MatchOf(g, g.edges[i]), allowed) <==> ChunkAt(g, allowed, i)
  {
    if g.edges[i].source in g.nodes && g.edges[i].target in g.nodes {
      hide Guard, SameDocument, OfOneAllowed;
      GuardsAreOne(g.nodes[g.edges[i].source].props, g.edges[i].props, g.nodes[g.edges[i].target].props, allowed);
    }
  }

  lemma FactIsFactAt(g: Graph, allowed: set<int>, i: nat)
    requires i < |g.edges|
    ensures IsFact(g, g.edges[i]) && GuardedFact(g, g.edges[i], allowed) <==> FactAt(g, allowed, i)
  {
    if g.edges[i].source in g.nodes && g.edges[i].target in g.nodes {
      hide Guard, SameDocument, OfOneAllowed;
      GuardsAreOne(g.nodes[g.edges[i].source].props, g.edges[i].props, g.nodes[g.edges[i].target].props, allowed);
    }
  }

  ghost function ChunksBelow(g: Graph, allowed: set<int>, n: nat): set<nat> {
    set i: nat | i < n && ChunkAt(g, allowed, i)
  }

  ghost predicate ListsMatches(g: Graph, allowed: set<int>, ms: seq<Match>, places: seq<nat>) {
    && |places| == |ms|
    && forall k :: 0 <= k < |ms| ==> ChunkAt(g, allowed, places[k]) && ms[k] == MatchOf(g, g.edges[places[k]])
  }

  lemma {:induction false} MatchPlaces(g: Graph, allowed: set<int>, n: nat) returns (places: seq<nat>)
    requires n <= |g.edges|
    ensures Lists(places, ChunksBelow(g, allowed, n)) && ListsMatches(g, allowed, Matches(g, g.edges[..n], allowed), places)
  {
    if n == 0 {
      places := [];
    } else {
      places := MatchPlaces(g, allowed, n - 1);
      assert g.edges[..n][..n - 1] == g.edges[..n - 1] && g.edges[..n][n - 1] == g.edges[n - 1];
      hide GuardedMatch, OfOneAllowed;
      MatchIsChunkAt(g, allowed, n - 1);
      if ChunkAt(g, allowed, n - 1) {
        ListsMore(places, ChunksBelow(g, allowed, n - 1), n - 1);
        assert ChunksBelow(g, allowed, n) == ChunksBelow(g, allowed, n - 1) + {n - 1};
        places := places + [n - 1];
      } else {
        assert ChunksBelow(g, allowed, n) == ChunksBelow(g, allowed, n - 1);
      }
    }
  }

  // ----- scores

  lemma WithinIsContained(term: string, text: string)
    ensures Contains(text, term) <==> Within(term, text)
  {
    if i :| 0 <= i <= |text| && StandsAt(text, i, term) {
      assert text == text[..i] + term + text[i + |term|..];
    }
    if a: string, b: string :| text == a + term + b {
      assert StandsAt(text, |a|, term);
    }
  }

  ghost function TermsWithin(terms: seq<string>, texts: seq<string>): set<nat> {
    set k: nat | k < |terms| && exists i :: 0 <= i < |texts| && Within(terms[k], texts[i])
  }

  lemma {:induction false} MatchingCounts(terms: seq<string>, texts: seq<string>)
    ensures Matching(terms, texts) == |TermsWithin(terms, texts)|
  {
    hide Within, Contains;
    if terms != [] {
      var init, last := terms[..|terms| - 1], terms[|terms| - 1];
      MatchingCounts(init, texts);
      forall i | 0 <= i < |texts| ensures Contains(texts[i], last) <==> Within(last, texts[i]) {
        WithinIsContained(last, texts[i]);
      }
      var found := exists i :: 0 <= i < |texts| && Within(last, texts[i]);
      assert TermsWithin(terms, texts) == TermsWithin(init, texts) + if found then {|init|} else {};
    }
  }

  lemma KeywordScore(g: Graph, terms: seq<string>, i: nat)
    requires i < |g.edges| && g.edges[i].source in g.nodes
    ensures Matching(terms, [LowerOf(Get(ChunkProps(g, i), TextField))]) == |KeywordTerms(g, terms, i)|
  {
    hide Within, Lower;
    var texts := [LowerOf(Get(ChunkProps(g, i), TextField))];
    MatchingCounts(terms, texts);
    assert texts[0] == LowerOf(Get(ChunkProps(g, i), TextField));
    assert TermsWithin(terms, texts) == KeywordTerms(g, terms, i);
  }

  lemma FactScore(g: Graph, terms: seq<string>, p: (nat, nat))
    requires p.0 < |g.edges| && g.edges[p.0].source in g.nodes && g.edges[p.0].target in g.nodes
    requires p.1 < |g.edges| && g.edges[p.1].source in g.nodes
    ensures Matching(terms, [LowerOf(Get(g.nodes[g.edges[p.0].source].props, NameField)),
                             LowerOf(Get(g.nodes[g.edges[p.0].target].props, NameField)), LowerOf(Get(ChunkProps(g, p.1), TextField))])
         == |FactTerms(g, terms, p)|
  {
    hide Within, Lower;
    var texts := [LowerOf(Get(g.nodes[g.edges[p.0].source].props, NameField)), LowerOf(Get(g.nodes[g.edges[p.0].target].props, NameField)),
                  LowerOf(Get(ChunkProps(g, p.1), TextField))];
    MatchingCounts(terms, texts);
    assert texts[0] == LowerOf(Get(g.nodes[g.edges[p.0].source].props, NameField));
    assert texts[1] == LowerOf(Get(g.nodes[g.edges[p.0].target].props, NameField)) && texts[2] == LowerOf(Get(ChunkProps(g, p.1), TextField));
    assert TermsWithin(terms, texts) == FactTerms(g, terms, p);
  }

  // ----- the keyword query

  predicate EndsKnown(g: Graph, i: nat) {
    i < |g.edges| && g.edges[i].source in g.nodes && g.edges[i].target in g.nodes
  }

  ghost function KeywordRow(g: Graph, terms: seq<string>, i: nat): Row<Match>
    requires EndsKnown(g, i)
  {
    ShownChunk(g, i, |KeywordTerms(g, terms, i)| as real)
  }

  /** The chunks of the allowed documents with enough of the terms in their text. */
  ghost function KeywordHits(g: Graph, allowed: set<int>, terms: seq<string>, minimum: nat): set<nat> {
    set i: nat | i < |g.edges| && ChunkAt(g, allowed, i) && |KeywordTerms(g, terms, i)| >= minimum
  }

  ghost function KeywordHitsIn(g: Graph, q: Query, elements: set<nat>): set<nat> {
    set i | i in elements && EndsKnown(g, i) && |KeywordTerms(g, q.terms, i)| >= q.minimumShouldMatch
  }

  ghost function KeywordShown(g: Graph, terms: seq<string>): nat --> Row<Match> {
    (i: nat) requires EndsKnown(g, i) => KeywordRow(g, terms, i)
  }

  lemma {:induction false} KeywordPlaces(g: Graph, allowed: set<int>, q: Query, ms: seq<Match>, places: seq<nat>, elements: set<nat>) returns (r: seq<nat>)
    requires Lists(places, elements) && ListsMatches(g, allowed, ms, places)
    ensures Lists(r, KeywordHitsIn(g, q, elements))
    ensures (forall i :: i in r ==> EndsKnown(g, i)) && Shows(KeywordRows(ms, q), r, KeywordShown(g, q.terms))
    decreases |ms|
  {
    hide ChunkAt, KeywordTerms;
    if ms == [] {
      r := [];
      assert forall p :: p in elements ==> p in places;
    } else {
      var last := places[|places| - 1];
      ListsLess(places, elements);
      r := KeywordPlaces(g, allowed, q, ms[..|ms| - 1], places[..|places| - 1], elements - {last});
      LastMatch(g, allowed, ms, places);
      KeywordScore(g, q.terms, last);
      hide Lists, Shows, ListsMatches;
      if |KeywordTerms(g, q.terms, last)| >= q.minimumShouldMatch {
        assert KeywordHitsIn(g, q, elements) == KeywordHitsIn(g, q, elements - {last}) + {last};
        ListsMore(r, KeywordHitsIn(g, q, elements - {last}), last);
        ShowsMore(KeywordRows(ms[..|ms| - 1], q), r, KeywordShown(g, q.terms), last);
        r := r + [last];
      } else {
        assert KeywordHitsIn(g, q, elements) == KeywordHitsIn(g, q, elements - {last});
      }
    }
  }

  lemma LastMatch(g: Graph, allowed: set<int>, ms: seq<Match>, places: seq<nat>)
    requires ListsMatches(g, allowed, ms, places) && ms != []
    ensures var last, m := places[|places| - 1], ms[|ms| - 1];
            && EndsKnown(g, last) && m.chunk == ChunkProps(g, last)
            && forall relevance :: Row(RankOf(relevance, m), m) == ShownChunk(g, last, relevance)
  {
    assert ChunkAt(g, allowed, places[|places| - 1]);
  }

  /** The keyword query returns the best of the chunks that hold enough of the terms. */
  lemma ChunkQueryPicks(g: Graph, allowed: set<int>, q: Query) returns (places: seq<nat>)
    ensures forall i :: i in KeywordHits(g, allowed, q.terms, q.minimumShouldMatch) ==> EndsKnown(g, i)
    ensures Picks(ChunkQuery(g, allowed, q), KeywordHits(g, allowed, q.terms, q.minimumShouldMatch), KeywordShown(g, q.terms), q.limit, places)
  {
    hide OfOneAllowed, KeywordTerms, Picks, Shows, Lists;
    var all := MatchPlaces(g, allowed, |g.edges|);
    assert g.edges[..|g.edges|] == g.edges;
    var hits, chunks := KeywordHits(g, allowed, q.terms, q.minimumShouldMatch), ChunksBelow(g, allowed, |g.edges|);
    var ms := Matches(g, g.edges, allowed);
    var r := KeywordPlaces(g, allowed, q, ms, all, chunks);
    assert hits == KeywordHitsIn(g, q, chunks);
    places := TakesBest(KeywordRows(ms, q), r, hits, KeywordShown(g, q.terms), q.limit);
  }

  // ----- the vector query

  /** The chunks of the allowed documents whose vectors are similar enough to the question's. */
  ghost function VectorHits(g: Graph, allowed: set<int>, similarity: Props -> Option<real>, minimum: real): set<nat> {
    set i: nat | i < |g.edges| && ChunkAt(g, allowed, i) && similarity(ChunkProps(g, i)).Some? && similarity(ChunkProps(g, i)).value >= minimum
  }

  ghost predicate HasVector(g: Graph, similarity: Props -> Option<real>, i: nat) {
    EndsKnown(g, i) && similarity(ChunkProps(g, i)).Some?
  }

  ghost function VectorShown(g: Graph, similarity: Props -> Option<real>): nat --> Row<Match> {
    (i: nat) requires HasVector(g, similarity, i) => ShownChunk(g, i, similarity(ChunkProps(g, i)).value)
  }

  ghost function VectorHitsIn(g: Graph, q: Query, similarity: Props -> Option<real>, elements: set<nat>): set<nat> {
    set i | i in elements && HasVector(g, similarity, i) && similarity(ChunkProps(g, i)).value >= q.minimumScore
  }

  lemma {:induction false} VectorPlaces(g: Graph, allowed: set<int>, q: Query, similarity: Props -> Option<real>,
                                        ms: seq<Match>, places: seq<nat>, elements: set<nat>) returns (r: seq<nat>)
    requires Lists(places, elements) && ListsMatches(g, allowed, ms, places)
    ensures Lists(r, VectorHitsIn(g, q, similarity, elements))
    ensures (forall i :: i in r ==> HasVector(g, similarity, i)) && Shows(VectorRows(ms, q, similarity), r, VectorShown(g, similarity))
    decreases |ms|
  {
    hide ChunkAt;
    if ms == [] {
      r := [];
      assert forall p :: p in elements ==> p in places;
    } else {
      var last := places[|places| - 1];
      ListsLess(places, elements);
      r := VectorPlaces(g, allowed, q, similarity, ms[..|ms| - 1], places[..|places| - 1], elements - {last});
      LastMatch(g, allowed, ms, places);
      hide Lists, Shows, ListsMatches;
      if HasVector(g, similarity, last) && similarity(ChunkProps(g, last)).value >= q.minimumScore {
        assert VectorHitsIn(g, q, similarity, elements) == VectorHitsIn(g, q, similarity, elements - {last}) + {last};
        ListsMore(r, VectorHitsIn(g, q, similarity, elements - {last}), last);
        ShowsMore(VectorRows(ms[..|ms| - 1], q, similarity), r, VectorShown(g, similarity), last);
        r := r + [last];
      } else {
        assert VectorHitsIn(g, q, similarity, elements) == VectorHitsIn(g, q, similarity, elements - {last});
      }
    }
  }

  /** The vector query returns the chunks most similar to the question. */
  lemma VectorQueryPicks(g: Graph, allowed: set<int>, q: Query, similarity: Props -> Option<real>) returns (places: seq<nat>)
    ensures forall i :: i in VectorHits(g, allowed, similarity, q.minimumScore) ==> HasVector(g, similarity, i)
    ensures Picks(VectorQuery(g, allowed, q, similarity), VectorHits(g, allowed, similarity, q.minimumScore), VectorShown(g, similarity), q.limit, places)
  {
    hide OfOneAllowed, Picks, Shows, Lists;
    var all := MatchPlaces(g, allowed, |g.edges|);
    assert g.edges[..|g.edges|] == g.edges;
    var hits, chunks := VectorHits(g, allowed, similarity, q.minimumScore), ChunksBelow(g, allowed, |g.edges|);
    var ms := Matches(g, g.edges, allowed);
    var r := VectorPlaces(g, allowed, q, similarity, ms, all, chunks);
    assert hits == VectorHitsIn(g, q, similarity, chunks);
    places := TakesBest(VectorRows(ms, q, similarity), r, hits, VectorShown(g, similarity), q.limit);
  }

  // ----- the fact query

  /** A fact edge, and the edge of the chunk it was read from. */
  type FactPlace = (nat, nat)

  predicate FactEndsKnown(g: Graph, p: FactPlace) {
    EndsKnown(g, p.0) && EndsKnown(g, p.1)
  }

  ghost predicate ListsFacts(g: Graph, allowed: set<int>, fs: seq<FactMatch>, places: seq<FactPlace>) {
    && |places| == |fs|
    && forall k :: 0 <= k < |fs| ==> FactEndsKnown(g, places[k]) && forall relevance :: Row(RankOf(relevance, fs[k].at), fs[k]) == ShownFact(g, places[k], relevance)
  }

  ghost function FactsOfEdge(g: Graph, allowed: set<int>, i: nat, elements: set<nat>): set<FactPlace> {
    set j: nat | j in elements && FactFrom(g, allowed, (i, j)) :: (i, j)
  }

  lemma {:induction false} AnchoredPlaces(g: Graph, allowed: set<int>, i: nat, ms: seq<Match>, places: seq<nat>, elements: set<nat>) returns (r: seq<FactPlace>)
    requires FactAt(g, allowed, i) && IsFact(g, g.edges[i]) && Lists(places, elements) && ListsMatches(g, allowed, ms, places)
    ensures Lists(r, FactsOfEdge(g, allowed, i, elements)) && ListsFacts(g, allowed, Anchored(g, g.edges[i], ms), r)
    decreases |ms|
  {
    if ms == [] {
      r := [];
      assert forall p :: p in elements ==> p in places;
    } else {
      var last := places[|places| - 1];
      ListsLess(places, elements);
      r := AnchoredPlaces(g, allowed, i, ms[..|ms| - 1], places[..|places| - 1], elements - {last});
      AnchorsIsFactFrom(g, allowed, i, last);
      LastMatch(g, allowed, ms, places);
      hide Lists, ChunkAt, FactAt, FactFrom, Anchors;
      if FactFrom(g, allowed, (i, last)) {
        assert FactsOfEdge(g, allowed, i, elements) == FactsOfEdge(g, allowed, i, elements - {last}) + {(i, last)};
        ListsMore(r, FactsOfEdge(g, allowed, i, elements - {last}), (i, last));
        r := r + [(i, last)];
      } else {
        assert FactsOfEdge(g, allowed, i, elements) == FactsOfEdge(g, allowed, i, elements - {last});
      }
    }
  }

  lemma AnchorsIsFactFrom(g: Graph, allowed: set<int>, i: nat, j: nat)
    requires FactAt(g, allowed, i) && ChunkAt(g, allowed, j)
    ensures IsBelongs(g, g.edges[j]) && (Anchors(MatchOf(g, g.edges[j]), g.edges[i].props) <==> FactFrom(g, allowed, (i, j)))
  {
    var fact, chunk := g.edges[i].props, ChunkProps(g, j);
    assert Sourced(fact) && Sourced(chunk) by {
      var items := [g.nodes[g.edges[i].source].props, fact, g.nodes[g.edges[i].target].props];
      assert items[1] == fact;
      var others := [chunk, g.edges[j].props, g.nodes[g.edges[j].target].props];
      assert others[0] == chunk;
    }
  }

  ghost function FactsBelow(g: Graph, allowed: set<int>, n: nat, elements: set<nat>): set<FactPlace> {
    set i: nat, j: nat | i < n && j in elements && FactFrom(g, allowed, (i, j)) :: (i, j)
  }

  lemma ListsBoth<P(!new)>(a: seq<P>, x: set<P>, b: seq<P>, y: set<P>)
    requires Lists(a, x) && Lists(b, y) && x !! y
    ensures Lists(a + b, x + y)
  {
    forall i, j | 0 <= i < j < |a + b| ensures (a + b)[i] != (a + b)[j] {
      if i < |a| <= j { assert a[i] in x && b[j - |a|] in y; }
    }
  }

  lemma FactsBelowMore(g: Graph, allowed: set<int>, n: nat, elements: set<nat>)
    ensures FactsBelow(g, allowed, n + 1, elements)
         == FactsBelow(g, allowed, n, elements) + if FactAt(g, allowed, n) then FactsOfEdge(g, allowed, n, elements) else {}
    ensures FactsBelow(g, allowed, n, elements) !! FactsOfEdge(g, allowed, n, elements)
  {
  }

  lemma FactsMore(g: Graph, n: nat, ms: seq<Match>, allowed: set<int>)
    requires n < |g.edges|
    ensures Facts(g, g.edges[..n + 1], ms, allowed)
         == Facts(g, g.edges[..n], ms, allowed)
            + if IsFact(g, g.edges[n]) && GuardedFact(g, g.edges[n], allowed) then Anchored(g, g.edges[n], ms) else []
  {
    assert g.edges[..n + 1][..n] == g.edges[..n] && g.edges[..n + 1][n] == g.edges[n];
  }

  lemma {:induction false} FactPlaces(g: Graph, allowed: set<int>, n: nat, ms: seq<Match>, places: seq<nat>, elements: set<nat>) returns (r: seq<FactPlace>)
    requires n <= |g.edges| && Lists(places, elements) && ListsMatches(g, allowed, ms, places)
    ensures Lists(r, FactsBelow(g, allowed, n, elements)) && ListsFacts(g, allowed, Facts(g, g.edges[..n], ms, allowed), r)
    decreases n
  {
    if n == 0 {
      r := [];
    } else {
      r := FactPlaces(g, allowed, n - 1, ms, places, elements);
      FactIsFactAt(g, allowed, n - 1);
      FactsMore(g, n - 1, ms, allowed);
      FactsBelowMore(g, allowed, n - 1, elements);
      hide *;
      if FactAt(g, allowed, n - 1) {
        var more := AnchoredPlaces(g, allowed, n - 1, ms, places, elements);
        ListsBoth(r, FactsBelow(g, allowed, n - 1, elements), more, FactsOfEdge(g, allowed, n - 1, elements));
        FactsAppend(g, allowed, Facts(g, g.edges[..n - 1], ms, allowed), r, Anchored(g, g.edges[n - 1], ms), more);
        r := r + more;
      }
    }
  }

  lemma FactsAppend(g: Graph, allowed: set<int>, a: seq<FactMatch>, x: seq<FactPlace>, b: seq<FactMatch>, y: seq<FactPlace>)
    requires ListsFacts(g, allowed, a, x) && ListsFacts(g, allowed, b, y)
    ensures ListsFacts(g, allowed, a + b, x + y)
  {
  }

  /** The facts of the allowed documents, with the chunks they were read from, that hold enough of the
      terms in a name or in the text. */
  ghost function FactHits(g: Graph, allowed: set<int>, terms: seq<string>, minimum: nat): set<FactPlace> {
    set i: nat, j: nat | i < |g.edges| && j < |g.edges| && FactFrom(g, allowed, (i, j)) && |FactTerms(g, terms, (i, j))| >= minimum :: (i, j)
  }

  ghost function FactShown(g: Graph, terms: seq<string>): FactPlace --> Row<FactMatch> {
    (p: FactPlace) requires FactEndsKnown(g, p) => ShownFact(g, p, |FactTerms(g, terms, p)| as real)
  }

  ghost function FactHitsIn(g: Graph, q: Query, elements: set<FactPlace>): set<FactPlace> {
    set p | p in elements && FactEndsKnown(g, p) && |FactTerms(g, q.terms, p)| >= q.minimumShouldMatch
  }

  lemma {:induction false} FactHitPlaces(g: Graph, allowed: set<int>, q: Query, fs: seq<FactMatch>, places: seq<FactPlace>, elements: set<FactPlace>)
      returns (r: seq<FactPlace>)
    requires Lists(places, elements) && ListsFacts(g, allowed, fs, places)
    ensures Lists(r, FactHitsIn(g, q, elements))
    ensures (forall p :: p in r ==> FactEndsKnown(g, p)) && Shows(FactRows(fs, q), r, FactShown(g, q.terms))
    decreases |fs|
  {
    hide FactTerms;
    if fs == [] {
      r := [];
      assert forall p :: p in elements ==> p in places;
    } else {
      var last := places[|places| - 1];
      ListsLess(places, elements);
      r := FactHitPlaces(g, allowed, q, fs[..|fs| - 1], places[..|places| - 1], elements - {last});
      assert FactEndsKnown(g, last);
      assert Row(RankOf(0.0, fs[|fs| - 1].at), fs[|fs| - 1]) == ShownFact(g, last, 0.0);
      FactScore(g, q.terms, last);
      hide Lists, Shows, ListsFacts;
      if |FactTerms(g, q.terms, last)| >= q.minimumShouldMatch {
        assert FactHitsIn(g, q, elements) == FactHitsIn(g, q, elements - {last}) + {last};
        ListsMore(r, FactHitsIn(g, q, elements - {last}), last);
        ShowsMore(FactRows(fs[..|fs| - 1], q), r, FactShown(g, q.terms), last);
        r := r + [last];
      } else {
        assert FactHitsIn(g, q, elements) == FactHitsIn(g, q, elements - {last});
      }
    }
  }

  /** The fact query returns the best of the facts that hold enough of the terms. */
  lemma FactQueryPicks(g: Graph, allowed: set<int>, q: Query) returns (places: seq<FactPlace>)
    ensures forall p :: p in FactHits(g, allowed, q.terms, q.minimumShouldMatch) ==> FactEndsKnown(g, p)
    ensures Picks(FactQuery(g, allowed, q), FactHits(g, allowed, q.terms, q.minimumShouldMatch), FactShown(g, q.terms), q.limit, places)
  {
    hide OfOneAllowed, FactTerms, Picks, Shows, Lists;
    var all := MatchPlaces(g, allowed, |g.edges|);
    assert g.edges[..|g.edges|] == g.edges;
    var ms, chunks := Matches(g, g.edges, allowed), ChunksBelow(g, allowed, |g.edges|);
    var facts := FactPlaces(g, allowed, |g.edges|, ms, all, chunks);
    var fs, elements := Facts(g, g.edges, ms, allowed), FactsBelow(g, allowed, |g.edges|, chunks);
    var r := FactHitPlaces(g, allowed, q, fs, facts, elements);
    var hits := FactHits(g, allowed, q.terms, q.minimumShouldMatch);
    assert hits == FactHitsIn(g, q, elements);
    places := TakesBest(FactRows(fs, q), r, hits, FactShown(g, q.terms), q.limit);
  }
}
