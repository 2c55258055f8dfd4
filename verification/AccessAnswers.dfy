/** The whole way of an answer in the per-user mode: lookup, retrieval, recheck, citations. Whatever is
    cited was witnessed at the lookup and again at the recheck. */
module AccessAnswers {
  import opened Identifiers
  import opened TupleStore
  import opened OAuthViewer
  import opened Outcomes
  import opened VisibilityRows
  import opened AccessProtocol
  import opened AccessInvariants
  import opened AccessTheorems
  import opened AccessLookup
  import AnswerGate
  import ContextAssembly
  import E = Evidence
  import Retrieval
  import Retriever

  // ----- the lookup

  /** The lookup returns the document for the user. */
  ghost predicate AllowedBy(cfg: Config, r: Reads, email: string, d: nat) {
    exists c, a :: Returned(cfg, r, c, a, email, d)
  }

  lemma OnlyMember<T>(s: set<T>, x: T)
    requires |s| == 1 && x in s
    ensures s == {x}
  {
    assert |s - {x}| == 0;
  }

  function EnabledConnections(rows: Rows): set<nat> {
    set c | c in rows.connections && PerUserEnabled(rows.connections[c])
  }

  lemma ActiveIsOnly(rows: Rows, configured: Authority, c: nat)
    requires ActiveMode(rows, configured, c)
    ensures configured == PerUserOauth && |EnabledConnections(rows)| == 1
  {
    assert EnabledConnections(rows) == {c};
  }

  /** `_active_mode_connections`, in the per-user mode. */
  method ActiveConnections(rows: Rows, configured: Authority) returns (connections: set<nat>)
    ensures connections == {} || exists c :: connections == {c}
    ensures forall c: nat :: c in connections <==> ActiveMode(rows, configured, c)
  {
    connections := EnabledConnections(rows);
    if configured != PerUserOauth || |connections| != 1 {
      forall c: nat ensures !ActiveMode(rows, configured, c) {
        if ActiveMode(rows, configured, c) { ActiveIsOnly(rows, configured, c); }
      }
      return {};
    }
    var only :| only in connections;
    OnlyMember(connections, only);
    forall d: nat | d in rows.connections && PerUserEnabled(rows.connections[d]) ensures d == only { assert d in connections; }
  }

  /** `_current_authorization` */
  method FindAuthorization(cfg: Config, connection: Connection, c: nat, email: string, listed: Rows, counted: Rows) returns (found: Option<nat>)
    ensures forall a: nat :: found == Some(a) <==> CurrentAuthorization(cfg, connection, c, email, listed, counted, a)
  {
    found := None;
    if cfg.allowedDomain == "" || !InAllowedDomain(email, cfg.allowedDomain) || connection.domain != cfg.allowedDomain || !connection.hasRoot {
      return;
    }
    var rows := AuthorizationsOf(listed, c, email);
    if |rows| != 1 {
      return;
    }
    var a :| a in rows;
    OnlyMember(rows, a);
    if Usable(listed.authorizations[a], connection.generation, cfg.allowedDomain)
       && |ConnectedUsers(counted, c, connection.generation)| <= cfg.maxUsers {
      found := Some(a);
    }
  }

  /** `_fresh_per_user_documents` */
  function FreshDocuments(cfg: Config, rows: Rows, connection: Connection, c: nat, row: Authorization, a: nat, now: nat): (current: set<nat>)
    ensures forall d :: d in current <==> FreshRow(rows, connection, c, row, a, now - cfg.maxAge, d)
  {
    set d | d in rows.documents && FreshRow(rows, connection, c, row, a, now - cfg.maxAge, d)
  }

  /** `allowed_source_document_ids`; a call that raises allows nothing. */
  method AllowedSourceDocumentIds(cfg: Config, r: Reads, email: string, raises: bool) returns (ids: set<nat>)
    ensures raises ==> ids == {}
    ensures !raises ==> forall d: nat :: d in ids <==> AllowedBy(cfg, r, email, d)
  {
    ids := {};
    if raises {
      return;
    }
    var connections := ActiveConnections(r.connections.rows, r.connections.configured);
    if connections == {} {
      return;
    }
    var c :| c in connections;
    var connection := r.connections.rows.connections[c];
    var found := FindAuthorization(cfg, connection, c, email, r.authorizations.rows, r.users.rows);
    if found.None? {
      NoAuthorization(cfg, r, c, email);
      return;
    }
    var a := found.value;
    var resources := ValidDirectIds(DirectGrantsOf(r.tuples.tuples, ConnectionPrefix(c), UserId(c, email)),
                                    ConnectionPrefix(c), UserId(c, email), cfg.cap);
    assert a in r.authorizations.rows.authorizations by { assert a in AuthorizationsOf(r.authorizations.rows, c, email); }
    var current := FreshDocuments(cfg, r.evidence.rows, connection, c, r.authorizations.rows.authorizations[a], a, r.clock.now);
    ids := set d | d in current && DocumentId(c, d) in resources;
    forall d: nat ensures d in ids <==> AllowedBy(cfg, r, email, d) {
      assert d in ids <==> Returned(cfg, r, c, a, email, d);
      OnlyOneEvidences(cfg, r, c, a, email, d);
    }
  }

  lemma NoAuthorization(cfg: Config, r: Reads, c: nat, email: string)
    requires ActiveMode(r.connections.rows, r.connections.configured, c)
    requires forall a: nat :: !CurrentAuthorization(cfg, r.connections.rows.connections[c], c, email, r.authorizations.rows, r.users.rows, a)
    ensures forall b: nat, a: nat, d: nat :: !Evidenced(cfg, r, b, a, email, d)
  {
  }

  /** There is one connection and one authorization the rows can speak through. */
  lemma OnlyOneEvidences(cfg: Config, r: Reads, c: nat, a: nat, email: string, d: nat)
    requires ActiveMode(r.connections.rows, r.connections.configured, c)
    requires CurrentAuthorization(cfg, r.connections.rows.connections[c], c, email, r.authorizations.rows, r.users.rows, a)
    ensures forall b: nat, e: nat :: Evidenced(cfg, r, b, e, email, d) ==> b == c && e == a
  {
    forall b: nat, e: nat | Evidenced(cfg, r, b, e, email, d) ensures b == c && e == a {
      assert b == c;
      assert AuthorizationsOf(r.authorizations.rows, c, email) == {a} && AuthorizationsOf(r.authorizations.rows, c, email) == {e};
      assert e in {a};
    }
  }

  // ----- the recheck

  /** The states of the reads of one recheck: like a lookup, with a read of the connection's documents
      in place of that of the tuples. */
  datatype Rereads = Rereads(connections: World, documents: World, authorizations: World, users: World, clock: World, evidence: World) {
    /** Seen as a lookup that reads the tuples together with the users. */
    function AsReads(): Reads {
      Reads(connections, authorizations, users, users, clock, evidence)
    }

    predicate Ordered() {
      InOrder(AsReads())
    }
  }

  /** The recheck keeps the document for the user. */
  ghost predicate KeptBy(cfg: Config, q: Rereads, email: string, d: nat) {
    exists c, a :: Evidenced(cfg, q.AsReads(), c, a, email, d) && OnConnection(q.documents.rows, c, d)
  }

  predicate OnConnection(rows: Rows, c: nat, d: nat) {
    d in rows.documents && rows.documents[d].connection == c
  }

  /** `fresh_authorized_documents`; it only looks at positive ids, and keeps nothing if it raises. */
  method FreshAuthorizedDocuments(cfg: Config, q: Rereads, email: string, ids: set<int>, raises: bool) returns (kept: set<nat>)
    ensures raises ==> kept == {}
    ensures !raises ==> forall d: nat :: d in kept <==> d in ids && d > 0 && KeptBy(cfg, q, email, d)
  {
    kept := {};
    var positive := set i: int | i in ids && i > 0 :: i as nat;
    assert forall d: nat :: d in positive <==> d in ids && d > 0;
    if positive == {} || raises {
      return;
    }
    var r := q.AsReads();
    var connections := ActiveConnections(q.connections.rows, q.connections.configured);
    if connections == {} {
      return;
    }
    var c :| c in connections;
    var own := set d | d in positive && OnConnection(q.documents.rows, c, d);
    var connection := q.connections.rows.connections[c];
    var found := FindAuthorization(cfg, connection, c, email, q.authorizations.rows, q.users.rows);
    if found.None? {
      NoAuthorization(cfg, r, c, email);
      return;
    }
    var a := found.value;
    assert a in q.authorizations.rows.authorizations by { assert a in AuthorizationsOf(q.authorizations.rows, c, email); }
    var current := FreshDocuments(cfg, q.evidence.rows, connection, c, q.authorizations.rows.authorizations[a], a, q.clock.now);
    kept := set d | d in own && d in current;
    forall d: nat ensures d in kept <==> d in ids && d > 0 && KeptBy(cfg, q, email, d) {
      assert d in current <==> Evidenced(cfg, r, c, a, email, d);
      OnlyOneEvidences(cfg, r, c, a, email, d);
    }
  }

  // ----- the answer

  /** The document may be used: its grant was in the store at the lookup, and one execution witnesses it
      at the lookup and one, perhaps another, at the recheck. */
  ghost predicate TwiceWitnessed(cfg: Config, r: Reads, q: Rereads, email: string, d: nat) {
    && (exists c, a, x :: Witnessed(cfg, r, c, a, d, x) && GrantOf(c, UserId(c, email), d) in r.tuples.tuples)
    && (exists c, a, x :: Witnessed(cfg, q.AsReads(), c, a, d, x))
  }

  lemma AllowedAndKept(cfg: Config, r: Reads, q: Rereads, email: string, d: nat)
    requires InOrder(r) && q.Ordered() && AllowedBy(cfg, r, email, d) && KeptBy(cfg, q, email, d)
    ensures TwiceWitnessed(cfg, r, q, email, d)
  {
    var c, a :| Returned(cfg, r, c, a, email, d);
    var x := ReturnedIsWitnessed(cfg, r, c, a, email, d);
    var b, e :| Evidenced(cfg, q.AsReads(), b, e, email, d) && OnConnection(q.documents.rows, b, d);
    var y := EvidencedIsWitnessed(cfg, q.AsReads(), b, e, email, d);
  }

  /** The documents an answer may rest on: allowed by the lookup and kept by the recheck. */
  ghost function Usables(cfg: Config, q: Rereads, email: string, ids: set<int>, recheckRaises: bool): (r: set<int>)
    ensures forall d: int :: d in r <==> d in ids && d > 0 && !recheckRaises && KeptBy(cfg, q, email, d)
  {
    set d: int | d in ids && d > 0 && !recheckRaises && KeptBy(cfg, q, email, d)
  }

  /** `answer_query` in the per-user mode: whatever the retriever does with the allow-list, every
      document an answer cites is twice witnessed. A retrieval that is `None` raised. */
  method AnswerForUser(cfg: Config, r: Reads, q: Rereads, email: string, retrieve: set<int> -> Option<E.RetrievalEvidence>,
                       infos: nat -> AnswerGate.DocumentInfo, maxChars: int, generate: string -> Option<AnswerGate.Generated>,
                       lookupRaises: bool, recheckRaises: bool)
      returns (result: AnswerGate.QueryResult, ghost context: ContextAssembly.AssembledContext, ghost cited: seq<AnswerGate.Cited>,
               ghost ids: set<int>)
    requires InOrder(r) && q.Ordered()
    ensures forall d: nat :: d in ids <==> !lookupRaises && AllowedBy(cfg, r, email, d)
    ensures forall i :: i in ids ==> i >= 0
    ensures result.refused <==> retrieve(ids).None? || maxChars < 1 || !AnswerGate.Supports(generate, context.text)
    ensures retrieve(ids).Some? && maxChars >= 1 ==>
              AnswerGate.Assembles(AnswerGate.Narrowed(retrieve(ids).value, Usables(cfg, q, email, ids, recheckRaises)), context, maxChars)
    ensures !result.refused ==> retrieve(ids).Some? && (forall x :: x in context.chunks ==> x in retrieve(ids).value.chunks)
                                && (forall x :: x in context.facts ==> x in retrieve(ids).value.facts)
    ensures result.refused ==> result == AnswerGate.Refusal()
    ensures !result.refused ==> |result.citations| == |cited| && AnswerGate.NoneTwice(cited)
    ensures !result.refused ==> forall i :: 0 <= i < |cited| ==>
              && cited[i].document > 0 && TwiceWitnessed(cfg, r, q, email, cited[i].document)
              && result.citations[i] == AnswerGate.Citation(infos(cited[i].document), cited[i].chunk)
    ensures !result.refused ==> forall x :: x in cited <==> x in AnswerGate.ItemsOf(context.chunks, context.facts)
  {
    hide InOrder, AllowedBy, KeptBy, TwiceWitnessed, AnswerGate.DocumentsOf, AnswerGate.Assembles, AnswerGate.Narrowed;
    var allowed := AllowedSourceDocumentIds(cfg, r, email, lookupRaises);
    var allowList: set<int> := set d: nat | d in allowed :: d as int;
    ids := allowList;
    var retrieved := retrieve(allowList);
    var candidates := if retrieved.Some? then AnswerGate.DocumentsOf(retrieved.value) * allowList else {};
    var kept := FreshAuthorizedDocuments(cfg, q, email, candidates, recheckRaises);
    var documents: map<int, AnswerGate.DocumentInfo> := map d: nat | d in kept :: d as int := infos(d);
    result, context, cited := AnswerGate.AnswerQuery(Some(allowList), retrieved, Some(documents), maxChars, generate);
    if retrieved.Some? {
      forall d | d in AnswerGate.DocumentsOf(retrieved.value)
        ensures d in ids * documents.Keys <==> d in Usables(cfg, q, email, ids, recheckRaises)
      {
        assert d in ids ==> d in candidates;
      }
      AnswerGate.NarrowedSame(retrieved.value, ids * documents.Keys, Usables(cfg, q, email, ids, recheckRaises));
    }
    if !result.refused {
      AnswerGate.ItemsWithin(context.chunks, context.facts, ids, documents.Keys);
      CitedAreWitnessed(cfg, r, q, email, allowed, kept, cited);
    }
  }

  lemma CitedAreWitnessed(cfg: Config, r: Reads, q: Rereads, email: string, allowed: set<nat>, kept: set<nat>, cited: seq<AnswerGate.Cited>)
    requires InOrder(r) && q.Ordered()
    requires forall d :: d in allowed ==> AllowedBy(cfg, r, email, d)
    requires forall d :: d in kept ==> d > 0 && KeptBy(cfg, q, email, d)
    requires forall x :: x in cited ==> x.document in allowed && x.document in kept
    ensures forall i :: 0 <= i < |cited| ==> cited[i].document > 0 && TwiceWitnessed(cfg, r, q, email, cited[i].document)
  {
    forall i | 0 <= i < |cited| ensures cited[i].document > 0 && TwiceWitnessed(cfg, r, q, email, cited[i].document) {
      assert cited[i] in cited;
      AllowedAndKept(cfg, r, q, email, cited[i].document);
    }
  }

  /** The same with the retrieval over a graph: what the answer is made from was found in the part of
      the graph that belongs to the documents the lookup allows, and nothing else was looked at. */
  method AnswerFromGraph(cfg: Config, r: Reads, q: Rereads, email: string, g: Retrieval.Graph, question: Retriever.Question,
                         similarity: Retrieval.Props -> Option<real>, infos: nat -> AnswerGate.DocumentInfo, maxChars: int,
                         generate: string -> Option<AnswerGate.Generated>, lookupRaises: bool, recheckRaises: bool)
      returns (result: AnswerGate.QueryResult, ghost context: ContextAssembly.AssembledContext, ghost cited: seq<AnswerGate.Cited>,
               ghost ids: set<int>)
    requires InOrder(r) && q.Ordered()
    ensures forall d: nat :: d in ids <==> !lookupRaises && AllowedBy(cfg, r, email, d)
    ensures result.refused <==> maxChars < 1 || !AnswerGate.Supports(generate, context.text)
    ensures maxChars >= 1 ==>
              var evidence := Retriever.Retrieved(Retrieval.Cut(g, ids), ids, question, similarity);
              AnswerGate.Assembles(AnswerGate.Narrowed(evidence, Usables(cfg, q, email, ids, recheckRaises)), context, maxChars)
    ensures !result.refused ==>
              var evidence := Retriever.Retrieved(Retrieval.Cut(g, ids), ids, question, similarity);
              && (forall x :: x in context.chunks ==> x in evidence.chunks) && (forall x :: x in context.facts ==> x in evidence.facts)
    ensures !result.refused ==> forall i :: 0 <= i < |cited| ==> cited[i].document > 0 && TwiceWitnessed(cfg, r, q, email, cited[i].document)
    ensures !result.refused ==> forall x :: x in cited <==> x in AnswerGate.ItemsOf(context.chunks, context.facts)
    ensures !result.refused ==> forall x :: x in context.chunks ==> x.sourceDocumentId in ids
    ensures !result.refused ==> forall x :: x in context.facts ==> x.sourceDocumentId in ids
  {
    hide InOrder, TwiceWitnessed, AllowedBy, KeptBy, Retriever.Retrieved, AnswerGate.Assembles, AnswerGate.Narrowed;
    var retrieve := allowed => Some(Retriever.Retrieved(g, allowed, question, similarity));
    result, context, cited, ids := AnswerForUser(cfg, r, q, email, retrieve, infos, maxChars, generate, lookupRaises, recheckRaises);
    Retriever.RetrievalSeesOnlyAllowed(g, ids, question, similarity);
    Retriever.RetrievedIsAllowed(g, ids, question, similarity);
  }

  /** If a denial commits before the recheck begins, whatever the recheck keeps was witnessed by an
      execution that began after it, even if the lookup came before. */
  lemma KeptAfterDenialIsNew(cfg: Config, w: World, s: Step, steps: seq<Step>, q: Rereads, email: string, d: nat) returns (c: nat, a: nat, x: Token)
    requires Inv(w) && q.Ordered() && q.connections == Run(cfg, Apply(cfg, w, s), steps) && KeptBy(cfg, q, email, d)
    requires forall b :: ActiveMode(q.connections.rows, q.connections.configured, b) ==> Denies(cfg, w, s, b, email)
    ensures Witnessed(cfg, q.AsReads(), c, a, d, x) && x !in w.execs
  {
    c, a :| Evidenced(cfg, q.AsReads(), c, a, email, d) && OnConnection(q.documents.rows, c, d);
    x := EvidencedAfterDenialIsNew(cfg, w, s, steps, q.AsReads(), c, a, email, d);
  }
}
