/** The PostgreSQL rows of the per-user mode, and each transaction on them as a function. */
module VisibilityRows {
  import opened Outcomes

  /** A uuid4; freshness is all that matters about one. */
  type Token = nat

  datatype Authority = DelegatedAcl | PerUserOauth
  datatype AuthorizationStatus = Active | Disconnected
  datatype VisibilityState = Visible | Denied | Unknown
  datatype RunStatus = Queued | Running | Succeeded | Partial | Failed

  datatype Connection = Connection(enabled: bool, authority: Authority, generation: Token, hasRoot: bool, domain: string)

  datatype Authorization = Authorization(connection: nat, issuer: string, subject: string, email: string, domain: string,
                                         connectionGeneration: Token, generation: Token, status: AuthorizationStatus,
                                         hasCredential: bool, hasScopes: bool, lastSync: Option<nat>)

  datatype Document = Document(connection: nat, active: bool, eligible: bool, permissionsVersion: string,
                               extracted: bool, contentHash: string)

  datatype Evidence = Evidence(connectionGeneration: Token, authorizationGeneration: Token, state: VisibilityState,
                               checkedAt: nat, marker: Token, revision: string, verifiedAt: Option<nat>, reason: string)

  /** What Drive said about one document. */
  datatype Answer = Answer(state: VisibilityState, reason: string)

  datatype SyncRun = SyncRun(connection: nat, authorization: nat, connectionGeneration: Token, authorizationGeneration: Token,
                             status: RunStatus, considered: nat, visible: nat, denied: nat, unknown: nat, error: string)

  datatype Key = Key(authorization: nat, document: nat)

  datatype Rows = Rows(connections: map<nat, Connection>, authorizations: map<nat, Authorization>,
                       documents: map<nat, Document>, evidence: map<Key, Evidence>, runs: map<nat, SyncRun>)

  // ----- invalidation and marking

  function Doubted(e: Evidence, reason: string): Evidence {
    e.(state := Unknown, revision := "", verifiedAt := None, reason := reason)
  }

  /** All evidence of the authorization becomes unknown; the markers stay. */
  function Invalidated(evidence: map<Key, Evidence>, a: nat, reason: string): (r: map<Key, Evidence>)
    ensures r.Keys == evidence.Keys
  {
    map k | k in evidence :: if k.authorization == a then Doubted(evidence[k], reason) else evidence[k]
  }

  function Candidates(rows: Rows, c: nat): set<nat> {
    set d | d in rows.documents && rows.documents[d].connection == c && rows.documents[d].active
  }

  function RefreshPending(run: SyncRun, marker: Token, now: nat): Evidence {
    Evidence(run.connectionGeneration, run.authorizationGeneration, Unknown, now, marker, "", None, "refresh_pending")
  }

  /** The evidence once every candidate row bears the marker. */
  function WithMarks(evidence: map<Key, Evidence>, run: SyncRun, marker: Token, now: nat, candidates: set<nat>): (r: map<Key, Evidence>)
    ensures forall k :: k in r <==> k in evidence || (k.authorization == run.authorization && k.document in candidates)
  {
    evidence + map d | d in candidates :: Key(run.authorization, d) := RefreshPending(run, marker, now)
  }

  /** The first transaction of a run: doubts everything and marks the candidates, if they are within the cap. */
  function PreinvalidateTx(rows: Rows, r: nat, marker: Token, now: nat, cap: nat): (Rows, Option<set<nat>>)
    requires r in rows.runs
  {
    var run := rows.runs[r];
    var doubted := Invalidated(rows.evidence, run.authorization, "refresh_pending");
    var candidates := Candidates(rows, run.connection);
    if |candidates| > cap then (rows.(evidence := doubted), None)
    else (rows.(evidence := WithMarks(doubted, run, marker, now, candidates)), Some(candidates))
  }

  // ----- what a run needs to go on

  /** The connection and the authorization are the ones the run was made for and may be used. */
  predicate ScopeValid(rows: Rows, configured: Authority, r: nat) {
    && r in rows.runs
    && var run := rows.runs[r];
       && run.connection in rows.connections && run.authorization in rows.authorizations
       && var c, a := rows.connections[run.connection], rows.authorizations[run.authorization];
          && configured == PerUserOauth && c.enabled && c.authority == PerUserOauth && c.hasRoot
          && c.generation == run.connectionGeneration
          && a.connection == run.connection
          && a.connectionGeneration == run.connectionGeneration
          && a.generation == run.authorizationGeneration
          && a.status == Active && a.hasScopes && a.hasCredential
  }

  // ----- the last transaction of a run

  /** Every candidate is still active and its row still bears the marker. */
  predicate StillOurs(rows: Rows, run: SyncRun, marker: Token, candidates: set<nat>) {
    && candidates <= Candidates(rows, run.connection)
    && forall d :: d in candidates ==> BearsMarker(rows.evidence, Key(run.authorization, d), marker)
  }

  predicate BearsMarker(evidence: map<Key, Evidence>, k: Key, marker: Token) {
    k in evidence && evidence[k].marker == marker
  }

  function Verified(run: SyncRun, marker: Token, answer: Answer, time: nat, revision: string): Evidence {
    Evidence(run.connectionGeneration, run.authorizationGeneration, answer.state, time, marker,
             if answer.state.Visible? then revision else "", if answer.state.Visible? then Some(time) else None, answer.reason)
  }

  function WithResults(evidence: map<Key, Evidence>, run: SyncRun, marker: Token, results: map<nat, Answer>,
                       time: nat, revision: string): (r: map<Key, Evidence>)
    ensures r.Keys == evidence.Keys
  {
    map k | k in evidence ::
      if k.authorization == run.authorization && k.document in results
      then Verified(run, marker, results[k.document], time, revision) else evidence[k]
  }

  function Matching(results: map<nat, Answer>, state: VisibilityState): (r: set<nat>)
    ensures forall d :: d in r <==> d in results && results[d].state == state
  {
    set d | d in results && results[d].state == state
  }

  function Count(results: map<nat, Answer>, state: VisibilityState): nat {
    |Matching(results, state)|
  }

  function Finished(run: SyncRun, results: map<nat, Answer>): SyncRun {
    run.(considered := |results|, visible := Count(results, Visible), denied := Count(results, Denied),
         unknown := Count(results, Unknown), error := "",
         status := if Count(results, Unknown) > 0 then Partial else Succeeded)
  }

  /** All rows or none: lands only in scope, with every candidate active and every row still marked. */
  function CommitTx(rows: Rows, configured: Authority, r: nat, marker: Token, results: map<nat, Answer>,
                    time: nat, revision: string): Result<Rows>
  {
    if !ScopeValid(rows, configured, r) then Err("authorization_unavailable")
    else
      var run := rows.runs[r];
      if !StillOurs(rows, run, marker, results.Keys) then Err("batch_scope_mismatch")
      else
        var a := rows.authorizations[run.authorization];
        Ok(rows.(evidence := WithResults(rows.evidence, run, marker, results, time, revision),
                 runs := rows.runs[r := Finished(run, results)],
                 authorizations := rows.authorizations[run.authorization :=
                   if Count(results, Unknown) > 0 then a else a.(lastSync := Some(time))]))
  }

  /** Visible, denied and unknown results are all the candidates there are. */
  lemma CountsAddUp(results: map<nat, Answer>)
    ensures Count(results, Visible) + Count(results, Denied) + Count(results, Unknown) == |results|
  {
    var v, n, u := Matching(results, Visible), Matching(results, Denied), Matching(results, Unknown);
    assert v + n + u == results.Keys;
    assert |v + n| == |v| + |n|;
  }

  // ----- connecting and disconnecting

  /** The uuid4 a row is given by a transaction that draws one for each of several rows. */
  function FreshFor(base: Token, a: nat): Token {
    base + a
  }

  function DisconnectedRow(a: Authorization, generation: Token): Authorization {
    a.(generation := generation, status := Disconnected, hasCredential := false, hasScopes := false, lastSync := None)
  }

  /** The authorizations in s disconnected and their evidence gone. */
  function DisconnectRows(rows: Rows, s: set<nat>, base: Token): Rows {
    rows.(authorizations := map a | a in rows.authorizations ::
            if a in s then DisconnectedRow(rows.authorizations[a], FreshFor(base, a)) else rows.authorizations[a],
          evidence := map k | k in rows.evidence && k.authorization !in s :: rows.evidence[k])
  }

  /** `_active_per_user_connection`: the only enabled per-user connection, if it is usable. */
  predicate ActiveConnection(rows: Rows, configured: Authority, allowedDomain: string, c: nat) {
    && configured == PerUserOauth
    && c in rows.connections && PerUserEnabled(rows.connections[c])
    && (forall d :: d in rows.connections && PerUserEnabled(rows.connections[d]) ==> d == c)
    && rows.connections[c].hasRoot && rows.connections[c].domain == allowedDomain
  }

  predicate PerUserEnabled(c: Connection) {
    c.enabled && c.authority == PerUserOauth
  }

  function AuthorizationsOf(rows: Rows, c: nat, email: string): set<nat> {
    set a | a in rows.authorizations && rows.authorizations[a].connection == c && rows.authorizations[a].email == email
  }

  function DisconnectTx(rows: Rows, c: nat, email: string, base: Token): Rows {
    DisconnectRows(rows, AuthorizationsOf(rows, c, email), base)
  }

  /** What the identity token and the session say. */
  datatype Grant = Grant(connection: nat, connectionGeneration: Token, issuer: string, subject: string,
                         email: string, refreshes: bool)

  const GOOGLE_ISSUERS := {"https://accounts.google.com", "accounts.google.com"}

  predicate SameSubject(a: Authorization, g: Grant) {
    a.connection == g.connection && a.issuer == g.issuer && a.subject == g.subject
  }

  /** Row a is the one the transaction writes: the subject's own row, or a new one if it has none. */
  predicate WritesRow(rows: Rows, g: Grant, a: nat) {
    if a in rows.authorizations then SameSubject(rows.authorizations[a], g)
    else forall b :: b in rows.authorizations ==> !SameSubject(rows.authorizations[b], g)
  }

  /** A credential was sent, or the row still holds one. */
  predicate HasCredential(rows: Rows, g: Grant, a: nat) {
    g.refreshes || (a in rows.authorizations && rows.authorizations[a].hasCredential)
  }

  predicate CanComplete(rows: Rows, configured: Authority, allowedDomain: string, g: Grant, a: nat) {
    && ActiveConnection(rows, configured, allowedDomain, g.connection)
    && rows.connections[g.connection].generation == g.connectionGeneration
    && g.issuer in GOOGLE_ISSUERS && g.subject != ""
    && WritesRow(rows, g, a) && HasCredential(rows, g, a)
  }

  /** Other rows of the email are disconnected, the subject's own row gets a new generation. */
  function CompleteTx(rows: Rows, allowedDomain: string, g: Grant, a: nat, base: Token): Rows {
    var others := AuthorizationsOf(rows, g.connection, g.email) - {a};
    var cut := DisconnectRows(rows, others, base);
    cut.(authorizations := cut.authorizations[a := Authorization(g.connection, g.issuer, g.subject, g.email, allowedDomain,
           g.connectionGeneration, FreshFor(base, a), Active, true, true, None)],
         evidence := map k | k in cut.evidence && k.authorization != a :: cut.evidence[k])
  }

  // ----- the authority cutover

  function DeniedDocument(d: Document): Document {
    d.(eligible := false, permissionsVersion := "", extracted := d.extracted && d.contentHash == "")
  }

  function OfConnection(rows: Rows, c: nat): set<nat> {
    set a | a in rows.authorizations && rows.authorizations[a].connection == c
  }

  /** The connection disabled under a new generation, its documents and authorizations with it. */
  function DenyTx(rows: Rows, c: nat, base: Token): Rows
    requires c in rows.connections
  {
    var denied := rows.(
      connections := rows.connections[c := rows.connections[c].(enabled := false, generation := base)],
      documents := map d | d in rows.documents ::
        if rows.documents[d].connection == c then DeniedDocument(rows.documents[d]) else rows.documents[d]);
    DisconnectRows(denied, OfConnection(rows, c), base + 1)
  }

  function ActivateTx(rows: Rows, c: nat, target: Authority, generation: Token): Result<Rows> {
    if c !in rows.connections || rows.connections[c].generation != generation then Err("connection_changed_during_cutover")
    else Ok(rows.(connections := rows.connections[c := rows.connections[c].(authority := target, enabled := true)]))
  }
}
