/** The query-time lookup, read by read, and what a document it returns rests on. */
module AccessLookup {
  import opened Identifiers
  import opened TupleStore
  import opened OAuthViewer
  import opened VisibilityRows
  import opened AccessProtocol
  import opened AccessInvariants
  import opened AccessSafety
  import opened AccessTheorems

  // ----- the reads

  /** `_active_mode_connections` in the per-user mode: the enabled connection, unless there are several. */
  predicate ActiveMode(rows: Rows, configured: Authority, c: nat) {
    && configured == PerUserOauth && c in rows.connections && PerUserEnabled(rows.connections[c])
    && forall d :: d in rows.connections && PerUserEnabled(rows.connections[d]) ==> d == c
  }

  function ConnectedUsers(rows: Rows, c: nat, generation: Token): set<nat> {
    set a | a in rows.authorizations && rows.authorizations[a].connection == c && rows.authorizations[a].status.Active?
            && rows.authorizations[a].connectionGeneration == generation
  }

  /** What one authorization row must show, given the connection as it was read. */
  predicate Usable(row: Authorization, generation: Token, allowedDomain: string) {
    && row.status.Active? && row.issuer in GOOGLE_ISSUERS && row.subject != "" && row.domain == allowedDomain
    && row.connectionGeneration == generation && row.hasScopes && row.hasCredential
  }

  /** `_current_authorization`: the one row of the email, of any status, and only if it is usable. */
  predicate CurrentAuthorization(cfg: Config, connection: Connection, c: nat, email: string, listed: Rows, counted: Rows, a: nat) {
    && cfg.allowedDomain != "" && InAllowedDomain(email, cfg.allowedDomain) && connection.domain == cfg.allowedDomain && connection.hasRoot
    && AuthorizationsOf(listed, c, email) == {a}
    && Usable(listed.authorizations[a], connection.generation, cfg.allowedDomain)
    && |ConnectedUsers(counted, c, connection.generation)| <= cfg.maxUsers
  }

  /** `_valid_direct_resource_ids`: nothing at all unless every tuple is a direct grant, within the cap. */
  function ValidDirectIds(tuples: set<PermissionTuple>, prefix: string, userId: string, cap: nat): set<string> {
    var valid := set t | t in tuples && DirectGrant(t, prefix, userId) :: t.resourceId;
    if |valid| != |tuples| || |valid| > cap then {} else valid
  }

  /** The evidence row and the rows joined to it, given the connection and the authorization as read. */
  predicate FreshRow(rows: Rows, connection: Connection, c: nat, row: Authorization, a: nat, cutoff: int, d: nat) {
    && Key(a, d) in rows.evidence && a in rows.authorizations && d in rows.documents
    && var e, joined, document := rows.evidence[Key(a, d)], rows.authorizations[a], rows.documents[d];
       && joined.status.Active? && joined.connectionGeneration == connection.generation && joined.generation == row.generation
       && document.connection == c && document.active && document.eligible && document.permissionsVersion != ""
       && e.connectionGeneration == connection.generation && e.authorizationGeneration == row.generation
       && e.state.Visible? && e.checkedAt >= cutoff && e.verifiedAt.Some? && e.verifiedAt.value >= cutoff && e.revision != ""
  }

  /** The states the system was in at each read of one lookup. */
  datatype Reads = Reads(connections: World, authorizations: World, users: World, tuples: World, clock: World, evidence: World)

  /** The rows speak for the document: the connection and the authorization are usable, the evidence
      is fresh. */
  predicate Evidenced(cfg: Config, r: Reads, c: nat, a: nat, email: string, d: nat) {
    && ActiveMode(r.connections.rows, r.connections.configured, c)
    && var connection := r.connections.rows.connections[c];
       && CurrentAuthorization(cfg, connection, c, email, r.authorizations.rows, r.users.rows, a)
       && FreshRow(r.evidence.rows, connection, c, r.authorizations.rows.authorizations[a], a, r.clock.now - cfg.maxAge, d)
  }

  /** The document is among those `_per_user_allowed_ids` returns. */
  predicate Returned(cfg: Config, r: Reads, c: nat, a: nat, email: string, d: nat) {
    && Evidenced(cfg, r, c, a, email, d)
    && DocumentId(c, d) in ValidDirectIds(DirectGrantsOf(r.tuples.tuples, ConnectionPrefix(c), UserId(c, email)),
                                          ConnectionPrefix(c), UserId(c, email), cfg.cap)
  }

  /** The reads were made one after the other, with any steps in between. */
  predicate InOrder(r: Reads) {
    && Inv(r.connections) && Inv(r.authorizations) && Inv(r.users) && Inv(r.tuples) && Inv(r.clock) && Inv(r.evidence)
    && Advances(r.connections, r.authorizations) && Advances(r.authorizations, r.users) && Advances(r.users, r.tuples)
    && Advances(r.tuples, r.clock) && Advances(r.clock, r.evidence)
  }

  /** The reads of one lookup within a run: it starts where the run has come, and the steps fall between. */
  lemma ReadsOfRun(cfg: Config, w: World, s0: seq<Step>, s1: seq<Step>, s2: seq<Step>, s3: seq<Step>, s4: seq<Step>, s5: seq<Step>) returns (r: Reads)
    requires Initial(w)
    ensures r.connections == Run(cfg, w, s0) && r.authorizations == Run(cfg, r.connections, s1) && r.users == Run(cfg, r.authorizations, s2)
    ensures r.tuples == Run(cfg, r.users, s3) && r.clock == Run(cfg, r.tuples, s4) && r.evidence == Run(cfg, r.clock, s5)
    ensures InOrder(r)
  {
    var w0 := Run(cfg, w, s0);
    Reachable(cfg, w, s0);
    var w1 := Run(cfg, w0, s1);
    RunAdvances(cfg, w0, s1);
    var w2 := Run(cfg, w1, s2);
    RunAdvances(cfg, w1, s2);
    var w3 := Run(cfg, w2, s3);
    RunAdvances(cfg, w2, s3);
    var w4 := Run(cfg, w3, s4);
    RunAdvances(cfg, w3, s4);
    var w5 := Run(cfg, w4, s5);
    RunAdvances(cfg, w4, s5);
    r := Reads(w0, w1, w2, w3, w4, w5);
  }

  // ----- what stands behind a returned document

  /** One execution marked the row, then saw the document, then verified the grants, then committed;
      nobody marked the row since. */
  predicate History(log: seq<Event>, x: Token, e: Exec, d: nat) {
    && At(log, e.markedAt, Marked(x, e.authorization, e.candidates)) && d in e.candidates
    && d in e.answers && e.answers[d].state.Visible? && SawAt(log, x, e, d)
    && e.sawAt[d] < e.exactAt && At(log, e.exactAt, VerifiedExactly(x, VisibleOf(e.answers)))
    && e.exactAt < e.landedAt && At(log, e.landedAt, Committed(x, e.time))
    && NoLaterMark(log, e.authorization, d, e.markedAt)
  }

  /** The connection and the authorization are in force in this very state, under the generations the
      execution worked for. */
  predicate InForce(w: World, e: Exec, c: nat, a: nat) {
    && c in w.rows.connections && PerUserEnabled(w.rows.connections[c]) && w.rows.connections[c].generation == e.connectionGeneration
    && a in w.rows.authorizations && w.rows.authorizations[a].connection == c && w.rows.authorizations[a].status.Active?
    && w.rows.authorizations[a].generation == e.authorizationGeneration && e.authorization == a
  }

  lemma GrantInStore(tuples: set<PermissionTuple>, c: nat, userId: string, d: nat, cap: nat)
    requires DocumentId(c, d) in ValidDirectIds(DirectGrantsOf(tuples, ConnectionPrefix(c), userId), ConnectionPrefix(c), userId, cap)
    ensures GrantOf(c, userId, d) in tuples
  {
    var t :| t in DirectGrantsOf(tuples, ConnectionPrefix(c), userId) && t.resourceId == DocumentId(c, d);
    assert t == GrantOf(c, userId, d);
  }

  lemma VisibleRowHistory(w: World, k: Key) returns (x: Token)
    requires Inv(w) && k in w.rows.evidence && w.rows.evidence[k].state.Visible?
    ensures x in w.execs && w.execs[x].authorization == k.authorization && History(w.log, x, w.execs[x], k.document)
    ensures Witnesses(w.execs[x], k, w.rows.evidence[k]) && Current(w.rows.connections, w.rows.authorizations, k, w.rows.evidence[k])
  {
    x := w.rows.evidence[k].marker;
    assert EvidenceRowOk(w.rows.connections, w.rows.authorizations, w.execs, w.log, k, w.rows.evidence[k]);
    assert ExecOk(w.rows.runs, w.log, w.now, x, w.execs[x]);
    assert SawAt(w.log, x, w.execs[x], k.document);
  }

  /** One execution under the generations in force when the evidence was read marked the document's
      row, then saw it in Drive, then verified the exact grants, then committed within the maximum
      age, with no marking since. */
  predicate Witnessed(cfg: Config, r: Reads, c: nat, a: nat, d: nat, x: Token) {
    && x in r.evidence.execs && InForce(r.evidence, r.evidence.execs[x], c, a)
    && History(r.evidence.log, x, r.evidence.execs[x], d)
    && r.evidence.execs[x].time >= r.clock.now - cfg.maxAge
  }

  lemma EvidencedIsWitnessed(cfg: Config, r: Reads, c: nat, a: nat, email: string, d: nat) returns (x: Token)
    requires InOrder(r) && Evidenced(cfg, r, c, a, email, d)
    ensures Witnessed(cfg, r, c, a, d, x)
  {
    x := VisibleRowHistory(r.evidence, Key(a, d));
    ConnectionOfAuthorization(r, c, a, email);
  }

  /** A returned document has its tuple in the store, and is witnessed. */
  lemma ReturnedIsWitnessed(cfg: Config, r: Reads, c: nat, a: nat, email: string, d: nat) returns (x: Token)
    requires InOrder(r) && Returned(cfg, r, c, a, email, d)
    ensures GrantOf(c, UserId(c, email), d) in r.tuples.tuples
    ensures Witnessed(cfg, r, c, a, d, x)
  {
    GrantInStore(r.tuples.tuples, c, UserId(c, email), d, cfg.cap);
    x := EvidencedIsWitnessed(cfg, r, c, a, email, d);
  }

  /** An authorization row keeps its connection as long as it keeps its generation. */
  lemma ConnectionOfAuthorization(r: Reads, c: nat, a: nat, email: string)
    requires InOrder(r) && a in AuthorizationsOf(r.authorizations.rows, c, email) && a in r.evidence.rows.authorizations
    requires r.evidence.rows.authorizations[a].generation == r.authorizations.rows.authorizations[a].generation
    ensures r.evidence.rows.authorizations[a].connection == c
  {
    AdvancesFurther(r.authorizations, r.users, r.tuples);
    AdvancesFurther(r.authorizations, r.tuples, r.clock);
    AdvancesFurther(r.authorizations, r.clock, r.evidence);
    assert AuthorizationOk(r.authorizations.rows.connections, r.authorizations.rows.authorizations[a], r.authorizations.nextToken);
  }

  /** What the rows say of a document after a denial was witnessed by an execution that began after it. */
  lemma EvidencedAfterDenialIsNew(cfg: Config, w: World, s: Step, steps: seq<Step>, r: Reads, c: nat, a: nat, email: string, d: nat) returns (x: Token)
    requires Inv(w) && Denies(cfg, w, s, c, email)
    requires r.connections == Run(cfg, Apply(cfg, w, s), steps) && InOrder(r) && Evidenced(cfg, r, c, a, email, d)
    ensures Witnessed(cfg, r, c, a, d, x) && x !in w.execs
  {
    x := EvidencedIsWitnessed(cfg, r, c, a, email, d);
    AppliesDenial(cfg, w, s, c, email);
    var v := DeniedWorld(cfg, w, s);
    StepKeeps(cfg, w, s);
    StepAdvances(cfg, w, s);
    RunAdvances(cfg, v, steps);
    StillDenied(cfg, w, s, v, r, c, a, email);
    if x in w.execs {
      WitnessTokensOld(w, v, r, x);
      assert false;
    }
  }

  /** Everything a lookup returns after a denial was witnessed by an execution that began after it. */
  lemma ReturnedAfterDenialIsNew(cfg: Config, w: World, s: Step, steps: seq<Step>, r: Reads, c: nat, a: nat, email: string, d: nat) returns (x: Token)
    requires Inv(w) && Denies(cfg, w, s, c, email)
    requires r.connections == Run(cfg, Apply(cfg, w, s), steps) && InOrder(r) && Returned(cfg, r, c, a, email, d)
    ensures GrantOf(c, UserId(c, email), d) in r.tuples.tuples
    ensures Witnessed(cfg, r, c, a, d, x) && x !in w.execs
  {
    GrantInStore(r.tuples.tuples, c, UserId(c, email), d, cfg.cap);
    x := EvidencedAfterDenialIsNew(cfg, w, s, steps, r, c, a, email, d);
  }

  /** The generation that is in force at the last read was drawn by the denial or later. */
  lemma StillDenied(cfg: Config, w: World, s: Step, v: World, r: Reads, c: nat, a: nat, email: string)
    requires Denies(cfg, w, s, c, email) && v == DeniedWorld(cfg, w, s) && w.nextToken <= v.nextToken
    requires InOrder(r) && Advances(v, r.connections)
    requires c in r.connections.rows.connections && a in AuthorizationsOf(r.authorizations.rows, c, email)
    ensures s.DenyConnection? ==> r.connections.rows.connections[c].generation >= w.nextToken
    ensures !s.DenyConnection? ==> r.authorizations.rows.authorizations[a].generation >= w.nextToken
  {
    if s.DenyConnection? {
      DenialRotates(w.rows, c, w.nextToken);
    } else {
      AdvancesFurther(v, r.connections, r.authorizations);
      forall b | b in AuthorizationsOf(v.rows, c, email) ensures v.rows.authorizations[b].generation >= w.nextToken {
        NewlyNamed(cfg, w, s, c, b, email);
      }
      NamedForGood(v, r.authorizations, c, a, email, w.nextToken);
    }
  }

  lemma NamedForGood(v: World, u: World, c: nat, a: nat, email: string, t: Token)
    requires forall b :: b in AuthorizationsOf(v.rows, c, email) ==> v.rows.authorizations[b].generation >= t
    requires Advances(v, u) && t <= v.nextToken && a in AuthorizationsOf(u.rows, c, email)
    ensures u.rows.authorizations[a].generation >= t
  {
    assert u.rows.authorizations[a].generation >= v.nextToken || a in AuthorizationsOf(v.rows, c, email);
  }

  lemma NamedAfterDisconnect(rows: Rows, c: nat, email: string, base: Token, a: nat)
    requires a in AuthorizationsOf(DisconnectTx(rows, c, email, base), c, email)
    ensures DisconnectTx(rows, c, email, base).authorizations[a].generation >= base
  {
    assert a in AuthorizationsOf(rows, c, email);
  }

  lemma NamedAfterComplete(rows: Rows, allowedDomain: string, g: Grant, row: nat, base: Token, a: nat)
    requires a in AuthorizationsOf(CompleteTx(rows, allowedDomain, g, row, base), g.connection, g.email)
    ensures CompleteTx(rows, allowedDomain, g, row, base).authorizations[a].generation >= base
  {
    assert a == row || a in AuthorizationsOf(rows, g.connection, g.email);
  }

  /** After the step no row of the email is as old as the step. */
  lemma NewlyNamed(cfg: Config, w: World, s: Step, c: nat, a: nat, email: string)
    requires Denies(cfg, w, s, c, email) && !s.DenyConnection? && a in AuthorizationsOf(DeniedWorld(cfg, w, s).rows, c, email)
    ensures DeniedWorld(cfg, w, s).rows.authorizations[a].generation >= w.nextToken
  {
    if s.Disconnect? {
      NamedAfterDisconnect(w.rows, c, email, w.nextToken, a);
    } else {
      NamedAfterComplete(w.rows, cfg.allowedDomain, s.grant, s.row, w.nextToken, a);
    }
  }

  lemma WitnessTokensOld(w: World, v: World, r: Reads, x: Token)
    requires Inv(w) && x in w.execs && InOrder(r) && Advances(w, v) && Advances(v, r.connections)
    ensures x in r.evidence.execs
    ensures r.evidence.execs[x].connectionGeneration < w.nextToken && r.evidence.execs[x].authorizationGeneration < w.nextToken
  {
    ExecBearsOldTokens(w, x);
    AdvancesFurther(w, v, r.connections);
    AdvancesFurther(w, r.connections, r.authorizations);
    AdvancesFurther(w, r.authorizations, r.users);
    AdvancesFurther(w, r.users, r.tuples);
    AdvancesFurther(w, r.tuples, r.clock);
    AdvancesFurther(w, r.clock, r.evidence);
    assert SameExec(w.execs[x], r.evidence.execs[x]);
  }
}
