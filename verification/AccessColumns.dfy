/** What the transactions of the per-user mode write, column by column, and what every evidence row
    looks like at any time. */
module AccessColumns {
  import opened AccessLookup
  import opened AccessProtocol
  import opened Identifiers
  import opened Outcomes
  import opened Text
  import opened TupleStore
  import opened VisibilityRows

  // ----- only visible evidence is verified

  /** A row that is not visible shows no revision and no time of verification; a visible one was verified
      when it was checked. */
  predicate Plain(e: Evidence) {
    && (e.state != Visible ==> e.revision == "" && e.verifiedAt == None)
    && (e.state == Visible ==> e.verifiedAt == Some(e.checkedAt))
  }

  ghost predicate AllPlain(evidence: map<Key, Evidence>) {
    forall k :: k in evidence ==> Plain(evidence[k])
  }

  lemma PreinvalidateKeepsPlain(cfg: Config, w: World, x: Token)
    requires AllPlain(w.rows.evidence) && x in w.execs
    ensures AllPlain(PreinvalidateExec(cfg, w, x).rows.evidence)
  {
    hide Moves;
    var e := w.execs[x];
    if e.run in w.rows.runs { PreinvalidateDecides(w.rows, e.run, x, w.now, cfg.cap); }
    hide PreinvalidateTx;
  }

  lemma CommitKeepsPlain(w: World, x: Token)
    requires AllPlain(w.rows.evidence) && x in w.execs
    ensures AllPlain(CommitExec(w, x).rows.evidence)
  {
    hide Moves;
    var e := w.execs[x];
    var tx := CommitTx(w.rows, w.configured, e.run, x, e.answers, e.time, e.revision);
    if tx.Ok? { CommitWrites(w.rows, w.configured, e.run, x, e.answers, e.time, e.revision); }
    hide CommitTx;
  }

  lemma OtherExecsKeepEvidence(cfg: Config, w: World, s: Step)
    requires OfExec(s) && s.x in w.execs && !s.Preinvalidate? && !s.Commit?
    ensures ApplyExec(cfg, w, s).rows.evidence == w.rows.evidence
  {
    hide Moves;
  }

  lemma ExecKeepsPlain(cfg: Config, w: World, s: Step)
    requires AllPlain(w.rows.evidence) && OfExec(s) && s.x in w.execs
    ensures AllPlain(ApplyExec(cfg, w, s).rows.evidence)
  {
    if s.Preinvalidate? {
      PreinvalidateKeepsPlain(cfg, w, s.x);
    } else if s.Commit? {
      CommitKeepsPlain(w, s.x);
    } else {
      OtherExecsKeepEvidence(cfg, w, s);
    }
  }

  lemma CutoverKeepsPlain(w: World, s: Step)
    requires AllPlain(w.rows.evidence) && OfCutover(s) && s.k in w.cutovers
    ensures AllPlain(ApplyCutover(w, s).rows.evidence)
  {
  }

  lemma RowsKeepPlain(cfg: Config, w: World, s: Step)
    requires AllPlain(w.rows.evidence) && !OfExec(s) && !OfCutover(s)
    ensures AllPlain(ApplyRows(cfg, w, s).rows.evidence)
  {
  }

  /** In every run, at any time. */
  lemma {:induction false} OnlyVisibleIsVerified(cfg: Config, w: World, steps: seq<Step>)
    requires AllPlain(w.rows.evidence)
    ensures AllPlain(Run(cfg, w, steps).rows.evidence)
    decreases |steps|
  {
    hide AllPlain, ApplyExec, ApplyCutover, ApplyRows;
    if steps != [] {
      var s := steps[0];
      if OfExec(s) {
        if s.x in w.execs { ExecKeepsPlain(cfg, w, s); }
      } else if OfCutover(s) {
        if s.k in w.cutovers { CutoverKeepsPlain(w, s); }
      } else {
        RowsKeepPlain(cfg, w, s);
      }
      OnlyVisibleIsVerified(cfg, Apply(cfg, w, s), steps[1..]);
    }
  }

  // ----- the first transaction of a run

  /** The row is doubted: it keeps its marker and its time, and says nothing positive. */
  predicate DoubtedFrom(after: Evidence, before: Evidence) {
    && after.state == Unknown && after.revision == "" && after.verifiedAt == None
    && after.marker == before.marker && after.checkedAt == before.checkedAt
    && after.connectionGeneration == before.connectionGeneration && after.authorizationGeneration == before.authorizationGeneration
  }

  /** The row is the marker's, under the generations of the run. */
  predicate MarkedFor(after: Evidence, run: SyncRun, marker: Token, now: nat) {
    && after.state == Unknown && after.revision == "" && after.verifiedAt == None && after.marker == marker && after.checkedAt == now
    && after.connectionGeneration == run.connectionGeneration && after.authorizationGeneration == run.authorizationGeneration
  }

  /** The candidates are the documents in scope of the run's connection. Within the cap each gets a row
      with the marker; every other row of the authorization is doubted, over the cap all of them are. */
  lemma PreinvalidateDecides(rows: Rows, r: nat, marker: Token, now: nat, cap: nat)
    requires r in rows.runs
    ensures var (after, candidates) := PreinvalidateTx(rows, r, marker, now, cap);
            var run := rows.runs[r];
            var scope := set d | d in rows.documents && rows.documents[d].connection == run.connection && rows.documents[d].active;
            && after == rows.(evidence := after.evidence)
            && candidates == (if |scope| <= cap then Some(scope) else None)
            && (forall k :: k in after.evidence <==> k in rows.evidence || (candidates.Some? && k.authorization == run.authorization && k.document in scope))
            && (forall k :: k in after.evidence ==>
                  if k.authorization != run.authorization then after.evidence[k] == rows.evidence[k]
                  else if candidates.Some? && k.document in scope then MarkedFor(after.evidence[k], run, marker, now)
                  else DoubtedFrom(after.evidence[k], rows.evidence[k]))
  {
    assert Candidates(rows, rows.runs[r].connection)
        == set d | d in rows.documents && rows.documents[d].connection == rows.runs[r].connection && rows.documents[d].active;
  }

  // ----- the last transaction of a run

  /** The row shows the answer, as of the time, and the revision only if the answer is positive. */
  predicate Answered(after: Evidence, run: SyncRun, marker: Token, answer: Answer, time: nat, revision: string) {
    && after.state == answer.state && after.reason == answer.reason && after.checkedAt == time && after.marker == marker
    && after.connectionGeneration == run.connectionGeneration && after.authorizationGeneration == run.authorizationGeneration
    && (if answer.state == Visible then after.revision == revision && after.verifiedAt == Some(time)
        else after.revision == "" && after.verifiedAt == None)
  }

  predicate AllKnown(results: map<nat, Answer>) {
    forall d :: d in results ==> results[d].state != Unknown
  }

  lemma NoneUnknown(results: map<nat, Answer>)
    ensures Count(results, Unknown) > 0 <==> !AllKnown(results)
  {
    var unknown := Matching(results, Unknown);
    if d :| d in results && results[d].state == Unknown { assert d in unknown; }
    if |unknown| > 0 { var d :| d in unknown; }
  }

  /** Every candidate's row bore the marker and shows its answer; no other row changed. */
  ghost predicate AnswersWritten(before: Rows, after: Rows, run: SyncRun, marker: Token, results: map<nat, Answer>, time: nat, revision: string) {
    && after.evidence.Keys == before.evidence.Keys
    && (forall d :: d in results ==> Key(run.authorization, d) in before.evidence && before.evidence[Key(run.authorization, d)].marker == marker)
    && (forall k :: k in before.evidence ==>
          if k.authorization == run.authorization && k.document in results
          then Answered(after.evidence[k], run, marker, results[k.document], time, revision) else after.evidence[k] == before.evidence[k])
  }

  lemma AnswersAreWritten(rows: Rows, configured: Authority, r: nat, marker: Token, results: map<nat, Answer>, time: nat, revision: string)
    requires CommitTx(rows, configured, r, marker, results, time, revision).Ok?
    ensures r in rows.runs
    ensures AnswersWritten(rows, CommitTx(rows, configured, r, marker, results, time, revision).value, rows.runs[r], marker, results, time, revision)
  {
    hide ScopeValid;
    assert r in rows.runs by { ScopeHasRun(rows, configured, r); }
    var run := rows.runs[r];
    forall d | d in results ensures Key(run.authorization, d) in rows.evidence && rows.evidence[Key(run.authorization, d)].marker == marker {
      assert BearsMarker(rows.evidence, Key(run.authorization, d), marker);
    }
  }

  lemma ScopeHasRun(rows: Rows, configured: Authority, r: nat)
    requires ScopeValid(rows, configured, r)
    ensures r in rows.runs && rows.runs[r].authorization in rows.authorizations
  {
  }

  /** The run is partial as soon as one answer is unknown, and only a whole one moves the authorization's
      last sync; the evidence shows the answers, and connections and documents stay. */
  lemma CommitWrites(rows: Rows, configured: Authority, r: nat, marker: Token, results: map<nat, Answer>, time: nat, revision: string)
    requires CommitTx(rows, configured, r, marker, results, time, revision).Ok?
    ensures r in rows.runs && rows.runs[r].authorization in rows.authorizations
    ensures var after, run := CommitTx(rows, configured, r, marker, results, time, revision).value, rows.runs[r];
            && AnswersWritten(rows, after, run, marker, results, time, revision)
            && after.connections == rows.connections && after.documents == rows.documents
            && r in after.runs && after.runs == rows.runs[r := after.runs[r]]
            && after.runs[r].status == (if AllKnown(results) then Succeeded else Partial)
            && after.runs[r].connection == run.connection && after.runs[r].authorization == run.authorization && after.runs[r].error == ""
            && after.authorizations == (if AllKnown(results)
                 then rows.authorizations[run.authorization := rows.authorizations[run.authorization].(lastSync := Some(time))] else rows.authorizations)
  {
    AnswersAreWritten(rows, configured, r, marker, results, time, revision);
    NoneUnknown(results);
    ScopeHasRun(rows, configured, r);
    var a := rows.runs[r].authorization;
    assert rows.authorizations[a := rows.authorizations[a]] == rows.authorizations;
    hide ScopeValid, StillOurs, WithResults, AnswersWritten, AllKnown;
  }

  // ----- connecting and disconnecting

  /** Nothing of the authorization can be used any more; what names it is as before. */
  predicate CutFrom(after: Authorization, before: Authorization) {
    && after.status == Disconnected && !after.hasCredential && !after.hasScopes && after.lastSync == None
    && after.connection == before.connection && after.issuer == before.issuer && after.subject == before.subject
    && after.email == before.email && after.domain == before.domain && after.connectionGeneration == before.connectionGeneration
  }

  /** The authorization is one of the email on the connection. */
  predicate BelongsTo(rows: Rows, a: nat, c: nat, email: string) {
    a in rows.authorizations && rows.authorizations[a].connection == c && rows.authorizations[a].email == email
  }

  /** Every authorization of the email on the connection is cut and its evidence gone; all else stays. */
  lemma DisconnectWrites(rows: Rows, c: nat, email: string, base: Token)
    ensures var after := DisconnectTx(rows, c, email, base);
            && after == rows.(authorizations := after.authorizations, evidence := after.evidence)
            && after.authorizations.Keys == rows.authorizations.Keys
            && (forall a :: a in rows.authorizations ==>
                  if BelongsTo(rows, a, c, email)
                  then CutFrom(after.authorizations[a], rows.authorizations[a]) else after.authorizations[a] == rows.authorizations[a])
            && (forall k :: k in after.evidence <==> k in rows.evidence && !BelongsTo(rows, k.authorization, c, email))
            && (forall k :: k in after.evidence ==> after.evidence[k] == rows.evidence[k])
  {
  }

  /** The subject's row is active under the connection's generation and a token of its own; every other
      row of the email on the connection is cut; neither keeps any evidence. */
  lemma CompleteWrites(rows: Rows, allowedDomain: string, g: Grant, a: nat, base: Token)
    ensures var after := CompleteTx(rows, allowedDomain, g, a, base);
            && after == rows.(authorizations := after.authorizations, evidence := after.evidence)
            && after.authorizations.Keys == rows.authorizations.Keys + {a}
            && after.authorizations[a] == Authorization(g.connection, g.issuer, g.subject, g.email, allowedDomain, g.connectionGeneration,
                                                        after.authorizations[a].generation, Active, true, true, None)
            && after.authorizations[a].generation >= base
            && (forall b :: b in rows.authorizations && b != a ==>
                  if BelongsTo(rows, b, g.connection, g.email)
                  then CutFrom(after.authorizations[b], rows.authorizations[b]) && after.authorizations[b].generation >= base
                  else after.authorizations[b] == rows.authorizations[b])
            && (forall k :: k in after.evidence <==> k in rows.evidence && k.authorization != a && !BelongsTo(rows, k.authorization, g.connection, g.email))
            && (forall k :: k in after.evidence ==> after.evidence[k] == rows.evidence[k])
  {
  }

  // ----- what has to hold for a lookup, and for connecting

  /** The connections that take part in the per-user mode. */
  function PerUserConnections(rows: Rows): set<nat> {
    set c | c in rows.connections && rows.connections[c].enabled && rows.connections[c].authority == PerUserOauth
  }

  /** One connection only may take part, whoever asks; for connecting it has to be usable too. */
  lemma OneTakesPart(rows: Rows, configured: Authority, allowedDomain: string, c: nat)
    ensures ActiveMode(rows, configured, c) <==> configured == PerUserOauth && PerUserConnections(rows) == {c}
    ensures ActiveConnection(rows, configured, allowedDomain, c)
       <==> configured == PerUserOauth && PerUserConnections(rows) == {c} && rows.connections[c].hasRoot && rows.connections[c].domain == allowedDomain
  {
    if PerUserConnections(rows) == {c} {
      assert c in PerUserConnections(rows);
      forall d | d in rows.connections && PerUserEnabled(rows.connections[d]) ensures d == c { assert d in PerUserConnections(rows); }
    }
    if ActiveMode(rows, configured, c) {
      forall d ensures d in PerUserConnections(rows) <==> d == c {}
    }
  }

  /** The email's domain is what follows its last at sign, or all of it. */
  lemma DomainIsAfterLastAt(email: string, domain: string)
    ensures InAllowedDomain(email, domain) <==> '@' !in domain && (email == domain || exists local: string :: email == local + "@" + domain)
  {
    hide RFind;
    var i := RFind(email, '@', 0, |email|);
    LastPart(email, i);
    if '@' !in domain && email != domain && exists local: string :: email == local + "@" + domain {
      var local: string :| email == local + "@" + domain;
      LastAtStands(email, local, domain, i);
    }
  }

  /** What follows the last at sign holds none. */
  lemma LastPart(email: string, i: int)
    requires -1 <= i < |email| && (i >= 0 ==> email[i] == '@') && forall j :: 0 <= j < |email| && i < j ==> email[j] != '@'
    ensures '@' !in email[i + 1..]
    ensures if i == -1 then email[i + 1..] == email && '@' !in email else email == email[..i] + "@" + email[i + 1..]
  {
  }

  lemma LastAtStands(email: string, local: string, domain: string, i: int)
    requires email == local + "@" + domain && '@' !in domain
    requires -1 <= i < |email| && (i >= 0 ==> email[i] == '@') && forall j :: 0 <= j < |email| && i < j ==> email[j] != '@'
    ensures email[i + 1..] == domain
  {
    assert email[|local|] == '@';
    forall j | |local| < j < |email| ensures email[j] != '@' { assert email[j] == domain[j - |local| - 1]; }
  }

  /** The authorization as it was read can be used. */
  predicate UsableRow(row: Authorization, connection: Connection, domain: string) {
    && row.status == Active && row.issuer in {"https://accounts.google.com", "accounts.google.com"} && row.subject != ""
    && row.domain == domain && row.connectionGeneration == connection.generation && row.hasScopes && row.hasCredential
  }

  /** The evidence row, its authorization and its document, all under the generations read before. */
  predicate FreshRows(rows: Rows, connection: Connection, c: nat, row: Authorization, a: nat, cutoff: int, d: nat) {
    && a in rows.authorizations && rows.authorizations[a].status == Active
    && rows.authorizations[a].connectionGeneration == connection.generation && rows.authorizations[a].generation == row.generation
    && d in rows.documents && rows.documents[d].connection == c && rows.documents[d].active && rows.documents[d].eligible
    && rows.documents[d].permissionsVersion != ""
    && Key(a, d) in rows.evidence
    && var e := rows.evidence[Key(a, d)];
       && e.connectionGeneration == connection.generation && e.authorizationGeneration == row.generation
       && e.state == Visible && e.checkedAt >= cutoff && e.verifiedAt.Some? && e.verifiedAt.value >= cutoff && e.revision != ""
  }

  /** A document is returned exactly if each of the six reads shows what it has to. */
  lemma ReturnedExactly(cfg: Config, r: Reads, c: nat, a: nat, email: string, d: nat)
    ensures Returned(cfg, r, c, a, email, d) <==>
      && r.connections.configured == PerUserOauth && PerUserConnections(r.connections.rows) == {c}
      && var connection := r.connections.rows.connections[c];
      && cfg.allowedDomain != "" && InAllowedDomain(email, cfg.allowedDomain) && connection.domain == cfg.allowedDomain && connection.hasRoot
      && (set x | x in r.authorizations.rows.authorizations && BelongsTo(r.authorizations.rows, x, c, email)) == {a}
      && a in r.authorizations.rows.authorizations && UsableRow(r.authorizations.rows.authorizations[a], connection, cfg.allowedDomain)
      && |set x | x in r.users.rows.authorizations && r.users.rows.authorizations[x].connection == c && r.users.rows.authorizations[x].status == Active
                  && r.users.rows.authorizations[x].connectionGeneration == connection.generation| <= cfg.maxUsers
      && PermissionTuple("kgm/document", DocumentId(c, d), "oauth_viewer", "kgm/user", UserId(c, email), "") in r.tuples.tuples
      && |DirectGrantsOf(r.tuples.tuples, ConnectionPrefix(c), UserId(c, email))| <= cfg.cap
      && FreshRows(r.evidence.rows, connection, c, r.authorizations.rows.authorizations[a], a, r.clock.now - cfg.maxAge, d)
  {
    OneTakesPart(r.connections.rows, r.connections.configured, cfg.allowedDomain, c);
    IdIsValid(r.tuples.tuples, c, UserId(c, email), cfg.cap, d);
    hide InAllowedDomain, ValidDirectIds, ActiveMode, PerUserConnections, UserId, DocumentId, ConnectionPrefix, DirectGrantsOf;
    if c in r.connections.rows.connections { CurrentByColumns(cfg, r.connections.rows.connections[c], c, email, r.authorizations.rows, r.users.rows, a); }
    hide CurrentAuthorization;
  }

  lemma CurrentByColumns(cfg: Config, connection: Connection, c: nat, email: string, listed: Rows, counted: Rows, a: nat)
    ensures CurrentAuthorization(cfg, connection, c, email, listed, counted, a) <==>
      && cfg.allowedDomain != "" && InAllowedDomain(email, cfg.allowedDomain) && connection.domain == cfg.allowedDomain && connection.hasRoot
      && (set x | x in listed.authorizations && BelongsTo(listed, x, c, email)) == {a}
      && a in listed.authorizations && UsableRow(listed.authorizations[a], connection, cfg.allowedDomain)
      && |set x | x in counted.authorizations && counted.authorizations[x].connection == c && counted.authorizations[x].status == Active
                  && counted.authorizations[x].connectionGeneration == connection.generation| <= cfg.maxUsers
  {
    hide InAllowedDomain;
    assert AuthorizationsOf(listed, c, email) == set x | x in listed.authorizations && BelongsTo(listed, x, c, email);
    assert ConnectedUsers(counted, c, connection.generation)
        == set x | x in counted.authorizations && counted.authorizations[x].connection == c && counted.authorizations[x].status == Active
                   && counted.authorizations[x].connectionGeneration == connection.generation;
    if AuthorizationsOf(listed, c, email) == {a} { assert a in AuthorizationsOf(listed, c, email); }
  }

  lemma IdIsValid(tuples: set<PermissionTuple>, c: nat, userId: string, cap: nat, d: nat)
    ensures DocumentId(c, d) in ValidDirectIds(DirectGrantsOf(tuples, ConnectionPrefix(c), userId), ConnectionPrefix(c), userId, cap)
       <==> && PermissionTuple("kgm/document", DocumentId(c, d), "oauth_viewer", "kgm/user", userId, "") in tuples
            && |DirectGrantsOf(tuples, ConnectionPrefix(c), userId)| <= cap
  {
    var grants := DirectGrantsOf(tuples, ConnectionPrefix(c), userId);
    AsManyIds(grants, ConnectionPrefix(c), userId);
    assert ConnectionPrefix(c) <= DocumentId(c, d);
    hide ConnectionPrefix, DocumentId;
    var ids := set t | t in grants && DirectGrant(t, ConnectionPrefix(c), userId) :: t.resourceId;
    assert ids == set t | t in grants :: t.resourceId;
    var grant := PermissionTuple("kgm/document", DocumentId(c, d), "oauth_viewer", "kgm/user", userId, "");
    if grant in tuples { assert grant in grants; }
    if DocumentId(c, d) in ids {
      var t :| t in grants && t.resourceId == DocumentId(c, d);
      assert t == grant;
    }
  }

  /** No two direct grants of one user name the same document. */
  lemma {:induction false} AsManyIds(grants: set<PermissionTuple>, prefix: string, userId: string)
    requires forall t :: t in grants ==> DirectGrant(t, prefix, userId)
    ensures |set t | t in grants :: t.resourceId| == |grants|
    decreases |grants|
  {
    var ids := set t | t in grants :: t.resourceId;
    if grants != {} {
      var x :| x in grants;
      AsManyIds(grants - {x}, prefix, userId);
      assert ids == (set t | t in grants - {x} :: t.resourceId) + {x.resourceId};
      assert x.resourceId !in set t | t in grants - {x} :: t.resourceId;
    }
  }
}
