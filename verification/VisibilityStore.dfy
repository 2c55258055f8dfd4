/** The transactions of the per-user mode as the services write them, row after row, each proved to
    leave the rows its function says. */
module VisibilityStore {
  import opened Outcomes
  import opened VisibilityRows

  class Postgres {
    var connections: map<nat, Connection>
    var authorizations: map<nat, Authorization>
    var documents: map<nat, Document>
    var evidence: map<Key, Evidence>
    var runs: map<nat, SyncRun>

    constructor (rows: Rows)
      ensures Contents() == rows
    {
      connections, authorizations, documents, evidence, runs := rows.connections, rows.authorizations, rows.documents, rows.evidence, rows.runs;
    }

    function Contents(): Rows
      reads this
    {
      Rows(connections, authorizations, documents, evidence, runs)
    }

    // ----- the first transaction of a run

    /** `update_or_create` for each candidate. */
    method MarkCandidates(run: SyncRun, marker: Token, now: nat, candidates: set<nat>)
      modifies this`evidence
      ensures evidence == WithMarks(old(evidence), run, marker, now, candidates)
    {
      var todo := candidates;
      while todo != {}
        invariant todo <= candidates
        invariant forall k :: k in evidence <==> k in old(evidence) || (k.authorization == run.authorization && k.document in candidates - todo)
        invariant forall k :: k in evidence ==> (evidence[k] ==
                    if k.authorization == run.authorization && k.document in candidates - todo then RefreshPending(run, marker, now) else old(evidence)[k])
      {
        var d :| d in todo;
        todo := todo - {d};
        evidence := evidence[Key(run.authorization, d) := RefreshPending(run, marker, now)];
      }
      MarksAre(old(evidence), run, marker, now, candidates, evidence);
    }

    method Preinvalidate(r: nat, marker: Token, now: nat, cap: nat) returns (candidates: Option<set<nat>>)
      requires r in runs
      modifies this`evidence
      ensures (Contents(), candidates) == PreinvalidateTx(old(Contents()), r, marker, now, cap)
    {
      var run := runs[r];
      evidence := Invalidated(evidence, run.authorization, "refresh_pending");
      var ids := Candidates(Contents(), run.connection);
      if |ids| > cap {
        return None;
      }
      MarkCandidates(run, marker, now, ids);
      candidates := Some(ids);
    }

    // ----- the last transaction of a run

    /** The loop over the results: a row that no longer bears the marker ends it. */
    method WriteResults(run: SyncRun, marker: Token, results: map<nat, Answer>, time: nat, revision: string)
        returns (whole: bool, visible: nat, denied: nat, unknown: nat)
      modifies this`evidence
      ensures whole <==> forall d :: d in results ==> BearsMarker(old(evidence), Key(run.authorization, d), marker)
      ensures whole ==> evidence == WithResults(old(evidence), run, marker, results, time, revision)
      ensures whole ==> visible == Count(results, Visible) && denied == Count(results, Denied) && unknown == Count(results, Unknown)
    {
      visible, denied, unknown := 0, 0, 0;
      var todo, done := results.Keys, {};
      ghost var before := evidence;
      while todo != {}
        invariant Parted(results.Keys, todo, done)
        invariant WrittenFor(before, run, marker, results, done, time, revision, evidence)
        invariant Counted(results, done, visible, denied, unknown)
        decreases todo
      {
        var d :| d in todo;
        var k := Key(run.authorization, d);
        NotYetWritten(before, run, marker, results, done, time, revision, evidence, d);
        if !BearsMarker(evidence, k, marker) {
          return false, 0, 0, 0;
        }
        WritesOne(before, run, marker, results, done, time, revision, evidence, d);
        CountMore(results, done, d, visible, denied, unknown);
        evidence := evidence[k := Verified(run, marker, results[d], time, revision)];
        visible := visible + if results[d].state.Visible? then 1 else 0;
        denied := denied + if results[d].state.Denied? then 1 else 0;
        unknown := unknown + if results[d].state.Unknown? then 1 else 0;
        PartMore(results.Keys, todo, done, d);
        todo, done := todo - {d}, done + {d};
      }
      whole := true;
      ResultsAre(before, run, marker, results, time, revision, evidence);
      CountAll(results, visible, denied, unknown);
    }

    /** A failure rolls back whatever the loop wrote. */
    method CommitVerifiedResults(configured: Authority, r: nat, marker: Token, results: map<nat, Answer>, time: nat, revision: string)
        returns (outcome: Outcome)
      modifies this`evidence, this`runs, this`authorizations
      ensures match CommitTx(old(Contents()), configured, r, marker, results, time, revision)
              case Ok(rows) => outcome.Pass? && Contents() == rows
              case Err(code) => outcome == Fail(code) && Contents() == old(Contents())
    {
      if !ScopeValid(Contents(), configured, r) {
        return Fail("authorization_unavailable");
      }
      var run := runs[r];
      if !(results.Keys <= Candidates(Contents(), run.connection)) {
        return Fail("batch_scope_mismatch");
      }
      var savepoint := evidence;
      var whole, visible, denied, unknown := WriteResults(run, marker, results, time, revision);
      if !whole {
        evidence := savepoint;
        return Fail("batch_scope_mismatch");
      }
      runs := runs[r := run.(considered := |results|, visible := visible, denied := denied, unknown := unknown, error := "",
                             status := if unknown > 0 then Partial else Succeeded)];
      if unknown == 0 {
        authorizations := authorizations[run.authorization := authorizations[run.authorization].(lastSync := Some(time))];
      }
      outcome := Pass;
      assert unknown > 0 ==> authorizations == authorizations[run.authorization := authorizations[run.authorization]];
    }

    // ----- disconnecting and connecting

    /** `_disconnect_authorization_row`: afterwards no run of the authorization has a valid scope and
        nothing of its evidence is left; runs of other authorizations keep theirs. */
    method DisconnectAuthorizationRow(a: nat, generation: Token)
      requires a in authorizations
      modifies this`authorizations, this`evidence
      ensures authorizations == old(authorizations)[a := DisconnectedRow(old(authorizations)[a], generation)]
      ensures evidence == map k | k in old(evidence) && k.authorization != a :: old(evidence)[k]
      ensures forall configured, r :: r in runs && runs[r].authorization == a ==> !ScopeValid(Contents(), configured, r)
      ensures forall k :: k in evidence ==> k.authorization != a
      ensures forall configured, r :: r in runs && runs[r].authorization != a ==>
                (ScopeValid(Contents(), configured, r) <==> ScopeValid(old(Contents()), configured, r))
      ensures forall c, email :: AuthorizationsOf(Contents(), c, email) == AuthorizationsOf(old(Contents()), c, email)
    {
      evidence := map k | k in evidence && k.authorization != a :: evidence[k];
      authorizations := authorizations[a := DisconnectedRow(authorizations[a], generation)];
    }

    method DisconnectAll(s: set<nat>, base: Token)
      requires s <= authorizations.Keys
      modifies this`authorizations, this`evidence
      ensures Contents() == DisconnectRows(old(Contents()), s, base)
    {
      var todo, done := s, {};
      ghost var before := Contents();
      while todo != {}
        invariant Parted(s, todo, done)
        invariant Contents() == before.(authorizations := authorizations, evidence := evidence)
        invariant DisconnectedFor(before, done, base, authorizations, evidence)
        decreases todo
      {
        var a :| a in todo;
        DisconnectsOne(before, done, base, authorizations, evidence, a);
        DisconnectAuthorizationRow(a, FreshFor(base, a));
        PartMore(s, todo, done, a);
        todo, done := todo - {a}, done + {a};
      }
      DisconnectedAre(before, s, base, authorizations, evidence);
    }

    method DisconnectAuthorization(configured: Authority, allowedDomain: string, c: nat, email: string, base: Token) returns (outcome: Outcome)
      modifies this`authorizations, this`evidence
      ensures outcome.Pass? <==> ActiveConnection(old(Contents()), configured, allowedDomain, c)
      ensures Contents() == if outcome.Pass? then DisconnectTx(old(Contents()), c, email, base) else old(Contents())
    {
      if !ActiveConnection(Contents(), configured, allowedDomain, c) {
        return Fail("connection_unavailable");
      }
      DisconnectAll(AuthorizationsOf(Contents(), c, email), base);
      outcome := Pass;
    }

    method CompleteAuthorization(configured: Authority, allowedDomain: string, g: Grant, a: nat, base: Token) returns (outcome: Outcome)
      requires WritesRow(Contents(), g, a)
      modifies this`authorizations, this`evidence
      ensures outcome.Pass? <==> CanComplete(old(Contents()), configured, allowedDomain, g, a)
      ensures Contents() == if outcome.Pass? then CompleteTx(old(Contents()), allowedDomain, g, a, base) else old(Contents())
    {
      if g.issuer !in GOOGLE_ISSUERS || g.subject == "" {
        return Fail("identity_token_invalid");
      }
      if !ActiveConnection(Contents(), configured, allowedDomain, g.connection) {
        return Fail("connection_unavailable");
      }
      if connections[g.connection].generation != g.connectionGeneration {
        return Fail("connection_changed");
      }
      if !HasCredential(Contents(), g, a) {
        return Fail("refresh_credential_missing");
      }
      DisconnectAll(AuthorizationsOf(Contents(), g.connection, g.email) - {a}, base);
      evidence := map k | k in evidence && k.authorization != a :: evidence[k];
      authorizations := authorizations[a := Authorization(g.connection, g.issuer, g.subject, g.email, allowedDomain,
        g.connectionGeneration, FreshFor(base, a), Active, true, true, None)];
      outcome := Pass;
    }

    // ----- the authority cutover

    method DenyConnection(c: nat, base: Token) returns (outcome: Outcome)
      modifies this
      ensures outcome.Pass? <==> c in old(connections) && old(connections)[c].hasRoot
      ensures outcome.Pass? ==> Contents() == DenyTx(old(Contents()), c, base)
      ensures outcome.Fail? ==> Contents() == old(Contents())
    {
      if c !in connections {
        return Fail("connection_unavailable");
      }
      if !connections[c].hasRoot {
        return Fail("selected_root_missing");
      }
      ghost var before := Contents();
      connections := connections[c := connections[c].(enabled := false, generation := base)];
      documents := map d | d in documents :: if documents[d].connection == c then DeniedDocument(documents[d]) else documents[d];
      assert OfConnection(Contents(), c) == OfConnection(before, c);
      DisconnectAll(OfConnection(Contents(), c), base + 1);
      outcome := Pass;
    }
  }

  // ----- what the loops come to

  /** Every element is still to do or done, not both. */
  ghost predicate Parted<T(!new)>(all: set<T>, todo: set<T>, done: set<T>)
    ensures Parted(all, todo, done) && todo == {} ==> done == all
  {
    && todo !! done && done <= all && todo <= all
    && forall x :: x in all ==> x in todo || x in done
  }

  lemma PartMore<T(!new)>(all: set<T>, todo: set<T>, done: set<T>, x: T)
    requires Parted(all, todo, done) && x in todo
    ensures Parted(all, todo - {x}, done + {x})
  {
  }

  lemma MarksAre(before: map<Key, Evidence>, run: SyncRun, marker: Token, now: nat, candidates: set<nat>, after: map<Key, Evidence>)
    requires forall k :: k in after <==> k in before || (k.authorization == run.authorization && k.document in candidates)
    requires forall k :: k in after ==> (after[k] ==
               if k.authorization == run.authorization && k.document in candidates then RefreshPending(run, marker, now) else before[k])
    ensures after == WithMarks(before, run, marker, now, candidates)
  {
    var marked := WithMarks(before, run, marker, now, candidates);
    forall k | k in after ensures k in marked && marked[k] == after[k] {
      if k.authorization == run.authorization && k.document in candidates {
        assert k == Key(run.authorization, k.document);
      }
    }
  }

  function WrittenSoFar(before: map<Key, Evidence>, run: SyncRun, marker: Token, results: map<nat, Answer>, done: set<nat>,
                        time: nat, revision: string, k: Key): Evidence
    requires k in before && done <= results.Keys
  {
    if k.authorization == run.authorization && k.document in done then Verified(run, marker, results[k.document], time, revision) else before[k]
  }

  /** The rows of the documents done are written and were marked; the others are as before. */
  ghost predicate WrittenFor(before: map<Key, Evidence>, run: SyncRun, marker: Token, results: map<nat, Answer>, done: set<nat>,
                             time: nat, revision: string, after: map<Key, Evidence>) {
    && done <= results.Keys && after.Keys == before.Keys
    && (forall d :: d in done ==> BearsMarker(before, Key(run.authorization, d), marker))
    && (forall k :: k in after ==> after[k] == WrittenSoFar(before, run, marker, results, done, time, revision, k))
  }

  lemma NotYetWritten(before: map<Key, Evidence>, run: SyncRun, marker: Token, results: map<nat, Answer>, done: set<nat>,
                      time: nat, revision: string, evidence: map<Key, Evidence>, d: nat)
    requires WrittenFor(before, run, marker, results, done, time, revision, evidence) && d !in done
    ensures BearsMarker(evidence, Key(run.authorization, d), marker) <==> BearsMarker(before, Key(run.authorization, d), marker)
  {
    var k := Key(run.authorization, d);
    assert k in evidence ==> evidence[k] == WrittenSoFar(before, run, marker, results, done, time, revision, k);
  }

  lemma WritesOne(before: map<Key, Evidence>, run: SyncRun, marker: Token, results: map<nat, Answer>, done: set<nat>,
                  time: nat, revision: string, evidence: map<Key, Evidence>, d: nat)
    requires WrittenFor(before, run, marker, results, done, time, revision, evidence)
    requires d in results && d !in done && BearsMarker(evidence, Key(run.authorization, d), marker)
    ensures WrittenFor(before, run, marker, results, done + {d}, time, revision,
                       evidence[Key(run.authorization, d) := Verified(run, marker, results[d], time, revision)])
  {
    var k := Key(run.authorization, d);
    assert evidence[k] == WrittenSoFar(before, run, marker, results, done, time, revision, k);
    var after := evidence[k := Verified(run, marker, results[d], time, revision)];
    forall j | j in after ensures after[j] == WrittenSoFar(before, run, marker, results, done + {d}, time, revision, j) {
      if j.authorization == run.authorization && j.document == d {
        assert j == k;
      } else {
        assert evidence[j] == WrittenSoFar(before, run, marker, results, done, time, revision, j);
      }
    }
  }

  lemma ResultsAre(before: map<Key, Evidence>, run: SyncRun, marker: Token, results: map<nat, Answer>, time: nat, revision: string, after: map<Key, Evidence>)
    requires WrittenFor(before, run, marker, results, results.Keys, time, revision, after)
    ensures after == WithResults(before, run, marker, results, time, revision)
  {
  }

  ghost predicate Counted(results: map<nat, Answer>, done: set<nat>, visible: nat, denied: nat, unknown: nat) {
    && visible == |Matching(results, Visible) * done|
    && denied == |Matching(results, Denied) * done|
    && unknown == |Matching(results, Unknown) * done|
  }

  lemma MatchMore(results: map<nat, Answer>, done: set<nat>, d: nat, state: VisibilityState)
    requires d in results && d !in done
    ensures |Matching(results, state) * (done + {d})| == |Matching(results, state) * done| + (if results[d].state == state then 1 else 0)
  {
    var matching := Matching(results, state);
    assert matching * (done + {d}) == if results[d].state == state then matching * done + {d} else matching * done;
  }

  lemma CountMore(results: map<nat, Answer>, done: set<nat>, d: nat, visible: nat, denied: nat, unknown: nat)
    requires Counted(results, done, visible, denied, unknown) && d in results && d !in done
    ensures Counted(results, done + {d},
                    visible + if results[d].state.Visible? then 1 else 0,
                    denied + if results[d].state.Denied? then 1 else 0,
                    unknown + if results[d].state.Unknown? then 1 else 0)
  {
    MatchMore(results, done, d, Visible);
    MatchMore(results, done, d, Denied);
    MatchMore(results, done, d, Unknown);
  }

  lemma CountAll(results: map<nat, Answer>, visible: nat, denied: nat, unknown: nat)
    requires Counted(results, results.Keys, visible, denied, unknown)
    ensures visible == Count(results, Visible) && denied == Count(results, Denied) && unknown == Count(results, Unknown)
  {
    assert Matching(results, Visible) * results.Keys == Matching(results, Visible);
    assert Matching(results, Denied) * results.Keys == Matching(results, Denied);
    assert Matching(results, Unknown) * results.Keys == Matching(results, Unknown);
  }

  /** The rows done are disconnected and have no evidence left; the others are as before. */
  ghost predicate DisconnectedFor(before: Rows, done: set<nat>, base: Token, authorizations: map<nat, Authorization>, evidence: map<Key, Evidence>) {
    && authorizations.Keys == before.authorizations.Keys
    && (forall a :: a in authorizations ==> (authorizations[a] ==
          if a in done then DisconnectedRow(before.authorizations[a], FreshFor(base, a)) else before.authorizations[a]))
    && (forall k :: k in evidence <==> k in before.evidence && k.authorization !in done)
    && (forall k :: k in evidence ==> evidence[k] == before.evidence[k])
  }

  lemma DisconnectsOne(before: Rows, done: set<nat>, base: Token, authorizations: map<nat, Authorization>, evidence: map<Key, Evidence>, a: nat)
    requires DisconnectedFor(before, done, base, authorizations, evidence) && a in before.authorizations && a !in done
    ensures DisconnectedFor(before, done + {a}, base, authorizations[a := DisconnectedRow(authorizations[a], FreshFor(base, a))],
                            map k | k in evidence && k.authorization != a :: evidence[k])
  {
  }

  lemma DisconnectedAre(before: Rows, s: set<nat>, base: Token, authorizations: map<nat, Authorization>, evidence: map<Key, Evidence>)
    requires DisconnectedFor(before, s, base, authorizations, evidence)
    ensures before.(authorizations := authorizations, evidence := evidence) == DisconnectRows(before, s, base)
  {
    var cut := DisconnectRows(before, s, base);
    assert authorizations == cut.authorizations;
    assert evidence == cut.evidence;
  }
}
