/** The transactions that connect, disconnect and cut over keep the invariant. */
module AccessTransactions {
  import opened Outcomes
  import opened TupleStore
  import opened VisibilityRows
  import opened AccessProtocol
  import opened AccessInvariants
  import opened AccessSteps

  // ----- disconnecting

  lemma DisconnectRowsOk(rows: Rows, s: set<nat>, base: Token, next: Token)
    requires RowsOk(rows, base) && Covers(rows, base, next)
    ensures RowsOk(DisconnectRows(rows, s, base), next)
  {
    var cut := DisconnectRows(rows, s, base).authorizations;
    forall a | a in cut ensures AuthorizationOk(rows.connections, cut[a], next) {
      assert AuthorizationOk(rows.connections, rows.authorizations[a], base);
    }
    forall a, b | a in cut && b in cut && BothActive(cut[a], cut[b]) ensures a == b {
      assert BothActive(rows.authorizations[a], rows.authorizations[b]);
    }
    forall r | r in rows.runs ensures RunOk(cut, rows.runs[r], next) {
      assert RunOk(rows.authorizations, rows.runs[r], base);
    }
  }

  lemma DisconnectEvidenceOk(rows: Rows, s: set<nat>, base: Token, execs: map<Token, Exec>, log: seq<Event>)
    requires EvidenceOk(rows.connections, rows.authorizations, rows.evidence, execs, log)
    ensures var cut := DisconnectRows(rows, s, base); EvidenceOk(rows.connections, cut.authorizations, cut.evidence, execs, log)
  {
    var cut := DisconnectRows(rows, s, base);
    forall k | k in cut.evidence ensures EvidenceRowOk(rows.connections, cut.authorizations, execs, log, k, cut.evidence[k]) {
      assert EvidenceRowOk(rows.connections, rows.authorizations, execs, log, k, rows.evidence[k]);
    }
  }

  lemma CutoversLater(connections: map<nat, Connection>, cutovers: map<nat, Cutover>, log: seq<Event>, next: Token, later: Token)
    requires CutoversOk(connections, cutovers, log, next) && next <= later
    ensures CutoversOk(connections, cutovers, log, later)
  {
    CutoversGrow(connections, cutovers, log, [], next, later);
    assert log + [] == log;
  }

  lemma DisconnectKeeps(cfg: Config, w: World, c: nat, email: string, next: Token)
    requires Inv(w)
    ensures Inv(DisconnectWorld(cfg, w, c, email, next))
  {
    if ActiveConnection(w.rows, w.configured, cfg.allowedDomain, c) && Covers(w.rows, w.nextToken, next) {
      var s := AuthorizationsOf(w.rows, c, email);
      DisconnectRowsOk(w.rows, s, w.nextToken, next);
      DisconnectEvidenceOk(w.rows, s, w.nextToken, w.execs, w.log);
      CutoversLater(w.rows.connections, w.cutovers, w.log, w.nextToken, next);
      RowsChange(w, DisconnectTx(w.rows, c, email, w.nextToken), next);
    }
  }

  // ----- connecting

  /** The new row is the only active one of its email. */
  lemma ConnectRowOk(rows: Rows, a: nat, row: Authorization, next: Token)
    requires RowsOk(rows, next) && AuthorizationOk(rows.connections, row, next)
    requires a in rows.authorizations ==> rows.authorizations[a].connection == row.connection
    requires forall b :: b in rows.authorizations && b != a ==> !BothActive(row, rows.authorizations[b]) && !BothActive(rows.authorizations[b], row)
    ensures RowsOk(rows.(authorizations := rows.authorizations[a := row]), next)
  {
    var more := rows.authorizations[a := row];
    forall b | b in more ensures AuthorizationOk(rows.connections, more[b], next) {
      if b != a { assert AuthorizationOk(rows.connections, rows.authorizations[b], next); }
    }
    forall b, d | b in more && d in more && BothActive(more[b], more[d]) ensures b == d {
      if b != a && d != a { assert BothActive(rows.authorizations[b], rows.authorizations[d]); }
    }
    forall r | r in rows.runs ensures RunOk(more, rows.runs[r], next) {
      assert RunOk(rows.authorizations, rows.runs[r], next);
    }
  }

  lemma ConnectEvidenceOk(connections: map<nat, Connection>, authorizations: map<nat, Authorization>, evidence: map<Key, Evidence>,
                          execs: map<Token, Exec>, log: seq<Event>, a: nat, row: Authorization)
    requires EvidenceOk(connections, authorizations, evidence, execs, log)
    ensures EvidenceOk(connections, authorizations[a := row], map k | k in evidence && k.authorization != a :: evidence[k], execs, log)
  {
    var left := map k | k in evidence && k.authorization != a :: evidence[k];
    forall k | k in left ensures EvidenceRowOk(connections, authorizations[a := row], execs, log, k, left[k]) {
      assert EvidenceRowOk(connections, authorizations, execs, log, k, evidence[k]);
    }
  }

  lemma CompleteKeeps(cfg: Config, w: World, g: Grant, a: nat, next: Token)
    requires Inv(w)
    ensures Inv(CompleteWorld(cfg, w, g, a, next))
  {
    if CanComplete(w.rows, w.configured, cfg.allowedDomain, g, a) && Covers(w.rows, w.nextToken, next) && FreshFor(w.nextToken, a) < next {
      var others := AuthorizationsOf(w.rows, g.connection, g.email) - {a};
      var cut := DisconnectRows(w.rows, others, w.nextToken);
      var row := Authorization(g.connection, g.issuer, g.subject, g.email, cfg.allowedDomain, g.connectionGeneration,
                               FreshFor(w.nextToken, a), Active, true, true, None);
      DisconnectRowsOk(w.rows, others, w.nextToken, next);
      DisconnectEvidenceOk(w.rows, others, w.nextToken, w.execs, w.log);
      forall b | b in cut.authorizations && b != a
        ensures !BothActive(row, cut.authorizations[b]) && !BothActive(cut.authorizations[b], row)
      {
        assert b in others || !(w.rows.authorizations[b].connection == g.connection && w.rows.authorizations[b].email == g.email);
      }
      ConnectRowOk(cut, a, row, next);
      ConnectEvidenceOk(cut.connections, cut.authorizations, cut.evidence, w.execs, w.log, a, row);
      CutoversLater(w.rows.connections, w.cutovers, w.log, w.nextToken, next);
      var rows := CompleteTx(w.rows, cfg.allowedDomain, g, a, w.nextToken);
      RowsIgnoreEvidence(cut.(authorizations := cut.authorizations[a := row]), rows, next);
      RowsChange(w, rows, next);
    }
  }

  // ----- the denial of a cutover

  lemma DenyConnectionsOk(rows: Rows, c: nat, base: Token, denied: Rows)
    requires RowsOk(rows, base) && c in rows.connections
    requires denied == DenyTx(rows, c, base)
    ensures forall d :: d in denied.connections <==> d in rows.connections
    ensures forall d :: d in rows.connections && d != c ==> denied.connections[d] == rows.connections[d]
    ensures denied.connections[c] == rows.connections[c].(enabled := false, generation := base)
    ensures denied.runs == rows.runs
  {
  }

  lemma DenyAuthorizationsOk(rows: Rows, c: nat, base: Token, next: Token)
    requires RowsOk(rows, base) && c in rows.connections && Covers(rows, base + 1, next)
    ensures RowsOk(DenyTx(rows, c, base), next)
  {
    var denied := DenyTx(rows, c, base);
    DenyConnectionsOk(rows, c, base, denied);
    var cut := denied.authorizations;
    forall a | a in cut ensures AuthorizationOk(denied.connections, cut[a], next) {
      assert AuthorizationOk(rows.connections, rows.authorizations[a], base);
    }
    forall a, b | a in cut && b in cut && BothActive(cut[a], cut[b]) ensures a == b {
      assert BothActive(rows.authorizations[a], rows.authorizations[b]);
    }
    forall r | r in rows.runs ensures RunOk(cut, rows.runs[r], next) {
      assert RunOk(rows.authorizations, rows.runs[r], base);
    }
  }

  lemma DenyEvidenceOk(rows: Rows, c: nat, base: Token, execs: map<Token, Exec>, log: seq<Event>)
    requires c in rows.connections && EvidenceOk(rows.connections, rows.authorizations, rows.evidence, execs, log)
    ensures var denied := DenyTx(rows, c, base); EvidenceOk(denied.connections, denied.authorizations, denied.evidence, execs, log)
  {
    var denied := DenyTx(rows, c, base);
    forall k | k in denied.evidence ensures EvidenceRowOk(denied.connections, denied.authorizations, execs, log, k, denied.evidence[k]) {
      assert EvidenceRowOk(rows.connections, rows.authorizations, execs, log, k, rows.evidence[k]);
    }
  }

  /** A new generation no other attempt holds, and the connection disabled under it. */
  lemma DenyCutoversOk(connections: map<nat, Connection>, cutovers: map<nat, Cutover>, log: seq<Event>, base: Token, next: Token,
                       k: nat, cut: Cutover, more: seq<Event>, denied: map<nat, Connection>)
    requires CutoversOk(connections, cutovers, log, base) && DenialsDiffer(cutovers) && base < next
    requires k in cutovers && cutovers[k].phase.CutStarted? && cut.connection in connections
    requires cut == cutovers[k].(phase := CutDenied, denied := true, generation := base, deniedAt := |log|)
    requires more == [ConnectionDenied(k, cut.connection, base)]
    requires denied == connections[cut.connection := connections[cut.connection].(enabled := false, generation := base)]
    ensures CutoversOk(denied, cutovers[k := cut], log + more, next)
    ensures DenialsDiffer(cutovers[k := cut])
  {
    var all := cutovers[k := cut];
    forall j | j in all ensures CutoverOk(denied, log + more, next, j, all[j]) {
      assert CutoverOk(connections, log, base, j, cutovers[j]);
      CutoverGrows(connections, log, more, base, next, j, cutovers[j]);
    }
    forall i, j | i in all && j in all && SameDenial(all[i], all[j]) ensures i == j {
      if i != k && j != k {
        assert SameDenial(cutovers[i], cutovers[j]);
      } else {
        assert CutoverOk(connections, log, base, i, cutovers[i]) && CutoverOk(connections, log, base, j, cutovers[j]);
      }
    }
  }

  /** A longer history in which nothing marks a row. */
  lemma LogGrows(w: World, more: seq<Event>)
    requires Inv(w) && Unmarking(more)
    ensures ExecsOk(w.rows.runs, w.execs, w.log + more, w.now, w.nextToken)
    ensures EvidenceOk(w.rows.connections, w.rows.authorizations, w.rows.evidence, w.execs, w.log + more)
    ensures CutoversOk(w.rows.connections, w.cutovers, w.log + more, w.nextToken)
  {
    forall x | x in w.execs ensures x < w.nextToken && ExecOk(w.rows.runs, w.log + more, w.now, x, w.execs[x]) {
      ExecGrows(w.rows.runs, w.log, more, w.now, w.now, x, w.execs[x]);
    }
    EvidenceGrows(w.rows.connections, w.rows.authorizations, w.rows.evidence, w.execs, w.log, more);
    CutoversGrow(w.rows.connections, w.cutovers, w.log, more, w.nextToken, w.nextToken);
  }

  lemma DenyKeeps(w: World, k: nat, next: Token)
    requires Inv(w) && k in w.cutovers
    ensures Inv(DenyCut(w, k, next))
  {
    var cut := w.cutovers[k];
    if cut.phase.CutStarted? && cut.connection in w.rows.connections && Covers(w.rows, w.nextToken + 1, next) {
      if !w.rows.connections[cut.connection].hasRoot {
        CutMoves(w, k, cut.(phase := CutAbandoned), [], w.tuples);
      } else {
        var more := [ConnectionDenied(k, cut.connection, w.nextToken)];
        DenyRowsKeep(w, cut.connection, next, more);
        DenyCutoversOk(w.rows.connections, w.cutovers, w.log, w.nextToken, next, k,
                       cut.(phase := CutDenied, denied := true, generation := w.nextToken, deniedAt := |w.log|), more,
                       DenyTx(w.rows, cut.connection, w.nextToken).connections);
      }
    }
  }

  lemma DenyRowsKeep(w: World, c: nat, next: Token, more: seq<Event>)
    requires Inv(w) && c in w.rows.connections && Covers(w.rows, w.nextToken + 1, next) && Unmarking(more)
    ensures var denied := DenyTx(w.rows, c, w.nextToken);
            && RowsOk(denied, next)
            && ExecsOk(denied.runs, w.execs, w.log + more, w.now, next)
            && EvidenceOk(denied.connections, denied.authorizations, denied.evidence, w.execs, w.log + more)
  {
    LogGrows(w, more);
    DenyAuthorizationsOk(w.rows, c, w.nextToken, next);
    DenyEvidenceOk(w.rows, c, w.nextToken, w.execs, w.log + more);
    ExecsFollowRuns(w.rows.runs, w.rows.runs, w.execs, w.log + more, w.now, w.nextToken, next);
  }

  // ----- the other steps of a cutover

  /** An attempt moves on without touching a row; its denial stays what it was. */
  lemma CutMoves(w: World, k: nat, cut: Cutover, more: seq<Event>, tuples: set<PermissionTuple>)
    requires Inv(w) && Unmarking(more)
    requires CutoverOk(w.rows.connections, w.log + more, w.nextToken, k, cut)
    requires k in w.cutovers ==> cut.denied == w.cutovers[k].denied && cut.generation == w.cutovers[k].generation
    requires k !in w.cutovers ==> !cut.denied
    ensures Inv(Notes(w.(tuples := tuples), k, cut, more))
  {
    LogGrows(w, more);
    var all := w.cutovers[k := cut];
    forall i, j | i in all && j in all && SameDenial(all[i], all[j]) ensures i == j {
      assert i in w.cutovers && j in w.cutovers && SameDenial(w.cutovers[i], w.cutovers[j]);
    }
  }

  lemma CutAdvances(w: World, k: nat, cut: Cutover, more: seq<Event>, tuples: set<PermissionTuple>)
    requires Inv(w) && k in w.cutovers && Unmarking(more)
    requires cut == w.cutovers[k].(phase := cut.phase, kindsRead := cut.kindsRead, found := cut.found)
    requires cut.phase == w.cutovers[k].phase || cut.phase.CutAbandoned?
    ensures Inv(Notes(w.(tuples := tuples), k, cut, more))
  {
    CutoverGrows(w.rows.connections, w.log, more, w.nextToken, w.nextToken, k, w.cutovers[k]);
    forall i | 0 <= i < |cut.emptyAt| ensures EmptyAfter(w.log + more, k, cut, i) {
      assert EmptyAfter(w.log + more, k, w.cutovers[k], i);
    }
    CutMoves(w, k, cut, more, tuples);
  }

  lemma StartKeeps(w: World, k: nat, c: nat, target: Authority)
    requires Inv(w)
    ensures Inv(StartCut(w, k, c, target))
  {
    if !(k in w.cutovers || c !in w.rows.connections || w.configured != target || w.rows.connections[c].authority == target) {
      CutMoves(w, k, Cutover(CutStarted, c, target, false, 0, 0, 0, {}, []), [], w.tuples);
    }
  }

  lemma ReadKindKeeps(w: World, k: nat)
    requires Inv(w) && k in w.cutovers
    ensures Inv(ReadKindCut(w, k))
  {
    var cut := w.cutovers[k];
    if cut.phase.CutDenied? && cut.kindsRead < |MANAGED_RESOURCE_TYPES| {
      CutAdvances(w, k, cut.(kindsRead := cut.kindsRead + 1,
                             found := cut.found + OfKind(w.tuples, cut.connection, MANAGED_RESOURCE_TYPES[cut.kindsRead])), [], w.tuples);
    }
  }

  lemma DeleteKeeps(w: World, k: nat, gone: set<PermissionTuple>)
    requires Inv(w) && k in w.cutovers
    ensures Inv(DeleteCut(w, k, gone))
  {
    var cut := w.cutovers[k];
    if !(!cut.phase.CutDenied? || cut.kindsRead < |MANAGED_RESOURCE_TYPES| || !(gone <= cut.found)) {
      CutAdvances(w, k, cut.(found := cut.found - gone), [], w.tuples - gone);
    }
  }

  lemma RecheckKeeps(w: World, k: nat)
    requires Inv(w) && k in w.cutovers
    ensures Inv(RecheckCut(w, k))
  {
    var cut := w.cutovers[k];
    if !(!cut.phase.CutDenied? || cut.kindsRead < |MANAGED_RESOURCE_TYPES| || cut.found != {} || |cut.emptyAt| >= |MANAGED_RESOURCE_TYPES|) {
      CutAdvances(w, k, cut.(phase := CutAbandoned), [], w.tuples);
      NotesEmpty(w, k, cut);
    }
  }

  lemma NotesEmpty(w: World, k: nat, cut: Cutover)
    requires Inv(w) && k in w.cutovers && cut == w.cutovers[k] && cut.phase.CutDenied?
    ensures Inv(Notes(w, k, cut.(emptyAt := cut.emptyAt + [|w.log|]), [SawNone(k, |cut.emptyAt|)]))
  {
    var more := [SawNone(k, |cut.emptyAt|)];
    var after := cut.(emptyAt := cut.emptyAt + [|w.log|]);
    CutoverGrows(w.rows.connections, w.log, more, w.nextToken, w.nextToken, k, cut);
    assert CutoverOk(w.rows.connections, w.log, w.nextToken, k, cut);
    forall i | 0 <= i < |after.emptyAt| ensures EmptyAfter(w.log + more, k, after, i) {
      if i < |cut.emptyAt| { assert EmptyAfter(w.log + more, k, cut, i); }
    }
    CutMoves(w, k, after, more, w.tuples);
  }

  lemma AbandonKeeps(w: World, k: nat)
    requires Inv(w) && k in w.cutovers
    ensures Inv(AbandonCut(w, k))
  {
    if !w.cutovers[k].phase.CutDone? {
      CutAdvances(w, k, w.cutovers[k].(phase := CutAbandoned), [], w.tuples);
    }
  }

  // ----- activation

  /** Nothing rests on a disabled connection, so it may change. */
  lemma EnableRowsOk(rows: Rows, c: nat, next: Token, enabled: Connection)
    requires RowsOk(rows, next) && c in rows.connections && !rows.connections[c].enabled
    requires enabled.generation == rows.connections[c].generation
    ensures RowsOk(rows.(connections := rows.connections[c := enabled]), next)
  {
    var connections := rows.connections[c := enabled];
    forall a | a in rows.authorizations ensures AuthorizationOk(connections, rows.authorizations[a], next) {
      assert AuthorizationOk(rows.connections, rows.authorizations[a], next);
    }
  }

  lemma EnableEvidenceOk(connections: map<nat, Connection>, authorizations: map<nat, Authorization>, evidence: map<Key, Evidence>,
                         execs: map<Token, Exec>, log: seq<Event>, c: nat, enabled: Connection)
    requires EvidenceOk(connections, authorizations, evidence, execs, log) && c in connections && !connections[c].enabled
    ensures EvidenceOk(connections[c := enabled], authorizations, evidence, execs, log)
  {
    forall k | k in evidence ensures EvidenceRowOk(connections[c := enabled], authorizations, execs, log, k, evidence[k]) {
      assert EvidenceRowOk(connections, authorizations, execs, log, k, evidence[k]);
    }
  }

  lemma EnableCutoversOk(connections: map<nat, Connection>, cutovers: map<nat, Cutover>, log: seq<Event>, more: seq<Event>, next: Token,
                         k: nat, enabled: Connection)
    requires CutoversOk(connections, cutovers, log, next) && DenialsDiffer(cutovers) && k in cutovers
    requires var cut := cutovers[k]; cut.phase.CutDenied? && connections[cut.connection].generation == cut.generation == enabled.generation
    ensures var cut := cutovers[k];
            && CutoversOk(connections[cut.connection := enabled], cutovers[k := cut.(phase := CutDone)], log + more, next)
            && DenialsDiffer(cutovers[k := cut.(phase := CutDone)])
  {
    var cut := cutovers[k];
    var all := cutovers[k := cut.(phase := CutDone)];
    var after := connections[cut.connection := enabled];
    forall j | j in all ensures CutoverOk(after, log + more, next, j, all[j]) {
      CutoverGrows(connections, log, more, next, next, j, cutovers[j]);
      if j == k {
        forall i | 0 <= i < |cut.emptyAt| ensures EmptyAfter(log + more, k, all[k], i) {
          assert EmptyAfter(log + more, k, cut, i);
        }
      } else {
        assert !SameDenial(cutovers[j], cut);
      }
    }
    forall i, j | i in all && j in all && SameDenial(all[i], all[j]) ensures i == j {
      assert SameDenial(cutovers[i], cutovers[j]);
    }
  }

  lemma ActivateKeeps(w: World, k: nat)
    requires Inv(w) && k in w.cutovers
    ensures Inv(ActivateCut(w, k))
  {
    var cut := w.cutovers[k];
    if cut.phase.CutDenied? && |cut.emptyAt| >= |MANAGED_RESOURCE_TYPES| {
      CutAdvances(w, k, cut.(phase := CutAbandoned), [], w.tuples);
      if ActivateTx(w.rows, cut.connection, cut.target, cut.generation).Ok? {
        var more := [ConnectionActivated(k, cut.connection)];
        var enabled := w.rows.connections[cut.connection].(authority := cut.target, enabled := true);
        assert CutoverOk(w.rows.connections, w.log, w.nextToken, k, cut);
        LogGrows(w, more);
        EnableRowsOk(w.rows, cut.connection, w.nextToken, enabled);
        EnableEvidenceOk(w.rows.connections, w.rows.authorizations, w.rows.evidence, w.execs, w.log + more, cut.connection, enabled);
        EnableCutoversOk(w.rows.connections, w.cutovers, w.log, more, w.nextToken, k, enabled);
      }
    }
  }
}
