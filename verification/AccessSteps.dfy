/** Every step keeps the invariant. */
module AccessSteps {
  import opened Outcomes
  import opened TupleStore
  import opened VisibilityRows
  import opened AccessProtocol
  import opened AccessInvariants

  // ----- steps of an execution that touch no row

  lemma HaltsKeeps(w: World, x: Token)
    requires Inv(w) && x in w.execs && !w.execs[x].phase.Landed?
    ensures Inv(Halts(w, x))
  {
    var e := w.execs[x];
    assert ExecOk(w.rows.runs, w.log, w.now, x, e);
    ExecGrows(w.rows.runs, w.log, [], w.now, w.now, x, e);
    ExecMoves(w, x, e.(phase := Stopped), [], w.tuples);
  }

  lemma ReloadKeeps(w: World, x: Token)
    requires Inv(w) && x in w.execs
    ensures Inv(ReloadExec(w, x))
  {
    var e := w.execs[x];
    if e.phase.Pending? {
      if ScopeValid(w.rows, w.configured, e.run) {
        ExecGrows(w.rows.runs, w.log, [], w.now, w.now, x, e);
        ExecMoves(w, x, e.(phase := Scoped, email := w.rows.authorizations[w.rows.runs[e.run].authorization].email), [], w.tuples);
      } else {
        HaltsKeeps(w, x);
      }
    }
  }

  lemma LoadKeeps(w: World, x: Token)
    requires Inv(w) && x in w.execs
    ensures Inv(LoadExec(w, x))
  {
    var e := w.execs[x];
    if e.phase.Scoped? {
      if ClientMayAsk(w.rows, w.configured, e.authorization) {
        var a := w.rows.authorizations[e.authorization];
        ExecGrows(w.rows.runs, w.log, [], w.now, w.now, x, e);
        ExecMoves(w, x, e.(phase := Loaded, batchConnectionGeneration := a.connectionGeneration, batchAuthorizationGeneration := a.generation), [], w.tuples);
      } else {
        HaltsKeeps(w, x);
      }
    }
  }

  lemma ListKeeps(cfg: Config, w: World, x: Token)
    requires Inv(w) && x in w.execs
    ensures Inv(ListExec(cfg, w, x))
  {
    var e := w.execs[x];
    if e.phase.Loaded? {
      var listed := Candidates(w.rows, e.connection);
      if |listed| > cfg.cap {
        HaltsKeeps(w, x);
      } else {
        ExecGrows(w.rows.runs, w.log, [], w.now, w.now, x, e);
        ExecMoves(w, x, e.(phase := Listed, listed := listed), [], w.tuples);
      }
    }
  }

  lemma AskKeeps(w: World, x: Token, d: nat, answer: Answer)
    requires Inv(w) && x in w.execs
    ensures Inv(AskExec(w, x, d, answer))
  {
    var e := w.execs[x];
    if e.phase.Listed? && d in e.listed && d !in e.answers {
      var f := e.(answers := e.answers[d := answer], sawAt := e.sawAt[d := |w.log|]);
      var more := [Saw(x, d, answer)];
      ExecGrows(w.rows.runs, w.log, more, w.now, w.now, x, e);
      forall g | g in f.answers ensures SawAt(w.log + more, x, f, g) {
        if g != d { assert SawAt(w.log + more, x, e, g); }
      }
      ExecMoves(w, x, f, more, w.tuples);
    }
  }

  lemma ValidateResultsKeeps(w: World, x: Token)
    requires Inv(w) && x in w.execs
    ensures Inv(ValidateResultsExec(w, x))
  {
    var e := w.execs[x];
    if e.phase.Listed? && e.answers.Keys == e.listed {
      if e.batchConnectionGeneration == e.connectionGeneration && e.batchAuthorizationGeneration == e.authorizationGeneration
         && e.answers.Keys == e.candidates {
        EntersPhase(w, x, Checked);
      } else {
        HaltsKeeps(w, x);
      }
    }
  }

  /** Only the phase changes, to one that claims nothing new but what is given. */
  lemma EntersPhase(w: World, x: Token, phase: Phase)
    requires Inv(w) && x in w.execs && w.execs[x].marked && !w.execs[x].phase.Landed?
    requires !phase.Begun? && !PastVerify(phase) && w.execs[x].answers.Keys == w.execs[x].candidates
    ensures Inv(Records(w, x, w.execs[x].(phase := phase), []))
  {
    var e := w.execs[x];
    ExecGrows(w.rows.runs, w.log, [], w.now, w.now, x, e);
    ExecMoves(w, x, e.(phase := phase), [], w.tuples);
  }

  lemma ValidateConnectionKeeps(cfg: Config, w: World, x: Token)
    requires Inv(w) && x in w.execs
    ensures Inv(ValidateConnectionExec(cfg, w, x))
  {
    if w.execs[x].phase.Checked? {
      HaltsKeeps(w, x);
      EntersPhase(w, x, Aimed);
    }
  }

  lemma ResolveKeeps(cfg: Config, w: World, x: Token)
    requires Inv(w) && x in w.execs
    ensures Inv(ResolveExec(cfg, w, x))
  {
    if w.execs[x].phase.Aimed? {
      HaltsKeeps(w, x);
      EntersPhase(w, x, Resolved);
    }
  }

  lemma ReadGrantsKeeps(w: World, x: Token, plan: seq<Update>)
    requires Inv(w) && x in w.execs
    ensures Inv(ReadGrantsExec(w, x, plan))
  {
    var e := w.execs[x];
    if e.phase.Resolved? {
      ExecGrows(w.rows.runs, w.log, [], w.now, w.now, x, e);
      ExecMoves(w, x, e.(phase := Writing, updates := plan), [], w.tuples);
    }
  }

  lemma WriteBatchKeeps(w: World, x: Token, n: nat, token: string)
    requires Inv(w) && x in w.execs
    ensures Inv(WriteBatchExec(w, x, n, token))
  {
    var e := w.execs[x];
    if e.phase.Writing? && n <= |e.updates| && token != "" {
      ExecGrows(w.rows.runs, w.log, [], w.now, w.now, x, e);
      ExecMoves(w, x, e.(updates := e.updates[n..], revision := token), [], Applied(w.tuples, e.updates[..n]));
    }
  }

  lemma VerifyKeeps(w: World, x: Token)
    requires Inv(w) && x in w.execs
    ensures Inv(VerifyExec(w, x))
  {
    var e := w.execs[x];
    if e.phase.Writing? && e.updates == [] {
      if GrantsNow(w, e) == Desired(e) {
        var more := [VerifiedExactly(x, VisibleOf(e.answers))];
        var f := e.(phase := Exact, exactAt := |w.log|);
        forall d | d in e.answers && d in e.sawAt ensures e.sawAt[d] < |w.log| {
          assert SawAt(w.log, x, e, d);
        }
        ExecGrows(w.rows.runs, w.log, more, w.now, w.now, x, e);
        forall d | d in f.answers ensures SawAt(w.log + more, x, f, d) {
          assert SawAt(w.log + more, x, e, d);
        }
        ExecMoves(w, x, f, more, w.tuples);
      } else {
        HaltsKeeps(w, x);
      }
    }
  }

  lemma StampKeeps(w: World, x: Token)
    requires Inv(w) && x in w.execs
    ensures Inv(StampExec(w, x))
  {
    var e := w.execs[x];
    if e.phase.Exact? {
      ExecGrows(w.rows.runs, w.log, [], w.now, w.now, x, e);
      ExecMoves(w, x, e.(phase := Stamped, time := w.now), [], w.tuples);
    }
  }

  // ----- steps on rows

  /** Runs are added or change their status and counters, never whom they are for. */
  predicate SameJobs(runs: map<nat, SyncRun>, runs': map<nat, SyncRun>) {
    forall r :: r in runs ==> r in runs' && JobKept(runs[r], runs'[r])
  }

  predicate JobKept(a: SyncRun, b: SyncRun) {
    && b.connection == a.connection && b.authorization == a.authorization
    && b.connectionGeneration == a.connectionGeneration && b.authorizationGeneration == a.authorizationGeneration
  }

  lemma ExecsFollowRuns(runs: map<nat, SyncRun>, runs': map<nat, SyncRun>, execs: map<Token, Exec>, log: seq<Event>, now: nat, next: Token, later: Token)
    requires ExecsOk(runs, execs, log, now, next) && SameJobs(runs, runs') && next <= later
    ensures ExecsOk(runs', execs, log, now, later)
  {
    forall x | x in execs ensures x < later && ExecOk(runs', log, now, x, execs[x]) {
      assert ExecOk(runs, log, now, x, execs[x]);
    }
  }

  lemma RowsChange(w: World, rows: Rows, next: Token)
    requires Inv(w) && w.nextToken <= next && RowsOk(rows, next) && SameJobs(w.rows.runs, rows.runs)
    requires EvidenceOk(rows.connections, rows.authorizations, rows.evidence, w.execs, w.log)
    requires CutoversOk(rows.connections, w.cutovers, w.log, next)
    ensures Inv(w.(rows := rows, nextToken := next))
  {
    ExecsFollowRuns(w.rows.runs, rows.runs, w.execs, w.log, w.now, w.nextToken, next);
  }

  lemma InvalidatedOk(connections: map<nat, Connection>, authorizations: map<nat, Authorization>, evidence: map<Key, Evidence>,
                      execs: map<Token, Exec>, log: seq<Event>, a: nat, reason: string)
    requires EvidenceOk(connections, authorizations, evidence, execs, log)
    ensures EvidenceOk(connections, authorizations, Invalidated(evidence, a, reason), execs, log)
  {
    var doubted := Invalidated(evidence, a, reason);
    forall k | k in doubted ensures EvidenceRowOk(connections, authorizations, execs, log, k, doubted[k]) {
      assert EvidenceRowOk(connections, authorizations, execs, log, k, evidence[k]);
    }
  }

  lemma InvalidateKeeps(w: World, a: nat, reason: string)
    requires Inv(w)
    ensures Inv(w.(rows := w.rows.(evidence := Invalidated(w.rows.evidence, a, reason))))
  {
    InvalidatedOk(w.rows.connections, w.rows.authorizations, w.rows.evidence, w.execs, w.log, a, reason);
    RowsChange(w, w.rows.(evidence := Invalidated(w.rows.evidence, a, reason)), w.nextToken);
  }

  /** Marking: the new rows are the execution's own, the others keep their owners. */
  lemma MarksOk(connections: map<nat, Connection>, authorizations: map<nat, Authorization>, evidence: map<Key, Evidence>,
                execs: map<Token, Exec>, log: seq<Event>, x: Token, f: Exec, run: SyncRun, now: nat)
    requires EvidenceOk(connections, authorizations, evidence, execs, log) && x in execs && !execs[x].marked
    requires f.marked && f.markedAt == |log| && f.authorization == run.authorization
    ensures EvidenceOk(connections, authorizations, WithMarks(evidence, run, x, now, f.candidates), execs[x := f],
                       log + [Marked(x, run.authorization, f.candidates)])
  {
    var more := [Marked(x, run.authorization, f.candidates)];
    var marked := WithMarks(evidence, run, x, now, f.candidates);
    forall k | k in marked ensures EvidenceRowOk(connections, authorizations, execs[x := f], log + more, k, marked[k]) {
      if k.authorization == run.authorization && k.document in f.candidates {
        assert k == Key(run.authorization, k.document);
        assert marked[k] == RefreshPending(run, x, now);
      } else {
        assert EvidenceRowOk(connections, authorizations, execs, log, k, evidence[k]);
        NoLaterMarkGrows(log, more, k.authorization, k.document, execs[evidence[k].marker].markedAt);
      }
    }
  }

  lemma PreinvalidateKeeps(cfg: Config, w: World, x: Token)
    requires Inv(w) && x in w.execs
    ensures Inv(PreinvalidateExec(cfg, w, x))
  {
    var e := w.execs[x];
    if e.phase.Begun? && e.run in w.rows.runs {
      var run := w.rows.runs[e.run];
      var candidates := Candidates(w.rows, run.connection);
      var v := w.(rows := w.rows.(evidence := Invalidated(w.rows.evidence, run.authorization, "refresh_pending")));
      InvalidateKeeps(w, run.authorization, "refresh_pending");
      if |candidates| > cfg.cap {
        HaltsKeeps(v, x);
      } else {
        var f := e.(phase := Pending, marked := true, markedAt := |w.log|, candidates := candidates);
        MarkKeeps(v, x, f, run);
      }
    }
  }

  lemma MarkKeeps(w: World, x: Token, f: Exec, run: SyncRun)
    requires Inv(w) && x in w.execs && w.execs[x].phase.Begun? && w.execs[x].run in w.rows.runs && run == w.rows.runs[w.execs[x].run]
    requires f == w.execs[x].(phase := Pending, marked := true, markedAt := |w.log|, candidates := f.candidates)
    ensures Inv(Records(w.(rows := w.rows.(evidence := WithMarks(w.rows.evidence, run, x, w.now, f.candidates))), x, f,
                        [Marked(x, f.authorization, f.candidates)]))
  {
    var more := [Marked(x, f.authorization, f.candidates)];
    assert ExecOk(w.rows.runs, w.log, w.now, x, w.execs[x]);
    assert ExecOk(w.rows.runs, w.log + more, w.now, x, f);
    ExecsKeep(w.rows.runs, w.execs, w.log, more, w.now, w.nextToken, x, f);
    MarksOk(w.rows.connections, w.rows.authorizations, w.rows.evidence, w.execs, w.log, x, f, run, w.now);
    CutoversGrow(w.rows.connections, w.cutovers, w.log, more, w.nextToken, w.nextToken);
  }

  /** What a commit writes is backed by the execution, in the present generations. */
  lemma ResultsOk(rows: Rows, configured: Authority, execs: map<Token, Exec>, log: seq<Event>, x: Token, f: Exec)
    requires EvidenceOk(rows.connections, rows.authorizations, rows.evidence, execs, log)
    requires x in execs && f == execs[x].(phase := Landed, landedAt := f.landedAt) && f.run in rows.runs && SameJob(rows.runs[f.run], f)
    requires ScopeValid(rows, configured, f.run) && StillOurs(rows, rows.runs[f.run], x, f.answers.Keys) && f.answers.Keys == f.candidates
    ensures EvidenceOk(rows.connections, rows.authorizations, WithResults(rows.evidence, rows.runs[f.run], x, f.answers, f.time, f.revision),
                       execs[x := f], log)
  {
    var run := rows.runs[f.run];
    var written := WithResults(rows.evidence, run, x, f.answers, f.time, f.revision);
    forall k | k in written ensures EvidenceRowOk(rows.connections, rows.authorizations, execs[x := f], log, k, written[k]) {
      assert EvidenceRowOk(rows.connections, rows.authorizations, execs, log, k, rows.evidence[k]);
      if k.authorization == run.authorization && k.document in f.answers {
        assert BearsMarker(rows.evidence, Key(run.authorization, k.document), x);
        assert k == Key(run.authorization, k.document);
      }
    }
  }

  lemma EvidenceFollowsSync(connections: map<nat, Connection>, authorizations: map<nat, Authorization>, evidence: map<Key, Evidence>,
                            execs: map<Token, Exec>, log: seq<Event>, a: nat, lastSync: Option<nat>)
    requires EvidenceOk(connections, authorizations, evidence, execs, log) && a in authorizations
    ensures EvidenceOk(connections, authorizations[a := authorizations[a].(lastSync := lastSync)], evidence, execs, log)
  {
    var changed := authorizations[a := authorizations[a].(lastSync := lastSync)];
    forall k | k in evidence ensures EvidenceRowOk(connections, changed, execs, log, k, evidence[k]) {
      assert EvidenceRowOk(connections, authorizations, execs, log, k, evidence[k]);
    }
  }

  lemma RowsFollowSync(rows: Rows, next: Token, a: nat, lastSync: Option<nat>, r: nat, run: SyncRun)
    requires RowsOk(rows, next) && a in rows.authorizations && r in rows.runs && JobKept(rows.runs[r], run)
    ensures RowsOk(rows.(authorizations := rows.authorizations[a := rows.authorizations[a].(lastSync := lastSync)], runs := rows.runs[r := run]), next)
  {
    var changed := rows.authorizations[a := rows.authorizations[a].(lastSync := lastSync)];
    forall b | b in changed ensures AuthorizationOk(rows.connections, changed[b], next) {
      assert AuthorizationOk(rows.connections, rows.authorizations[b], next);
    }
    forall b, c | b in changed && c in changed && BothActive(changed[b], changed[c]) ensures b == c {
      assert BothActive(rows.authorizations[b], rows.authorizations[c]);
    }
    var runs := rows.runs[r := run];
    forall s | s in runs ensures RunOk(changed, runs[s], next) {
      assert RunOk(rows.authorizations, rows.runs[s], next);
    }
  }

  lemma CommitKeeps(w: World, x: Token)
    requires Inv(w) && x in w.execs
    ensures Inv(CommitExec(w, x))
  {
    var e := w.execs[x];
    if e.phase.Stamped? {
      var tx := CommitTx(w.rows, w.configured, e.run, x, e.answers, e.time, e.revision);
      if tx.Err? {
        HaltsKeeps(w, x);
      } else {
        var more := [Committed(x, e.time)];
        var f := e.(phase := Landed, landedAt := |w.log|);
        LandKeeps(w, x, f, tx.value, more);
      }
    }
  }

  lemma LandExecs(runs: map<nat, SyncRun>, execs: map<Token, Exec>, log: seq<Event>, now: nat, next: Token, x: Token, f: Exec, run: SyncRun)
    requires ExecsOk(runs, execs, log, now, next) && x in execs && execs[x].phase.Stamped?
    requires f == execs[x].(phase := Landed, landedAt := |log|) && f.run in runs && JobKept(runs[f.run], run)
    ensures ExecsOk(runs[f.run := run], execs[x := f], log + [Committed(x, f.time)], now, next)
  {
    ExecLands(runs, log, now, x, execs[x], f);
    ExecsKeep(runs, execs, log, [Committed(x, f.time)], now, next, x, f);
    ExecsFollowRuns(runs, runs[f.run := run], execs[x := f], log + [Committed(x, f.time)], now, next, next);
  }

  lemma LandEvidence(rows: Rows, configured: Authority, execs: map<Token, Exec>, log: seq<Event>, x: Token, f: Exec, a: nat, lastSync: Option<nat>)
    requires EvidenceOk(rows.connections, rows.authorizations, rows.evidence, execs, log)
    requires x in execs && f == execs[x].(phase := Landed, landedAt := |log|) && f.run in rows.runs && SameJob(rows.runs[f.run], f)
    requires ScopeValid(rows, configured, f.run) && StillOurs(rows, rows.runs[f.run], x, f.answers.Keys) && f.answers.Keys == f.candidates
    requires a in rows.authorizations
    ensures EvidenceOk(rows.connections, rows.authorizations[a := rows.authorizations[a].(lastSync := lastSync)],
                       WithResults(rows.evidence, rows.runs[f.run], x, f.answers, f.time, f.revision), execs[x := f], log + [Committed(x, f.time)])
  {
    var evidence := WithResults(rows.evidence, rows.runs[f.run], x, f.answers, f.time, f.revision);
    ResultsOk(rows, configured, execs, log, x, f);
    EvidenceGrows(rows.connections, rows.authorizations, evidence, execs[x := f], log, [Committed(x, f.time)]);
    EvidenceFollowsSync(rows.connections, rows.authorizations, evidence, execs[x := f], log + [Committed(x, f.time)], a, lastSync);
  }

  /** The rows after a commit, field by field. */
  lemma LandedRows(rows: Rows, configured: Authority, r: nat, x: Token, f: Exec, landed: Rows) returns (a: nat, lastSync: Option<nat>)
    requires CommitTx(rows, configured, r, x, f.answers, f.time, f.revision) == Ok(landed)
    ensures ScopeValid(rows, configured, r) && StillOurs(rows, rows.runs[r], x, f.answers.Keys) && a in rows.authorizations
    ensures landed == rows.(evidence := WithResults(rows.evidence, rows.runs[r], x, f.answers, f.time, f.revision),
                            runs := rows.runs[r := Finished(rows.runs[r], f.answers)],
                            authorizations := rows.authorizations[a := rows.authorizations[a].(lastSync := lastSync)])
  {
    a := rows.runs[r].authorization;
    lastSync := if Count(f.answers, Unknown) > 0 then rows.authorizations[a].lastSync else Some(f.time);
  }

  lemma LandKeeps(w: World, x: Token, f: Exec, rows: Rows, more: seq<Event>)
    requires Inv(w) && x in w.execs && w.execs[x].phase.Stamped?
    requires f == w.execs[x].(phase := Landed, landedAt := |w.log|) && more == [Committed(x, f.time)]
    requires CommitTx(w.rows, w.configured, f.run, x, f.answers, f.time, f.revision) == Ok(rows)
    ensures Inv(Records(w.(rows := rows), x, f, more))
  {
    assert ExecOk(w.rows.runs, w.log, w.now, x, w.execs[x]);
    var a, lastSync := LandedRows(w.rows, w.configured, f.run, x, f, rows);
    LandEvidence(w.rows, w.configured, w.execs, w.log, x, f, a, lastSync);
    RowsFollowSync(w.rows, w.nextToken, a, lastSync, f.run, Finished(w.rows.runs[f.run], f.answers));
    RowsIgnoreEvidence(w.rows.(runs := rows.runs, authorizations := rows.authorizations), rows, w.nextToken);
    LandExecs(w.rows.runs, w.execs, w.log, w.now, w.nextToken, x, f, Finished(w.rows.runs[f.run], f.answers));
    CutoversGrow(w.rows.connections, w.cutovers, w.log, more, w.nextToken, w.nextToken);
  }

  lemma RowsIgnoreEvidence(rows: Rows, changed: Rows, next: Token)
    requires RowsOk(rows, next) && rows == changed.(evidence := rows.evidence)
    ensures RowsOk(changed, next)
  {
  }

  lemma ExecLands(runs: map<nat, SyncRun>, log: seq<Event>, now: nat, x: Token, e: Exec, f: Exec)
    requires ExecOk(runs, log, now, x, e) && e.phase.Stamped? && f == e.(phase := Landed, landedAt := |log|)
    ensures ExecOk(runs, log + [Committed(x, f.time)], now, x, f)
  {
    var more := [Committed(x, f.time)];
    ExecGrows(runs, log, more, now, now, x, e);
    forall d | d in f.answers ensures SawAt(log + more, x, f, d) {
      assert SawAt(log + more, x, e, d);
    }
  }

  lemma StopKeeps(w: World, x: Token)
    requires Inv(w) && x in w.execs
    ensures Inv(StopExec(w, x))
  {
    if !w.execs[x].phase.Landed? { HaltsKeeps(w, x); }
  }

  lemma BeginKeeps(w: World, r: nat)
    requires Inv(w)
    ensures Inv(BeginExec(w, r))
  {
    if r in w.rows.runs {
      var run := w.rows.runs[r];
      var x := w.nextToken;
      var e := Exec(Begun, r, run.connection, run.authorization, run.connectionGeneration,
                    run.authorizationGeneration, false, 0, {}, "", 0, 0, {}, map[], map[], [], "", 0, 0, 0);
      assert x !in w.execs;
      RowsLater(w.rows, w.nextToken, x + 1);
      EvidenceAdds(w.rows.connections, w.rows.authorizations, w.rows.evidence, w.execs, w.log, x, e);
      ExecsFollowRuns(w.rows.runs, w.rows.runs, w.execs, w.log, w.now, x, x + 1);
      CutoversGrow(w.rows.connections, w.cutovers, w.log, [], x, x + 1);
      assert w.log + [] == w.log;
      assert ExecOk(w.rows.runs, w.log, w.now, x, e);
    }
  }

  lemma EvidenceAdds(connections: map<nat, Connection>, authorizations: map<nat, Authorization>, evidence: map<Key, Evidence>,
                     execs: map<Token, Exec>, log: seq<Event>, x: Token, e: Exec)
    requires EvidenceOk(connections, authorizations, evidence, execs, log) && x !in execs
    ensures EvidenceOk(connections, authorizations, evidence, execs[x := e], log)
  {
    forall k | k in evidence ensures EvidenceRowOk(connections, authorizations, execs[x := e], log, k, evidence[k]) {
      assert EvidenceRowOk(connections, authorizations, execs, log, k, evidence[k]);
    }
  }

  lemma RowsLater(rows: Rows, next: Token, later: Token)
    requires RowsOk(rows, next) && next <= later
    ensures RowsOk(rows, later)
  {
    forall a | a in rows.authorizations ensures AuthorizationOk(rows.connections, rows.authorizations[a], later) {
      assert AuthorizationOk(rows.connections, rows.authorizations[a], next);
    }
    forall r | r in rows.runs ensures RunOk(rows.authorizations, rows.runs[r], later) {
      assert RunOk(rows.authorizations, rows.runs[r], next);
    }
  }
}
