/** What holds in every reachable state of the per-user mode. */
module AccessInvariants {
  import opened Outcomes
  import opened TupleStore
  import opened VisibilityRows
  import opened AccessProtocol

  // ----- the rows

  predicate ConnectionsFresh(connections: map<nat, Connection>, next: Token) {
    forall c :: c in connections ==> connections[c].generation < next
  }

  /** An active authorization belongs to an enabled per-user connection, under its present generation. */
  predicate AuthorizationOk(connections: map<nat, Connection>, a: Authorization, next: Token) {
    && a.connection in connections && a.generation < next
    && (a.status.Active? ==> Serves(connections[a.connection], a.connectionGeneration))
  }

  predicate Serves(c: Connection, generation: Token) {
    PerUserEnabled(c) && c.generation == generation
  }

  predicate AuthorizationsOk(connections: map<nat, Connection>, authorizations: map<nat, Authorization>, next: Token) {
    forall a :: a in authorizations ==> AuthorizationOk(connections, authorizations[a], next)
  }

  /** At most one active authorization for an email on a connection. */
  predicate OneActive(authorizations: map<nat, Authorization>) {
    forall a, b :: a in authorizations && b in authorizations && BothActive(authorizations[a], authorizations[b]) ==> a == b
  }

  predicate BothActive(a: Authorization, b: Authorization) {
    a.status.Active? && b.status.Active? && a.connection == b.connection && a.email == b.email
  }

  predicate RunOk(authorizations: map<nat, Authorization>, run: SyncRun, next: Token) {
    && run.authorization in authorizations && authorizations[run.authorization].connection == run.connection
    && run.connectionGeneration < next && run.authorizationGeneration < next
  }

  predicate RunsOk(authorizations: map<nat, Authorization>, runs: map<nat, SyncRun>, next: Token) {
    forall r :: r in runs ==> RunOk(authorizations, runs[r], next)
  }

  predicate RowsOk(rows: Rows, next: Token) {
    && ConnectionsFresh(rows.connections, next)
    && AuthorizationsOk(rows.connections, rows.authorizations, next)
    && OneActive(rows.authorizations)
    && RunsOk(rows.authorizations, rows.runs, next)
  }

  // ----- the executions

  predicate At(log: seq<Event>, i: nat, event: Event) {
    i < |log| && log[i] == event
  }

  /** The execution belongs to its run row. */
  predicate SameJob(run: SyncRun, e: Exec) {
    && run.connection == e.connection && run.authorization == e.authorization
    && run.connectionGeneration == e.connectionGeneration && run.authorizationGeneration == e.authorizationGeneration
  }

  /** The answer was given after the marking, and before the given point if there is one. */
  predicate SawAt(log: seq<Event>, x: Token, e: Exec, d: nat)
    requires d in e.answers
  {
    d in e.sawAt && e.markedAt < e.sawAt[d] && At(log, e.sawAt[d], Saw(x, d, e.answers[d]))
  }

  predicate Asked(log: seq<Event>, x: Token, e: Exec) {
    forall d :: d in e.answers ==> SawAt(log, x, e, d)
  }

  predicate AskedBefore(e: Exec, i: nat) {
    forall d :: d in e.answers && d in e.sawAt ==> e.sawAt[d] < i
  }

  predicate ExecOk(runs: map<nat, SyncRun>, log: seq<Event>, now: nat, x: Token, e: Exec) {
    && e.run in runs && SameJob(runs[e.run], e)
    && (e.phase.Begun? ==> !e.marked)
    && (e.marked ==> At(log, e.markedAt, Marked(x, e.authorization, e.candidates)))
    && (!e.marked ==> e.answers == map[])
    && (!e.phase.Begun? && !e.phase.Stopped? ==> e.marked)
    && Asked(log, x, e)
    && (PastCheck(e.phase) ==> e.answers.Keys == e.candidates)
    && (PastVerify(e.phase) ==> At(log, e.exactAt, VerifiedExactly(x, VisibleOf(e.answers))) && AskedBefore(e, e.exactAt))
    && (PastStamp(e.phase) ==> e.time <= now)
    && (e.phase.Landed? ==> e.exactAt < e.landedAt && At(log, e.landedAt, Committed(x, e.time)))
  }

  predicate ExecsOk(runs: map<nat, SyncRun>, execs: map<Token, Exec>, log: seq<Event>, now: nat, next: Token) {
    forall x :: x in execs ==> x < next && ExecOk(runs, log, now, x, execs[x])
  }

  // ----- the evidence

  predicate NoLaterMark(log: seq<Event>, a: nat, d: nat, i: nat) {
    forall j :: i < j < |log| ==> !MarksRow(log[j], a, d)
  }

  predicate MarksRow(event: Event, a: nat, d: nat) {
    event.Marked? && event.authorization == a && d in event.documents
  }

  /** The row's marker is that of the execution that marked it last. */
  predicate OwnedBy(e: Exec, log: seq<Event>, k: Key) {
    e.marked && e.authorization == k.authorization && k.document in e.candidates
    && NoLaterMark(log, k.authorization, k.document, e.markedAt)
  }

  /** The execution saw the document and committed what it saw. */
  predicate Witnesses(e: Exec, k: Key, row: Evidence) {
    && e.phase.Landed? && k.document in e.answers && e.answers[k.document].state.Visible?
    && row.connectionGeneration == e.connectionGeneration && row.authorizationGeneration == e.authorizationGeneration
    && row.checkedAt == e.time && row.verifiedAt == Some(e.time)
  }

  /** The generations of the row are the present ones of an enabled connection and an active authorization. */
  predicate Current(connections: map<nat, Connection>, authorizations: map<nat, Authorization>, k: Key, row: Evidence) {
    && k.authorization in authorizations
    && var a := authorizations[k.authorization];
       && a.status.Active? && a.generation == row.authorizationGeneration && a.connectionGeneration == row.connectionGeneration
       && a.connection in connections && Serves(connections[a.connection], row.connectionGeneration)
  }

  predicate EvidenceRowOk(connections: map<nat, Connection>, authorizations: map<nat, Authorization>, execs: map<Token, Exec>,
                          log: seq<Event>, k: Key, row: Evidence) {
    && row.marker in execs && OwnedBy(execs[row.marker], log, k)
    && (row.state.Visible? ==> Witnesses(execs[row.marker], k, row) && Current(connections, authorizations, k, row))
  }

  predicate EvidenceOk(connections: map<nat, Connection>, authorizations: map<nat, Authorization>, evidence: map<Key, Evidence>,
                       execs: map<Token, Exec>, log: seq<Event>) {
    forall k :: k in evidence ==> EvidenceRowOk(connections, authorizations, execs, log, k, evidence[k])
  }

  // ----- the cutovers

  predicate EmptyAfter(log: seq<Event>, k: nat, cut: Cutover, i: nat)
    requires i < |cut.emptyAt|
  {
    cut.deniedAt < cut.emptyAt[i] && At(log, cut.emptyAt[i], SawNone(k, i))
  }

  predicate CutoverOk(connections: map<nat, Connection>, log: seq<Event>, next: Token, k: nat, cut: Cutover) {
    && cut.connection in connections
    && (cut.phase.CutDenied? ==> cut.denied)
    && (cut.phase.CutStarted? ==> !cut.denied)
    && (!cut.denied ==> cut.emptyAt == [])
    && (cut.denied ==> cut.generation < next && At(log, cut.deniedAt, ConnectionDenied(k, cut.connection, cut.generation)))
    && (forall i :: 0 <= i < |cut.emptyAt| ==> EmptyAfter(log, k, cut, i))
    && (cut.phase.CutDenied? && connections[cut.connection].generation == cut.generation ==> !connections[cut.connection].enabled)
  }

  predicate CutoversOk(connections: map<nat, Connection>, cutovers: map<nat, Cutover>, log: seq<Event>, next: Token) {
    forall k :: k in cutovers ==> CutoverOk(connections, log, next, k, cutovers[k])
  }

  /** Each denial drew its own generation. */
  predicate DenialsDiffer(cutovers: map<nat, Cutover>) {
    forall j, k :: j in cutovers && k in cutovers && SameDenial(cutovers[j], cutovers[k]) ==> j == k
  }

  predicate SameDenial(a: Cutover, b: Cutover) {
    a.denied && b.denied && a.generation == b.generation
  }

  predicate Inv(w: World) {
    && RowsOk(w.rows, w.nextToken)
    && ExecsOk(w.rows.runs, w.execs, w.log, w.now, w.nextToken)
    && EvidenceOk(w.rows.connections, w.rows.authorizations, w.rows.evidence, w.execs, w.log)
    && CutoversOk(w.rows.connections, w.cutovers, w.log, w.nextToken)
    && DenialsDiffer(w.cutovers)
  }

  // ----- growing the history

  lemma ExecGrows(runs: map<nat, SyncRun>, log: seq<Event>, more: seq<Event>, now: nat, later: nat, x: Token, e: Exec)
    requires ExecOk(runs, log, now, x, e) && now <= later
    ensures ExecOk(runs, log + more, later, x, e)
  {
    forall d | d in e.answers ensures SawAt(log + more, x, e, d) {
      assert SawAt(log, x, e, d);
    }
  }

  /** Nothing in the new part marks a row. */
  predicate Unmarking(more: seq<Event>) {
    forall j :: 0 <= j < |more| ==> !more[j].Marked?
  }

  lemma NoLaterMarkGrows(log: seq<Event>, more: seq<Event>, a: nat, d: nat, i: nat)
    requires NoLaterMark(log, a, d, i) && forall j :: 0 <= j < |more| ==> !MarksRow(more[j], a, d)
    ensures NoLaterMark(log + more, a, d, i)
  {
    forall j | i < j < |log + more| ensures !MarksRow((log + more)[j], a, d) {
      if j >= |log| { assert (log + more)[j] == more[j - |log|]; }
    }
  }

  lemma EvidenceGrows(connections: map<nat, Connection>, authorizations: map<nat, Authorization>, evidence: map<Key, Evidence>,
                      execs: map<Token, Exec>, log: seq<Event>, more: seq<Event>)
    requires EvidenceOk(connections, authorizations, evidence, execs, log) && Unmarking(more)
    ensures EvidenceOk(connections, authorizations, evidence, execs, log + more)
  {
    forall k | k in evidence ensures EvidenceRowOk(connections, authorizations, execs, log + more, k, evidence[k]) {
      assert EvidenceRowOk(connections, authorizations, execs, log, k, evidence[k]);
      NoLaterMarkGrows(log, more, k.authorization, k.document, execs[evidence[k].marker].markedAt);
    }
  }

  lemma CutoversGrow(connections: map<nat, Connection>, cutovers: map<nat, Cutover>, log: seq<Event>, more: seq<Event>, next: Token, later: Token)
    requires CutoversOk(connections, cutovers, log, next) && next <= later
    ensures CutoversOk(connections, cutovers, log + more, later)
  {
    forall k | k in cutovers ensures CutoverOk(connections, log + more, later, k, cutovers[k]) {
      CutoverGrows(connections, log, more, next, later, k, cutovers[k]);
    }
  }

  lemma CutoverGrows(connections: map<nat, Connection>, log: seq<Event>, more: seq<Event>, next: Token, later: Token, k: nat, cut: Cutover)
    requires CutoverOk(connections, log, next, k, cut) && next <= later
    ensures CutoverOk(connections, log + more, later, k, cut)
  {
    forall i | 0 <= i < |cut.emptyAt| ensures EmptyAfter(log + more, k, cut, i) {
      assert EmptyAfter(log, k, cut, i);
    }
  }

  // ----- one execution moves on

  /** The execution keeps what the evidence rows rely on. */
  predicate Keeps(e: Exec, f: Exec) {
    && f.authorization == e.authorization && (e.marked ==> f.marked && f.markedAt == e.markedAt && f.candidates == e.candidates)
    && !e.phase.Landed?
  }

  lemma EvidenceKeeps(connections: map<nat, Connection>, authorizations: map<nat, Authorization>, evidence: map<Key, Evidence>,
                      execs: map<Token, Exec>, log: seq<Event>, x: Token, f: Exec)
    requires EvidenceOk(connections, authorizations, evidence, execs, log) && x in execs && Keeps(execs[x], f)
    ensures EvidenceOk(connections, authorizations, evidence, execs[x := f], log)
  {
    forall k | k in evidence ensures EvidenceRowOk(connections, authorizations, execs[x := f], log, k, evidence[k]) {
      assert EvidenceRowOk(connections, authorizations, execs, log, k, evidence[k]);
    }
  }

  lemma ExecsKeep(runs: map<nat, SyncRun>, execs: map<Token, Exec>, log: seq<Event>, more: seq<Event>, now: nat, next: Token, x: Token, f: Exec)
    requires ExecsOk(runs, execs, log, now, next) && x < next && ExecOk(runs, log + more, now, x, f)
    ensures ExecsOk(runs, execs[x := f], log + more, now, next)
  {
    var all := execs[x := f];
    forall y | y in all ensures y < next && ExecOk(runs, log + more, now, y, all[y]) {
      if y != x {
        assert ExecOk(runs, log, now, y, execs[y]);
        ExecGrows(runs, log, more, now, now, y, execs[y]);
      }
    }
  }

  /** Any step of one execution that touches no row keeps the invariant. */
  lemma ExecMoves(w: World, x: Token, f: Exec, more: seq<Event>, tuples: set<PermissionTuple>)
    requires Inv(w) && x in w.execs && Keeps(w.execs[x], f) && Unmarking(more)
    requires ExecOk(w.rows.runs, w.log + more, w.now, x, f)
    ensures Inv(Records(w.(tuples := tuples), x, f, more))
  {
    ExecsKeep(w.rows.runs, w.execs, w.log, more, w.now, w.nextToken, x, f);
    EvidenceKeeps(w.rows.connections, w.rows.authorizations, w.rows.evidence, w.execs, w.log, x, f);
    EvidenceGrows(w.rows.connections, w.rows.authorizations, w.rows.evidence, w.execs[x := f], w.log, more);
    CutoversGrow(w.rows.connections, w.cutovers, w.log, more, w.nextToken, w.nextToken);
  }
}
