/** What an execution achieves when nobody disturbs it: it can land exactly when its scope is in
    order, and then a lookup returns exactly the eligible documents that Drive showed. */
module AccessUndisturbed {
  import opened Identifiers
  import opened Outcomes
  import opened TupleStore
  import opened OAuthViewer
  import opened VisibilityRows
  import opened AccessProtocol
  import opened AccessInvariants
  import opened AccessLookup

  /** Only this execution moves. */
  predicate Alone(steps: seq<Step>, x: Token) {
    forall i :: 0 <= i < |steps| ==> OfExec(steps[i]) && steps[i].x == x
  }

  lemma {:induction false} RunAppend(cfg: Config, w: World, a: seq<Step>, b: seq<Step>)
    ensures Run(cfg, w, a + b) == Run(cfg, Run(cfg, w, a), b)
    decreases |a|
  {
    if a == [] {
      assert a + b == b;
    } else {
      assert (a + b)[1..] == a[1..] + b;
      RunAppend(cfg, Apply(cfg, w, a[0]), a[1..], b);
    }
  }

  // ----- what an execution keeps as it moves alone

  predicate OnlySyncTimes(before: map<nat, Authorization>, after: map<nat, Authorization>) {
    after.Keys == before.Keys && forall a :: a in after ==> after[a] == before[a].(lastSync := after[a].lastSync)
  }

  /** Of the rows that decide about access only evidence, runs and times of synchronization changed. */
  predicate Framed(w: World, v: World) {
    && v.rows.connections == w.rows.connections && v.rows.documents == w.rows.documents
    && OnlySyncTimes(w.rows.authorizations, v.rows.authorizations)
    && v.now == w.now && v.configured == w.configured
  }

  predicate HasJob(v: World, x: Token) {
    x in v.execs && v.execs[x].run in v.rows.runs && SameJob(v.rows.runs[v.execs[x].run], v.execs[x])
  }

  predicate PastScope(p: Phase) {
    p.Scoped? || p.Loaded? || p.Listed? || PastCheck(p)
  }

  predicate PastAim(p: Phase) {
    p.Aimed? || PastResolve(p)
  }

  predicate PastResolve(p: Phase) {
    p.Resolved? || p.Writing? || PastVerify(p)
  }

  predicate Marking(p: Phase) {
    p.Pending? || PastScope(p)
  }

  predicate DomainsAgree(cfg: Config, w: World, e: Exec) {
    && e.connection in w.rows.connections && InAllowedDomain(e.email, cfg.allowedDomain)
    && w.rows.connections[e.connection].domain == cfg.allowedDomain
  }

  predicate Touching(updates: seq<Update>) {
    exists i :: 0 <= i < |updates| && updates[i].Touch?
  }

  predicate NamesGrantee(w: World, e: Exec) {
    e.authorization in w.rows.authorizations && e.email == w.rows.authorizations[e.authorization].email
  }

  /** What the execution's own variables say about the world it started in, and about the tuples now. */
  predicate OnCourse(cfg: Config, w: World, e: Exec, tuples: set<PermissionTuple>) {
    && (Marking(e.phase) ==> e.candidates == Candidates(w.rows, e.connection) && |e.candidates| <= cfg.cap)
    && (PastScope(e.phase) ==> NamesGrantee(w, e))
    && (PastCheck(e.phase) ==> e.answers.Keys == e.candidates)
    && (PastAim(e.phase) ==> DomainsAgree(cfg, w, e))
    && (PastResolve(e.phase) ==> |VisibleOf(e.answers)| <= cfg.cap)
    && (e.phase.Writing? ==> e.revision != "" || Desired(e) == {} || Touching(e.updates))
    && (PastVerify(e.phase) ==> e.revision != "" || Desired(e) == {})
    && (PastVerify(e.phase) ==> DirectGrantsOf(tuples, ConnectionPrefix(e.connection), UserId(e.connection, e.email)) == Desired(e))
    && (PastStamp(e.phase) ==> e.time == w.now)
  }

  /** The answer stands in the row, under the generations of the execution. */
  predicate Shows(row: Evidence, x: Token, e: Exec, answer: Answer) {
    && row.connectionGeneration == e.connectionGeneration && row.authorizationGeneration == e.authorizationGeneration
    && row.state == answer.state && row.checkedAt == e.time && row.marker == x
    && (answer.state.Visible? ==> row.revision == e.revision && row.verifiedAt == Some(e.time))
  }

  predicate PublishedAt(evidence: map<Key, Evidence>, x: Token, e: Exec, d: nat)
    requires d in e.answers
  {
    Key(e.authorization, d) in evidence && Shows(evidence[Key(e.authorization, d)], x, e, e.answers[d])
  }

  predicate Published(v: World, x: Token, e: Exec) {
    && ScopeValid(v.rows, v.configured, e.run)
    && (forall d :: d in e.answers ==> PublishedAt(v.rows.evidence, x, e, d))
  }

  predicate Undisturbed(cfg: Config, w: World, v: World, x: Token) {
    && Framed(w, v) && HasJob(v, x) && OnCourse(cfg, w, v.execs[x], v.tuples)
    && (v.execs[x].phase.Landed? ==> Published(v, x, v.execs[x]))
  }

  // ----- every step of its own keeps that

  /** A step that touches no row. */
  lemma Moved(cfg: Config, w: World, v: World, x: Token, f: Exec, tuples: set<PermissionTuple>, events: seq<Event>)
    requires Undisturbed(cfg, w, v, x) && SameExec(v.execs[x], f) && !f.phase.Landed?
    requires OnCourse(cfg, w, f, tuples)
    ensures Undisturbed(cfg, w, Records(v.(tuples := tuples), x, f, events), x)
  {
  }

  lemma HaltsAlone(cfg: Config, w: World, v: World, x: Token)
    requires Undisturbed(cfg, w, v, x)
    ensures Undisturbed(cfg, w, Halts(v, x), x)
  {
    Moved(cfg, w, v, x, v.execs[x].(phase := Stopped), v.tuples, []);
  }

  /** A step that changes evidence only, before anything is published. */
  lemma EvidenceMoved(cfg: Config, w: World, v: World, x: Token, f: Exec, evidence: map<Key, Evidence>, events: seq<Event>)
    requires Undisturbed(cfg, w, v, x) && SameExec(v.execs[x], f) && !f.phase.Landed?
    requires OnCourse(cfg, w, f, v.tuples)
    ensures Undisturbed(cfg, w, Records(v.(rows := v.rows.(evidence := evidence)), x, f, events), x)
  {
  }

  lemma PreinvalidateAlone(cfg: Config, w: World, v: World, x: Token)
    requires Undisturbed(cfg, w, v, x)
    ensures Undisturbed(cfg, w, PreinvalidateExec(cfg, v, x), x)
  {
    var e := v.execs[x];
    if e.phase.Begun? {
      var (rows, candidates) := PreinvalidateTx(v.rows, e.run, x, v.now, cfg.cap);
      assert rows == v.rows.(evidence := rows.evidence);
      if candidates.None? {
        EvidenceMoved(cfg, w, v, x, e.(phase := Stopped), rows.evidence, []);
      } else {
        var f := e.(phase := Pending, marked := true, markedAt := |v.log|, candidates := candidates.value);
        assert Candidates(v.rows, e.connection) == Candidates(w.rows, e.connection);
        EvidenceMoved(cfg, w, v, x, f, rows.evidence, [Marked(x, e.authorization, candidates.value)]);
      }
    }
  }

  lemma ReloadAlone(cfg: Config, w: World, v: World, x: Token)
    requires Undisturbed(cfg, w, v, x)
    ensures Undisturbed(cfg, w, ReloadExec(v, x), x)
  {
    var e := v.execs[x];
    if e.phase.Pending? {
      HaltsAlone(cfg, w, v, x);
      if ScopeValid(v.rows, v.configured, e.run) {
        Moved(cfg, w, v, x, e.(phase := Scoped, email := v.rows.authorizations[e.authorization].email), v.tuples, []);
      }
    }
  }

  lemma LoadAlone(cfg: Config, w: World, v: World, x: Token)
    requires Undisturbed(cfg, w, v, x)
    ensures Undisturbed(cfg, w, LoadExec(v, x), x)
  {
    var e := v.execs[x];
    if e.phase.Scoped? {
      HaltsAlone(cfg, w, v, x);
      if ClientMayAsk(v.rows, v.configured, e.authorization) {
        var a := v.rows.authorizations[e.authorization];
        Moved(cfg, w, v, x, e.(phase := Loaded, batchConnectionGeneration := a.connectionGeneration,
                               batchAuthorizationGeneration := a.generation), v.tuples, []);
      }
    }
  }

  lemma ListAlone(cfg: Config, w: World, v: World, x: Token)
    requires Undisturbed(cfg, w, v, x)
    ensures Undisturbed(cfg, w, ListExec(cfg, v, x), x)
  {
    var e := v.execs[x];
    if e.phase.Loaded? {
      HaltsAlone(cfg, w, v, x);
      Moved(cfg, w, v, x, e.(phase := Listed, listed := Candidates(v.rows, e.connection)), v.tuples, []);
    }
  }

  lemma AskAlone(cfg: Config, w: World, v: World, x: Token, d: nat, answer: Answer)
    requires Undisturbed(cfg, w, v, x)
    ensures Undisturbed(cfg, w, AskExec(v, x, d, answer), x)
  {
  }

  lemma ValidateResultsAlone(cfg: Config, w: World, v: World, x: Token)
    requires Undisturbed(cfg, w, v, x)
    ensures Undisturbed(cfg, w, ValidateResultsExec(v, x), x)
  {
    var e := v.execs[x];
    if e.phase.Listed? {
      HaltsAlone(cfg, w, v, x);
      if e.answers.Keys == e.candidates { Moved(cfg, w, v, x, e.(phase := Checked), v.tuples, []); }
    }
  }

  lemma ValidateConnectionAlone(cfg: Config, w: World, v: World, x: Token)
    requires Undisturbed(cfg, w, v, x)
    ensures Undisturbed(cfg, w, ValidateConnectionExec(cfg, v, x), x)
  {
    var e := v.execs[x];
    if e.phase.Checked? {
      HaltsAlone(cfg, w, v, x);
      if DomainsAgree(cfg, w, e) { Moved(cfg, w, v, x, e.(phase := Aimed), v.tuples, []); }
    }
  }

  lemma ResolveAlone(cfg: Config, w: World, v: World, x: Token)
    requires Undisturbed(cfg, w, v, x)
    ensures Undisturbed(cfg, w, ResolveExec(cfg, v, x), x)
  {
    var e := v.execs[x];
    if e.phase.Aimed? {
      HaltsAlone(cfg, w, v, x);
      if |VisibleOf(e.answers)| <= cfg.cap { Moved(cfg, w, v, x, e.(phase := Resolved), v.tuples, []); }
    }
  }

  lemma ReadGrantsAlone(cfg: Config, w: World, v: World, x: Token, plan: seq<Update>)
    requires Undisturbed(cfg, w, v, x)
    ensures Undisturbed(cfg, w, ReadGrantsExec(v, x, plan), x)
  {
    var e := v.execs[x];
    if e.phase.Resolved? && IsPlan(plan, GrantsNow(v, e), Desired(e)) {
      assert Desired(e) != {} ==> Touching(plan);
      Moved(cfg, w, v, x, e.(phase := Writing, updates := plan), v.tuples, []);
    }
  }

  lemma WriteBatchAlone(cfg: Config, w: World, v: World, x: Token, n: nat, token: string)
    requires Undisturbed(cfg, w, v, x)
    ensures Undisturbed(cfg, w, WriteBatchExec(v, x, n, token), x)
  {
  }

  lemma VerifyAlone(cfg: Config, w: World, v: World, x: Token)
    requires Undisturbed(cfg, w, v, x)
    ensures Undisturbed(cfg, w, VerifyExec(v, x), x)
  {
    var e := v.execs[x];
    if e.phase.Writing? && e.updates == [] {
      if GrantsNow(v, e) == Desired(e) {
        Moved(cfg, w, v, x, e.(phase := Exact, exactAt := |v.log|), v.tuples, [VerifiedExactly(x, VisibleOf(e.answers))]);
      } else {
        HaltsAlone(cfg, w, v, x);
      }
    }
  }

  lemma StampAlone(cfg: Config, w: World, v: World, x: Token)
    requires Undisturbed(cfg, w, v, x)
    ensures Undisturbed(cfg, w, StampExec(v, x), x)
  {
  }

  lemma LandedOnCourse(cfg: Config, w: World, e: Exec, n: nat, tuples: set<PermissionTuple>)
    requires OnCourse(cfg, w, e, tuples) && e.phase.Stamped?
    ensures OnCourse(cfg, w, e.(phase := Landed, landedAt := n), tuples)
  {
  }

  lemma CommitAlone(cfg: Config, w: World, v: World, x: Token)
    requires Undisturbed(cfg, w, v, x)
    ensures Undisturbed(cfg, w, CommitExec(v, x), x)
  {
    hide Framed, Published, OnCourse, ScopeValid, StillOurs;
    var e := v.execs[x];
    if e.phase.Stamped? {
      var tx := CommitTx(v.rows, v.configured, e.run, x, e.answers, e.time, e.revision);
      if tx.Ok? {
        LandedOnCourse(cfg, w, e, |v.log|, v.tuples);
        CommittedRows(w, v, x);
      } else {
        HaltsAlone(cfg, w, v, x);
      }
    }
  }

  /** The rows a commit leaves. */
  lemma CommittedRows(w: World, v: World, x: Token)
    requires Framed(w, v) && HasJob(v, x) && v.execs[x].phase.Stamped? && CommitExec(v, x).execs[x].phase.Landed?
    ensures Framed(w, CommitExec(v, x)) && HasJob(CommitExec(v, x), x)
    ensures Published(CommitExec(v, x), x, CommitExec(v, x).execs[x])
  {
    CommitPublishes(v, x);
  }

  lemma CommitPublishes(v: World, x: Token)
    requires HasJob(v, x) && v.execs[x].phase.Stamped? && CommitExec(v, x).execs[x].phase.Landed?
    ensures Published(CommitExec(v, x), x, CommitExec(v, x).execs[x])
  {
    var e, after := v.execs[x], CommitExec(v, x).rows.evidence;
    forall d | d in e.answers ensures PublishedAt(after, x, CommitExec(v, x).execs[x], d) {
      assert BearsMarker(v.rows.evidence, Key(e.authorization, d), x);
    }
  }

  lemma StepAlone(cfg: Config, w: World, v: World, s: Step)
    requires OfExec(s) && Undisturbed(cfg, w, v, s.x)
    ensures Undisturbed(cfg, w, ApplyExec(cfg, v, s), s.x)
  {
    match s {
      case Preinvalidate(x) => PreinvalidateAlone(cfg, w, v, x);
      case Reload(x) => ReloadAlone(cfg, w, v, x);
      case LoadAuthorization(x) => LoadAlone(cfg, w, v, x);
      case ListDocuments(x) => ListAlone(cfg, w, v, x);
      case Ask(x, d, answer) => AskAlone(cfg, w, v, x, d, answer);
      case ValidateResults(x) => ValidateResultsAlone(cfg, w, v, x);
      case ValidateConnection(x) => ValidateConnectionAlone(cfg, w, v, x);
      case ResolveDocuments(x) => ResolveAlone(cfg, w, v, x);
      case ReadGrants(x, plan) => ReadGrantsAlone(cfg, w, v, x, plan);
      case WriteBatch(x, n, token) => WriteBatchAlone(cfg, w, v, x, n, token);
      case VerifyGrants(x) => VerifyAlone(cfg, w, v, x);
      case Stamp(x) => StampAlone(cfg, w, v, x);
      case Commit(x) => CommitAlone(cfg, w, v, x);
      case Stop(x) => if !v.execs[x].phase.Landed? { HaltsAlone(cfg, w, v, x); }
    }
  }

  lemma {:induction false} RunAlone(cfg: Config, w: World, v: World, x: Token, steps: seq<Step>)
    requires Undisturbed(cfg, w, v, x) && Alone(steps, x)
    ensures Undisturbed(cfg, w, Run(cfg, v, steps), x)
    decreases |steps|
  {
    if steps != [] {
      assert OfExec(steps[0]) && steps[0].x == x;
      StepAlone(cfg, w, v, steps[0]);
      RunAlone(cfg, w, Apply(cfg, v, steps[0]), x, steps[1..]);
    }
  }

  // ----- what a lookup returns then

  function DocumentIds(c: nat, ids: set<nat>): set<string> {
    set d | d in ids :: DocumentId(c, d)
  }

  /** Different documents have different ids. */
  lemma {:induction false} AsManyIds(c: nat, ids: set<nat>)
    ensures |DocumentIds(c, ids)| == |ids|
    decreases ids
  {
    hide DocumentId;
    if ids != {} {
      var d :| d in ids;
      AsManyIds(c, ids - {d});
      forall n | n in ids - {d} ensures DocumentId(c, n) != DocumentId(c, d) {
        DocumentIdInjective(c, n, c, d);
      }
      assert DocumentIds(c, ids) == DocumentIds(c, ids - {d}) + {DocumentId(c, d)};
    }
  }

  /** Different documents have different grants. */
  lemma {:induction false} AsManyGrants(c: nat, userId: string, ids: set<nat>)
    ensures |GrantsOf(c, userId, ids)| == |ids|
    decreases ids
  {
    hide DocumentId;
    if ids != {} {
      var d :| d in ids;
      AsManyGrants(c, userId, ids - {d});
      forall n | n in ids - {d} ensures GrantOf(c, userId, n) != GrantOf(c, userId, d) {
        DocumentIdInjective(c, n, c, d);
      }
      assert GrantsOf(c, userId, ids) == GrantsOf(c, userId, ids - {d}) + {GrantOf(c, userId, d)};
    }
  }

  /** The lookup takes every id out of a set of grants that is within the cap. */
  lemma ValidIdsOfGrants(c: nat, userId: string, ids: set<nat>, cap: nat)
    requires |ids| <= cap
    ensures ValidDirectIds(GrantsOf(c, userId, ids), ConnectionPrefix(c), userId, cap) == DocumentIds(c, ids)
  {
    var tuples := GrantsOf(c, userId, ids);
    AsManyGrants(c, userId, ids);
    AsManyIds(c, ids);
    var valid := set t | t in tuples && DirectGrant(t, ConnectionPrefix(c), userId) :: t.resourceId;
    forall d | d in ids ensures DocumentId(c, d) in valid {
      assert GrantOf(c, userId, d) in tuples;
    }
    assert valid == DocumentIds(c, ids);
  }

  /** All reads of a lookup in one state. */
  function AtOnce(v: World): Reads {
    Reads(v, v, v, v, v, v)
  }

  predicate Servable(rows: Rows, d: nat) {
    d in rows.documents && rows.documents[d].eligible && rows.documents[d].permissionsVersion != ""
  }

  lemma SameCurrentAuthorization(cfg: Config, w: World, v: World, c: nat, a: nat, email: string)
    requires Framed(w, v) && ActiveMode(w.rows, w.configured, c)
    requires CurrentAuthorization(cfg, w.rows.connections[c], c, email, w.rows, w.rows, a)
    ensures CurrentAuthorization(cfg, v.rows.connections[c], c, email, v.rows, v.rows, a)
    ensures a in v.rows.authorizations && v.rows.authorizations[a].email == email && v.rows.authorizations[a].connection == c
  {
    assert AuthorizationsOf(v.rows, c, email) == AuthorizationsOf(w.rows, c, email);
    assert a in AuthorizationsOf(w.rows, c, email);
    var generation := w.rows.connections[c].generation;
    assert ConnectedUsers(v.rows, c, generation) == ConnectedUsers(w.rows, c, generation);
  }

  /** The evidence row of a document decides, and it shows the answer. */
  lemma FreshMeansShown(cfg: Config, w: World, v: World, x: Token, c: nat, a: nat, d: nat)
    requires Undisturbed(cfg, w, v, x) && v.execs[x].phase.Landed?
    requires v.execs[x].connection == c && v.execs[x].authorization == a
    requires c in v.rows.connections && a in v.rows.authorizations && v.rows.authorizations[a].connection == c
    requires v.rows.connections[c].generation == v.rows.authorizations[a].connectionGeneration
    ensures FreshRow(v.rows, v.rows.connections[c], c, v.rows.authorizations[a], a, v.now - cfg.maxAge, d)
       <==> d in VisibleOf(v.execs[x].answers) && Servable(w.rows, d)
  {
    var e := v.execs[x];
    if d in e.answers {
      assert PublishedAt(v.rows.evidence, x, e, d);
      assert d in Candidates(w.rows, c);
      assert d in VisibleOf(e.answers) ==> GrantOf(c, UserId(c, e.email), d) in Desired(e);
    }
  }

  lemma GrantsAreShown(cfg: Config, w: World, v: World, x: Token, c: nat, a: nat, email: string)
    requires Undisturbed(cfg, w, v, x) && v.execs[x].phase.Landed?
    requires v.execs[x].connection == c && v.execs[x].authorization == a
    requires a in w.rows.authorizations && w.rows.authorizations[a].email == email
    ensures ValidDirectIds(DirectGrantsOf(v.tuples, ConnectionPrefix(c), UserId(c, email)), ConnectionPrefix(c), UserId(c, email), cfg.cap)
         == DocumentIds(c, VisibleOf(v.execs[x].answers))
  {
    ValidIdsOfGrants(c, UserId(c, email), VisibleOf(v.execs[x].answers), cfg.cap);
  }

  lemma ReturnedIsShown(cfg: Config, w: World, v: World, x: Token, c: nat, a: nat, email: string, d: nat)
    requires Undisturbed(cfg, w, v, x) && v.execs[x].phase.Landed?
    requires v.execs[x].connection == c && v.execs[x].authorization == a
    requires ActiveMode(w.rows, w.configured, c) && CurrentAuthorization(cfg, w.rows.connections[c], c, email, w.rows, w.rows, a)
    ensures Returned(cfg, AtOnce(v), c, a, email, d) <==> d in VisibleOf(v.execs[x].answers) && Servable(w.rows, d)
  {
    hide OnCourse, Published;
    SameCurrentAuthorization(cfg, w, v, c, a, email);
    GrantsAreShown(cfg, w, v, x, c, a, email);
    FreshMeansShown(cfg, w, v, x, c, a, d);
  }

  /** After an execution nobody disturbed, a lookup returns exactly the eligible documents that
      Drive showed to it. */
  lemma LandedIsExact(cfg: Config, w: World, x: Token, steps: seq<Step>, c: nat, a: nat, email: string, d: nat)
    requires HasJob(w, x) && w.execs[x].phase.Begun? && w.execs[x].connection == c && w.execs[x].authorization == a
    requires ActiveMode(w.rows, w.configured, c) && CurrentAuthorization(cfg, w.rows.connections[c], c, email, w.rows, w.rows, a)
    requires Alone(steps, x) && x in Run(cfg, w, steps).execs && Run(cfg, w, steps).execs[x].phase.Landed?
    ensures Returned(cfg, AtOnce(Run(cfg, w, steps)), c, a, email, d)
       <==> d in VisibleOf(Run(cfg, w, steps).execs[x].answers) && Servable(w.rows, d)
  {
    StartsUndisturbed(cfg, w, x);
    RunAlone(cfg, w, w, x, steps);
    JobStays(cfg, w, x, steps);
    ReturnedIsShown(cfg, w, Run(cfg, w, steps), x, c, a, email, d);
  }

  lemma StartsUndisturbed(cfg: Config, w: World, x: Token)
    requires HasJob(w, x) && w.execs[x].phase.Begun?
    ensures Undisturbed(cfg, w, w, x)
  {
  }

  lemma {:induction false} JobStays(cfg: Config, w: World, x: Token, steps: seq<Step>)
    requires x in w.execs && Alone(steps, x)
    ensures x in Run(cfg, w, steps).execs && SameExec(w.execs[x], Run(cfg, w, steps).execs[x])
    decreases |steps|
  {
    if steps != [] {
      assert OfExec(steps[0]) && steps[0].x == x;
      JobStays(cfg, Apply(cfg, w, steps[0]), x, steps[1..]);
    }
  }

  // ----- when an execution can land

  /** What the execution needs of the rows it starts from. */
  predicate ReadyToRun(cfg: Config, w: World, e: Exec) {
    && ScopeValid(w.rows, w.configured, e.run) && e.connection in w.rows.connections && e.authorization in w.rows.authorizations
    && |Candidates(w.rows, e.connection)| <= cfg.cap
    && InAllowedDomain(w.rows.authorizations[e.authorization].email, cfg.allowedDomain)
    && w.rows.connections[e.connection].domain == cfg.allowedDomain
  }

  lemma ScopeWasValid(cfg: Config, w: World, v: World, x: Token)
    requires HasJob(w, x) && Undisturbed(cfg, w, v, x) && v.execs[x].phase.Landed? && SameExec(w.execs[x], v.execs[x])
    ensures ReadyToRun(cfg, w, w.execs[x])
  {
  }

  /** Only an execution whose scope is in order lands alone. */
  lemma LandedWasReady(cfg: Config, w: World, x: Token, steps: seq<Step>)
    requires HasJob(w, x) && w.execs[x].phase.Begun?
    requires Alone(steps, x) && x in Run(cfg, w, steps).execs && Run(cfg, w, steps).execs[x].phase.Landed?
    ensures ReadyToRun(cfg, w, w.execs[x])
  {
    StartsUndisturbed(cfg, w, x);
    RunAlone(cfg, w, w, x, steps);
    JobStays(cfg, w, x, steps);
    ScopeWasValid(cfg, w, Run(cfg, w, steps), x);
  }

  /** These steps of the execution alone bring it to its commit, with these answers. */
  predicate Lands(cfg: Config, v: World, x: Token, steps: seq<Step>, answers: map<nat, Answer>) {
    && Alone(steps, x) && x in Run(cfg, v, steps).execs
    && Run(cfg, v, steps).execs[x].phase.Landed? && Run(cfg, v, steps).execs[x].answers == answers
  }

  lemma OneStepMore(cfg: Config, v: World, s: Step, rest: seq<Step>, answers: map<nat, Answer>)
    requires OfExec(s) && s.x in v.execs && Lands(cfg, ApplyExec(cfg, v, s), s.x, rest, answers)
    ensures Lands(cfg, v, s.x, [s] + rest, answers)
  {
    assert ([s] + rest)[1..] == rest;
  }

  /** The rows are in order and the candidates are marked. */
  predicate Prepared(cfg: Config, v: World, x: Token) {
    && HasJob(v, x) && ReadyToRun(cfg, v, v.execs[x])
    && v.execs[x].candidates == Candidates(v.rows, v.execs[x].connection)
    && forall d :: d in v.execs[x].candidates ==> BearsMarker(v.rows.evidence, Key(v.execs[x].authorization, d), x)
  }

  /** The answers are in, and the execution goes by the right email. */
  predicate Answered(cfg: Config, v: World, x: Token, answers: map<nat, Answer>) {
    && Prepared(cfg, v, x) && NamesGrantee(v, v.execs[x])
    && v.execs[x].answers == answers && answers.Keys == v.execs[x].candidates
  }

  /** Everything Drive is asked with is of the run. */
  predicate Asking(cfg: Config, v: World, x: Token) {
    && Prepared(cfg, v, x) && NamesGrantee(v, v.execs[x])
    && v.execs[x].batchConnectionGeneration == v.execs[x].connectionGeneration
    && v.execs[x].batchAuthorizationGeneration == v.execs[x].authorizationGeneration
  }

  lemma FromStamped(cfg: Config, v: World, x: Token, answers: map<nat, Answer>) returns (steps: seq<Step>)
    requires Answered(cfg, v, x, answers) && v.execs[x].phase.Stamped?
    ensures Lands(cfg, v, x, steps, answers)
  {
    steps := [Commit(x)];
    assert StillOurs(v.rows, v.rows.runs[v.execs[x].run], x, answers.Keys);
    assert Lands(cfg, CommitExec(v, x), x, [], answers);
    OneStepMore(cfg, v, Commit(x), [], answers);
  }

  lemma FromExact(cfg: Config, v: World, x: Token, answers: map<nat, Answer>) returns (steps: seq<Step>)
    requires Answered(cfg, v, x, answers) && v.execs[x].phase.Exact?
    ensures Lands(cfg, v, x, steps, answers)
  {
    var rest := FromStamped(cfg, StampExec(v, x), x, answers);
    steps := [Stamp(x)] + rest;
    OneStepMore(cfg, v, Stamp(x), rest, answers);
  }

  lemma FromWritten(cfg: Config, v: World, x: Token, answers: map<nat, Answer>) returns (steps: seq<Step>)
    requires Answered(cfg, v, x, answers) && v.execs[x].phase.Writing? && v.execs[x].updates == []
    requires GrantsNow(v, v.execs[x]) == Desired(v.execs[x])
    ensures Lands(cfg, v, x, steps, answers)
  {
    var rest := FromExact(cfg, VerifyExec(v, x), x, answers);
    steps := [VerifyGrants(x)] + rest;
    OneStepMore(cfg, v, VerifyGrants(x), rest, answers);
  }

  lemma FromWriting(cfg: Config, v: World, x: Token, answers: map<nat, Answer>) returns (steps: seq<Step>)
    requires Answered(cfg, v, x, answers) && v.execs[x].phase.Writing?
    requires var e := v.execs[x];
      DirectGrantsOf(Applied(v.tuples, e.updates), ConnectionPrefix(e.connection), UserId(e.connection, e.email)) == Desired(e)
    ensures Lands(cfg, v, x, steps, answers)
  {
    var e := v.execs[x];
    if e.updates == [] {
      steps := FromWritten(cfg, v, x, answers);
    } else {
      assert e.updates[..|e.updates|] == e.updates;
      var s := WriteBatch(x, |e.updates|, "revision");
      var rest := FromWritten(cfg, ApplyExec(cfg, v, s), x, answers);
      steps := [s] + rest;
      OneStepMore(cfg, v, s, rest, answers);
    }
  }

  lemma {:induction false} InSomeOrder(items: set<PermissionTuple>) returns (q: seq<PermissionTuple>)
    ensures Elements(q) == items
    decreases items
  {
    if items == {} {
      q := [];
    } else {
      var t :| t in items;
      var rest := InSomeOrder(items - {t});
      q := rest + [t];
      assert Elements(q) == Elements(rest) + {t};
    }
  }

  /** Updates that turn the grants there are into the desired ones. */
  lemma PlanFor(tuples: set<PermissionTuple>, prefix: string, userId: string, desired: set<PermissionTuple>) returns (plan: seq<Update>)
    requires InScope(desired, prefix, userId)
    ensures IsPlan(plan, DirectGrantsOf(tuples, prefix, userId), desired)
    ensures DirectGrantsOf(Applied(tuples, plan), prefix, userId) == desired
  {
    var current := DirectGrantsOf(tuples, prefix, userId);
    var ts := InSomeOrder(desired);
    var ds := InSomeOrder(current - desired);
    plan := Touches(ts) + Deletes(ds);
    AppliedAppend(tuples, Touches(ts), Deletes(ds));
    AppliedTouches(tuples, ts);
    AppliedDeletes(tuples + desired, ds);
    PlanOrdered(ts, ds, current, desired, plan);
  }

  lemma PlanOrdered(ts: seq<PermissionTuple>, ds: seq<PermissionTuple>, current: set<PermissionTuple>, desired: set<PermissionTuple>, plan: seq<Update>)
    requires Elements(ts) == desired && Elements(ds) == current - desired && plan == Touches(ts) + Deletes(ds)
    ensures IsPlan(plan, current, desired)
  {
    forall t | t in desired ensures Touch(t) in plan {
      var i :| 0 <= i < |ts| && ts[i] == t;
      assert plan[i] == Touch(t);
    }
    forall t | t in current - desired ensures Delete(t) in plan {
      assert t in Elements(ds);
      var i :| 0 <= i < |ds| && ds[i] == t;
      assert plan[|ts| + i] == Delete(t);
    }
    forall i | 0 <= i < |plan| ensures plan[i].item in if plan[i].Touch? then desired else current - desired {
      assert if i < |ts| then plan[i].item in Elements(ts) else plan[i].item in Elements(ds);
    }
    if desired != {} {
      assert plan[0].Touch?;
    }
  }

  lemma FromResolved(cfg: Config, v: World, x: Token, answers: map<nat, Answer>) returns (steps: seq<Step>)
    requires Answered(cfg, v, x, answers) && v.execs[x].phase.Resolved?
    ensures Lands(cfg, v, x, steps, answers)
  {
    var e := v.execs[x];
    GrantsInScope(e.connection, UserId(e.connection, e.email), VisibleOf(answers));
    var plan := PlanFor(v.tuples, ConnectionPrefix(e.connection), UserId(e.connection, e.email), Desired(e));
    var rest := FromWriting(cfg, ReadGrantsExec(v, x, plan), x, answers);
    steps := [ReadGrants(x, plan)] + rest;
    OneStepMore(cfg, v, ReadGrants(x, plan), rest, answers);
  }

  lemma FewerVisible(answers: map<nat, Answer>)
    ensures |VisibleOf(answers)| <= |answers.Keys|
  {
    assert answers.Keys == VisibleOf(answers) + (answers.Keys - VisibleOf(answers));
  }

  lemma FromAimed(cfg: Config, v: World, x: Token, answers: map<nat, Answer>) returns (steps: seq<Step>)
    requires Answered(cfg, v, x, answers) && v.execs[x].phase.Aimed?
    ensures Lands(cfg, v, x, steps, answers)
  {
    FewerVisible(answers);
    var rest := FromResolved(cfg, ResolveExec(cfg, v, x), x, answers);
    steps := [ResolveDocuments(x)] + rest;
    OneStepMore(cfg, v, ResolveDocuments(x), rest, answers);
  }

  lemma FromChecked(cfg: Config, v: World, x: Token, answers: map<nat, Answer>) returns (steps: seq<Step>)
    requires Answered(cfg, v, x, answers) && v.execs[x].phase.Checked?
    ensures Lands(cfg, v, x, steps, answers)
  {
    var rest := FromAimed(cfg, ValidateConnectionExec(cfg, v, x), x, answers);
    steps := [ValidateConnection(x)] + rest;
    OneStepMore(cfg, v, ValidateConnection(x), rest, answers);
  }

  /** The questions that are still open are asked one by one. */
  lemma {:induction false} FromListed(cfg: Config, v: World, x: Token, answers: map<nat, Answer>) returns (steps: seq<Step>)
    requires Asking(cfg, v, x) && v.execs[x].phase.Listed? && v.execs[x].listed == v.execs[x].candidates == answers.Keys
    requires v.execs[x].answers.Keys <= answers.Keys && forall d :: d in v.execs[x].answers ==> v.execs[x].answers[d] == answers[d]
    ensures Lands(cfg, v, x, steps, answers)
    decreases answers.Keys - v.execs[x].answers.Keys
  {
    if d :| d in answers && d !in v.execs[x].answers {
      var s := Ask(x, d, answers[d]);
      var next := ApplyExec(cfg, v, s);
      assert d in answers.Keys - v.execs[x].answers.Keys && d !in answers.Keys - next.execs[x].answers.Keys;
      var rest := FromListed(cfg, next, x, answers);
      steps := [s] + rest;
      OneStepMore(cfg, v, s, rest, answers);
    } else {
      assert v.execs[x].answers == answers;
      var rest := FromChecked(cfg, ValidateResultsExec(v, x), x, answers);
      steps := [ValidateResults(x)] + rest;
      OneStepMore(cfg, v, ValidateResults(x), rest, answers);
    }
  }

  lemma FromLoaded(cfg: Config, v: World, x: Token, answers: map<nat, Answer>) returns (steps: seq<Step>)
    requires Asking(cfg, v, x) && v.execs[x].phase.Loaded? && v.execs[x].answers == map[] && answers.Keys == v.execs[x].candidates
    ensures Lands(cfg, v, x, steps, answers)
  {
    var rest := FromListed(cfg, ListExec(cfg, v, x), x, answers);
    steps := [ListDocuments(x)] + rest;
    OneStepMore(cfg, v, ListDocuments(x), rest, answers);
  }

  lemma FromScoped(cfg: Config, v: World, x: Token, answers: map<nat, Answer>) returns (steps: seq<Step>)
    requires Prepared(cfg, v, x) && NamesGrantee(v, v.execs[x]) && v.execs[x].phase.Scoped?
    requires v.execs[x].answers == map[] && answers.Keys == v.execs[x].candidates
    ensures Lands(cfg, v, x, steps, answers)
  {
    var rest := FromLoaded(cfg, LoadExec(v, x), x, answers);
    steps := [LoadAuthorization(x)] + rest;
    OneStepMore(cfg, v, LoadAuthorization(x), rest, answers);
  }

  lemma FromPending(cfg: Config, v: World, x: Token, answers: map<nat, Answer>) returns (steps: seq<Step>)
    requires Prepared(cfg, v, x) && v.execs[x].phase.Pending? && v.execs[x].answers == map[] && answers.Keys == v.execs[x].candidates
    ensures Lands(cfg, v, x, steps, answers)
  {
    var rest := FromScoped(cfg, ReloadExec(v, x), x, answers);
    steps := [Reload(x)] + rest;
    OneStepMore(cfg, v, Reload(x), rest, answers);
  }

  /** An execution whose scope is in order can land alone, whatever Drive answers. */
  lemma ReadyLands(cfg: Config, v: World, x: Token, answers: map<nat, Answer>) returns (steps: seq<Step>)
    requires HasJob(v, x) && v.execs[x].phase.Begun? && v.execs[x].answers == map[]
    requires ReadyToRun(cfg, v, v.execs[x]) && answers.Keys == Candidates(v.rows, v.execs[x].connection)
    ensures Lands(cfg, v, x, steps, answers)
  {
    var rest := FromPending(cfg, PreinvalidateExec(cfg, v, x), x, answers);
    steps := [Preinvalidate(x)] + rest;
    OneStepMore(cfg, v, Preinvalidate(x), rest, answers);
  }

  /** Undisturbed, an execution makes a lookup return exactly what Drive answers, whatever was so before. */
  lemma DriveDecides(cfg: Config, w: World, x: Token, answers: map<nat, Answer>, c: nat, a: nat, email: string) returns (steps: seq<Step>)
    requires HasJob(w, x) && w.execs[x].phase.Begun? && w.execs[x].answers == map[]
    requires w.execs[x].connection == c && w.execs[x].authorization == a
    requires ReadyToRun(cfg, w, w.execs[x]) && answers.Keys == Candidates(w.rows, c)
    requires ActiveMode(w.rows, w.configured, c) && CurrentAuthorization(cfg, w.rows.connections[c], c, email, w.rows, w.rows, a)
    ensures Alone(steps, x)
    ensures forall d :: Returned(cfg, AtOnce(Run(cfg, w, steps)), c, a, email, d) <==> d in VisibleOf(answers) && Servable(w.rows, d)
  {
    steps := ReadyLands(cfg, w, x, answers);
    forall d ensures Returned(cfg, AtOnce(Run(cfg, w, steps)), c, a, email, d) <==> d in VisibleOf(answers) && Servable(w.rows, d) {
      LandedIsExact(cfg, w, x, steps, c, a, email, d);
    }
  }
}
