/** Safety over whole runs: the invariant is kept, generations only advance, denial is final, and a
    connection is enabled again by its own cutover only. */
module AccessSafety {
  import opened VisibilityRows
  import opened AccessProtocol
  import opened AccessInvariants
  import opened AccessSteps
  import opened AccessTransactions

  // ----- the environment

  lemma TickKeeps(w: World, seconds: nat)
    requires Inv(w)
    ensures Inv(w.(now := w.now + seconds))
  {
    forall x | x in w.execs ensures x < w.nextToken && ExecOk(w.rows.runs, w.log, w.now + seconds, x, w.execs[x]) {
      ExecGrows(w.rows.runs, w.log, [], w.now, w.now + seconds, x, w.execs[x]);
      assert w.log + [] == w.log;
    }
  }

  /** A change of a connection that leaves what authorizations rest on. */
  lemma ConnectionChanges(w: World, c: nat, connection: Connection, next: Token)
    requires Inv(w) && w.nextToken <= next && connection.generation < next
    requires c in w.rows.connections ==> connection.generation == w.rows.connections[c].generation
    requires c in w.rows.connections ==> connection.enabled == w.rows.connections[c].enabled && connection.authority == w.rows.connections[c].authority
    ensures Inv(w.(rows := w.rows.(connections := w.rows.connections[c := connection]), nextToken := next))
  {
    var after := w.rows.connections[c := connection];
    forall a | a in w.rows.authorizations ensures AuthorizationOk(after, w.rows.authorizations[a], next) {
      assert AuthorizationOk(w.rows.connections, w.rows.authorizations[a], w.nextToken);
    }
    RowsLater(w.rows, w.nextToken, next);
    EvidenceFollows(w.rows.connections, w.rows.authorizations, w.rows.evidence, w.execs, w.log, c, connection);
    forall k | k in w.cutovers ensures CutoverOk(after, w.log, next, k, w.cutovers[k]) {
      assert CutoverOk(w.rows.connections, w.log, w.nextToken, k, w.cutovers[k]);
    }
    RowsChange(w, w.rows.(connections := after), next);
  }

  lemma EvidenceFollows(connections: map<nat, Connection>, authorizations: map<nat, Authorization>, evidence: map<Key, Evidence>,
                        execs: map<Token, Exec>, log: seq<Event>, c: nat, connection: Connection)
    requires EvidenceOk(connections, authorizations, evidence, execs, log)
    requires c in connections ==> connection.generation == connections[c].generation
    requires c in connections ==> connection.enabled == connections[c].enabled && connection.authority == connections[c].authority
    ensures EvidenceOk(connections[c := connection], authorizations, evidence, execs, log)
  {
    forall k | k in evidence ensures EvidenceRowOk(connections[c := connection], authorizations, execs, log, k, evidence[k]) {
      assert EvidenceRowOk(connections, authorizations, execs, log, k, evidence[k]);
    }
  }

  lemma RunsChange(w: World, r: nat, run: SyncRun)
    requires Inv(w) && RunOk(w.rows.authorizations, run, w.nextToken)
    requires r in w.rows.runs ==> JobKept(w.rows.runs[r], run)
    ensures Inv(w.(rows := w.rows.(runs := w.rows.runs[r := run])))
  {
    RowsChange(w, w.rows.(runs := w.rows.runs[r := run]), w.nextToken);
  }

  predicate OfEnvironment(s: Step) {
    s.Tick? || s.Configure? || s.AddConnection? || s.Reconfigure? || s.SetDocument? || s.ForeignWrite? || s.CreateRun? || s.SetRunStatus?
  }

  lemma EnvironmentKeeps(cfg: Config, w: World, s: Step)
    requires Inv(w) && OfEnvironment(s)
    ensures Inv(ApplyRows(cfg, w, s))
  {
    match s {
      case Tick(seconds) => TickKeeps(w, seconds);
      case AddConnection(c, added) =>
        if c !in w.rows.connections { ConnectionChanges(w, c, added.(generation := w.nextToken), w.nextToken + 1); }
      case Reconfigure(c, hasRoot, domain) =>
        if c in w.rows.connections { ConnectionChanges(w, c, w.rows.connections[c].(hasRoot := hasRoot, domain := domain), w.nextToken); }
      case SetDocument(d, document) => RowsChange(w, w.rows.(documents := w.rows.documents[d := document]), w.nextToken);
      case CreateRun(r, a, cg, ag) =>
        if r !in w.rows.runs && a in w.rows.authorizations && cg < w.nextToken && ag < w.nextToken {
          RunsChange(w, r, SyncRun(w.rows.authorizations[a].connection, a, cg, ag, Queued, 0, 0, 0, 0, ""));
        }
      case SetRunStatus(r, status) =>
        if r in w.rows.runs {
          assert RunOk(w.rows.authorizations, w.rows.runs[r], w.nextToken);
          RunsChange(w, r, w.rows.runs[r].(status := status));
        }
      case _ =>
    }
  }

  // ----- every step and every run

  // What the invariant says does not matter in what follows, so it is hidden.

  predicate ReadsOnly(s: Step) {
    s.Reload? || s.LoadAuthorization? || s.ListDocuments? || s.Ask? || s.ValidateResults? || s.ValidateConnection? || s.ResolveDocuments?
  }

  lemma ReadStepKeeps(cfg: Config, w: World, s: Step)
    requires Inv(w) && ReadsOnly(s) && s.x in w.execs
    ensures Inv(ApplyExec(cfg, w, s))
  {
    hide Inv, Moves;
    match s {
      case Reload(x) => ReloadKeeps(w, x);
      case LoadAuthorization(x) => LoadKeeps(w, x);
      case ListDocuments(x) => ListKeeps(cfg, w, x);
      case Ask(x, d, answer) => AskKeeps(w, x, d, answer);
      case ValidateResults(x) => ValidateResultsKeeps(w, x);
      case ValidateConnection(x) => ValidateConnectionKeeps(cfg, w, x);
      case ResolveDocuments(x) => ResolveKeeps(cfg, w, x);
    }
  }

  lemma WriteStepKeeps(cfg: Config, w: World, s: Step)
    requires Inv(w) && OfExec(s) && !ReadsOnly(s) && s.x in w.execs
    ensures Inv(ApplyExec(cfg, w, s))
  {
    hide Inv, Moves;
    match s {
      case ReadGrants(x, plan) => ReadGrantsKeeps(w, x, plan);
      case WriteBatch(x, n, token) => WriteBatchKeeps(w, x, n, token);
      case VerifyGrants(x) => VerifyKeeps(w, x);
      case Preinvalidate(x) => PreinvalidateKeeps(cfg, w, x);
      case Stamp(x) => StampKeeps(w, x);
      case Commit(x) => CommitKeeps(w, x);
      case Stop(x) => StopKeeps(w, x);
    }
  }

  lemma ExecStepKeeps(cfg: Config, w: World, s: Step)
    requires Inv(w) && OfExec(s) && s.x in w.execs
    ensures Inv(ApplyExec(cfg, w, s))
  {
    hide Inv, Moves;
    if ReadsOnly(s) { ReadStepKeeps(cfg, w, s); } else { WriteStepKeeps(cfg, w, s); }
  }

  lemma CutoverStepKeeps(w: World, s: Step)
    requires Inv(w) && OfCutover(s) && s.k in w.cutovers
    ensures Inv(ApplyCutover(w, s))
  {
    hide Inv;
    match s {
      case DenyConnection(k, next) => DenyKeeps(w, k, next);
      case ReadKind(k) => ReadKindKeeps(w, k);
      case DeleteBatch(k, gone) => DeleteKeeps(w, k, gone);
      case RecheckKind(k) => RecheckKeeps(w, k);
      case Activate(k) => ActivateKeeps(w, k);
      case Abandon(k) => AbandonKeeps(w, k);
    }
  }

  lemma RowStepKeeps(cfg: Config, w: World, s: Step)
    requires Inv(w) && !OfExec(s) && !OfCutover(s)
    ensures Inv(ApplyRows(cfg, w, s))
  {
    hide Inv;
    match s {
      case Complete(g, a, next) => CompleteKeeps(cfg, w, g, a, next);
      case Disconnect(c, email, next) => DisconnectKeeps(cfg, w, c, email, next);
      case InvalidateEvidence(a, reason) => InvalidateKeeps(w, a, reason);
      case Begin(r) => BeginKeeps(w, r);
      case StartCutover(k, c, target) => StartKeeps(w, k, c, target);
      case _ => EnvironmentKeeps(cfg, w, s);
    }
  }

  /** Whatever step comes next, the invariant stays. */
  lemma StepKeeps(cfg: Config, w: World, s: Step)
    requires Inv(w)
    ensures Inv(Apply(cfg, w, s))
  {
    hide Inv;
    if OfExec(s) {
      if s.x in w.execs { ExecStepKeeps(cfg, w, s); }
    } else if OfCutover(s) {
      if s.k in w.cutovers { CutoverStepKeeps(w, s); }
    } else {
      RowStepKeeps(cfg, w, s);
    }
  }

  lemma {:induction false} RunKeeps(cfg: Config, w: World, steps: seq<Step>)
    requires Inv(w)
    ensures Inv(Run(cfg, w, steps))
    decreases |steps|
  {
    if steps != [] {
      StepKeeps(cfg, w, steps[0]);
      RunKeeps(cfg, Apply(cfg, w, steps[0]), steps[1..]);
    }
  }

  lemma Reachable(cfg: Config, w: World, steps: seq<Step>)
    requires Initial(w)
    ensures Inv(Run(cfg, w, steps))
  {
    RunKeeps(cfg, w, steps);
  }
}
