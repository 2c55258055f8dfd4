/** What the per-user mode is for: denial is final for whatever was under way, a commit lands whole
    or not at all, and only its own cutover enables a connection again. */
module AccessTheorems {
  import opened Outcomes
  import opened TupleStore
  import opened VisibilityRows
  import opened AccessProtocol
  import opened AccessInvariants
  import opened AccessSafety

  // ----- generations only advance

  /** Every authorization is as it was, or bears a token drawn since. */
  predicate AuthorizationsAdvance(before: map<nat, Authorization>, after: map<nat, Authorization>, t: Token) {
    forall a :: a in after ==> after[a].generation >= t || (a in before && SameGrant(before[a], after[a]))
  }

  predicate ConnectionsAdvance(before: map<nat, Connection>, after: map<nat, Connection>, t: Token) {
    forall c :: c in after ==> after[c].generation >= t || (c in before && after[c].generation == before[c].generation)
  }

  predicate ExecsRemain(before: map<Token, Exec>, after: map<Token, Exec>) {
    forall x :: x in before ==> x in after && SameExec(before[x], after[x])
  }

  predicate Advances(w: World, v: World) {
    && AuthorizationsAdvance(w.rows.authorizations, v.rows.authorizations, w.nextToken)
    && ConnectionsAdvance(w.rows.connections, v.rows.connections, w.nextToken)
    && ExecsRemain(w.execs, v.execs)
    && w.nextToken <= v.nextToken && w.now <= v.now && w.log <= v.log
  }

  lemma AdvancesFurther(u: World, v: World, w: World)
    requires Advances(u, v) && Advances(v, w)
    ensures Advances(u, w)
  {
    forall a | a in w.rows.authorizations
      ensures w.rows.authorizations[a].generation >= u.nextToken
              || (a in u.rows.authorizations && SameGrant(u.rows.authorizations[a], w.rows.authorizations[a]))
    {
      if w.rows.authorizations[a].generation < v.nextToken {
        assert a in v.rows.authorizations && SameGrant(v.rows.authorizations[a], w.rows.authorizations[a]);
      }
    }
    forall x | x in u.execs ensures x in w.execs && SameExec(u.execs[x], w.execs[x]) {
      assert SameExec(u.execs[x], v.execs[x]);
    }
  }

  lemma MovesAdvance(w: World, v: World, x: Token)
    requires Moves(w, v, x)
    ensures Advances(w, v)
  {
  }

  lemma CutoverStepAdvances(w: World, s: Step)
    requires OfCutover(s) && s.k in w.cutovers
    ensures Advances(w, ApplyCutover(w, s))
  {
    if s.DenyConnection? {
      DenyAdvances(w, s.k, s.next);
    } else if s.Activate? {
      ActivateAdvances(w, s.k);
    }
  }

  lemma DenyAdvances(w: World, k: nat, next: Token)
    requires k in w.cutovers
    ensures Advances(w, DenyCut(w, k, next))
  {
  }

  lemma ActivateAdvances(w: World, k: nat)
    requires k in w.cutovers
    ensures Advances(w, ActivateCut(w, k))
  {
  }

  lemma CompleteAdvances(cfg: Config, w: World, g: Grant, a: nat, next: Token)
    ensures Advances(w, CompleteWorld(cfg, w, g, a, next))
  {
  }

  lemma DisconnectAdvances(cfg: Config, w: World, c: nat, email: string, next: Token)
    ensures Advances(w, DisconnectWorld(cfg, w, c, email, next))
  {
  }

  lemma BeginAdvances(w: World, r: nat)
    requires w.nextToken !in w.execs
    ensures Advances(w, BeginExec(w, r))
  {
  }

  lemma EnvironmentAdvances(cfg: Config, w: World, s: Step)
    requires OfEnvironment(s)
    ensures Advances(w, ApplyRows(cfg, w, s))
  {
  }

  lemma QuietAdvances(cfg: Config, w: World, s: Step)
    requires s.InvalidateEvidence? || s.StartCutover?
    ensures Advances(w, ApplyRows(cfg, w, s))
  {
  }

  lemma RowStepAdvances(cfg: Config, w: World, s: Step)
    requires Inv(w) && !OfExec(s) && !OfCutover(s)
    ensures Advances(w, ApplyRows(cfg, w, s))
  {
    match s {
      case Complete(g, a, next) => CompleteAdvances(cfg, w, g, a, next);
      case Disconnect(c, email, next) => DisconnectAdvances(cfg, w, c, email, next);
      case Begin(r) => BeginAdvances(w, r);
      case InvalidateEvidence(_, _) => QuietAdvances(cfg, w, s);
      case StartCutover(_, _, _) => QuietAdvances(cfg, w, s);
      case _ => EnvironmentAdvances(cfg, w, s);
    }
  }

  lemma NextTokenIsFree(w: World)
    requires Inv(w)
    ensures w.nextToken !in w.execs
  {
  }

  lemma StepAdvances(cfg: Config, w: World, s: Step)
    requires Inv(w)
    ensures Advances(w, Apply(cfg, w, s))
  {
    hide Inv;
    if OfExec(s) {
      if s.x in w.execs { MovesAdvance(w, ApplyExec(cfg, w, s), s.x); }
    } else if OfCutover(s) {
      if s.k in w.cutovers { CutoverStepAdvances(w, s); }
    } else {
      RowStepAdvances(cfg, w, s);
    }
  }

  lemma {:induction false} RunAdvances(cfg: Config, w: World, steps: seq<Step>)
    requires Inv(w)
    ensures Advances(w, Run(cfg, w, steps)) && Inv(Run(cfg, w, steps))
    decreases |steps|
  {
    if steps != [] {
      var v := Apply(cfg, w, steps[0]);
      StepKeeps(cfg, w, steps[0]);
      StepAdvances(cfg, w, steps[0]);
      RunAdvances(cfg, v, steps[1..]);
      AdvancesFurther(w, v, Run(cfg, v, steps[1..]));
    }
  }

  // ----- denial is final for what was under way

  /** The run an execution works for is for generations that are no longer the present ones. */
  predicate Stale(w: World, e: Exec) {
    || (e.connection in w.rows.connections && w.rows.connections[e.connection].generation != e.connectionGeneration)
    || (e.authorization in w.rows.authorizations && w.rows.authorizations[e.authorization].generation != e.authorizationGeneration)
  }

  /** The generations an execution bears were drawn before now. */
  lemma ExecBearsOldTokens(w: World, x: Token)
    requires Inv(w) && x in w.execs
    ensures w.execs[x].connectionGeneration < w.nextToken && w.execs[x].authorizationGeneration < w.nextToken
  {
    assert ExecOk(w.rows.runs, w.log, w.now, x, w.execs[x]);
    assert RunOk(w.rows.authorizations, w.rows.runs[w.execs[x].run], w.nextToken);
  }

  /** Once stale, stale for ever: a generation never comes back. */
  lemma StaleStays(w: World, v: World, x: Token)
    requires Inv(w) && Inv(v) && Advances(w, v) && x in w.execs && Stale(w, w.execs[x])
    ensures x in v.execs && Stale(v, v.execs[x])
  {
    var e := w.execs[x];
    ExecBearsOldTokens(w, x);
    assert SameExec(e, v.execs[x]);
    assert ExecOk(v.rows.runs, v.log, v.now, x, v.execs[x]);
    assert RunOk(v.rows.authorizations, v.rows.runs[v.execs[x].run], v.nextToken);
    assert AuthorizationOk(v.rows.connections, v.rows.authorizations[e.authorization], v.nextToken);
  }

  lemma OtherStepsKeepExecs(cfg: Config, w: World, s: Step, x: Token)
    requires x in w.execs && w.nextToken !in w.execs && !OfExec(s) && !OfCutover(s)
    ensures x in ApplyRows(cfg, w, s).execs && ApplyRows(cfg, w, s).execs[x] == w.execs[x]
  {
  }

  lemma CutoverKeepsExecs(w: World, s: Step)
    requires OfCutover(s) && s.k in w.cutovers
    ensures ApplyCutover(w, s).execs == w.execs
  {
  }

  lemma MoveLandsNothing(w: World, v: World, y: Token, x: Token)
    requires Inv(w) && Moves(w, v, y) && x in w.execs && Stale(w, w.execs[x])
    ensures x in v.execs && (v.execs[x].phase.Landed? ==> w.execs[x].phase.Landed?)
  {
    assert ExecOk(w.rows.runs, w.log, w.now, x, w.execs[x]);
  }

  /** The execution is still there, and has not landed unless it had before. */
  predicate LandsNothing(w: World, v: World, x: Token) {
    x in w.execs && x in v.execs && (v.execs[x].phase.Landed? ==> w.execs[x].phase.Landed?)
  }

  lemma StaleExecStep(cfg: Config, w: World, s: Step, x: Token)
    requires Inv(w) && x in w.execs && Stale(w, w.execs[x]) && OfExec(s) && s.x in w.execs
    ensures LandsNothing(w, ApplyExec(cfg, w, s), x)
  {
    hide Inv, Stale, Moves;
    MoveLandsNothing(w, ApplyExec(cfg, w, s), s.x, x);
  }

  lemma OtherStep(cfg: Config, w: World, s: Step, x: Token)
    requires Inv(w) && x in w.execs && !OfExec(s) && !OfCutover(s)
    ensures LandsNothing(w, ApplyRows(cfg, w, s), x)
  {
    NextTokenIsFree(w);
    hide Inv, ApplyRows;
    OtherStepsKeepExecs(cfg, w, s, x);
  }

  lemma StaleStepLandsNothing(cfg: Config, w: World, s: Step, x: Token)
    requires Inv(w) && x in w.execs && Stale(w, w.execs[x])
    ensures LandsNothing(w, Apply(cfg, w, s), x)
  {
    hide Inv, Stale, Moves, ApplyExec, ApplyRows, ApplyCutover;
    if OfExec(s) {
      if s.x in w.execs { StaleExecStep(cfg, w, s, x); }
    } else if OfCutover(s) {
      if s.k in w.cutovers { CutoverKeepsExecs(w, s); }
    } else {
      OtherStep(cfg, w, s, x);
    }
  }

  /** An execution whose generations were rotated away never commits. */
  lemma {:induction false} StaleNeverLands(cfg: Config, w: World, steps: seq<Step>, x: Token)
    requires Inv(w) && x in w.execs && Stale(w, w.execs[x])
    ensures var v := Run(cfg, w, steps); x in v.execs && (v.execs[x].phase.Landed? ==> w.execs[x].phase.Landed?)
    decreases |steps|
  {
    if steps != [] {
      var v := Apply(cfg, w, steps[0]);
      StepKeeps(cfg, w, steps[0]);
      StepAdvances(cfg, w, steps[0]);
      StaleStepLandsNothing(cfg, w, steps[0], x);
      StaleStays(w, v, x);
      StaleNeverLands(cfg, v, steps[1..], x);
    }
  }

  /** The step takes the user's, or everyone's, access away for the moment. */
  predicate Denies(cfg: Config, w: World, s: Step, c: nat, email: string) {
    match s
    case Disconnect(d, e, next) =>
      d == c && e == email && ActiveConnection(w.rows, w.configured, cfg.allowedDomain, c) && Covers(w.rows, w.nextToken, next)
    case Complete(g, a, next) =>
      && g.connection == c && g.email == email && CanComplete(w.rows, w.configured, cfg.allowedDomain, g, a)
      && Covers(w.rows, w.nextToken, next) && FreshFor(w.nextToken, a) < next
    case DenyConnection(k, next) =>
      && k in w.cutovers && w.cutovers[k].phase.CutStarted? && w.cutovers[k].connection == c
      && c in w.rows.connections && w.rows.connections[c].hasRoot && Covers(w.rows, w.nextToken + 1, next)
    case _ => false
  }

  lemma DisconnectRotates(rows: Rows, c: nat, email: string, base: Token, a: nat)
    requires a in AuthorizationsOf(rows, c, email)
    ensures a in DisconnectTx(rows, c, email, base).authorizations && DisconnectTx(rows, c, email, base).authorizations[a].generation >= base
  {
  }

  lemma CompleteRotates(rows: Rows, allowedDomain: string, g: Grant, row: nat, base: Token, a: nat)
    requires a in AuthorizationsOf(rows, g.connection, g.email)
    ensures var after := CompleteTx(rows, allowedDomain, g, row, base).authorizations; a in after && after[a].generation >= base
  {
  }

  /** What such a step leads to. */
  function DeniedWorld(cfg: Config, w: World, s: Step): World
    requires s.Disconnect? || s.Complete? || (s.DenyConnection? && s.k in w.cutovers && w.cutovers[s.k].connection in w.rows.connections)
  {
    match s
    case Disconnect(c, email, next) => w.(rows := DisconnectTx(w.rows, c, email, w.nextToken), nextToken := next)
    case Complete(g, a, next) => w.(rows := CompleteTx(w.rows, cfg.allowedDomain, g, a, w.nextToken), nextToken := next)
    case DenyConnection(k, next) =>
      var cut := w.cutovers[k];
      Notes(w.(rows := DenyTx(w.rows, cut.connection, w.nextToken), nextToken := next), k,
            cut.(phase := CutDenied, denied := true, generation := w.nextToken, deniedAt := |w.log|),
            [ConnectionDenied(k, cut.connection, w.nextToken)])
  }

  lemma AppliesDenial(cfg: Config, w: World, s: Step, c: nat, email: string)
    requires Denies(cfg, w, s, c, email)
    ensures Apply(cfg, w, s) == DeniedWorld(cfg, w, s)
  {
  }

  lemma DenialRotates(rows: Rows, c: nat, base: Token)
    requires c in rows.connections
    ensures c in DenyTx(rows, c, base).connections && DenyTx(rows, c, base).connections[c].generation == base
  {
  }

  lemma DenialMakesStale(cfg: Config, w: World, s: Step, c: nat, email: string, x: Token)
    requires Inv(w) && Denies(cfg, w, s, c, email) && x in w.execs && w.execs[x].connection == c
    requires s.DenyConnection? || w.execs[x].authorization in AuthorizationsOf(w.rows, c, email)
    ensures DeniedWorld(cfg, w, s).execs == w.execs && Stale(DeniedWorld(cfg, w, s), w.execs[x])
  {
    ExecBearsOldTokens(w, x);
    if s.Disconnect? {
      DisconnectRotates(w.rows, c, email, w.nextToken, w.execs[x].authorization);
    } else if s.Complete? {
      CompleteRotates(w.rows, cfg.allowedDomain, s.grant, s.row, w.nextToken, w.execs[x].authorization);
    } else {
      DenialRotates(w.rows, c, w.nextToken);
    }
  }

  /** No execution that began before a disconnect, a reconnect or a denial commits after it, however
      its remaining steps and those of anyone else fall. */
  lemma DenialIsFinal(cfg: Config, w: World, s: Step, c: nat, email: string, steps: seq<Step>, x: Token)
    requires Inv(w) && Denies(cfg, w, s, c, email) && x in w.execs && w.execs[x].connection == c
    requires s.DenyConnection? || w.execs[x].authorization in AuthorizationsOf(w.rows, c, email)
    ensures var v := Run(cfg, Apply(cfg, w, s), steps); x in v.execs && (v.execs[x].phase.Landed? ==> w.execs[x].phase.Landed?)
  {
    StepKeeps(cfg, w, s);
    AppliesDenial(cfg, w, s, c, email);
    DenialMakesStale(cfg, w, s, c, email, x);
    StaleNeverLands(cfg, DeniedWorld(cfg, w, s), steps, x);
  }

  // ----- the cutover

  /** What an attempt must have done before it may enable the connection. */
  predicate CleanedUp(log: seq<Event>, k: nat, cut: Cutover) {
    && At(log, cut.deniedAt, ConnectionDenied(k, cut.connection, cut.generation))
    && |cut.emptyAt| >= |MANAGED_RESOURCE_TYPES|
    && forall i :: 0 <= i < |cut.emptyAt| ==> EmptyAfter(log, k, cut, i)
  }

  /** A disabled connection is enabled only by the attempt whose own denial set the present
      generation, and which afterwards read every kind of tuple empty. */
  lemma OnlyItsCutoverEnables(cfg: Config, w: World, s: Step, c: nat)
    requires Inv(w) && c in w.rows.connections && !w.rows.connections[c].enabled
    requires c in Apply(cfg, w, s).rows.connections && Apply(cfg, w, s).rows.connections[c].enabled
    ensures s.Activate? && s.k in w.cutovers && w.cutovers[s.k].connection == c
    ensures w.rows.connections[c].generation == w.cutovers[s.k].generation && CleanedUp(w.log, s.k, w.cutovers[s.k])
    ensures Apply(cfg, w, s).rows.connections[c].authority == w.cutovers[s.k].target
  {
    if OfExec(s) {
    } else if OfCutover(s) {
      CutoverEnables(w, s, c);
    } else {
      RowStepsEnableNothing(cfg, w, s, c);
    }
  }

  lemma RowStepsEnableNothing(cfg: Config, w: World, s: Step, c: nat)
    requires c in w.rows.connections && !OfExec(s) && !OfCutover(s)
    ensures c in ApplyRows(cfg, w, s).rows.connections
    ensures ApplyRows(cfg, w, s).rows.connections[c].enabled == w.rows.connections[c].enabled
  {
  }

  lemma CutoverEnables(w: World, s: Step, c: nat)
    requires Inv(w) && OfCutover(s) && s.k in w.cutovers && c in w.rows.connections && !w.rows.connections[c].enabled
    requires c in ApplyCutover(w, s).rows.connections && ApplyCutover(w, s).rows.connections[c].enabled
    ensures s.Activate? && w.cutovers[s.k].connection == c && w.rows.connections[c].generation == w.cutovers[s.k].generation
    ensures CleanedUp(w.log, s.k, w.cutovers[s.k]) && ApplyCutover(w, s).rows.connections[c].authority == w.cutovers[s.k].target
  {
    CleanupEnablesNothing(w, s, c);
    if s.DenyConnection? {
      DenyEnablesNothing(w, s.k, s.next, c);
    } else {
      ActivateEnablesItsOwn(w, s.k, c);
    }
  }

  lemma CleanupEnablesNothing(w: World, s: Step, c: nat)
    requires OfCutover(s) && s.k in w.cutovers && c in w.rows.connections
    ensures !s.DenyConnection? && !s.Activate? ==> ApplyCutover(w, s).rows == w.rows
  {
  }

  lemma DenyEnablesNothing(w: World, k: nat, next: Token, c: nat)
    requires k in w.cutovers && c in w.rows.connections && !w.rows.connections[c].enabled
    ensures c in DenyCut(w, k, next).rows.connections && !DenyCut(w, k, next).rows.connections[c].enabled
  {
  }

  lemma ActivateEnablesItsOwn(w: World, k: nat, c: nat)
    requires Inv(w) && k in w.cutovers && c in w.rows.connections && !w.rows.connections[c].enabled
    requires c in ActivateCut(w, k).rows.connections && ActivateCut(w, k).rows.connections[c].enabled
    ensures w.cutovers[k].connection == c && w.rows.connections[c].generation == w.cutovers[k].generation
    ensures CleanedUp(w.log, k, w.cutovers[k]) && ActivateCut(w, k).rows.connections[c].authority == w.cutovers[k].target
  {
    assert CutoverOk(w.rows.connections, w.log, w.nextToken, k, w.cutovers[k]);
  }

  /** As long as a connection is disabled there is no positive evidence and no active authorization on it. */
  lemma DisabledMeansDenied(w: World, c: nat)
    requires Inv(w) && c in w.rows.connections && !w.rows.connections[c].enabled
    ensures forall a :: a in OfConnection(w.rows, c) ==> !w.rows.authorizations[a].status.Active?
    ensures forall k :: k in w.rows.evidence && k.authorization in OfConnection(w.rows, c) ==> !w.rows.evidence[k].state.Visible?
  {
    forall a | a in OfConnection(w.rows, c) ensures !w.rows.authorizations[a].status.Active? {
      assert AuthorizationOk(w.rows.connections, w.rows.authorizations[a], w.nextToken);
    }
    forall k | k in w.rows.evidence && k.authorization in OfConnection(w.rows, c) ensures !w.rows.evidence[k].state.Visible? {
      assert EvidenceRowOk(w.rows.connections, w.rows.authorizations, w.execs, w.log, k, w.rows.evidence[k]);
    }
  }

  /** Without an activation a disabled connection stays disabled, and everything on it denied, whoever
      does what else: an attempt that stops in between leaves it so. */
  lemma {:induction false} StaysDenied(cfg: Config, w: World, steps: seq<Step>, c: nat)
    requires Inv(w) && c in w.rows.connections && !w.rows.connections[c].enabled
    requires forall i :: 0 <= i < |steps| ==> !steps[i].Activate?
    ensures var v := Run(cfg, w, steps);
            && c in v.rows.connections && !v.rows.connections[c].enabled
            && (forall a :: a in OfConnection(v.rows, c) ==> !v.rows.authorizations[a].status.Active?)
            && (forall k :: k in v.rows.evidence && k.authorization in OfConnection(v.rows, c) ==> !v.rows.evidence[k].state.Visible?)
    decreases |steps|
  {
    if steps == [] {
      DisabledMeansDenied(w, c);
    } else {
      StepKeeps(cfg, w, steps[0]);
      StepKeepsConnection(cfg, w, steps[0], c);
      StaysDenied(cfg, Apply(cfg, w, steps[0]), steps[1..], c);
    }
  }

  lemma StepKeepsConnection(cfg: Config, w: World, s: Step, c: nat)
    requires Inv(w) && c in w.rows.connections && !w.rows.connections[c].enabled && !s.Activate?
    ensures c in Apply(cfg, w, s).rows.connections && !Apply(cfg, w, s).rows.connections[c].enabled
  {
    if OfExec(s) {
    } else if OfCutover(s) {
      if s.k in w.cutovers {
        CleanupEnablesNothing(w, s, c);
        if s.DenyConnection? { DenyEnablesNothing(w, s.k, s.next, c); }
      }
    } else {
      RowStepsEnableNothing(cfg, w, s, c);
    }
  }

  /** No email ever has two active authorizations on one connection. */
  lemma AtMostOneActive(cfg: Config, w: World, steps: seq<Step>, a: nat, b: nat)
    requires Initial(w)
    requires var rows := Run(cfg, w, steps).rows.authorizations; a in rows && b in rows && BothActive(rows[a], rows[b])
    ensures a == b
  {
    Reachable(cfg, w, steps);
  }

  // ----- a commit is all or nothing

  /** The scope is valid, and every candidate is active and its row still marked by this execution. */
  predicate MayLand(w: World, x: Token, e: Exec) {
    && ScopeValid(w.rows, w.configured, e.run)
    && (forall d :: d in e.candidates ==> d in Candidates(w.rows, e.connection))
    && (forall d :: d in e.candidates ==> BearsMarker(w.rows.evidence, Key(e.authorization, d), x))
  }

  predicate WrittenBy(evidence: map<Key, Evidence>, x: Token, e: Exec, d: nat) {
    && Key(e.authorization, d) in evidence && d in e.answers
    && var row := evidence[Key(e.authorization, d)];
       && row.state == e.answers[d].state && row.marker == x && row.checkedAt == e.time
       && row.connectionGeneration == e.connectionGeneration && row.authorizationGeneration == e.authorizationGeneration
  }

  /** The row of every candidate shows its answer, and the run counts every candidate once. */
  predicate LandedWhole(rows: Rows, x: Token, e: Exec) {
    && (forall d :: d in e.candidates ==> WrittenBy(rows.evidence, x, e, d))
    && e.run in rows.runs
    && var run := rows.runs[e.run];
       && run.visible + run.denied + run.unknown == run.considered == |e.candidates|
       && run.status == if run.unknown > 0 then Partial else Succeeded
  }

  lemma MayLandIsCommit(w: World, x: Token)
    requires Inv(w) && x in w.execs && w.execs[x].phase.Stamped?
    ensures var e := w.execs[x]; CommitTx(w.rows, w.configured, e.run, x, e.answers, e.time, e.revision).Ok? <==> MayLand(w, x, e)
  {
    assert ExecOk(w.rows.runs, w.log, w.now, x, w.execs[x]);
  }

  lemma CommitWritesWhole(rows: Rows, configured: Authority, x: Token, e: Exec, landed: Rows)
    requires e.run in rows.runs && SameJob(rows.runs[e.run], e) && e.answers.Keys == e.candidates
    requires CommitTx(rows, configured, e.run, x, e.answers, e.time, e.revision) == Ok(landed)
    ensures LandedWhole(landed, x, e)
  {
    CountsAddUp(e.answers);
    assert |e.answers| == |e.answers.Keys|;
    forall d | d in e.candidates ensures WrittenBy(landed.evidence, x, e, d) {
      assert BearsMarker(rows.evidence, Key(e.authorization, d), x);
    }
  }

  /** A commit lands whole exactly when it may, and otherwise changes no row at all. */
  lemma CommitIsAllOrNothing(w: World, x: Token)
    requires Inv(w) && x in w.execs && w.execs[x].phase.Stamped?
    ensures MayLand(w, x, w.execs[x]) ==> CommitExec(w, x).execs[x].phase.Landed? && LandedWhole(CommitExec(w, x).rows, x, w.execs[x])
    ensures !MayLand(w, x, w.execs[x]) ==> CommitExec(w, x).execs[x].phase.Stopped? && CommitExec(w, x).rows == w.rows
  {
    var e := w.execs[x];
    MayLandIsCommit(w, x);
    assert ExecOk(w.rows.runs, w.log, w.now, x, e);
    var tx := CommitTx(w.rows, w.configured, e.run, x, e.answers, e.time, e.revision);
    if tx.Ok? { CommitWritesWhole(w.rows, w.configured, x, e, tx.value); }
  }

  /** A row another execution marked later does not bear this one's marker. */
  lemma RemarkedIsLost(w: World, x: Token, y: Token, d: nat)
    requires Inv(w) && x in w.execs && y in w.execs && w.execs[x].authorization == w.execs[y].authorization
    requires w.execs[x].marked && w.execs[y].marked && w.execs[x].markedAt < w.execs[y].markedAt
    requires d in w.execs[y].candidates
    ensures !BearsMarker(w.rows.evidence, Key(w.execs[x].authorization, d), x)
  {
    var k := Key(w.execs[x].authorization, d);
    assert ExecOk(w.rows.runs, w.log, w.now, y, w.execs[y]);
    assert MarksRow(w.log[w.execs[y].markedAt], k.authorization, d);
    assert k in w.rows.evidence ==> EvidenceRowOk(w.rows.connections, w.rows.authorizations, w.execs, w.log, k, w.rows.evidence[k]);
  }

  /** An execution any of whose candidates was marked anew by another never commits. */
  lemma RemarkedNeverLands(w: World, x: Token, y: Token, d: nat)
    requires Inv(w) && x in w.execs && y in w.execs && w.execs[x].authorization == w.execs[y].authorization
    requires w.execs[x].phase.Stamped? && w.execs[y].marked && w.execs[x].markedAt < w.execs[y].markedAt
    requires d in w.execs[x].candidates && d in w.execs[y].candidates
    ensures CommitExec(w, x).execs[x].phase.Stopped? && CommitExec(w, x).rows == w.rows
  {
    assert ExecOk(w.rows.runs, w.log, w.now, x, w.execs[x]);
    RemarkedIsLost(w, x, y, d);
    CommitIsAllOrNothing(w, x);
  }
}
