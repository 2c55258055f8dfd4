/** What an execution of the per-user mode has passed by the time it asks Drive, aims at the user's
    grants and writes them. Each check is shown as it stood on the columns at its own step. */
module AccessGates {
  import opened AccessProtocol
  import opened TupleStore
  import opened VisibilityRows
  import AccessHistory

  predicate Early(p: Phase) {
    p.Begun? || p.Pending? || p.Scoped?
  }

  predicate HasLoaded(p: Phase) {
    p.Loaded? || p.Listed? || HasChecked(p)
  }

  predicate HasChecked(p: Phase) {
    p.Checked? || HasAimed(p)
  }

  predicate HasAimed(p: Phase) {
    p.Aimed? || HasResolved(p)
  }

  predicate HasResolved(p: Phase) {
    p.Resolved? || p.Writing? || p.Exact? || p.Stamped? || p.Landed?
  }

  /** Past the load, or stopped with answers of Drive. */
  predicate Asks(e: Exec) {
    HasLoaded(e.phase) || e.answers != map[]
  }

  /** The authorization is usable on an enabled connection with a root, and the execution holds both generations. */
  predicate MayAsk(w: World, e: Exec) {
    && e.authorization in w.rows.authorizations
    && var row := w.rows.authorizations[e.authorization];
       && row.status == Active && row.hasScopes && row.hasCredential && row.connection in w.rows.connections
       && var c := w.rows.connections[row.connection];
          && w.configured == PerUserOauth && c.enabled && c.authority == PerUserOauth && c.hasRoot
          && e.batchConnectionGeneration == row.connectionGeneration == c.generation
          && e.batchAuthorizationGeneration == row.generation
  }

  /** The connection is the execution's own still, and both it and the email are of the allowed domain. */
  predicate MayAim(cfg: Config, w: World, e: Exec) {
    && e.connection in w.rows.connections
    && var c := w.rows.connections[e.connection];
       && w.configured == PerUserOauth && c.enabled && c.authority == PerUserOauth && c.hasRoot
       && c.generation == e.connectionGeneration && c.domain == cfg.allowedDomain && InAllowedDomain(e.email, cfg.allowedDomain)
  }

  /** Every document that Drive showed is in scope of the connection, and they are no more than the cap. */
  predicate MayGrant(cfg: Config, w: World, e: Exec) {
    && |set d | d in e.answers && e.answers[d].state == Visible| <= cfg.cap
    && forall d :: d in e.answers && e.answers[d].state == Visible ==>
         d in w.rows.documents && w.rows.documents[d].connection == e.connection && w.rows.documents[d].active
  }

  ghost predicate AskedBefore(cfg: Config, w: World, steps: seq<Step>, n: nat, e: Exec)
    requires n <= |steps|
  {
    exists i :: 0 <= i < n && MayAsk(Run(cfg, w, steps[..i]), e)
  }

  ghost predicate AimedBefore(cfg: Config, w: World, steps: seq<Step>, n: nat, e: Exec)
    requires n <= |steps|
  {
    exists i :: 0 <= i < n && MayAim(cfg, Run(cfg, w, steps[..i]), e) && AskedBefore(cfg, w, steps, i, e)
  }

  ghost predicate ResolvedBefore(cfg: Config, w: World, steps: seq<Step>, n: nat, e: Exec)
    requires n <= |steps|
  {
    exists i :: 0 <= i < n && MayGrant(cfg, Run(cfg, w, steps[..i]), e) && AimedBefore(cfg, w, steps, i, e)
  }

  /** Whoever holds an answer of Drive or got past the load was let ask; whoever aims at the grants was
      so under the generations it began with, and was let aim after that; and whoever goes on to read and
      write them was let grant after that. */
  ghost predicate Passed(cfg: Config, w: World, steps: seq<Step>, e: Exec) {
    && InOrder(e)
    && (Asks(e) ==> AskedBefore(cfg, w, steps, |steps|, e))
    && (HasChecked(e.phase) ==> Matches(e))
    && (HasAimed(e.phase) ==> AimedBefore(cfg, w, steps, |steps|, e))
    && (HasResolved(e.phase) ==> ResolvedBefore(cfg, w, steps, |steps|, e))
  }

  // ----- one step

  /** What a check that was passed speaks of does not change. */
  predicate Holds(e: Exec, f: Exec) {
    && SameExec(e, f)
    && (Asks(e) ==> && f.batchConnectionGeneration == e.batchConnectionGeneration
                    && f.batchAuthorizationGeneration == e.batchAuthorizationGeneration && f.email == e.email)
    && (HasChecked(e.phase) ==> f.answers == e.answers && f.candidates == e.candidates)
  }

  /** The answers are those for the documents marked, under the generations the execution began with. */
  predicate Matches(e: Exec) {
    && e.batchConnectionGeneration == e.connectionGeneration && e.batchAuthorizationGeneration == e.authorizationGeneration
    && e.answers.Keys == e.candidates
  }

  /** A step that takes an execution past a check finds the check's columns so. */
  predicate GoesOn(cfg: Config, w: World, e: Exec, f: Exec) {
    && Holds(e, f)
    && InOrder(f)
    && (Asks(f) ==> Asks(e) || MayAsk(w, f))
    && (HasChecked(f.phase) ==> HasChecked(e.phase) || (Asks(e) && Matches(f)))
    && (HasAimed(f.phase) ==> HasAimed(e.phase) || (HasChecked(e.phase) && MayAim(cfg, w, f)))
    && (HasResolved(f.phase) ==> HasResolved(e.phase) || (HasAimed(e.phase) && MayGrant(cfg, w, f)))
  }

  /** Its answers came after the load. */
  predicate InOrder(e: Exec) {
    Early(e.phase) ==> e.answers == map[]
  }

  lemma PreinvalidateGoesOn(cfg: Config, w: World, x: Token)
    requires x in w.execs && InOrder(w.execs[x])
    ensures GoesOn(cfg, w, w.execs[x], PreinvalidateExec(cfg, w, x).execs[x])
  {
    hide Moves, PreinvalidateTx, MayAsk, MayAim, MayGrant;
  }

  lemma ReloadGoesOn(cfg: Config, w: World, x: Token)
    requires x in w.execs && InOrder(w.execs[x])
    ensures GoesOn(cfg, w, w.execs[x], ReloadExec(w, x).execs[x])
  {
    hide Moves, ScopeValid, MayAsk, MayAim, MayGrant;
  }

  lemma LoadGoesOn(cfg: Config, w: World, x: Token)
    requires x in w.execs && InOrder(w.execs[x])
    ensures GoesOn(cfg, w, w.execs[x], LoadExec(w, x).execs[x])
  {
    hide Moves, MayAim, MayGrant;
  }

  lemma ListGoesOn(cfg: Config, w: World, x: Token)
    requires x in w.execs && InOrder(w.execs[x])
    ensures GoesOn(cfg, w, w.execs[x], ListExec(cfg, w, x).execs[x])
  {
    hide Moves, MayAsk, MayAim, MayGrant, Candidates;
  }

  lemma AskGoesOn(cfg: Config, w: World, x: Token, d: nat, answer: Answer)
    requires x in w.execs && InOrder(w.execs[x])
    ensures GoesOn(cfg, w, w.execs[x], AskExec(w, x, d, answer).execs[x])
  {
    hide Moves, MayAsk, MayAim, MayGrant;
  }

  lemma ValidatedGoesOn(cfg: Config, w: World, x: Token)
    requires x in w.execs && InOrder(w.execs[x])
    ensures GoesOn(cfg, w, w.execs[x], ValidateResultsExec(w, x).execs[x])
  {
    hide Moves, MayAsk, MayAim, MayGrant;
  }

  lemma ConnectionGoesOn(cfg: Config, w: World, x: Token)
    requires x in w.execs && InOrder(w.execs[x])
    ensures GoesOn(cfg, w, w.execs[x], ValidateConnectionExec(cfg, w, x).execs[x])
  {
    hide Moves, MayAsk, MayGrant, InAllowedDomain;
  }

  lemma ResolveGoesOn(cfg: Config, w: World, x: Token)
    requires x in w.execs && InOrder(w.execs[x])
    ensures GoesOn(cfg, w, w.execs[x], ResolveExec(cfg, w, x).execs[x])
  {
    hide Moves, MayAsk, MayAim;
    var e := w.execs[x];
    var f := ResolveExec(cfg, w, x).execs[x];
    if e.phase.Aimed? && f.phase.Resolved? {
      forall d | d in f.answers && f.answers[d].state == Visible ensures d in Candidates(w.rows, e.connection) { assert d in VisibleOf(e.answers); }
      assert VisibleOf(e.answers) == set d | d in f.answers && f.answers[d].state == Visible;
      assert MayGrant(cfg, w, f);
    }
  }

  lemma WritesGoOn(cfg: Config, w: World, x: Token, plan: seq<Update>, n: nat, token: string)
    requires x in w.execs && InOrder(w.execs[x])
    ensures GoesOn(cfg, w, w.execs[x], ReadGrantsExec(w, x, plan).execs[x])
    ensures GoesOn(cfg, w, w.execs[x], WriteBatchExec(w, x, n, token).execs[x])
    ensures GoesOn(cfg, w, w.execs[x], VerifyExec(w, x).execs[x])
  {
    hide Moves, MayAsk, MayAim, MayGrant, IsPlan, GrantsNow, Desired;
  }

  lemma EndsGoOn(cfg: Config, w: World, x: Token)
    requires x in w.execs && InOrder(w.execs[x])
    ensures GoesOn(cfg, w, w.execs[x], StampExec(w, x).execs[x])
    ensures GoesOn(cfg, w, w.execs[x], CommitExec(w, x).execs[x])
    ensures GoesOn(cfg, w, w.execs[x], StopExec(w, x).execs[x])
  {
    hide Moves, MayAsk, MayAim, MayGrant, CommitTx;
  }

  lemma ExecGoesOn(cfg: Config, w: World, s: Step)
    requires OfExec(s) && s.x in w.execs && InOrder(w.execs[s.x])
    ensures GoesOn(cfg, w, w.execs[s.x], ApplyExec(cfg, w, s).execs[s.x]) <==> true
  {
    hide Moves, GoesOn, InOrder, PreinvalidateExec, ReloadExec, LoadExec, ListExec, AskExec, ValidateResultsExec, ValidateConnectionExec,
         ResolveExec, ReadGrantsExec, WriteBatchExec, VerifyExec, StampExec, CommitExec, StopExec;
    match s
    case Preinvalidate(x) => PreinvalidateGoesOn(cfg, w, x);
    case Reload(x) => ReloadGoesOn(cfg, w, x);
    case LoadAuthorization(x) => LoadGoesOn(cfg, w, x);
    case ListDocuments(x) => ListGoesOn(cfg, w, x);
    case Ask(x, d, answer) => AskGoesOn(cfg, w, x, d, answer);
    case ValidateResults(x) => ValidatedGoesOn(cfg, w, x);
    case ValidateConnection(x) => ConnectionGoesOn(cfg, w, x);
    case ResolveDocuments(x) => ResolveGoesOn(cfg, w, x);
    case ReadGrants(x, plan) => WritesGoOn(cfg, w, x, plan, 0, "");
    case WriteBatch(x, n, token) => WritesGoOn(cfg, w, x, [], n, token);
    case VerifyGrants(x) => WritesGoOn(cfg, w, x, [], 0, "");
    case Stamp(x) => EndsGoOn(cfg, w, x);
    case Commit(x) => EndsGoOn(cfg, w, x);
    case Stop(x) => EndsGoOn(cfg, w, x);
  }

  // ----- whole runs

  lemma LaterStill(cfg: Config, w: World, init: seq<Step>, last: Step, n: nat, e: Exec, f: Exec)
    requires n <= |init| && Holds(e, f)
    ensures Asks(e) && AskedBefore(cfg, w, init, n, e) ==> AskedBefore(cfg, w, init + [last], n, f)
  {
    hide Run;
    var steps := init + [last];
    if Asks(e) && AskedBefore(cfg, w, init, n, e) {
      var i :| 0 <= i < n && MayAsk(Run(cfg, w, init[..i]), e);
      assert steps[..i] == init[..i];
      assert MayAsk(Run(cfg, w, steps[..i]), f);
    }
  }

  lemma AimedStill(cfg: Config, w: World, init: seq<Step>, last: Step, n: nat, e: Exec, f: Exec)
    requires n <= |init| && Holds(e, f) && HasAimed(e.phase) && AimedBefore(cfg, w, init, n, e)
    ensures AimedBefore(cfg, w, init + [last], n, f)
  {
    hide Run, InAllowedDomain;
    var steps := init + [last];
    var i :| 0 <= i < n && MayAim(cfg, Run(cfg, w, init[..i]), e) && AskedBefore(cfg, w, init, i, e);
    assert steps[..i] == init[..i];
    LaterStill(cfg, w, init, last, i, e, f);
    assert MayAim(cfg, Run(cfg, w, steps[..i]), f);
  }

  lemma ResolvedStill(cfg: Config, w: World, init: seq<Step>, last: Step, e: Exec, f: Exec)
    requires Holds(e, f) && HasResolved(e.phase) && ResolvedBefore(cfg, w, init, |init|, e)
    ensures ResolvedBefore(cfg, w, init + [last], |init|, f)
  {
    hide Run, AskedBefore;
    var steps := init + [last];
    var i :| 0 <= i < |init| && MayGrant(cfg, Run(cfg, w, init[..i]), e) && AimedBefore(cfg, w, init, i, e);
    assert steps[..i] == init[..i];
    AimedStill(cfg, w, init, last, i, e, f);
    assert MayGrant(cfg, Run(cfg, w, steps[..i]), f);
  }

  lemma PassedOn(cfg: Config, w: World, init: seq<Step>, last: Step, e: Exec, f: Exec)
    requires Passed(cfg, w, init, e) && GoesOn(cfg, Run(cfg, w, init), e, f)
    ensures Passed(cfg, w, init + [last], f)
  {
    hide Run, MayAsk, MayAim, MayGrant;
    var steps, n := init + [last], |init|;
    assert steps[..n] == init;
    LaterStill(cfg, w, init, last, n, e, f);
    if HasAimed(e.phase) { AimedStill(cfg, w, init, last, n, e, f); }
    if HasResolved(e.phase) { ResolvedStill(cfg, w, init, last, e, f); }
    if Asks(f) { assert AskedBefore(cfg, w, steps, n + 1, f); }
    if HasAimed(f.phase) { assert AimedBefore(cfg, w, steps, n + 1, f); }
    if HasResolved(f.phase) { assert ResolvedBefore(cfg, w, steps, n + 1, f); }
  }

  lemma StillPassed(cfg: Config, w: World, init: seq<Step>, last: Step, e: Exec)
    requires Passed(cfg, w, init, e)
    ensures Passed(cfg, w, init + [last], e)
  {
    assert GoesOn(cfg, Run(cfg, w, init), e, e);
    PassedOn(cfg, w, init, last, e, e);
  }

  lemma NewHasPassed(cfg: Config, w: World, steps: seq<Step>, e: Exec)
    requires e.phase.Begun? && e.answers == map[]
    ensures Passed(cfg, w, steps, e)
  {
  }

  /** A step that is not the execution's leaves it alone, or begins it. */
  lemma OthersLeave(cfg: Config, w: World, s: Step, x: Token)
    requires x in Apply(cfg, w, s).execs && (OfExec(s) && s.x in w.execs ==> s.x != x)
    ensures || (x in w.execs && Apply(cfg, w, s).execs[x] == w.execs[x])
            || (Apply(cfg, w, s).execs[x].phase.Begun? && Apply(cfg, w, s).execs[x].answers == map[])
  {
    hide ApplyExec;
    if OfExec(s) && s.x in w.execs { assert Moves(w, ApplyExec(cfg, w, s), s.x); }
  }

  lemma LastStepPasses(cfg: Config, w: World, init: seq<Step>, last: Step, x: Token)
    requires x in Run(cfg, w, init + [last]).execs && (x in Run(cfg, w, init).execs ==> Passed(cfg, w, init, Run(cfg, w, init).execs[x]))
    ensures Passed(cfg, w, init + [last], Run(cfg, w, init + [last]).execs[x])
  {
    hide Passed, Run, ApplyExec, ApplyCutover, ApplyRows, Moves;
    var u := Run(cfg, w, init);
    AccessHistory.RunMore(cfg, w, init, last);
    if OfExec(last) && last.x in u.execs && last.x == x {
      PassedInOrder(cfg, w, init, u.execs[x]);
      ExecGoesOn(cfg, u, last);
      PassedOn(cfg, w, init, last, u.execs[x], ApplyExec(cfg, u, last).execs[x]);
    } else {
      OthersLeave(cfg, u, last, x);
      if x in u.execs && Apply(cfg, u, last).execs[x] == u.execs[x] {
        StillPassed(cfg, w, init, last, u.execs[x]);
      } else {
        NewHasPassed(cfg, w, init + [last], Apply(cfg, u, last).execs[x]);
      }
    }
  }

  lemma PassedInOrder(cfg: Config, w: World, steps: seq<Step>, e: Exec)
    requires Passed(cfg, w, steps, e)
    ensures InOrder(e)
  {
  }

  /** Nobody skips a check, however the executions, the cutovers and the disconnects fall between their steps. */
  lemma {:induction false} ChecksWerePassed(cfg: Config, w: World, steps: seq<Step>, x: Token)
    requires w.execs == map[] && x in Run(cfg, w, steps).execs
    ensures Passed(cfg, w, steps, Run(cfg, w, steps).execs[x])
    decreases |steps|
  {
    hide Passed, Apply;
    assert steps != [];
    var init, last := steps[..|steps| - 1], steps[|steps| - 1];
    assert steps == init + [last];
    if x in Run(cfg, w, init).execs { ChecksWerePassed(cfg, w, init, x); }
    LastStepPasses(cfg, w, init, last, x);
  }
}
