/** The history tells the truth: every event in it was so when it was written. */
module AccessHistory {
  import opened Identifiers
  import opened TupleStore
  import opened OAuthViewer
  import opened VisibilityRows
  import opened AccessProtocol
  import opened AccessInvariants
  import opened AccessSafety
  import opened AccessTheorems

  /** The row is unknown and bears the marker. */
  predicate FreshlyMarked(evidence: map<Key, Evidence>, k: Key, marker: Token) {
    BearsMarker(evidence, k, marker) && evidence[k].state.Unknown? && evidence[k].revision == "" && evidence[k].verifiedAt.None?
  }

  /** What an event says of the states before and after the step that wrote it. */
  ghost predicate TrueAt(w: World, v: World, event: Event) {
    match event
    case Marked(x, a, documents) =>
      && x in w.execs && a == w.execs[x].authorization && documents == Candidates(w.rows, w.execs[x].connection)
      && forall d :: d in documents ==> FreshlyMarked(v.rows.evidence, Key(a, d), x)
    case Saw(x, d, answer) => x in w.execs && w.execs[x].phase.Listed? && d in w.execs[x].listed && d !in w.execs[x].answers
    case VerifiedExactly(x, visible) =>
      x in w.execs && GrantsNow(w, w.execs[x]) == GrantsOf(w.execs[x].connection, UserId(w.execs[x].connection, w.execs[x].email), visible)
    case Committed(x, time) =>
      x in w.execs && time == w.execs[x].time && MayLand(w, x, w.execs[x]) && LandedWhole(v.rows, x, w.execs[x])
    case ConnectionDenied(k, c, generation) =>
      && generation >= w.nextToken && c in v.rows.connections && !v.rows.connections[c].enabled && v.rows.connections[c].generation == generation
      && forall d :: d in v.rows.documents && v.rows.documents[d].connection == c ==> !v.rows.documents[d].eligible
    case SawNone(k, kind) =>
      && k in w.cutovers && kind < |MANAGED_RESOURCE_TYPES|
      && forall t :: t in w.tuples && t.resourceType == MANAGED_RESOURCE_TYPES[kind] ==> !(ConnectionPrefix(w.cutovers[k].connection) <= t.resourceId)
    case ConnectionActivated(k, c) =>
      k in w.cutovers && c in v.rows.connections && v.rows.connections[c].enabled && v.rows.connections[c].authority == w.cutovers[k].target
  }

  /** A step adds true events only. */
  ghost predicate AddsTruth(w: World, v: World) {
    w.log <= v.log && forall j :: |w.log| <= j < |v.log| ==> TrueAt(w, v, v.log[j])
  }

  lemma MarkingIsTrue(cfg: Config, w: World, x: Token)
    requires Inv(w) && x in w.execs
    ensures AddsTruth(w, PreinvalidateExec(cfg, w, x))
  {
    var e := w.execs[x];
    if e.phase.Begun? {
      assert ExecOk(w.rows.runs, w.log, w.now, x, e);
      var run := w.rows.runs[e.run];
      var candidates := Candidates(w.rows, run.connection);
      var doubted := Invalidated(w.rows.evidence, run.authorization, "refresh_pending");
      forall d | d in candidates ensures FreshlyMarked(WithMarks(doubted, run, x, w.now, candidates), Key(run.authorization, d), x) {
        assert WithMarks(doubted, run, x, w.now, candidates)[Key(run.authorization, d)] == RefreshPending(run, x, w.now);
      }
    }
  }

  lemma VerifyingIsTrue(w: World, x: Token)
    requires x in w.execs
    ensures AddsTruth(w, VerifyExec(w, x))
  {
  }

  lemma CommitLog(w: World, x: Token)
    requires x in w.execs
    ensures CommitExec(w, x).log == w.log || (w.execs[x].phase.Stamped? && CommitExec(w, x).execs[x].phase.Landed?
                                              && CommitExec(w, x).log == w.log + [Committed(x, w.execs[x].time)])
  {
  }

  lemma LandsOnlyIfItMay(w: World, x: Token)
    requires Inv(w) && x in w.execs && w.execs[x].phase.Stamped? && CommitExec(w, x).execs[x].phase.Landed?
    ensures MayLand(w, x, w.execs[x])
    ensures LandedWhole(CommitExec(w, x).rows, x, w.execs[x])
  {
    CommitIsAllOrNothing(w, x);
  }

  lemma CommitEventIsTrue(w: World, v: World, x: Token)
    requires x in w.execs && v.log == w.log + [Committed(x, w.execs[x].time)]
    requires MayLand(w, x, w.execs[x]) && LandedWhole(v.rows, x, w.execs[x])
    ensures AddsTruth(w, v)
  {
    assert v.log[|w.log|] == Committed(x, w.execs[x].time);
  }

  lemma CommittingIsTrue(w: World, x: Token)
    requires Inv(w) && x in w.execs
    ensures AddsTruth(w, CommitExec(w, x))
  {
    CommitLog(w, x);
    if CommitExec(w, x).log != w.log {
      LandsOnlyIfItMay(w, x);
      CommitEventIsTrue(w, CommitExec(w, x), x);
    }
  }

  lemma AskingIsTrue(w: World, x: Token, d: nat, answer: Answer)
    requires x in w.execs
    ensures AddsTruth(w, AskExec(w, x, d, answer))
  {
  }

  lemma DenyingIsTrue(w: World, k: nat, next: Token)
    requires k in w.cutovers
    ensures AddsTruth(w, DenyCut(w, k, next))
  {
  }

  lemma RecheckingIsTrue(w: World, k: nat)
    requires k in w.cutovers
    ensures AddsTruth(w, RecheckCut(w, k))
  {
    var cut := w.cutovers[k];
    if |cut.emptyAt| < |MANAGED_RESOURCE_TYPES| {
      var none := OfKind(w.tuples, cut.connection, MANAGED_RESOURCE_TYPES[|cut.emptyAt|]);
      forall t | none == {} && t in w.tuples && t.resourceType == MANAGED_RESOURCE_TYPES[|cut.emptyAt|]
        ensures !(ConnectionPrefix(cut.connection) <= t.resourceId)
      {
        assert t !in none;
      }
    }
  }

  lemma ActivatingIsTrue(w: World, k: nat)
    requires k in w.cutovers
    ensures AddsTruth(w, ActivateCut(w, k))
  {
  }

  lemma SilenceIsTrue(w: World, v: World)
    requires v.log == w.log
    ensures AddsTruth(w, v)
  {
  }

  lemma OtherExecStepsAreSilent(cfg: Config, w: World, s: Step)
    requires OfExec(s) && s.x in w.execs && !s.Preinvalidate? && !s.Ask? && !s.VerifyGrants? && !s.Commit?
    ensures AddsTruth(w, ApplyExec(cfg, w, s))
  {
    assert ApplyExec(cfg, w, s).log == w.log;
    SilenceIsTrue(w, ApplyExec(cfg, w, s));
  }

  lemma OtherCutoverStepsAreSilent(w: World, s: Step)
    requires OfCutover(s) && s.k in w.cutovers && !s.DenyConnection? && !s.RecheckKind? && !s.Activate?
    ensures ApplyCutover(w, s).log == w.log
  {
  }

  lemma RowStepsAreSilent(cfg: Config, w: World, s: Step)
    requires !OfExec(s) && !OfCutover(s)
    ensures ApplyRows(cfg, w, s).log == w.log
  {
  }

  lemma CommitStepIsTrue(cfg: Config, w: World, s: Step)
    requires Inv(w) && (s.Commit? || s.Preinvalidate?) && s.x in w.execs
    ensures AddsTruth(w, ApplyExec(cfg, w, s))
  {
    if s.Commit? {
      CommittingIsTrue(w, s.x);
    } else {
      MarkingIsTrue(cfg, w, s.x);
    }
  }

  lemma AskStepIsTrue(cfg: Config, w: World, s: Step)
    requires (s.Ask? || s.VerifyGrants?) && s.x in w.execs
    ensures AddsTruth(w, ApplyExec(cfg, w, s))
  {
    if s.Ask? {
      AskingIsTrue(w, s.x, s.d, s.answer);
    } else {
      VerifyingIsTrue(w, s.x);
    }
  }

  lemma ExecStepIsTrue(cfg: Config, w: World, s: Step)
    requires Inv(w) && OfExec(s) && s.x in w.execs
    ensures AddsTruth(w, ApplyExec(cfg, w, s))
  {
    if s.Commit? || s.Preinvalidate? {
      CommitStepIsTrue(cfg, w, s);
    } else if s.Ask? || s.VerifyGrants? {
      AskStepIsTrue(cfg, w, s);
    } else {
      OtherExecStepsAreSilent(cfg, w, s);
    }
  }

  lemma CutoverStepIsTrue(w: World, s: Step)
    requires OfCutover(s) && s.k in w.cutovers
    ensures AddsTruth(w, ApplyCutover(w, s))
  {
    match s {
      case DenyConnection(k, next) => DenyingIsTrue(w, k, next);
      case RecheckKind(k) => RecheckingIsTrue(w, k);
      case Activate(k) => ActivatingIsTrue(w, k);
      case _ => OtherCutoverStepsAreSilent(w, s);
    }
  }

  lemma StepIsTrue(cfg: Config, w: World, s: Step)
    requires Inv(w)
    ensures AddsTruth(w, Apply(cfg, w, s))
  {
    if OfExec(s) {
      if s.x in w.execs { ExecStepIsTrue(cfg, w, s); }
    } else if OfCutover(s) {
      if s.k in w.cutovers { CutoverStepIsTrue(w, s); }
    } else {
      RowStepsAreSilent(cfg, w, s);
    }
  }

  lemma {:induction false} RunMore(cfg: Config, w: World, steps: seq<Step>, s: Step)
    ensures Run(cfg, w, steps + [s]) == Apply(cfg, Run(cfg, w, steps), s)
    decreases |steps|
  {
    if steps == [] {
      assert [] + [s] == [s] && [s][1..] == [];
      assert Run(cfg, Apply(cfg, w, s), []) == Apply(cfg, w, s);
    } else {
      assert (steps + [s])[1..] == steps[1..] + [s] && (steps + [s])[0] == steps[0];
      RunMore(cfg, Apply(cfg, w, steps[0]), steps[1..], s);
    }
  }

  /** The event was so when step n of the run was taken. */
  ghost predicate WasTrue(cfg: Config, w: World, steps: seq<Step>, n: nat, event: Event) {
    n < |steps| && TrueAt(Run(cfg, w, steps[..n]), Run(cfg, w, steps[..n + 1]), event)
  }

  lemma WasTrueLonger(cfg: Config, w: World, init: seq<Step>, last: Step, n: nat, event: Event)
    requires WasTrue(cfg, w, init, n, event)
    ensures WasTrue(cfg, w, init + [last], n, event)
  {
    assert (init + [last])[..n] == init[..n] && (init + [last])[..n + 1] == init[..n + 1];
  }

  lemma WasTrueBetween(cfg: Config, w: World, steps: seq<Step>, n: nat, v: World, u: World, i: nat)
    requires n < |steps| && v == Run(cfg, w, steps[..n]) && u == Run(cfg, w, steps[..n + 1])
    requires AddsTruth(v, u) && |v.log| <= i < |u.log|
    ensures WasTrue(cfg, w, steps, n, u.log[i])
  {
  }

  lemma LastAddsTruth(cfg: Config, w: World, init: seq<Step>, last: Step)
    requires Inv(w)
    ensures AddsTruth(Run(cfg, w, init), Run(cfg, w, init + [last]))
  {
    RunMore(cfg, w, init, last);
    RunKeeps(cfg, w, init);
    StepIsTrue(cfg, Run(cfg, w, init), last);
  }

  lemma LastWasTrue(cfg: Config, w: World, init: seq<Step>, last: Step, i: nat)
    requires Inv(w) && |Run(cfg, w, init).log| <= i < |Run(cfg, w, init + [last]).log|
    ensures WasTrue(cfg, w, init + [last], |init|, Run(cfg, w, init + [last]).log[i])
  {
    LastAddsTruth(cfg, w, init, last);
    assert (init + [last])[..|init|] == init && (init + [last])[..|init| + 1] == init + [last];
    WasTrueBetween(cfg, w, init + [last], |init|, Run(cfg, w, init), Run(cfg, w, init + [last]), i);
  }

  lemma LogGrowsBy(cfg: Config, w: World, init: seq<Step>, last: Step)
    requires Inv(w)
    ensures Run(cfg, w, init).log <= Run(cfg, w, init + [last]).log
  {
    RunMore(cfg, w, init, last);
    RunKeeps(cfg, w, init);
    StepAdvances(cfg, Run(cfg, w, init), last);
  }

  /** Every event of a run was written by some step of it, and said the truth of that step. */
  lemma {:induction false} EveryEventWasTrue(cfg: Config, w: World, steps: seq<Step>, i: nat) returns (n: nat)
    requires Inv(w) && |w.log| <= i < |Run(cfg, w, steps).log|
    ensures WasTrue(cfg, w, steps, n, Run(cfg, w, steps).log[i])
    decreases |steps|
  {
    assert steps != [];
    var init, last := steps[..|steps| - 1], steps[|steps| - 1];
    assert steps == init + [last];
    LogGrowsBy(cfg, w, init, last);
    if i < |Run(cfg, w, init).log| {
      n := EveryEventWasTrue(cfg, w, init, i);
      WasTrueLonger(cfg, w, init, last, n, Run(cfg, w, init).log[i]);
    } else {
      LastWasTrue(cfg, w, init, last, i);
      n := |init|;
    }
  }
}
