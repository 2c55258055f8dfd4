/** In the per-user mode a document is ready for retrieval only by the mark of a finished task, and only
    until the next thing that puts it in doubt. */
module ExtractionReadiness {
  import opened ExtractionMachine
  import opened Outcomes

  /** A finished task for the present content finds the document succeeded, in scope, admitted and of a
      known version. */
  predicate MarksReady(w: World, s: Step) {
    && s.MarkReady? && s.perUser && s.t in w.tasks && w.tasks[s.t].phase == Finished
    && w.row.status == Succeeded && w.row.contentHash == w.tasks[s.t].expected
    && w.row.stored.Some? && w.row.stored.value.hash == w.row.contentHash
    && w.row.active && !w.row.excluded && w.row.permissionsVersion != ""
  }

  /** New content, a metadata sync, a cutover or leaving the scope. */
  predicate Doubts(s: Step) {
    s.SyncMetadata? || s.LeaveScope? || s.DenyAuthority? || (s.Refresh? && s.hash != "")
  }

  predicate SameContent(a: Row, b: Row) {
    && a.contentHash == b.contentHash && a.stored == b.stored
    && a.active == b.active && a.excluded == b.excluded && a.permissionsVersion == b.permissionsVersion
  }

  lemma TaskDecided(w: World, s: Step)
    requires OfTask(s) && s.t in w.tasks
    ensures ApplyTask(w, s).row.eligible <==> w.row.eligible || MarksReady(w, s)
    ensures SameContent(ApplyTask(w, s).row, w.row)
  {
  }

  /** Each step decides readiness: a doubt ends it, a mark begins it, and nothing else touches it. */
  lemma ReadinessDecided(w: World, s: Step)
    ensures Apply(w, s).row.eligible <==> !Doubts(s) && (w.row.eligible || MarksReady(w, s))
    ensures !Doubts(s) ==> SameContent(Apply(w, s).row, w.row)
  {
    hide ApplyTask;
    if OfTask(s) && s.t in w.tasks { TaskDecided(w, s); }
  }

  // ----- over runs

  /** The document was marked ready at step n, and nothing has put it in doubt since. */
  ghost predicate ReadySince(w: World, steps: seq<Step>, n: nat)
    requires n < |steps|
  {
    MarksReady(Run(w, steps[..n]), steps[n]) && forall k :: n < k < |steps| ==> !Doubts(steps[k])
  }

  ghost predicate NeverDoubted(steps: seq<Step>) {
    forall k :: 0 <= k < |steps| ==> !Doubts(steps[k])
  }

  lemma LastStep(w: World, init: seq<Step>, last: Step)
    ensures Run(w, init + [last]) == Apply(Run(w, init), last)
  {
    RunAppend(w, init, [last]);
    assert [last][1..] == [];
    assert Run(Run(w, init), [last]) == Run(Apply(Run(w, init), last), []);
  }

  lemma SinceMore(w: World, init: seq<Step>, last: Step, n: nat)
    requires n < |init|
    ensures ReadySince(w, init + [last], n) <==> ReadySince(w, init, n) && !Doubts(last)
  {
    var steps := init + [last];
    assert steps[..n] == init[..n] && steps[n] == init[n];
    assert steps[|init|] == last && forall k :: 0 <= k < |init| ==> steps[k] == init[k];
  }

  lemma SinceLast(w: World, init: seq<Step>, last: Step)
    ensures ReadySince(w, init + [last], |init|) <==> MarksReady(Run(w, init), last)
  {
    assert (init + [last])[..|init|] == init;
  }

  lemma DoubtedMore(init: seq<Step>, last: Step)
    ensures NeverDoubted(init + [last]) <==> NeverDoubted(init) && !Doubts(last)
  {
    var steps := init + [last];
    assert steps[|init|] == last && forall k :: 0 <= k < |init| ==> steps[k] == init[k];
  }

  /** Over any run, a document is ready if and only if it was marked so since the last doubt, or was
      ready before the run and never doubted in it. */
  lemma {:induction false} ReadyExactly(w: World, steps: seq<Step>)
    ensures Run(w, steps).row.eligible
       <==> (w.row.eligible && NeverDoubted(steps)) || exists n :: 0 <= n < |steps| && ReadySince(w, steps, n)
    decreases |steps|
  {
    hide Run, Apply, Doubts, MarksReady, ReadySince, NeverDoubted;
    if steps == [] {
      NothingDone(w);
    } else {
      var init, last := steps[..|steps| - 1], steps[|steps| - 1];
      assert steps == init + [last];
      ReadyExactly(w, init);
      LastStep(w, init, last);
      ReadinessDecided(Run(w, init), last);
      DoubtedMore(init, last);
      SinceLast(w, init, last);
      forall n | 0 <= n < |init| ensures ReadySince(w, steps, n) <==> ReadySince(w, init, n) && !Doubts(last) { SinceMore(w, init, last, n); }
      MarkIsNoDoubt(Run(w, init), last);
    }
  }

  lemma NothingDone(w: World)
    ensures Run(w, []) == w && NeverDoubted([])
  {
  }

  lemma MarkIsNoDoubt(w: World, s: Step)
    ensures MarksReady(w, s) ==> !Doubts(s)
  {
  }

  /** What it was marked for is what it still holds: the content is the one that succeeded. */
  lemma {:induction false} ReadyHoldsContent(w: World, steps: seq<Step>, n: nat)
    requires n < |steps| && ReadySince(w, steps, n)
    ensures SameContent(Run(w, steps).row, Run(w, steps[..n]).row)
    decreases |steps|
  {
    hide Run, Apply, SameContent, Doubts, MarksReady;
    var init, last := steps[..|steps| - 1], steps[|steps| - 1];
    assert steps == init + [last];
    LastStep(w, init, last);
    ReadinessDecided(Run(w, init), last);
    if n == |init| {
      assert steps[..n] == init;
      MarkIsNoDoubt(Run(w, init), last);
    } else {
      SinceMore(w, init, last, n);
      ReadyHoldsContent(w, init, n);
      assert steps[..n] == init[..n];
      SameFurther(Run(w, steps).row, Run(w, init).row, Run(w, init[..n]).row);
    }
  }

  lemma SameFurther(a: Row, b: Row, c: Row)
    requires SameContent(a, b) && SameContent(b, c)
    ensures SameContent(a, c)
  {
  }
}
