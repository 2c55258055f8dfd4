/** How unfinished extraction recovers: which rows a sync enqueues again, that it does so once while a
    message may still be on its way, and that a document whose task was lost reaches success. */
module ExtractionRecovery {
  import opened ExtractionMachine
  import opened Outcomes

  /** The last enqueue is so old that its message is plainly gone, or there was none. */
  predicate Overdue(row: Row, timeout: nat, now: nat) {
    row.queuedAt == None || (row.queuedAt.Some? && row.queuedAt.value + timeout < now)
  }

  /** One requeueing sync, from the look at the row to the stamp. */
  function Synced(w: World, maxAttempts: nat, timeout: nat): World {
    Apply(Apply(w, Requeue(maxAttempts, timeout)), Enqueue)
  }

  /** A sync enqueues a failed document with attempts left, and a pending one whose last enqueue is
      overdue; it leaves all else as it is. */
  lemma RequeueDecides(w: World, maxAttempts: nat, timeout: nat)
    requires !w.due
    ensures Synced(w, maxAttempts, timeout)
         == if (w.row.status == Failed && w.row.attempts < maxAttempts) || (w.row.status == Pending && Overdue(w.row, timeout, w.now))
            then w.(row := w.row.(queuedAt := Some(w.now))) else w
  {
  }

  // ----- a pending document is enqueued once

  /** Time passes, messages are delivered, syncs look at the row and other stages of theirs write it. */
  predicate Idles(s: Step, timeout: nat) {
    s.Tick? || s.Deliver? || (s.Requeue? && s.timeout == timeout) || s.Enqueue? || s.SyncMetadata? || s.LeaveScope?
  }

  predicate AllIdle(steps: seq<Step>, timeout: nat) {
    forall i :: 0 <= i < |steps| ==> Idles(steps[i], timeout)
  }

  /** Enqueued at that time, with nothing more to do. */
  predicate Waits(w: World, queued: nat) {
    w.row.status == Pending && w.row.queuedAt == Some(queued) && !w.due
  }

  lemma {:induction false} TimePasses(w: World, steps: seq<Step>)
    ensures Run(w, steps).now >= w.now
    decreases |steps|
  {
    if steps != [] { TimePasses(Apply(w, steps[0]), steps[1..]); }
  }

  /** Until the timeout is over, no sync enqueues the document again, however many there are. */
  lemma {:induction false} WaitsUntilOverdue(w: World, steps: seq<Step>, queued: nat, timeout: nat)
    requires Waits(w, queued) && AllIdle(steps, timeout) && Run(w, steps).now <= queued + timeout
    ensures Waits(Run(w, steps), queued)
    decreases |steps|
  {
    if steps != [] {
      assert Idles(steps[0], timeout);
      TimePasses(Apply(w, steps[0]), steps[1..]);
      WaitsUntilOverdue(Apply(w, steps[0]), steps[1..], queued, timeout);
    }
  }

  /** Ticks and deliveries alone keep the row. */
  predicate OnlyWaits(steps: seq<Step>) {
    forall i :: 0 <= i < |steps| ==> steps[i].Tick? || steps[i].Deliver?
  }

  lemma {:induction false} WaitingKeepsRow(w: World, steps: seq<Step>)
    requires OnlyWaits(steps)
    ensures Run(w, steps).row == w.row && Run(w, steps).due == w.due && Run(w, steps).graph == w.graph
    decreases |steps|
  {
    if steps != [] {
      assert steps[0].Tick? || steps[0].Deliver?;
      WaitingKeepsRow(Apply(w, steps[0]), steps[1..]);
    }
  }

  /** Of two syncs with only ticks and deliveries between them, the second enqueues a pending document
      that the first enqueued exactly if they are further apart than the timeout. */
  lemma SecondSyncEnqueuesExactly(w: World, maxAttempts: nat, timeout: nat, steps: seq<Step>)
    requires !w.due && w.row.status == Pending && Overdue(w.row, timeout, w.now) && OnlyWaits(steps)
    ensures var v := Run(Synced(w, maxAttempts, timeout), steps);
            && v.row.queuedAt == Some(w.now)
            && Synced(v, maxAttempts, timeout).row.queuedAt == Some(if v.now > w.now + timeout then v.now else w.now)
  {
    RequeueDecides(w, maxAttempts, timeout);
    WaitingKeepsRow(Synced(w, maxAttempts, timeout), steps);
    RequeueDecides(Run(Synced(w, maxAttempts, timeout), steps), maxAttempts, timeout);
  }

  // ----- a lost task

  /** The content that is stored is the row's own and can be read. */
  predicate HasReadable(row: Row, hash: string) {
    hash != "" && row.contentHash == hash && row.stored == Some(Stored(hash, true))
  }

  /** A task for the present content, with nothing in its way. */
  function WholeTask(t: nat, hash: string): seq<Step> {
    [Deliver(t, Some(hash)), Claim(t), Load(t), WriteGraph(t), FinishTask(t)]
  }

  /** Such a task takes the document to success, with its own content in the graph. */
  lemma TaskSucceeds(w: World, t: nat, hash: string)
    requires HasReadable(w.row, hash) && t !in w.tasks
    ensures var v := Run(w, WholeTask(t, hash));
            && v.row == w.row.(status := Succeeded, startedAt := Some(w.now)) && v.graph == Some(hash)
            && v.tasks == w.tasks[t := Task(Finished, hash)] && v.now == w.now && v.due == w.due
  {
    RunsFive(w, WholeTask(t, hash));
    var w1 := Apply(w, Deliver(t, Some(hash)));
    assert w1.tasks == w.tasks[t := Task(Delivered, hash)] && w1.row == w.row;
    var w2 := Apply(w1, Claim(t));
    assert w2.tasks == w.tasks[t := Task(Claimed, hash)] && w2.row == w.row.(status := Running, startedAt := Some(w.now));
    var w3 := Apply(w2, Load(t));
    assert w3.tasks == w.tasks[t := Task(Extracting, hash)] && w3.row == w2.row;
    var w4 := Apply(w3, WriteGraph(t));
    assert w4.tasks == w.tasks[t := Task(GraphWritten, hash)] && w4.row == w2.row && w4.graph == Some(hash);
  }

  /** In the per-user mode the finished task makes the document ready exactly if it still has that
      content, is in scope, admitted and of a known version. */
  lemma FinishedIsReadyExactly(w: World, t: nat, perUser: bool)
    requires t in w.tasks && w.tasks[t].phase == Finished && w.row.status == Succeeded && HasReadable(w.row, w.tasks[t].expected)
    ensures Apply(w, MarkReady(t, perUser)) == w.(row := Apply(w, MarkReady(t, perUser)).row)
    ensures var after := Apply(w, MarkReady(t, perUser)).row;
            after == if perUser && w.row.active && !w.row.excluded && w.row.permissionsVersion != "" then w.row.(eligible := true) else w.row
  {
  }

  lemma ReadyAfterWholeTask(w: World, t: nat, hash: string)
    requires HasReadable(w.row, hash) && t !in w.tasks
    ensures var v := Apply(Run(w, WholeTask(t, hash)), MarkReady(t, true));
            && v.graph == Some(hash) && v.row.contentHash == hash && v.row.status == Succeeded && v.row.queuedAt == w.row.queuedAt
            && (w.row.active && !w.row.excluded && w.row.permissionsVersion != "" ==> v.row.eligible)
  {
    hide Run;
    TaskSucceeds(w, t, hash);
    FinishedIsReadyExactly(Run(w, WholeTask(t, hash)), t, true);
  }

  lemma CrashKeepsRow(w: World, lost: nat, seconds: nat)
    requires lost in w.tasks
    ensures var v := Apply(Apply(w, Crash(lost)), Tick(seconds));
            v.row == w.row && v.now == w.now + seconds && v.tasks.Keys == w.tasks.Keys && v.due == w.due
  {
  }

  /** A document whose task was lost, by a crash before its claim or on its way, is enqueued again by the
      first sync after the timeout, and the task that is then delivered takes it to success and makes it
      ready if nothing else keeps it out. */
  lemma LostTaskRecovers(w: World, lost: nat, seconds: nat, maxAttempts: nat, timeout: nat, t: nat, hash: string)
    requires lost in w.tasks && t !in w.tasks && HasReadable(w.row, hash) && w.row.queuedAt.Some? && Waits(w, w.row.queuedAt.value)
    requires w.now + seconds > w.row.queuedAt.value + timeout
    ensures var v := Synced(Apply(Apply(w, Crash(lost)), Tick(seconds)), maxAttempts, timeout);
            var u := Apply(Run(v, WholeTask(t, hash)), MarkReady(t, true));
            && v.row == w.row.(queuedAt := Some(w.now + seconds))
            && u.graph == Some(hash) && u.row.contentHash == hash && u.row.status == Succeeded
            && (w.row.active && !w.row.excluded && w.row.permissionsVersion != "" ==> u.row.eligible)
  {
    CrashKeepsRow(w, lost, seconds);
    hide Apply, Run, WholeTask;
    var v := Apply(Apply(w, Crash(lost)), Tick(seconds));
    RequeueDecides(v, maxAttempts, timeout);
    ReadyAfterWholeTask(Synced(v, maxAttempts, timeout), t, hash);
  }

  /** A task that stopped after its claim is swept once it is stale, at the cost of an attempt. */
  lemma SweepDecides(w: World, timeout: nat)
    ensures Apply(w, Sweep(timeout))
         == if w.row.status == Running && w.row.startedAt.Some? && w.row.startedAt.value + timeout < w.now
            then w.(row := w.row.(status := Failed, attempts := w.row.attempts + 1)) else w
  {
  }

  /** From there the next sync enqueues it, as long as attempts are left, and it can reach success. */
  lemma StaleTaskRecovers(w: World, stale: nat, maxAttempts: nat, timeout: nat, t: nat, hash: string)
    requires !w.due && t !in w.tasks && HasReadable(w.row, hash)
    requires w.row.status == Running && w.row.startedAt.Some? && w.row.startedAt.value + stale < w.now && w.row.attempts + 1 < maxAttempts
    ensures var v := Synced(Apply(w, Sweep(stale)), maxAttempts, timeout);
            && v.row.queuedAt == Some(w.now) && v.row.attempts == w.row.attempts + 1
            && Run(v, WholeTask(t, hash)).row.status == Succeeded && Run(v, WholeTask(t, hash)).graph == Some(hash)
  {
    SweepDecides(w, stale);
    RequeueDecides(Apply(w, Sweep(stale)), maxAttempts, timeout);
    TaskSucceeds(Synced(Apply(w, Sweep(stale)), maxAttempts, timeout), t, hash);
  }

  /** A failed task leaves the row failed with one more attempt, if the content is still its own. */
  lemma FailDecides(w: World, t: nat)
    requires t in w.tasks && w.tasks[t].phase in {Claimed, Extracting, GraphWritten}
    ensures var v := Apply(w, FailTask(t));
            && v.tasks == w.tasks[t := Task(Over, w.tasks[t].expected)] && v.graph == w.graph && v.due == w.due
            && v.row == if w.row.contentHash == w.tasks[t].expected then w.row.(status := Failed, attempts := w.row.attempts + 1) else w.row
  {
  }

  /** A task for other content than the present one changes neither the row nor the graph. */
  lemma OutdatedTaskChangesNothing(w: World, s: Step)
    requires OfTask(s) && s.t in w.tasks && w.tasks[s.t].phase != Contentless && w.tasks[s.t].expected != w.row.contentHash
    ensures Apply(w, s).row == w.row && Apply(w, s).graph == w.graph && Apply(w, s).due == w.due
  {
  }

  // ----- what sends a document through extraction anew

  /** New content is pending and due at once, with a fresh budget, and not ready. */
  lemma RefreshDecides(w: World, hash: string, readable: bool)
    requires hash != ""
    ensures var v := Apply(Apply(w, Refresh(hash, readable)), Enqueue);
            && v.row == w.row.(contentHash := hash, stored := Some(Stored(hash, readable)), status := Pending, attempts := 0,
                               startedAt := None, queuedAt := Some(w.now), eligible := false)
            && v.tasks == w.tasks && v.graph == w.graph && !v.due
  {
  }

  /** The reindex command sets a document back that it saw idle with its content, if it is so still. */
  lemma ReindexDecides(w: World, read: Row)
    ensures Apply(w, Reindex(read))
         == if read.contentHash != "" && read.stored.Some? && read.stored.value.hash == read.contentHash && read.status != Running
               && w.row.contentHash == read.contentHash && w.row.status != Running
            then w.(row := w.row.(status := Pending, attempts := 0, queuedAt := Some(w.now), startedAt := None)) else w
  {
  }

  /** A cutover takes the document out of retrieval, and a succeeded one is enqueued by the next sync,
      whatever its timeout and budget. */
  lemma DenialRequeues(w: World, maxAttempts: nat, timeout: nat)
    requires !w.due
    ensures var v := Apply(w, DenyAuthority);
            && !v.row.eligible && v.row.permissionsVersion == "" && v.row.contentHash == w.row.contentHash && v.row.stored == w.row.stored
            && (if w.row.status == Succeeded && w.row.contentHash != ""
                then v.row.status == Pending && Synced(v, maxAttempts, timeout).row.queuedAt == Some(w.now)
                else v.row.status == w.row.status && v.row.queuedAt == w.row.queuedAt)
  {
    RequeueDecides(Apply(w, DenyAuthority), maxAttempts, timeout);
  }
}
