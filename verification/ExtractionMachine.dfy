/** Extraction of one document under duplicate, late, retried and crashed tasks, content refreshes,
    sweeps and reindexing. Other documents have rows and graph nodes of their own. */
module ExtractionMachine {
  import opened Outcomes

  datatype Status = Pending | Running | Succeeded | Failed | Skipped

  /** The stored content: its hash, and whether text can be read from it. */
  datatype Stored = Stored(hash: string, readable: bool)

  /** The extraction columns of the document row. A blank hash means that no content was stored yet. */
  datatype Row = Row(contentHash: string, stored: Option<Stored>, status: Status, attempts: nat, queuedAt: Option<nat>,
                     startedAt: Option<nat>, active: bool, excluded: bool, permissionsVersion: string, eligible: bool)

  // ----- the conditional row updates

  /** `_set_graph_extraction_state`, when the row has the expected hash or none is expected. */
  function WithStatus(row: Row, status: Status): Row {
    row.(status := status, attempts := row.attempts + if status.Failed? then 1 else 0)
  }

  function SetState(row: Row, status: Status, expected: Option<string>): (Row, bool) {
    if expected.Some? && row.contentHash != expected.value then (row, false) else (WithStatus(row, status), true)
  }

  /** `_store_content` */
  function StoredContent(row: Row, hash: string, readable: bool): Row {
    row.(contentHash := hash, stored := Some(Stored(hash, readable)), status := Pending, attempts := 0, startedAt := None)
  }

  /** `_mark_per_user_content_ready`; whether the per-user authority is configured and in force comes
      from outside. */
  predicate MayBeReady(row: Row, expected: string, perUser: bool) {
    && perUser && row.contentHash == expected && row.stored.Some? && row.stored.value.hash == expected
    && row.active && !row.excluded && row.status.Succeeded? && row.permissionsVersion != ""
  }

  function MarkedReady(row: Row, expected: string, perUser: bool): Row {
    if MayBeReady(row, expected, perUser) then row.(eligible := true) else row
  }

  function Swept(row: Row, cutoff: int): Row {
    if row.status.Running? && row.startedAt.Some? && row.startedAt.value < cutoff then WithStatus(row, Failed) else row
  }

  /** The claim of the reindex command; `read` is the row it looked at before. */
  predicate ReindexClaims(row: Row, read: Row) {
    && read.contentHash != "" && read.stored.Some? && read.stored.value.hash == read.contentHash && !read.status.Running?
    && row.contentHash == read.contentHash && !row.status.Running?
  }

  function Reindexed(row: Row, read: Row, now: nat): Row {
    if ReindexClaims(row, read) then row.(status := Pending, attempts := 0, queuedAt := Some(now), startedAt := None) else row
  }

  /** The denial of an authority cutover: a succeeded extraction is to run again. */
  function DeniedRow(row: Row): Row {
    row.(eligible := false, permissionsVersion := "",
         status := if row.status.Succeeded? && row.contentHash != "" then Pending else row.status,
         queuedAt := if row.status.Succeeded? && row.contentHash != "" then None else row.queuedAt)
  }

  /** What a metadata sync writes, in the per-user mode where it never preserves eligibility. */
  function SyncedRow(row: Row, excluded: bool, permissionsVersion: string): Row {
    row.(active := true, excluded := excluded, permissionsVersion := permissionsVersion, eligible := false)
  }

  /** `_extraction_needs_requeue` */
  predicate NeedsRequeue(row: Row, maxAttempts: nat, cutoff: int) {
    || (row.status.Failed? && row.attempts < maxAttempts)
    || (row.status.Pending? && (row.queuedAt.None? || row.queuedAt.value < cutoff))
  }

  // ----- one task

  datatype Phase = Delivered | Contentless | Claimed | Skipping | Extracting | GraphWritten | Finished | Over

  datatype Task = Task(phase: Phase, expected: string)

  /** `graph` is the hash of the content whose chunks the graph holds; `past` are the hashes the row
      has had so far; `due` says that a sync has the document among those it is about to enqueue. */
  datatype World = World(row: Row, graph: Option<string>, tasks: map<nat, Task>, now: nat, past: set<string>, due: bool)

  datatype Step =
    | Tick(seconds: nat)
    // a task, once more for every delivery
    | Deliver(t: nat, expected: Option<string>)
    | Claim(t: nat)
    | Load(t: nat)
    | WriteGraph(t: nat)
    | FinishTask(t: nat)
    | SkipTask(t: nat)
    | FailTask(t: nat)
    | MarkReady(t: nat, perUser: bool)
    | Crash(t: nat)
    // the syncs and the commands around it
    | Refresh(hash: string, readable: bool)
    | SyncMetadata(excluded: bool, permissionsVersion: string)
    | Requeue(maxAttempts: nat, timeout: nat)
    | Enqueue
    | Sweep(timeout: nat)
    | Reindex(read: Row)
    | DenyAuthority
    | LeaveScope

  function Moved(w: World, t: nat, phase: Phase): World
    requires t in w.tasks
  {
    w.(tasks := w.tasks[t := w.tasks[t].(phase := phase)])
  }

  /** Without an expected hash the task takes that of the stored content; without content it
      goes on to mark the document skipped, whatever the row holds by then. */
  function DeliverTask(w: World, t: nat, expected: Option<string>): World {
    if t in w.tasks then w
    else
      var hash := if expected.Some? && expected.value != "" then expected.value
                  else if w.row.stored.Some? then w.row.stored.value.hash else "";
      if hash == "" then w.(tasks := w.tasks[t := Task(Contentless, hash)])
      else w.(tasks := w.tasks[t := Task(Delivered, hash)])
  }

  function ClaimTask(w: World, t: nat): World
    requires t in w.tasks
  {
    var (row, hit) := SetState(w.row, Running, Some(w.tasks[t].expected));
    if !w.tasks[t].phase.Delivered? then w
    else if hit then Moved(w.(row := row.(startedAt := Some(w.now))), t, Claimed)
    else Moved(w, t, Over)
  }

  predicate IsCurrent(row: Row, expected: string) {
    row.contentHash == expected && row.stored.Some? && row.stored.value.hash == expected
  }

  /** Reads the content outside the lock; an unreadable or outdated one ends in a skip. */
  function LoadTask(w: World, t: nat): World
    requires t in w.tasks
  {
    if !w.tasks[t].phase.Claimed? then w
    else if w.row.stored.None? || !w.row.stored.value.readable then Moved(w, t, Skipping)
    else if IsCurrent(w.row, w.tasks[t].expected) then Moved(w, t, Extracting)
    else Moved(w, t, Over)
  }

  /** The last check and the graph replacement, under the row lock. */
  function WriteGraphTask(w: World, t: nat): World
    requires t in w.tasks
  {
    if !w.tasks[t].phase.Extracting? then w
    else if IsCurrent(w.row, w.tasks[t].expected) then Moved(w.(graph := Some(w.tasks[t].expected)), t, GraphWritten)
    else Moved(w, t, Over)
  }

  function FinishTaskWorld(w: World, t: nat): World
    requires t in w.tasks
  {
    var (row, hit) := SetState(w.row, Succeeded, Some(w.tasks[t].expected));
    if !w.tasks[t].phase.GraphWritten? then w
    else if hit then Moved(w.(row := row), t, Finished)
    else Moved(w, t, Over)
  }

  /** A skip of unreadable or missing content. */
  function SkipTaskWorld(w: World, t: nat): World
    requires t in w.tasks
  {
    var (row, _) := SetState(w.row, Skipped, if w.tasks[t].phase.Contentless? then None else Some(w.tasks[t].expected));
    if !w.tasks[t].phase.Skipping? && !w.tasks[t].phase.Contentless? then w else Moved(w.(row := row), t, Over)
  }

  /** Any failure of a started task that will not be retried, even one after the graph was written. */
  function FailTaskWorld(w: World, t: nat): World
    requires t in w.tasks
  {
    var (row, _) := SetState(w.row, Failed, Some(w.tasks[t].expected));
    if w.tasks[t].phase.Claimed? || w.tasks[t].phase.Extracting? || w.tasks[t].phase.GraphWritten? then Moved(w.(row := row), t, Over) else w
  }

  function RefreshWorld(w: World, hash: string, readable: bool): World {
    if hash == "" then w
    else w.(row := StoredContent(w.row, hash, readable).(eligible := false), past := w.past + {hash}, due := true)
  }

  function ApplyTask(w: World, s: Step): World
    requires OfTask(s) && s.t in w.tasks
  {
    match s
    case Claim(t) => ClaimTask(w, t)
    case Load(t) => LoadTask(w, t)
    case WriteGraph(t) => WriteGraphTask(w, t)
    case FinishTask(t) => FinishTaskWorld(w, t)
    case SkipTask(t) => SkipTaskWorld(w, t)
    case FailTask(t) => FailTaskWorld(w, t)
    case MarkReady(t, perUser) => if w.tasks[t].phase.Finished? then w.(row := MarkedReady(w.row, w.tasks[t].expected, perUser)) else w
    case Crash(t) => Moved(w, t, Over)
  }

  predicate OfTask(s: Step) {
    s.Claim? || s.Load? || s.WriteGraph? || s.FinishTask? || s.SkipTask? || s.FailTask? || s.MarkReady? || s.Crash?
  }

  function Apply(w: World, s: Step): World {
    if OfTask(s) then if s.t in w.tasks then ApplyTask(w, s) else w
    else match s
      case Tick(seconds) => w.(now := w.now + seconds)
      case Deliver(t, expected) => DeliverTask(w, t, expected)
      case Refresh(hash, readable) => RefreshWorld(w, hash, readable)
      case SyncMetadata(excluded, version) => w.(row := SyncedRow(w.row, excluded, version))
      case Requeue(maxAttempts, timeout) => w.(due := w.due || NeedsRequeue(w.row, maxAttempts, w.now - timeout))
      case Enqueue => if w.due then w.(row := w.row.(queuedAt := Some(w.now)), due := false) else w
      case Sweep(timeout) => w.(row := Swept(w.row, w.now - timeout))
      case Reindex(read) => w.(row := Reindexed(w.row, read, w.now))
      case DenyAuthority => w.(row := DeniedRow(w.row))
      case LeaveScope => w.(row := w.row.(active := false, eligible := false))
  }

  function Run(w: World, steps: seq<Step>): World
    decreases |steps|
  {
    if steps == [] then w else Run(Apply(w, steps[0]), steps[1..])
  }

  // ----- what is promised

  /** A document marked succeeded, or ready for retrieval, has the chunks of its current content. */
  predicate Good(w: World) {
    w.row.status.Succeeded? || w.row.eligible ==> w.graph == Some(w.row.contentHash)
  }

  /** A task that wrote the graph for this hash and has not written its status yet. */
  predicate Straggles(w: World, t: nat, hash: string) {
    t in w.tasks && w.tasks[t].phase.GraphWritten? && w.tasks[t].expected == hash
  }

  /** Stragglers for the current content wrote what the graph holds. */
  ghost predicate StragglersGood(w: World) {
    forall t :: Straggles(w, t, w.row.contentHash) ==> w.graph == Some(w.row.contentHash)
  }

  /** Hashes of tasks that wrote the graph were the row's own once. */
  predicate Remembered(w: World) {
    forall t :: t in w.tasks && w.tasks[t].phase.GraphWritten? ==> w.tasks[t].expected in w.past
  }

  ghost predicate Inv(w: World) {
    Good(w) && StragglersGood(w) && Remembered(w) && (w.row.stored.Some? ==> w.row.stored.value.hash in w.past)
  }

  /** Content may become this without a straggler spoiling it: the graph holds it, or nobody is about
      to report it written. */
  ghost predicate RefreshSafe(w: World, hash: string) {
    w.graph == Some(hash) || forall t :: !Straggles(w, t, hash)
  }

  lemma TaskKeeps(w: World, s: Step)
    requires Inv(w) && OfTask(s) && s.t in w.tasks
    ensures Inv(ApplyTask(w, s))
  {
    var v := ApplyTask(w, s);
    forall t | Straggles(v, t, v.row.contentHash) ensures v.graph == Some(v.row.contentHash) {
      if t != s.t { assert Straggles(w, t, w.row.contentHash); }
    }
    if s.FinishTask? { assert w.tasks[s.t].phase.GraphWritten? && w.tasks[s.t].expected == w.row.contentHash ==> Straggles(w, s.t, w.row.contentHash); }
  }

  lemma RefreshKeeps(w: World, hash: string, readable: bool)
    requires Inv(w) && RefreshSafe(w, hash)
    ensures Inv(RefreshWorld(w, hash, readable))
  {
    var v := RefreshWorld(w, hash, readable);
    forall t | Straggles(v, t, v.row.contentHash) ensures v.graph == Some(v.row.contentHash) {
      assert Straggles(w, t, v.row.contentHash);
    }
  }

  predicate RowKept(w: World, v: World) {
    && v.graph == w.graph && v.past == w.past && v.row.contentHash == w.row.contentHash && v.row.stored == w.row.stored
    && (v.row.status.Succeeded? ==> w.row.status.Succeeded?) && (v.row.eligible ==> w.row.eligible)
  }

  lemma KeepsWhenRowKept(w: World, v: World)
    requires Inv(w) && RowKept(w, v)
    requires forall t :: t in v.tasks && v.tasks[t].phase.GraphWritten? ==> t in w.tasks && w.tasks[t] == v.tasks[t]
    ensures Inv(v)
  {
    forall t | Straggles(v, t, v.row.contentHash) ensures v.graph == Some(v.row.contentHash) {
      assert Straggles(w, t, w.row.contentHash);
    }
  }

  lemma StepKeeps(w: World, s: Step)
    requires Inv(w) && (s.Refresh? ==> RefreshSafe(w, s.hash))
    ensures Inv(Apply(w, s))
  {
    if OfTask(s) {
      if s.t in w.tasks { TaskKeeps(w, s); }
    } else if s.Refresh? {
      RefreshKeeps(w, s.hash, s.readable);
    } else {
      KeepsWhenRowKept(w, Apply(w, s));
    }
  }

  /** Every refresh of the run is safe at the moment it happens. */
  ghost predicate RefreshesSafe(w: World, steps: seq<Step>)
    decreases |steps|
  {
    steps == [] || ((steps[0].Refresh? ==> RefreshSafe(w, steps[0].hash)) && RefreshesSafe(Apply(w, steps[0]), steps[1..]))
  }

  /** Every refresh of the run brings content the document never had. */
  predicate NeverReturns(w: World, steps: seq<Step>)
    decreases |steps|
  {
    steps == [] || ((steps[0].Refresh? ==> steps[0].hash !in w.past) && NeverReturns(Apply(w, steps[0]), steps[1..]))
  }

  /** Under any interleaving, while refreshes are safe, success means that the graph is up to date. */
  lemma {:induction false} RunKeeps(w: World, steps: seq<Step>)
    requires Inv(w) && RefreshesSafe(w, steps)
    ensures Inv(Run(w, steps))
    decreases |steps|
  {
    if steps != [] {
      StepKeeps(w, steps[0]);
      RunKeeps(Apply(w, steps[0]), steps[1..]);
    }
  }

  /** A document that never returns to earlier content only sees safe refreshes. */
  lemma {:induction false} NeverReturningIsSafe(w: World, steps: seq<Step>)
    requires Inv(w) && NeverReturns(w, steps)
    ensures RefreshesSafe(w, steps)
    decreases |steps|
  {
    if steps != [] {
      if steps[0].Refresh? {
        forall t ensures !Straggles(w, t, steps[0].hash) {}
      }
      StepKeeps(w, steps[0]);
      NeverReturningIsSafe(Apply(w, steps[0]), steps[1..]);
    }
  }

  predicate NoRefresh(steps: seq<Step>) {
    forall i :: 0 <= i < |steps| ==> !steps[i].Refresh?
  }

  lemma {:induction false} NoRefreshIsSafe(w: World, steps: seq<Step>)
    requires NoRefresh(steps)
    ensures RefreshesSafe(w, steps)
    decreases |steps|
  {
    if steps != [] {
      assert !steps[0].Refresh?;
      NoRefreshIsSafe(Apply(w, steps[0]), steps[1..]);
    }
  }

  /** A straggler reports success for content the graph does not hold. */
  lemma StragglerMisleads(w: World, hash: string, readable: bool, t: nat)
    requires hash != "" && Straggles(w, t, hash) && w.graph != Some(hash)
    ensures !Good(Apply(RefreshWorld(w, hash, readable), FinishTask(t)))
  {
  }

  /** The promise holds after a refresh, for whatever follows up to the next one, exactly when the
      refresh was safe. */
  lemma RefreshSafeExactly(w: World, hash: string, readable: bool)
    requires Inv(w) && hash != ""
    ensures RefreshSafe(w, hash) <==> forall steps :: NoRefresh(steps) ==> Good(Run(RefreshWorld(w, hash, readable), steps))
  {
    var v := RefreshWorld(w, hash, readable);
    if RefreshSafe(w, hash) {
      forall steps | NoRefresh(steps) ensures Good(Run(v, steps)) {
        RefreshKeeps(w, hash, readable);
        NoRefreshIsSafe(v, steps);
        RunKeeps(v, steps);
      }
    } else {
      var t :| Straggles(w, t, hash);
      var steps := [FinishTask(t)];
      assert steps[1..] == [];
      assert Run(v, steps) == Apply(v, FinishTask(t));
      StragglerMisleads(w, hash, readable, t);
      assert NoRefresh(steps) && !Good(Run(v, steps));
    }
  }

  /** The graph is only ever replaced by the chunks of the content that is current at that moment. */
  lemma OnlyCurrentIsWritten(w: World, s: Step)
    ensures Apply(w, s).graph != w.graph ==> Apply(w, s).graph == Some(w.row.contentHash) && Apply(w, s).row.contentHash == w.row.contentHash
  {
  }

  predicate Initial(w: World) {
    && w.row.contentHash == "" && w.row.stored.None? && w.row.status.Pending? && !w.row.eligible
    && w.graph == None && w.tasks == map[] && w.past == {} && !w.due
  }

  /** As long as content never returns, a document that is succeeded or ready has its current chunks. */
  lemma SucceededIsCurrent(w: World, steps: seq<Step>)
    requires Initial(w) && NeverReturns(w, steps)
    ensures Good(Run(w, steps))
  {
    NeverReturningIsSafe(w, steps);
    RunKeeps(w, steps);
  }

  // ----- failing content is not tried for ever

  /** The attempts are used up, and the document is not about to be enqueued. */
  predicate Exhausted(w: World, maxAttempts: nat) {
    !w.due && w.row.attempts >= maxAttempts && !w.row.status.Pending?
  }

  /** Syncs with this budget and tasks of any kind; no new content, no reindexing, no cutover. */
  predicate Unrenewed(steps: seq<Step>, maxAttempts: nat) {
    forall i :: 0 <= i < |steps| ==> !Renews(steps[i], maxAttempts)
  }

  predicate Renews(s: Step, maxAttempts: nat) {
    s.Refresh? || s.Reindex? || s.DenyAuthority? || (s.Requeue? && s.maxAttempts != maxAttempts)
  }

  lemma ExhaustedStays(w: World, s: Step, maxAttempts: nat)
    requires Exhausted(w, maxAttempts) && !Renews(s, maxAttempts)
    ensures Exhausted(Apply(w, s), maxAttempts)
  {
  }

  /** Once its budget is used up, no sync enqueues the content again, whatever late or duplicate tasks
      still do with it. */
  lemma {:induction false} ExhaustedIsLeftAlone(w: World, steps: seq<Step>, maxAttempts: nat)
    requires Exhausted(w, maxAttempts) && Unrenewed(steps, maxAttempts)
    ensures Exhausted(Run(w, steps), maxAttempts)
    decreases |steps|
  {
    if steps != [] {
      assert !Renews(steps[0], maxAttempts);
      ExhaustedStays(w, steps[0], maxAttempts);
      ExhaustedIsLeftAlone(Apply(w, steps[0]), steps[1..], maxAttempts);
    }
  }

  /** New content comes in and a task gets as far as writing the graph. */
  function UpToTheGraph(hash: string, t: nat): seq<Step> {
    [Refresh(hash, true), Deliver(t, None), Claim(t), Load(t), WriteGraph(t)]
  }

  /** A delivered task for the current content gets as far as writing the graph. */
  lemma TaskWrites(w: World, hash: string, t: nat)
    requires t in w.tasks && w.tasks[t] == Task(Delivered, hash) && IsCurrent(w.row, hash) && w.row.stored.value.readable
    ensures var v := Apply(Apply(Apply(w, Claim(t)), Load(t)), WriteGraph(t));
            v.graph == Some(hash) && v.tasks == w.tasks[t := Task(GraphWritten, hash)]
  {
    var w1 := Apply(w, Claim(t));
    assert w1.tasks[t] == Task(Claimed, hash) && w1.row.stored == w.row.stored && IsCurrent(w1.row, hash);
    var w2 := Apply(w1, Load(t));
    assert w2.tasks[t] == Task(Extracting, hash) && IsCurrent(w2.row, hash);
  }

  lemma WritesTheGraph(w: World, hash: string, t: nat)
    requires hash != "" && t !in w.tasks
    ensures var v := Run(w, UpToTheGraph(hash, t));
            && v.graph == Some(hash) && v.tasks == w.tasks[t := Task(GraphWritten, hash)]
  {
    var s := UpToTheGraph(hash, t);
    RunsFive(w, s);
    var w2 := Apply(Apply(w, s[0]), s[1]);
    assert IsCurrent(w2.row, hash) && w2.row.stored.value.readable && w2.tasks == w.tasks[t := Task(Delivered, hash)];
    TaskWrites(w2, hash, t);
  }

  /** Content that returns while a task of its first time has yet to report: the status says succeeded
      although the graph holds other content. */
  lemma ReturningContentMayMislead(w: World) returns (steps: seq<Step>)
    requires Initial(w)
    ensures !Good(Run(w, steps))
  {
    var v, u := TwoContents(w);
    var last := [Refresh("a", true), FinishTask(1)];
    steps := UpToTheGraph("a", 1) + (UpToTheGraph("b", 2) + last);
    RunInThree(w, UpToTheGraph("a", 1), UpToTheGraph("b", 2), last);
    RunsTwo(u, Refresh("a", true), FinishTask(1));
    StragglerMisleads(u, "a", true, 1);
  }

  lemma RunInThree(w: World, a: seq<Step>, b: seq<Step>, c: seq<Step>)
    ensures Run(w, a + (b + c)) == Run(Run(Run(w, a), b), c)
  {
    RunAppend(w, a, b + c);
    RunAppend(Run(w, a), b, c);
  }

  lemma TwoContents(w: World) returns (v: World, u: World)
    requires Initial(w)
    ensures v == Run(w, UpToTheGraph("a", 1)) && u == Run(v, UpToTheGraph("b", 2))
    ensures Straggles(u, 1, "a") && u.graph != Some("a")
  {
    WritesTheGraph(w, "a", 1);
    v := Run(w, UpToTheGraph("a", 1));
    WritesTheGraph(v, "b", 2);
    u := Run(v, UpToTheGraph("b", 2));
  }

  lemma RunAppend(w: World, a: seq<Step>, b: seq<Step>)
    ensures Run(w, a + b) == Run(Run(w, a), b)
  {
    RunSplits(w, a + b, |a|);
    assert (a + b)[..|a|] == a && (a + b)[|a|..] == b;
  }

  lemma {:induction false} RunSplits(w: World, steps: seq<Step>, n: nat)
    requires n <= |steps|
    ensures Run(w, steps) == Run(Run(w, steps[..n]), steps[n..])
    decreases n
  {
    if n > 0 {
      RunSplits(Apply(w, steps[0]), steps[1..], n - 1);
      assert steps[..n][1..] == steps[1..][..n - 1];
      assert steps[1..][n - 1..] == steps[n..];
    } else {
      assert steps[0..] == steps;
    }
  }

  lemma RunsTwo(w: World, a: Step, b: Step)
    ensures Run(w, [a, b]) == Apply(Apply(w, a), b)
  {
    assert [a, b][1..] == [b] && [b][1..] == [];
    assert Run(Apply(w, a), [b]) == Run(Apply(Apply(w, a), b), []);
  }

  lemma RunsFive(w: World, s: seq<Step>)
    requires |s| == 5
    ensures Run(w, s) == Apply(Apply(Apply(Apply(Apply(w, s[0]), s[1]), s[2]), s[3]), s[4])
  {
    assert s == [s[0], s[1], s[2], s[3], s[4]];
    RunSplits(w, s, 2);
    assert s[..2] == [s[0], s[1]];
    RunsTwo(w, s[0], s[1]);
    var v := Apply(Apply(w, s[0]), s[1]);
    RunSplits(v, s[2..], 2);
    assert s[2..][..2] == [s[2], s[3]] && s[2..][2..] == [s[4]];
    RunsTwo(v, s[2], s[3]);
    assert [s[4]][1..] == [];
  }

  // ----- the row updates as the tasks make them

  /** Whatever graph and tasks stand beside the row, the update keeps the invariant. */
  ghost predicate InvKept(before: Row, after: Row) {
    forall w: World :: w.row == before && Inv(w) ==> Inv(w.(row := after))
  }

  /** So it does beside a task that wrote the graph for the content of this hash. */
  ghost predicate InvKeptBeside(before: Row, after: Row, hash: string) {
    forall w: World, t: nat :: w.row == before && Inv(w) && Straggles(w, t, hash) ==> Inv(w.(row := after))
  }

  predicate RowOnlyFalls(before: Row, after: Row) {
    && after.contentHash == before.contentHash && after.stored == before.stored
    && (after.status.Succeeded? ==> before.status.Succeeded?) && (after.eligible ==> before.eligible)
  }

  lemma FallingKeeps(before: Row, after: Row)
    requires RowOnlyFalls(before, after)
    ensures InvKept(before, after)
  {
    forall w: World | w.row == before && Inv(w) ensures Inv(w.(row := after)) {
      KeepsWhenRowKept(w, w.(row := after));
    }
  }

  lemma ReadyKeeps(before: Row, after: Row)
    requires before.status.Succeeded? && after == before.(eligible := true)
    ensures InvKept(before, after)
  {
    forall w: World | w.row == before && Inv(w) ensures Inv(w.(row := after)) {
      SameContentKeeps(w, after);
    }
  }

  lemma SucceedingKeeps(before: Row, after: Row)
    requires after.contentHash == before.contentHash && after.stored == before.stored && after.eligible == before.eligible
    ensures InvKeptBeside(before, after, before.contentHash)
  {
    forall w: World, t: nat | w.row == before && Inv(w) && Straggles(w, t, before.contentHash) ensures Inv(w.(row := after)) {
      SameContentKeeps(w, after);
    }
  }

  /** While the graph holds the current content, its row may show any status. */
  lemma SameContentKeeps(w: World, after: Row)
    requires Inv(w) && w.graph == Some(w.row.contentHash) && after.contentHash == w.row.contentHash && after.stored == w.row.stored
    ensures Inv(w.(row := after))
  {
    var v := w.(row := after);
    forall t | Straggles(v, t, v.row.contentHash) ensures v.graph == Some(v.row.contentHash) {}
  }

  class ExtractionRow {
    var row: Row

    constructor (r: Row)
      ensures row == r
    {
      row := r;
    }

    /** `_set_graph_extraction_state`: for other content than expected nothing changes; a success is
        safe to report by a task that wrote the graph, anything else by anyone. */
    method SetGraphExtractionState(status: Status, expected: Option<string>, startedAt: Option<nat>) returns (updated: bool)
      modifies this
      ensures row == if updated && startedAt.Some? then SetState(old(row), status, expected).0.(startedAt := startedAt)
                     else SetState(old(row), status, expected).0
      ensures updated <==> expected.None? || expected.value == old(row).contentHash
      ensures !updated ==> row == old(row)
      ensures !status.Succeeded? ==> InvKept(old(row), row)
      ensures expected.Some? ==> InvKeptBeside(old(row), row, expected.value)
    {
      ghost var before := row;
      if expected.Some? && row.contentHash != expected.value {
        FallingKeeps(before, row);
        return false;
      }
      row := row.(status := status);
      if status.Failed? {
        row := row.(attempts := row.attempts + 1);
      }
      if startedAt.Some? {
        row := row.(startedAt := startedAt);
      }
      updated := true;
      if !status.Succeeded? { FallingKeeps(before, row); }
      SucceedingKeeps(before, row);
    }

    /** Whoever asks, and for whatever content, the document only becomes ready while that is safe. */
    method MarkPerUserContentReady(expected: string, perUser: bool)
      modifies this
      ensures row == MarkedReady(old(row), expected, perUser)
      ensures InvKept(old(row), row)
      ensures row.eligible && !old(row).eligible ==> row.status.Succeeded? && row.contentHash == expected && row.active && !row.excluded
    {
      ghost var before := row;
      FallingKeeps(before, row);
      if !perUser {
        return;
      }
      if MayBeReady(row, expected, perUser) {
        row := row.(eligible := true);
        ReadyKeeps(before, row);
      }
    }

    /** No task is left running from before the cutoff; content and readiness stay, and the invariant
        with them. */
    method SweepStale(cutoff: int) returns (swept: nat)
      modifies this
      ensures row == Swept(old(row), cutoff)
      ensures row.status.Running? && row.startedAt.Some? ==> row.startedAt.value >= cutoff
      ensures row.contentHash == old(row).contentHash && row.stored == old(row).stored && row.eligible == old(row).eligible
      ensures swept == row.attempts - old(row).attempts && swept <= 1 && (swept == 0 ==> row == old(row))
      ensures InvKept(old(row), row)
    {
      ghost var before := row;
      swept := 0;
      if row.status.Running? && row.startedAt.Some? && row.startedAt.value < cutoff {
        row := row.(status := Failed, attempts := row.attempts + 1);
        swept := 1;
      }
      FallingKeeps(before, row);
    }
  }
}
