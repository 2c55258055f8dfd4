/** The per-user mode as interleaved steps. Each transaction, each read and each write batch is one
    step; any execution may stop between its steps, and nothing keeps executions apart. */
module AccessProtocol {
  import opened Identifiers
  import opened Text
  import opened TupleStore
  import opened OAuthViewer
  import opened VisibilityRows

  // ----- what happened, in order

  datatype Event =
    | Marked(exec: Token, authorization: nat, documents: set<nat>)
    | Saw(exec: Token, document: nat, answer: Answer)
    | VerifiedExactly(exec: Token, visible: set<nat>)
    | Committed(exec: Token, time: nat)
    | ConnectionDenied(attempt: nat, connection: nat, generation: Token)
    | SawNone(attempt: nat, kind: nat)
    | ConnectionActivated(attempt: nat, connection: nat)

  // ----- one execution of a synchronization run

  datatype Phase = Begun | Pending | Scoped | Loaded | Listed | Checked | Aimed | Resolved | Writing
                 | Exact | Stamped | Landed | Stopped

  /** The local variables of one execution, and where in the history its steps stand. The marker it
      draws first identifies it. */
  datatype Exec = Exec(phase: Phase, run: nat, connection: nat, authorization: nat, connectionGeneration: Token,
                       authorizationGeneration: Token, marked: bool, markedAt: nat, candidates: set<nat>, email: string,
                       batchConnectionGeneration: Token, batchAuthorizationGeneration: Token, listed: set<nat>,
                       answers: map<nat, Answer>, sawAt: map<nat, nat>, updates: seq<Update>, revision: string,
                       exactAt: nat, time: nat, landedAt: nat)

  /** The phases from the validated results on. */
  predicate PastCheck(p: Phase) {
    p.Checked? || p.Aimed? || p.Resolved? || p.Writing? || PastVerify(p)
  }

  predicate PastVerify(p: Phase) {
    p.Exact? || PastStamp(p)
  }

  predicate PastStamp(p: Phase) {
    p.Stamped? || p.Landed?
  }

  function VisibleOf(answers: map<nat, Answer>): set<nat> {
    set d | d in answers && answers[d].state.Visible?
  }

  // ----- one attempt to switch the authority

  datatype CutoverPhase = CutStarted | CutDenied | CutDone | CutAbandoned

  datatype Cutover = Cutover(phase: CutoverPhase, connection: nat, target: Authority, denied: bool, generation: Token,
                             deniedAt: nat, kindsRead: nat, found: set<PermissionTuple>, emptyAt: seq<nat>)

  // ----- the whole system

  datatype Config = Config(cap: nat, maxUsers: nat, maxAge: nat, allowedDomain: string)

  datatype World = World(rows: Rows, tuples: set<PermissionTuple>, configured: Authority, now: nat, nextToken: Token,
                         execs: map<Token, Exec>, cutovers: map<nat, Cutover>, log: seq<Event>)

  datatype Step =
    // the environment
    | Tick(seconds: nat)
    | Configure(authority: Authority)
    | AddConnection(c: nat, added: Connection)
    | Reconfigure(c: nat, hasRoot: bool, domain: string)
    | SetDocument(d: nat, document: Document)
    | ForeignWrite(batch: seq<Update>)
    // connecting and disconnecting
    | Complete(grant: Grant, row: nat, next: Token)
    | Disconnect(c: nat, email: string, next: Token)
    // runs and deny-only helpers
    | CreateRun(r: nat, a: nat, connectionGeneration: Token, authorizationGeneration: Token)
    | SetRunStatus(r: nat, status: RunStatus)
    | InvalidateEvidence(a: nat, reason: string)
    // one execution
    | Begin(r: nat)
    | Preinvalidate(x: Token)
    | Reload(x: Token)
    | LoadAuthorization(x: Token)
    | ListDocuments(x: Token)
    | Ask(x: Token, d: nat, answer: Answer)
    | ValidateResults(x: Token)
    | ValidateConnection(x: Token)
    | ResolveDocuments(x: Token)
    | ReadGrants(x: Token, plan: seq<Update>)
    | WriteBatch(x: Token, n: nat, token: string)
    | VerifyGrants(x: Token)
    | Stamp(x: Token)
    | Commit(x: Token)
    | Stop(x: Token)
    // one cutover attempt
    | StartCutover(k: nat, c: nat, target: Authority)
    | DenyConnection(k: nat, next: Token)
    | ReadKind(k: nat)
    | DeleteBatch(k: nat, gone: set<PermissionTuple>)
    | RecheckKind(k: nat)
    | Activate(k: nat)
    | Abandon(k: nat)

  /** Tokens up to `next` cover one for every authorization row. */
  predicate Covers(rows: Rows, base: Token, next: Token) {
    base < next && forall a :: a in rows.authorizations ==> FreshFor(base, a) < next
  }

  function Records(w: World, x: Token, e: Exec, events: seq<Event>): World {
    w.(execs := w.execs[x := e], log := w.log + events)
  }

  function Halts(w: World, x: Token): World
    requires x in w.execs
  {
    Records(w, x, w.execs[x].(phase := Stopped), [])
  }

  // ----- the steps of an execution

  predicate SameGrant(before: Authorization, after: Authorization) {
    after.generation == before.generation && after.email == before.email && after.connection == before.connection
  }

  predicate GrantsKept(before: map<nat, Authorization>, after: map<nat, Authorization>) {
    forall a :: a in after ==> a in before && SameGrant(before[a], after[a])
  }

  predicate SameExec(e: Exec, f: Exec) {
    && f.connection == e.connection && f.authorization == e.authorization && f.run == e.run
    && f.connectionGeneration == e.connectionGeneration && f.authorizationGeneration == e.authorizationGeneration
  }

  /** One execution moved: no token was drawn, the history only grew, and of the rows no connection
      and nothing that identifies a grant changed. */
  predicate Moves(w: World, v: World, x: Token) {
    && x in w.execs && x in v.execs && v.execs == w.execs[x := v.execs[x]] && SameExec(w.execs[x], v.execs[x])
    && v.rows.connections == w.rows.connections && GrantsKept(w.rows.authorizations, v.rows.authorizations)
    && v.nextToken == w.nextToken && v.now == w.now && v.cutovers == w.cutovers && w.log <= v.log
    && (v.execs[x].phase.Landed? && !w.execs[x].phase.Landed? ==> ScopeValid(w.rows, w.configured, w.execs[x].run))
  }

  function BeginExec(w: World, r: nat): World {
    if r !in w.rows.runs then w
    else
      var run := w.rows.runs[r];
      w.(nextToken := w.nextToken + 1,
         execs := w.execs[w.nextToken := Exec(Begun, r, run.connection, run.authorization, run.connectionGeneration,
           run.authorizationGeneration, false, 0, {}, "", 0, 0, {}, map[], map[], [], "", 0, 0, 0)])
  }

  function PreinvalidateExec(cfg: Config, w: World, x: Token): (v: World)
    requires x in w.execs
    ensures Moves(w, v, x)
  {
    var e := w.execs[x];
    if !e.phase.Begun? || e.run !in w.rows.runs then w
    else
      var (rows, candidates) := PreinvalidateTx(w.rows, e.run, x, w.now, cfg.cap);
      if candidates.None? then Halts(w.(rows := rows), x)
      else Records(w.(rows := rows), x, e.(phase := Pending, marked := true, markedAt := |w.log|, candidates := candidates.value),
                   [Marked(x, e.authorization, candidates.value)])
  }

  function ReloadExec(w: World, x: Token): (v: World)
    requires x in w.execs
    ensures Moves(w, v, x)
  {
    var e := w.execs[x];
    if !e.phase.Pending? then w
    else if !ScopeValid(w.rows, w.configured, e.run) then Halts(w, x)
    else Records(w, x, e.(phase := Scoped, email := w.rows.authorizations[w.rows.runs[e.run].authorization].email), [])
  }

  /** What the Drive client checks before it asks anything. */
  predicate ClientMayAsk(rows: Rows, configured: Authority, a: nat) {
    && a in rows.authorizations
    && var row := rows.authorizations[a];
       && row.connection in rows.connections
       && var c := rows.connections[row.connection];
          && configured == PerUserOauth && PerUserEnabled(c) && c.hasRoot
          && row.status == Active && row.connectionGeneration == c.generation && row.hasScopes && row.hasCredential
  }

  function LoadExec(w: World, x: Token): (v: World)
    requires x in w.execs
    ensures Moves(w, v, x)
  {
    var e := w.execs[x];
    if !e.phase.Scoped? then w
    else if !ClientMayAsk(w.rows, w.configured, e.authorization) then Halts(w, x)
    else
      var a := w.rows.authorizations[e.authorization];
      Records(w, x, e.(phase := Loaded, batchConnectionGeneration := a.connectionGeneration, batchAuthorizationGeneration := a.generation), [])
  }

  function ListExec(cfg: Config, w: World, x: Token): (v: World)
    requires x in w.execs
    ensures Moves(w, v, x)
  {
    var e := w.execs[x];
    if !e.phase.Loaded? then w
    else
      var listed := Candidates(w.rows, e.connection);
      if |listed| > cfg.cap then Halts(w, x) else Records(w, x, e.(phase := Listed, listed := listed), [])
  }

  function AskExec(w: World, x: Token, d: nat, answer: Answer): (v: World)
    requires x in w.execs
    ensures Moves(w, v, x)
  {
    var e := w.execs[x];
    if !e.phase.Listed? || d !in e.listed || d in e.answers then w
    else Records(w, x, e.(answers := e.answers[d := answer], sawAt := e.sawAt[d := |w.log|]), [Saw(x, d, answer)])
  }

  function ValidateResultsExec(w: World, x: Token): (v: World)
    requires x in w.execs
    ensures Moves(w, v, x)
  {
    var e := w.execs[x];
    if !e.phase.Listed? || e.answers.Keys != e.listed then w
    else if e.batchConnectionGeneration == e.connectionGeneration && e.batchAuthorizationGeneration == e.authorizationGeneration
            && e.answers.Keys == e.candidates
    then Records(w, x, e.(phase := Checked), [])
    else Halts(w, x)
  }

  /** `normalized_email.rpartition("@")[2] == allowed_domain` */
  predicate InAllowedDomain(email: string, domain: string) {
    email[RFind(email, '@', 0, |email|) + 1..] == domain
  }

  function ValidateConnectionExec(cfg: Config, w: World, x: Token): (v: World)
    requires x in w.execs
    ensures Moves(w, v, x)
  {
    var e := w.execs[x];
    if !e.phase.Checked? then w
    else if && e.connection in w.rows.connections
            && var c := w.rows.connections[e.connection];
               && PerUserEnabled(c) && w.configured == PerUserOauth && c.generation == e.connectionGeneration && c.hasRoot
               && InAllowedDomain(e.email, cfg.allowedDomain) && c.domain == cfg.allowedDomain
    then Records(w, x, e.(phase := Aimed), [])
    else Halts(w, x)
  }

  function ResolveExec(cfg: Config, w: World, x: Token): (v: World)
    requires x in w.execs
    ensures Moves(w, v, x)
  {
    var e := w.execs[x];
    if !e.phase.Aimed? then w
    else if |VisibleOf(e.answers)| <= cfg.cap && VisibleOf(e.answers) <= Candidates(w.rows, e.connection)
    then Records(w, x, e.(phase := Resolved), [])
    else Halts(w, x)
  }

  function Desired(e: Exec): set<PermissionTuple> {
    GrantsOf(e.connection, UserId(e.connection, e.email), VisibleOf(e.answers))
  }

  function GrantsNow(w: World, e: Exec): set<PermissionTuple> {
    DirectGrantsOf(w.tuples, ConnectionPrefix(e.connection), UserId(e.connection, e.email))
  }

  /** The updates, in some order, that would turn the grants read into the desired ones. */
  predicate IsPlan(plan: seq<Update>, current: set<PermissionTuple>, desired: set<PermissionTuple>) {
    && (forall i :: 0 <= i < |plan| ==> plan[i].item in if plan[i].Touch? then desired else current - desired)
    && (forall t :: t in desired - current ==> Touch(t) in plan)
    && (forall t :: t in current - desired ==> Delete(t) in plan)
    && (desired != {} ==> exists i :: 0 <= i < |plan| && plan[i].Touch?)
  }

  function ReadGrantsExec(w: World, x: Token, plan: seq<Update>): (v: World)
    requires x in w.execs
    ensures Moves(w, v, x)
  {
    var e := w.execs[x];
    if !e.phase.Resolved? || !IsPlan(plan, GrantsNow(w, e), Desired(e)) then w
    else Records(w, x, e.(phase := Writing, updates := plan), [])
  }

  function WriteBatchExec(w: World, x: Token, n: nat, token: string): (v: World)
    requires x in w.execs
    ensures Moves(w, v, x)
  {
    var e := w.execs[x];
    if !e.phase.Writing? || n == 0 || n > |e.updates| || token == "" then w
    else Records(w.(tuples := Applied(w.tuples, e.updates[..n])), x, e.(updates := e.updates[n..], revision := token), [])
  }

  function VerifyExec(w: World, x: Token): (v: World)
    requires x in w.execs
    ensures Moves(w, v, x)
  {
    var e := w.execs[x];
    if !e.phase.Writing? || e.updates != [] then w
    else if GrantsNow(w, e) == Desired(e)
    then Records(w, x, e.(phase := Exact, exactAt := |w.log|), [VerifiedExactly(x, VisibleOf(e.answers))])
    else Halts(w, x)
  }

  function StampExec(w: World, x: Token): (v: World)
    requires x in w.execs
    ensures Moves(w, v, x)
  {
    var e := w.execs[x];
    if !e.phase.Exact? then w else Records(w, x, e.(phase := Stamped, time := w.now), [])
  }

  function CommitExec(w: World, x: Token): (v: World)
    requires x in w.execs
    ensures Moves(w, v, x)
  {
    var e := w.execs[x];
    if !e.phase.Stamped? then w
    else match CommitTx(w.rows, w.configured, e.run, x, e.answers, e.time, e.revision)
      case Ok(rows) => Records(w.(rows := rows), x, e.(phase := Landed, landedAt := |w.log|), [Committed(x, e.time)])
      case Err(_) => Halts(w, x)
  }

  function StopExec(w: World, x: Token): (v: World)
    requires x in w.execs
    ensures Moves(w, v, x)
  {
    if w.execs[x].phase.Landed? then w else Halts(w, x)
  }

  // ----- the steps of a cutover

  function Notes(w: World, k: nat, cut: Cutover, events: seq<Event>): World {
    w.(cutovers := w.cutovers[k := cut], log := w.log + events)
  }

  function StartCut(w: World, k: nat, c: nat, target: Authority): World {
    if k in w.cutovers || c !in w.rows.connections || w.configured != target || w.rows.connections[c].authority == target then w
    else Notes(w, k, Cutover(CutStarted, c, target, false, 0, 0, 0, {}, []), [])
  }

  function DenyCut(w: World, k: nat, next: Token): World
    requires k in w.cutovers
  {
    var cut := w.cutovers[k];
    if !cut.phase.CutStarted? || cut.connection !in w.rows.connections || !Covers(w.rows, w.nextToken + 1, next) then w
    else if !w.rows.connections[cut.connection].hasRoot then Notes(w, k, cut.(phase := CutAbandoned), [])
    else Notes(w.(rows := DenyTx(w.rows, cut.connection, w.nextToken), nextToken := next), k,
               cut.(phase := CutDenied, denied := true, generation := w.nextToken, deniedAt := |w.log|),
               [ConnectionDenied(k, cut.connection, w.nextToken)])
  }

  function ReadKindCut(w: World, k: nat): World
    requires k in w.cutovers
  {
    var cut := w.cutovers[k];
    if !cut.phase.CutDenied? || cut.kindsRead >= |MANAGED_RESOURCE_TYPES| then w
    else Notes(w, k, cut.(kindsRead := cut.kindsRead + 1,
                          found := cut.found + OfKind(w.tuples, cut.connection, MANAGED_RESOURCE_TYPES[cut.kindsRead])), [])
  }

  function DeleteCut(w: World, k: nat, gone: set<PermissionTuple>): World
    requires k in w.cutovers
  {
    var cut := w.cutovers[k];
    if !cut.phase.CutDenied? || cut.kindsRead < |MANAGED_RESOURCE_TYPES| || !(gone <= cut.found) then w
    else Notes(w.(tuples := w.tuples - gone), k, cut.(found := cut.found - gone), [])
  }

  function RecheckCut(w: World, k: nat): World
    requires k in w.cutovers
  {
    var cut := w.cutovers[k];
    if !cut.phase.CutDenied? || cut.kindsRead < |MANAGED_RESOURCE_TYPES| || cut.found != {} || |cut.emptyAt| >= |MANAGED_RESOURCE_TYPES| then w
    else if OfKind(w.tuples, cut.connection, MANAGED_RESOURCE_TYPES[|cut.emptyAt|]) != {} then Notes(w, k, cut.(phase := CutAbandoned), [])
    else Notes(w, k, cut.(emptyAt := cut.emptyAt + [|w.log|]), [SawNone(k, |cut.emptyAt|)])
  }

  function ActivateCut(w: World, k: nat): World
    requires k in w.cutovers
  {
    var cut := w.cutovers[k];
    if !cut.phase.CutDenied? || |cut.emptyAt| < |MANAGED_RESOURCE_TYPES| then w
    else match ActivateTx(w.rows, cut.connection, cut.target, cut.generation)
      case Ok(rows) => Notes(w.(rows := rows), k, cut.(phase := CutDone), [ConnectionActivated(k, cut.connection)])
      case Err(_) => Notes(w, k, cut.(phase := CutAbandoned), [])
  }

  function AbandonCut(w: World, k: nat): World
    requires k in w.cutovers
  {
    if w.cutovers[k].phase.CutDone? then w else Notes(w, k, w.cutovers[k].(phase := CutAbandoned), [])
  }

  // ----- connecting, disconnecting and the environment

  function CompleteWorld(cfg: Config, w: World, g: Grant, a: nat, next: Token): World {
    if !CanComplete(w.rows, w.configured, cfg.allowedDomain, g, a) || !Covers(w.rows, w.nextToken, next) || FreshFor(w.nextToken, a) >= next then w
    else w.(rows := CompleteTx(w.rows, cfg.allowedDomain, g, a, w.nextToken), nextToken := next)
  }

  function DisconnectWorld(cfg: Config, w: World, c: nat, email: string, next: Token): World {
    if !ActiveConnection(w.rows, w.configured, cfg.allowedDomain, c) || !Covers(w.rows, w.nextToken, next) then w
    else w.(rows := DisconnectTx(w.rows, c, email, w.nextToken), nextToken := next)
  }

  function AddConnectionWorld(w: World, c: nat, added: Connection): World {
    if c in w.rows.connections then w
    else w.(rows := w.rows.(connections := w.rows.connections[c := added.(generation := w.nextToken)]), nextToken := w.nextToken + 1)
  }

  function ReconfigureWorld(w: World, c: nat, hasRoot: bool, domain: string): World {
    if c !in w.rows.connections then w
    else w.(rows := w.rows.(connections := w.rows.connections[c := w.rows.connections[c].(hasRoot := hasRoot, domain := domain)]))
  }

  /** The row may be made from an authorization that was read long before. */
  function CreateRunWorld(w: World, r: nat, a: nat, connectionGeneration: Token, authorizationGeneration: Token): World {
    if r in w.rows.runs || a !in w.rows.authorizations || connectionGeneration >= w.nextToken || authorizationGeneration >= w.nextToken then w
    else w.(rows := w.rows.(runs := w.rows.runs[r := SyncRun(w.rows.authorizations[a].connection, a, connectionGeneration,
                                                             authorizationGeneration, Queued, 0, 0, 0, 0, "")]))
  }

  function SetRunStatusWorld(w: World, r: nat, status: RunStatus): World {
    if r !in w.rows.runs then w else w.(rows := w.rows.(runs := w.rows.runs[r := w.rows.runs[r].(status := status)]))
  }

  /** Steps of the environment and transactions that belong to no execution and no attempt. */
  function ApplyRows(cfg: Config, w: World, s: Step): World
    requires !OfExec(s) && !OfCutover(s)
  {
    match s
    case Tick(seconds) => w.(now := w.now + seconds)
    case Configure(authority) => w.(configured := authority)
    case AddConnection(c, added) => AddConnectionWorld(w, c, added)
    case Reconfigure(c, hasRoot, domain) => ReconfigureWorld(w, c, hasRoot, domain)
    case SetDocument(d, document) => w.(rows := w.rows.(documents := w.rows.documents[d := document]))
    case ForeignWrite(batch) => w.(tuples := Applied(w.tuples, batch))
    case Complete(g, a, next) => CompleteWorld(cfg, w, g, a, next)
    case Disconnect(c, email, next) => DisconnectWorld(cfg, w, c, email, next)
    case CreateRun(r, a, cg, ag) => CreateRunWorld(w, r, a, cg, ag)
    case SetRunStatus(r, status) => SetRunStatusWorld(w, r, status)
    case InvalidateEvidence(a, reason) => w.(rows := w.rows.(evidence := Invalidated(w.rows.evidence, a, reason)))
    case Begin(r) => BeginExec(w, r)
    case StartCutover(k, c, target) => StartCut(w, k, c, target)
  }

  predicate OfCutover(s: Step) {
    s.DenyConnection? || s.ReadKind? || s.DeleteBatch? || s.RecheckKind? || s.Activate? || s.Abandon?
  }

  function ApplyCutover(w: World, s: Step): World
    requires OfCutover(s) && s.k in w.cutovers
  {
    match s
    case DenyConnection(k, next) => DenyCut(w, k, next)
    case ReadKind(k) => ReadKindCut(w, k)
    case DeleteBatch(k, gone) => DeleteCut(w, k, gone)
    case RecheckKind(k) => RecheckCut(w, k)
    case Activate(k) => ActivateCut(w, k)
    case Abandon(k) => AbandonCut(w, k)
  }

  function Apply(cfg: Config, w: World, s: Step): World {
    if OfExec(s) then if s.x in w.execs then ApplyExec(cfg, w, s) else w
    else if OfCutover(s) then if s.k in w.cutovers then ApplyCutover(w, s) else w
    else ApplyRows(cfg, w, s)
  }

  predicate OfExec(s: Step) {
    || s.Preinvalidate? || s.Reload? || s.LoadAuthorization? || s.ListDocuments? || s.Ask? || s.ValidateResults?
    || s.ValidateConnection? || s.ResolveDocuments? || s.ReadGrants? || s.WriteBatch? || s.VerifyGrants? || s.Stamp?
    || s.Commit? || s.Stop?
  }

  function ApplyExec(cfg: Config, w: World, s: Step): (v: World)
    requires OfExec(s) && s.x in w.execs
    ensures Moves(w, v, s.x)
  {
    match s
    case Preinvalidate(x) => PreinvalidateExec(cfg, w, x)
    case Reload(x) => ReloadExec(w, x)
    case LoadAuthorization(x) => LoadExec(w, x)
    case ListDocuments(x) => ListExec(cfg, w, x)
    case Ask(x, d, answer) => AskExec(w, x, d, answer)
    case ValidateResults(x) => ValidateResultsExec(w, x)
    case ValidateConnection(x) => ValidateConnectionExec(cfg, w, x)
    case ResolveDocuments(x) => ResolveExec(cfg, w, x)
    case ReadGrants(x, plan) => ReadGrantsExec(w, x, plan)
    case WriteBatch(x, n, token) => WriteBatchExec(w, x, n, token)
    case VerifyGrants(x) => VerifyExec(w, x)
    case Stamp(x) => StampExec(w, x)
    case Commit(x) => CommitExec(w, x)
    case Stop(x) => StopExec(w, x)
  }

  function Run(cfg: Config, w: World, steps: seq<Step>): World
    decreases |steps|
  {
    if steps == [] then w else Run(cfg, Apply(cfg, w, steps[0]), steps[1..])
  }

  /** Before anything happened. */
  predicate Initial(w: World) {
    w.rows == Rows(map[], map[], map[], map[], map[]) && w.execs == map[] && w.cutovers == map[] && w.log == []
  }
}
