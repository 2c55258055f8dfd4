/** A run from empty tables to a returned document: what the results about access ask for does occur. */
module AccessExample {
  import opened Outcomes
  import opened VisibilityRows
  import opened AccessProtocol
  import opened AccessLookup
  import opened AccessUndisturbed

  const LIMITS := Config(10, 10, 60, "d")
  const CONNECTION := Connection(true, PerUserOauth, 0, true, "d")
  const GRANT := Grant(0, 0, "accounts.google.com", "s", "u@d", true)
  const AUTHORIZATION := Authorization(0, "accounts.google.com", "s", "u@d", "d", 0, 1, Active, true, true, None)
  const DOCUMENT := Document(0, true, true, "v", true, "h")
  const RUN := SyncRun(0, 0, 0, 1, Queued, 0, 0, 0, 0, "")
  const EXEC := Exec(Begun, 0, 0, 0, 0, 1, false, 0, {}, "", 0, 0, {}, map[], map[], [], "", 0, 0, 0)

  /** A world in which nothing was executed yet, up to its rows and its next token. */
  function Quiet(rows: Rows, next: Token): World {
    World(rows, {}, PerUserOauth, 0, next, map[], map[], [])
  }

  function Nothing(): World {
    Quiet(Rows(map[], map[], map[], map[], map[]), 0)
  }

  function Ready(): World {
    Quiet(Rows(map[0 := CONNECTION], map[0 := AUTHORIZATION], map[0 := DOCUMENT], map[], map[0 := RUN]), 10).(execs := map[9 := EXEC])
  }

  lemma Adds()
    ensures Apply(LIMITS, Nothing(), AddConnection(0, CONNECTION)) == Quiet(Rows(map[0 := CONNECTION], map[], map[], map[], map[]), 1)
  {
    assert CONNECTION.(generation := 0) == CONNECTION;
  }

  lemma Completes()
    ensures Apply(LIMITS, Quiet(Rows(map[0 := CONNECTION], map[], map[], map[], map[]), 1), Complete(GRANT, 0, 9))
         == Connected()
  {
    var rows := Rows(map[0 := CONNECTION], map[], map[], map[], map[]);
    assert CanComplete(rows, PerUserOauth, "d", GRANT, 0);
    assert AuthorizationsOf(rows, 0, "u@d") - {0} == {};
    assert CompleteTx(rows, "d", GRANT, 0, 1).authorizations == map[0 := AUTHORIZATION];
    assert CompleteTx(rows, "d", GRANT, 0, 1).evidence == map[];
  }

  /** The connection and the authorization. */
  function Connected(): World {
    Quiet(Rows(map[0 := CONNECTION], map[0 := AUTHORIZATION], map[], map[], map[]), 9)
  }

  /** The document and the run besides. */
  function Queueing(): World {
    Quiet(Rows(map[0 := CONNECTION], map[0 := AUTHORIZATION], map[0 := DOCUMENT], map[], map[0 := RUN]), 9)
  }

  lemma Creates()
    ensures Run(LIMITS, Connected(), [SetDocument(0, DOCUMENT), CreateRun(0, 0, 0, 1)]) == Queueing()
  {
    var w := Apply(LIMITS, Connected(), SetDocument(0, DOCUMENT));
    var v := Apply(LIMITS, w, CreateRun(0, 0, 0, 1));
    assert v == Queueing();
    assert Run(LIMITS, w, [CreateRun(0, 0, 0, 1)]) == v;
  }

  lemma Begins()
    ensures Run(LIMITS, Queueing(), [Begin(0)]) == Ready()
  {
    assert Apply(LIMITS, Queueing(), Begin(0)) == Ready();
  }

  lemma GetsReady() returns (steps: seq<Step>)
    ensures Run(LIMITS, Nothing(), steps) == Ready()
  {
    var created := [SetDocument(0, DOCUMENT), CreateRun(0, 0, 0, 1)];
    steps := [AddConnection(0, CONNECTION), Complete(GRANT, 0, 9)] + created + [Begin(0)];
    Adds();
    Completes();
    Creates();
    Begins();
    RunAppend(LIMITS, Connected(), created, [Begin(0)]);
    assert steps[1..][1..] == created + [Begin(0)];
  }

  lemma StartsInOrder()
    ensures HasJob(Ready(), 9) && ReadyToRun(LIMITS, Ready(), EXEC) && Candidates(Ready().rows, 0) == {0}
    ensures ActiveMode(Ready().rows, PerUserOauth, 0)
    ensures CurrentAuthorization(LIMITS, CONNECTION, 0, "u@d", Ready().rows, Ready().rows, 0)
  {
    var rows := Ready().rows;
    assert Candidates(rows, 0) == {0};
    assert "u@d"[1] == '@' && "u@d"[2] != '@';
    assert "u@d"[2..] == "d";
    assert AuthorizationsOf(rows, 0, "u@d") == {0};
    assert ConnectedUsers(rows, 0, 0) == {0};
  }

  /** From empty tables a run leads to a lookup that returns a document. */
  lemma SomeDocumentIsReturned() returns (cfg: Config, w: World, steps: seq<Step>, c: nat, a: nat, email: string, d: nat)
    ensures Initial(w) && Returned(cfg, AtOnce(Run(cfg, w, steps)), c, a, email, d)
  {
    cfg, w, c, a, email, d := LIMITS, Nothing(), 0, 0, "u@d", 0;
    var start := GetsReady();
    StartsInOrder();
    var answers := map[0 := Answer(Visible, "")];
    assert answers.Keys == {0};
    var alone := DriveDecides(cfg, Ready(), 9, answers, c, a, email);
    steps := start + alone;
    RunAppend(cfg, w, start, alone);
  }
}
