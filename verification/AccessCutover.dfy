/** A cutover that nobody disturbs: it ends with the connection enabled under its target and a new
    generation, and with nothing left of what the old authority had granted. */
module AccessCutover {
  import opened AccessProtocol
  import opened Identifiers
  import opened Outcomes
  import opened TupleStore
  import opened VisibilityRows
  import Alone = AccessUndisturbed
  import History = AccessHistory

  // ----- what the denial does

  /** Everything on the connection is denied, column by column; all else is as before. */
  ghost predicate DeniesAll(before: Rows, after: Rows, c: nat, generation: Token) {
    && DisablesOne(before, after, c, generation) && DeniesDocuments(before, after, c)
    && CutsAuthorizations(before, after, c) && DropsEvidence(before, after, c) && after.runs == before.runs
  }

  ghost predicate DisablesOne(before: Rows, after: Rows, c: nat, generation: Token) {
    && after.connections.Keys == before.connections.Keys && c in before.connections
    && (forall d :: d in before.connections && d != c ==> after.connections[d] == before.connections[d])
    && var x, y := before.connections[c], after.connections[c];
       !y.enabled && y.generation == generation && y.authority == x.authority && y.hasRoot == x.hasRoot && y.domain == x.domain
  }

  /** Documents lose their eligibility and their version; one that was extracted is to be extracted anew. */
  ghost predicate DeniesDocuments(before: Rows, after: Rows, c: nat) {
    && after.documents.Keys == before.documents.Keys
    && forall d :: d in before.documents ==>
         var x, y := before.documents[d], after.documents[d];
         if x.connection != c then y == x
         else && !y.eligible && y.permissionsVersion == "" && y.connection == c && y.active == x.active && y.contentHash == x.contentHash
              && (x.contentHash != "" ==> !y.extracted) && (x.contentHash == "" ==> y.extracted == x.extracted)
  }

  ghost predicate CutsAuthorizations(before: Rows, after: Rows, c: nat) {
    && after.authorizations.Keys == before.authorizations.Keys
    && forall a :: a in before.authorizations ==>
         var x, y := before.authorizations[a], after.authorizations[a];
         if x.connection != c then y == x
         else && y.status == Disconnected && !y.hasCredential && !y.hasScopes && y.lastSync == None
              && y.connection == c && y.email == x.email && y.issuer == x.issuer && y.subject == x.subject
  }

  ghost predicate DropsEvidence(before: Rows, after: Rows, c: nat) {
    && (forall k :: k in after.evidence ==> k in before.evidence && after.evidence[k] == before.evidence[k])
    && (forall k :: k in before.evidence ==>
          (k in after.evidence <==> !(k.authorization in before.authorizations && before.authorizations[k.authorization].connection == c)))
  }

  lemma DenialDeniesAll(before: Rows, c: nat, base: Token)
    requires c in before.connections
    ensures DeniesAll(before, DenyTx(before, c, base), c, base)
  {
  }

  // ----- the whole attempt

  /** The attempt's variables, whatever else there is. */
  predicate Stands(w: World, k: nat, cut: Cutover) {
    k in w.cutovers && w.cutovers[k] == cut
  }

  predicate SameBut(w: World, v: World) {
    v.rows == w.rows && v.tuples == w.tuples && v.configured == w.configured && v.nextToken == w.nextToken
  }

  /** What the reads of the first n kinds have found. */
  function KindsBelow(tuples: set<PermissionTuple>, c: nat, n: nat): set<PermissionTuple>
    requires n <= |MANAGED_RESOURCE_TYPES|
  {
    if n == 0 then {} else KindsBelow(tuples, c, n - 1) + OfKind(tuples, c, MANAGED_RESOURCE_TYPES[n - 1])
  }

  lemma AllKinds(tuples: set<PermissionTuple>, c: nat)
    ensures KindsBelow(tuples, c, 3) == ManagedOf(tuples, ConnectionPrefix(c))
  {
    assert MANAGED_RESOURCE_TYPES == [MANAGED_RESOURCE_TYPES[0], MANAGED_RESOURCE_TYPES[1], MANAGED_RESOURCE_TYPES[2]];
    assert KindsBelow(tuples, c, 3) == KindsBelow(tuples, c, 2) + OfKind(tuples, c, MANAGED_RESOURCE_TYPES[2]);
    assert KindsBelow(tuples, c, 2) == KindsBelow(tuples, c, 1) + OfKind(tuples, c, MANAGED_RESOURCE_TYPES[1]);
    assert KindsBelow(tuples, c, 1) == OfKind(tuples, c, MANAGED_RESOURCE_TYPES[0]);
  }

  lemma ReadsOne(cfg: Config, w: World, k: nat, cut: Cutover)
    requires Stands(w, k, cut) && cut.phase.CutDenied? && cut.kindsRead < 3
    ensures var v := Apply(cfg, w, ReadKind(k));
            SameBut(w, v) && Stands(v, k, cut.(kindsRead := cut.kindsRead + 1,
                                               found := cut.found + OfKind(w.tuples, cut.connection, MANAGED_RESOURCE_TYPES[cut.kindsRead])))
  {
  }

  lemma RechecksOne(cfg: Config, w: World, k: nat, cut: Cutover)
    requires Stands(w, k, cut) && cut.phase.CutDenied? && cut.kindsRead == 3 && cut.found == {} && |cut.emptyAt| < 3
    requires ManagedOf(w.tuples, ConnectionPrefix(cut.connection)) == {}
    ensures var v := Apply(cfg, w, RecheckKind(k)); SameBut(w, v) && Stands(v, k, cut.(emptyAt := cut.emptyAt + [|w.log|]))
  {
    assert OfKind(w.tuples, cut.connection, MANAGED_RESOURCE_TYPES[|cut.emptyAt|]) <= ManagedOf(w.tuples, ConnectionPrefix(cut.connection));
  }

  /** The reads find everything of the connection. */
  lemma {:induction false} ReadsAll(cfg: Config, w: World, k: nat, cut: Cutover) returns (steps: seq<Step>)
    requires Stands(w, k, cut) && cut.phase.CutDenied? && cut.kindsRead == 0 && cut.found == {}
    ensures var v := Run(cfg, w, steps);
            SameBut(w, v) && Stands(v, k, cut.(kindsRead := 3, found := ManagedOf(w.tuples, ConnectionPrefix(cut.connection))))
  {
    var c := cut.connection;
    steps := [];
    var v, now := w, cut;
    while now.kindsRead < 3
      invariant v == Run(cfg, w, steps) && SameBut(w, v) && Stands(v, k, now) && now.kindsRead <= 3
      invariant now == cut.(kindsRead := now.kindsRead, found := KindsBelow(w.tuples, c, now.kindsRead))
      decreases 3 - now.kindsRead
    {
      ReadsOne(cfg, v, k, now);
      History.RunMore(cfg, w, steps, ReadKind(k));
      steps, v := steps + [ReadKind(k)], Apply(cfg, v, ReadKind(k));
      now := v.cutovers[k];
    }
    AllKinds(w.tuples, c);
  }

  /** Once nothing is left to delete, each kind is seen to be empty. */
  lemma {:induction false} RechecksAll(cfg: Config, w: World, k: nat, cut: Cutover) returns (steps: seq<Step>)
    requires Stands(w, k, cut) && cut.phase.CutDenied? && cut.kindsRead == 3 && cut.found == {} && cut.emptyAt == []
    requires ManagedOf(w.tuples, ConnectionPrefix(cut.connection)) == {}
    ensures var v := Run(cfg, w, steps);
            SameBut(w, v) && k in v.cutovers && Stands(v, k, cut.(emptyAt := v.cutovers[k].emptyAt)) && |v.cutovers[k].emptyAt| == 3
  {
    steps := [];
    var v, now := w, cut;
    while |now.emptyAt| < 3
      invariant v == Run(cfg, w, steps) && SameBut(w, v) && Stands(v, k, now) && now == cut.(emptyAt := now.emptyAt) && |now.emptyAt| <= 3
      decreases 3 - |now.emptyAt|
    {
      RechecksOne(cfg, v, k, now);
      History.RunMore(cfg, w, steps, RecheckKind(k));
      steps, v := steps + [RecheckKind(k)], Apply(cfg, v, RecheckKind(k));
      now := v.cutovers[k];
    }
  }

  lemma DeletesAll(cfg: Config, w: World, k: nat, cut: Cutover)
    requires Stands(w, k, cut) && cut.phase.CutDenied? && cut.kindsRead == 3 && cut.found == ManagedOf(w.tuples, ConnectionPrefix(cut.connection))
    ensures var v := Apply(cfg, w, DeleteBatch(k, cut.found));
            && v.rows == w.rows && v.configured == w.configured && v.tuples == w.tuples - cut.found
            && Stands(v, k, cut.(found := {})) && ManagedOf(v.tuples, ConnectionPrefix(cut.connection)) == {}
  {
    assert cut.found - cut.found == {};
  }

  /** From the denial to the cleaned store. */
  lemma Cleans(cfg: Config, w: World, k: nat, cut: Cutover) returns (steps: seq<Step>)
    requires Stands(w, k, cut) && cut.phase.CutDenied? && cut.kindsRead == 0 && cut.found == {} && cut.emptyAt == []
    ensures var v := Run(cfg, w, steps);
            && v.rows == w.rows && v.configured == w.configured
            && v.tuples == w.tuples - ManagedOf(w.tuples, ConnectionPrefix(cut.connection))
            && k in v.cutovers && v.cutovers[k].phase.CutDenied? && |v.cutovers[k].emptyAt| == 3
            && v.cutovers[k].connection == cut.connection && v.cutovers[k].target == cut.target && v.cutovers[k].generation == cut.generation
  {
    hide Apply, Run, ManagedOf, ConnectionPrefix;
    var gone := ManagedOf(w.tuples, ConnectionPrefix(cut.connection));
    var listing := ReadsAll(cfg, w, k, cut);
    var v := Run(cfg, w, listing);
    DeletesAll(cfg, v, k, cut.(kindsRead := 3, found := gone));
    History.RunMore(cfg, w, listing, DeleteBatch(k, gone));
    var u := Apply(cfg, v, DeleteBatch(k, gone));
    var rechecks := RechecksAll(cfg, u, k, cut.(kindsRead := 3, found := {}));
    steps := listing + [DeleteBatch(k, gone)] + rechecks;
    Alone.RunAppend(cfg, w, listing + [DeleteBatch(k, gone)], rechecks);
  }

  lemma Starts(cfg: Config, w: World, k: nat, c: nat, target: Authority)
    requires k !in w.cutovers && c in w.rows.connections && w.configured == target && w.rows.connections[c].authority != target
    ensures var u := Apply(cfg, w, StartCutover(k, c, target));
            SameBut(w, u) && u.log == w.log && Stands(u, k, Cutover(CutStarted, c, target, false, 0, 0, 0, {}, []))
  {
  }

  lemma Denies(cfg: Config, w: World, k: nat, cut: Cutover, next: Token)
    requires Stands(w, k, cut) && cut.phase.CutStarted? && cut.connection in w.rows.connections
    requires w.rows.connections[cut.connection].hasRoot && Covers(w.rows, w.nextToken + 1, next)
    ensures var v := Apply(cfg, w, DenyConnection(k, next));
            && v.rows == DenyTx(w.rows, cut.connection, w.nextToken) && v.tuples == w.tuples && v.configured == w.configured
            && Stands(v, k, cut.(phase := CutDenied, denied := true, generation := w.nextToken, deniedAt := |w.log|))
  {
    hide DenyTx, Covers;
  }

  lemma StartsAndDenies(cfg: Config, w: World, k: nat, c: nat, target: Authority, next: Token)
    requires k !in w.cutovers && c in w.rows.connections && w.configured == target && w.rows.connections[c].authority != target
    requires w.rows.connections[c].hasRoot && Covers(w.rows, w.nextToken + 1, next)
    ensures var v := Apply(cfg, Apply(cfg, w, StartCutover(k, c, target)), DenyConnection(k, next));
            && DeniesAll(w.rows, v.rows, c, w.nextToken) && v.tuples == w.tuples && v.configured == w.configured
            && Stands(v, k, Cutover(CutDenied, c, target, true, w.nextToken, |w.log|, 0, {}, []))
  {
    DenialDeniesAll(w.rows, c, w.nextToken);
    hide DeniesAll, DenyTx, Apply, Covers;
    Starts(cfg, w, k, c, target);
    Denies(cfg, Apply(cfg, w, StartCutover(k, c, target)), k, Cutover(CutStarted, c, target, false, 0, 0, 0, {}, []), next);
  }

  lemma ActivatesOwn(cfg: Config, w: World, k: nat)
    requires k in w.cutovers && w.cutovers[k].phase.CutDenied? && |w.cutovers[k].emptyAt| == 3
    requires w.cutovers[k].connection in w.rows.connections
    requires w.rows.connections[w.cutovers[k].connection].generation == w.cutovers[k].generation
    ensures var c, v := w.cutovers[k].connection, Apply(cfg, w, Activate(k));
            && v.rows == w.rows.(connections := w.rows.connections[c := w.rows.connections[c].(authority := w.cutovers[k].target, enabled := true)])
            && v.tuples == w.tuples && k in v.cutovers && v.cutovers[k].phase == CutDone
  {
  }

  /** What a completed cutover leaves: the connection enabled under the target with the generation of
      its denial, everything else denied as the denial left it, and none of the connection's tuples. */
  ghost predicate CutOver(w: World, v: World, c: nat, target: Authority) {
    && c in w.rows.connections && c in v.rows.connections
    && v.rows.connections[c] == w.rows.connections[c].(enabled := true, authority := target, generation := w.nextToken)
    && (forall d :: d in w.rows.connections && d != c ==> d in v.rows.connections && v.rows.connections[d] == w.rows.connections[d])
    && DeniesDocuments(w.rows, v.rows, c) && CutsAuthorizations(w.rows, v.rows, c) && DropsEvidence(w.rows, v.rows, c)
    && (forall t :: t in v.tuples <==> t in w.tuples && !Managed(t, ConnectionPrefix(c)))
  }

  lemma DeniedThenEnabled(w: World, v: World, u: World, c: nat, target: Authority)
    requires DeniesAll(w.rows, v.rows, c, w.nextToken) && v.tuples == w.tuples && c in v.rows.connections
    requires u.rows == v.rows.(connections := v.rows.connections[c := v.rows.connections[c].(authority := target, enabled := true)])
    requires u.tuples == v.tuples - ManagedOf(v.tuples, ConnectionPrefix(c))
    ensures CutOver(w, u, c, target)
  {
    assert DeniesDocuments(w.rows, u.rows, c) && CutsAuthorizations(w.rows, u.rows, c) && DropsEvidence(w.rows, u.rows, c);
  }

  /** An attempt whose steps nobody comes between gets to the end. */
  lemma UndisturbedCutover(cfg: Config, w: World, k: nat, c: nat, target: Authority, next: Token) returns (steps: seq<Step>)
    requires k !in w.cutovers && c in w.rows.connections && w.configured == target && w.rows.connections[c].authority != target
    requires w.rows.connections[c].hasRoot && Covers(w.rows, w.nextToken + 1, next)
    ensures var v := Run(cfg, w, steps); CutOver(w, v, c, target) && k in v.cutovers && v.cutovers[k].phase == CutDone
  {
    hide Apply, Run, CutOver, Covers, DeniesDocuments, CutsAuthorizations, DropsEvidence;
    var start, deny := StartCutover(k, c, target), DenyConnection(k, next);
    StartsAndDenies(cfg, w, k, c, target, next);
    var v := Apply(cfg, Apply(cfg, w, start), deny);
    var rest := Cleans(cfg, v, k, v.cutovers[k]);
    var u := Run(cfg, v, rest);
    ActivatesOwn(cfg, u, k);
    DeniedThenEnabled(w, v, Apply(cfg, u, Activate(k)), c, target);
    History.RunMore(cfg, v, rest, Activate(k));
    steps := [start] + ([deny] + (rest + [Activate(k)]));
    RunFrom(cfg, w, start, [deny] + (rest + [Activate(k)]));
    RunFrom(cfg, Apply(cfg, w, start), deny, rest + [Activate(k)]);
  }

  lemma RunFrom(cfg: Config, w: World, s: Step, rest: seq<Step>)
    ensures Run(cfg, w, [s] + rest) == Run(cfg, Apply(cfg, w, s), rest)
  {
    assert ([s] + rest)[1..] == rest;
  }
}
