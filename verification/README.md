# Verified model of permission-safe retrieval

The system answers questions from documents of a Google Drive. PostgreSQL rows and SpiceDB tuples,
two stores without a common transaction, decide who may see a document; Neo4j holds the chunks and
facts the answers come from. This project models the logic of the services and proves what they
are for.

The model has five parts, a module for each component.

1. **Per-user visibility.** `VisibilityRows` has the PostgreSQL rows and each transaction as a
   function, `VisibilityStore` the same transactions row after row, as a class proved against those
   functions. `AccessProtocol` interleaves everything: every transaction, every read, every question
   to Drive and every write batch is a step of its own, any number of executions, connects,
   disconnects and cutover attempts overlap, and each may stop between its steps. No lock keeps them
   apart; safety comes from generations and markers alone. `AccessInvariants`, `AccessSteps`,
   `AccessTransactions` and `AccessSafety` keep the invariant, `AccessHistory` shows that the recorded
   history is true, and `AccessTheorems` and `AccessLookup` hold the main results. `AccessUndisturbed`
   has the other direction, what an execution achieves that nobody disturbs, `AccessCutover` the same
   for a cutover, `AccessColumns` what the transactions write column by column, `AccessGates` which
   checks an execution has passed by the time it asks and writes, and `AccessExample` a run from empty
   tables to a returned document.
2. **Delegated permissions.** `FolderHierarchy` and `GroupResolver` search graphs on explicit stacks
   (`Digraph` has their paths and cycles), `DesiredState` computes the tuples, `TupleStore`,
   `OAuthViewer` and `DelegatedSync` write and verify them in batches, `Identifiers` keeps ids apart,
   `DelegatedEvidence` interleaves runs, other writers and metadata syncs, `DelegatedTheorems` says
   what the evidence is worth, and `DelegatedExamples` what a run can meet. `DelegatedCommit` says
   column by column what runs and syncs do to the evidence. `DriveAccess` and `StoreAccess` read the
   tuples as the store's schema does and prove that `view` is what the captured lists say,
   `DriveInheritance` that leaving out inherited entries loses nobody, and `DelegatedLookup` has the
   lookup that rests on both.
3. **Extraction.** `ExtractionMachine` interleaves tasks, refreshes, sweeps and reindexing;
   `GraphWriter`, `GraphReplacement` and `GraphStore` replace one document in the property graph,
   `GraphContents` says what the graph then holds, and `ExtractionGraph` puts machine and graph
   together. `ExtractionRecovery` shows how unfinished extraction recovers, `ExtractionReadiness` when a
   document is ready for retrieval.
4. **Retrieval and answers.** `Retrieval` has the guarded queries, `RankFusion` the fused ranking,
   `Retriever` one whole retrieval; `RetrievalPicks` and `RetrievalAnswers` say of the graph's edges
   alone what is returned. `ContextAssembly` and `Json` have the bounded JSONL context,
   `ContextReading` what a reader finds in it, and `AnswerGate` the answer. `AccessAnswers` goes the
   whole way from the lookup to the citations.
5. **Chunks and files.** `ParagraphSplitter` cuts text, `DriveWalk` walks a Drive tree.

`dafny verify dfyconfig.toml` checks the whole project.

How things are represented:

- A uuid4 is a natural number that was never drawn before. The marker an execution draws first
  identifies it. Where a transaction draws one token for each of several rows, the tokens are offsets
  from one base.
- Time is a natural number that only grows. What Drive answers for a document, what the language
  model extracts or answers, and how similar two vectors are, is arbitrary.
- sha256 is taken to be injective; a digest stands for what it is computed from. That of an access list
  covers its entries and their details in no order; entries equal in all that they are sorted by are
  taken to come in one order. Emails, domains and
  entity names reach the model already normalized, where the services normalize them first.
- A character is a Unicode scalar value, so there are no lone surrogates. Lower case is that of ASCII.
- The age of evidence runs from the time stamped just before the commit, as in the code, not from the
  question to Drive.
- `sorted` of a set is some order of it where nothing depends on which. Rows of equal rank keep the
  order in which the graph store yields them.
- Rank sums are exact fractions.

Six places where a promise depends on a condition, each proved with its exact condition:

- A succeeded extraction shows the current content only if content does not return to an earlier
  version while a task of its first time is still to report (`ExtractionMachine.RefreshSafeExactly`,
  with the counterexample `ExtractionMachine.ReturningContentMayMislead`).
- Two Drive folders whose ids differ in letter case only share one object id
  (`Identifiers.NamedIdsCoincide`, `Identifiers.FolderIdsMayCoincide`).
- That the verified access list is the list the row holds now needs a version that is not blank, as a
  cutover leaves it blank (`DelegatedTheorems.GuardPinsListExactly` for the guard,
  `DelegatedTheorems.CommitPinsListExactly` for runs, with the counterexample
  `DelegatedExamples.BlankVersionMayMislead`).
- That the tuples a delegated run verified were all in the store at once needs a state in which
  every resource type was as its call of the second read saw it
  (`DelegatedTheorems.HeldAtOnceExactly`, with the counterexample
  `DelegatedExamples.StraddlingReadsMayMislead`).

- That a document stays out once a run that excluded it has committed needs that no metadata sync read
  its row before (`DelegatedCommit.PassesExactlyBy` and `DelegatedCommit.ExcludedPassesAgainBy`, with
  the counterexample `DelegatedCommit.StaleReadRestores`).
- That the source and the target of a written relationship bear the names it uses needs that the last
  entity with the id is spelt so (`GraphContents.BearsNameExactly`, with the counterexample
  `GraphContents.LaterSpellingNames`).

## Model

| member | source | states |
|---|---|---|
| `AccessLookup.EvidencedIsWitnessed` | apps/backend/authorization/lookup.py:87-117 | Whatever the rows speak for, reads spread over any interleaving, one execution witnesses: it marked, saw, verified and committed under the generations still in force, within the age and with no later marking |
| `AccessLookup.ReturnedIsWitnessed` | apps/backend/authorization/lookup.py:27-138 | A document the lookup returns, its reads spread over any interleaving, has its tuple in the store; and one execution under the generations still in force when the evidence was read marked its row, then saw it, then verified the exact grants, then committed within the maximum age, with no later marking |
| `AccessLookup.ReturnedAfterDenialIsNew` | apps/backend/integrations/drive/user_oauth.py:265-285 | After a disconnect, a reconnect or a cutover denial commits, whatever a lookup returns for that user was witnessed by an execution that did not exist before it |
| `AccessLookup.VisibleRowHistory` | apps/backend/integrations/drive/user_visibility_sync.py:99-273 | Behind every visible evidence row of a reachable state stands the whole history of one execution, and the row's generations are the present ones |
| `AccessLookup.GrantInStore` | apps/backend/authorization/lookup.py:120-138 | An id that passes the check of the direct tuples has its grant tuple in the store |
| `AccessLookup.ReadsOfRun` | apps/backend/authorization/lookup.py:161-184 | The six reads of one lookup may fall anywhere in a run: each state follows from the one before by the steps in between |
| `AccessTheorems.DenialIsFinal` | apps/backend/integrations/drive/user_oauth.py:377-392 | No execution that began before a disconnect, a reconnect or a denial commits after it, however its own and all other steps fall |
| `AccessTheorems.StaleNeverLands` | apps/backend/integrations/drive/user_visibility_sync.py:205-213 | An execution whose run bears generations that were rotated away never commits, in any continuation |
| `AccessTheorems.StaleStays` | apps/backend/integrations/models.py:205-252 | A generation that was replaced never comes back |
| `AccessTheorems.RunAdvances` | apps/backend/integrations/permission_authority.py:42-103 | Over a whole run every authorization and connection keeps its generation or bears a token drawn since; executions keep theirs; time and history only grow |
| `AccessTheorems.OnlyItsCutoverEnables` | apps/backend/integrations/permission_authority.py:119-169 | A disabled connection becomes enabled only by the attempt whose own denial set the present generation and that afterwards read every tuple kind empty, and then under that attempt's authority |
| `AccessTheorems.StaysDenied` | apps/backend/integrations/permission_authority.py:127-130 | However attempts fail or stop, without an activation a denied connection stays disabled, with no active authorization and no positive evidence on it |
| `AccessTheorems.DisabledMeansDenied` | apps/backend/integrations/permission_authority.py:70-103 | In every reachable state a disabled connection has no active authorization and no visible evidence row |
| `AccessTheorems.AtMostOneActive` | apps/backend/integrations/drive/user_oauth.py:362-392 | In every reachable state an email has at most one active authorization on a connection |
| `AccessTheorems.CommitIsAllOrNothing` | apps/backend/integrations/drive/user_visibility_sync.py:205-273 | A commit lands exactly when the scope is valid and every candidate is active and still bears the marker; then every candidate's row shows its answer and visible, denied and unknown add up to the candidates; otherwise no row changes |
| `AccessTheorems.RemarkedNeverLands` | apps/backend/integrations/drive/user_visibility_sync.py:223-240 | An execution one of whose candidate rows was marked later by another never commits |
| `AccessTheorems.MayLandIsCommit` | apps/backend/integrations/drive/user_visibility_sync.py:206-240 | The commit transaction succeeds exactly under the three conditions on scope, activity and markers |
| `AccessUndisturbed.DriveDecides` | apps/backend/integrations/drive/user_visibility_sync.py:287-327 | Whatever was so before, an execution in order that nobody disturbs can make a lookup return exactly the eligible documents that Drive answers visible, for any answers |
| `AccessUndisturbed.LandedIsExact` | apps/backend/authorization/lookup.py:87-159 | However an execution proceeded alone, batch sizes included, once it has landed a lookup returns a document if and only if Drive showed it and it is eligible under some permissions version |
| `AccessUndisturbed.ReadyLands` | apps/backend/integrations/drive/user_visibility_sync.py:287-327 | With a valid scope, candidates within the cap and the domains in order, some course of the execution lands with any given answers for the candidates |
| `AccessUndisturbed.LandedWasReady` | apps/backend/integrations/drive/user_visibility_sync.py:144-273 | These conditions on the rows it starts from are necessary: no execution lands alone without them |
| `AccessUndisturbed.RunAlone` | apps/backend/integrations/drive/user_visibility_sync.py:287-327 | While only one execution moves, its variables agree with the rows it started from, its verified grants stay the grants in the store, and what it publishes is what it was answered |
| `AccessUndisturbed.CommitPublishes` | apps/backend/integrations/drive/user_visibility_sync.py:223-243 | A commit that lands leaves in every candidate's row the answer, the marker, the time and, for a visible one, the revision |
| `AccessUndisturbed.ValidIdsOfGrants` | apps/backend/authorization/lookup.py:120-138 | The check of the direct tuples gives back exactly the ids of the granted documents, each grant having an id of its own |
| `AccessUndisturbed.PlanFor` | apps/backend/authorization/oauth_viewer.py:104-138 | From any tuples there is a list of updates that leaves exactly the desired grants in scope |
| `AccessExample.SomeDocumentIsReturned` | apps/backend/authorization/lookup.py:161-184 | From empty tables some run leads to a lookup that returns a document, so what the results above suppose does occur |
| `AccessHistory.EveryEventWasTrue` | apps/backend/integrations/drive/user_visibility_sync.py:287-327 | Every entry of the history was written by some step of the run and was so at that step: rows were marked, the store did hold exactly the visible grants, the kinds of tuple were absent, the commit did land whole |
| `AccessSafety.Reachable` | apps/backend/integrations/drive/user_visibility_sync.py:287-327 | The invariant holds in every state reachable by any interleaving of the environment, connects, disconnects, executions and cutover attempts |
| `AccessSafety.RunKeeps` | apps/backend/integrations/tasks.py:104-149 | Any sequence of steps, duplicate executions and crashes included, keeps the invariant |
| `AccessSafety.StepKeeps` | apps/backend/integrations/tasks.py:401-431 | Every single step keeps the invariant, the sweeper's and the scheduler's among them |
| `AccessSteps.PreinvalidateKeeps` | apps/backend/integrations/drive/user_visibility_sync.py:99-141 | Marking makes the execution the owner of the candidate rows and leaves no older positive evidence of the authorization |
| `AccessSteps.CommitKeeps` | apps/backend/integrations/drive/user_visibility_sync.py:191-273 | What a commit writes is backed by its execution and by the present generations |
| `AccessSteps.AskKeeps` | apps/backend/integrations/drive/user_visibility_client.py:147-216 | An answer of Drive is recorded after the marking and before anything rests on it |
| `AccessSteps.VerifyKeeps` | apps/backend/authorization/oauth_viewer.py:126-133 | The verified set stands in the history behind every answer it contains |
| `AccessSteps.InvalidateKeeps` | apps/backend/integrations/drive/user_visibility_sync.py:70-96 | Deny-only invalidation leaves markers in place and keeps the invariant, so a swept execution may still commit safely |
| `AccessSteps.ReloadKeeps` | apps/backend/integrations/drive/user_visibility_sync.py:296-299 | Reloading the run and checking its scope keeps the invariant |
| `AccessSteps.LoadKeeps` | apps/backend/integrations/drive/user_visibility_client.py:95-115 | Loading the authorization for the Drive check keeps the invariant |
| `AccessSteps.ValidateResultsKeeps` | apps/backend/integrations/drive/user_visibility_sync.py:164-188 | Only answers for exactly the candidates, given under the run's generations, go on |
| `AccessSteps.BeginKeeps` | apps/backend/integrations/drive/user_visibility_sync.py:99-100 | A new execution starts with a marker nobody else has |
| `AccessTransactions.CompleteKeeps` | apps/backend/integrations/drive/user_oauth.py:330-392 | Connecting leaves the subject's row the only active one of the email, under a new generation and without evidence |
| `AccessTransactions.DisconnectKeeps` | apps/backend/integrations/drive/user_oauth.py:438-463 | Disconnecting rotates the generations and drops the evidence of every row of the email |
| `AccessTransactions.DenyKeeps` | apps/backend/integrations/permission_authority.py:70-103 | A denial sets a generation no other attempt holds and takes evidence and authorizations of the connection with it |
| `AccessTransactions.RecheckKeeps` | apps/backend/integrations/permission_authority.py:106-116 | The cleanup is confirmed kind by kind, each empty read after the denial |
| `AccessTransactions.ActivateKeeps` | apps/backend/integrations/permission_authority.py:154-169 | Activation under the attempt's own generation touches nothing that rests on the connection |
| `AccessProtocol.PreinvalidateExec` | apps/backend/integrations/drive/user_visibility_sync.py:99-141 | The first transaction of an execution moves nothing but its own variables and the evidence |
| `AccessProtocol.ValidateConnectionExec` | apps/backend/authorization/oauth_viewer.py:25-55 | The second check of the connection and the identity changes no row and no token |
| `AccessProtocol.ResolveExec` | apps/backend/authorization/oauth_viewer.py:58-88 | Checking the visible documents against the index changes no row and no token |
| `AccessProtocol.WriteBatchExec` | apps/backend/authorization/client.py:201-206 | A write batch changes tuples only; it may be followed by any other step or by none |
| `AccessProtocol.VerifyExec` | apps/backend/authorization/oauth_viewer.py:126-133 | The second read of the grants changes no row and no token |
| `AccessProtocol.CommitExec` | apps/backend/integrations/drive/user_visibility_sync.py:191-273 | A commit lands only while the scope of the run is valid, and draws no token |
| `AccessProtocol.ApplyExec` | apps/backend/integrations/drive/user_visibility_sync.py:287-327 | No step of an execution changes a connection, a generation, an email or another execution |
| `VisibilityStore.Postgres.Preinvalidate` | apps/backend/integrations/drive/user_visibility_sync.py:99-141 | The marking loop leaves the rows the transaction's function says, the over-cap case included |
| `VisibilityStore.Postgres.WriteResults` | apps/backend/integrations/drive/user_visibility_sync.py:223-243 | The commit loop succeeds exactly when every row bears the marker, writes every result, and its counters are the numbers of visible, denied and unknown results |
| `VisibilityStore.Postgres.CommitVerifiedResults` | apps/backend/integrations/drive/user_visibility_sync.py:191-273 | The commit transaction, rollback included, is its function |
| `VisibilityStore.Postgres.DisconnectAuthorizationRow` | apps/backend/integrations/drive/user_oauth.py:265-285 | Afterwards no run of the authorization has a valid scope, whatever authority is configured, and nothing of its evidence is left; every run of another authorization has a valid scope exactly if it had one before, and no row changes its connection or email |
| `VisibilityStore.Postgres.DisconnectAll` | apps/backend/integrations/permission_authority.py:42-67 | The loop disconnects exactly the given rows, each with a token of its own |
| `VisibilityStore.Postgres.DisconnectAuthorization` | apps/backend/integrations/drive/user_oauth.py:438-463 | The disconnect transaction is its function, or fails without a usable connection |
| `VisibilityStore.Postgres.CompleteAuthorization` | apps/backend/integrations/drive/user_oauth.py:329-393 | The connect transaction is its function, and fails exactly when it may not complete |
| `VisibilityStore.Postgres.DenyConnection` | apps/backend/integrations/permission_authority.py:70-103 | The denial transaction is its function, and fails exactly for a missing connection or root |
| `VisibilityRows.CountsAddUp` | apps/backend/integrations/drive/user_visibility_sync.py:241-247 | Visible, denied and unknown results are all the results there are |
| `VisibilityRows.Invalidated` | apps/backend/integrations/drive/user_visibility_sync.py:70-81 | Invalidation keeps every evidence row, and so its marker, in place |
| `VisibilityRows.WithMarks` | apps/backend/integrations/drive/user_visibility_sync.py:124-138 | Marking keeps all rows and adds those of the candidates |
| `DelegatedTheorems.VerifiedIsBacked` | apps/backend/authorization/sync.py:84-143 | Behind a verified document stands a run whose second read, one call for each resource type with any writes in between, saw for each type a state of the store, later than the computing and earlier than the commit, that held of that type exactly what the desired state of a scan of the table comes to, with no direct grant. In the state of the documents' type exactly the eligible documents were named by a tuple, and this document by exactly the tuples of its list; unless a cutover blanked the version these are the tuples of the list the row holds now |
| `DelegatedExamples.StraddlingReadsMayMislead` | apps/backend/authorization/client.py:115-139 | That there was one state that held all of the desired tuples is not so: another writer's batch between two calls lets a run verify a set of tuples that the store held at no time |
| `DelegatedTheorems.HeldAtOnceExactly` | apps/backend/authorization/sync.py:108-111 | A state of the store held exactly the desired tuples if and only if each resource type was in it as the run read it |
| `DelegatedTheorems.KindWasHeld` | apps/backend/authorization/client.py:115-139 | An answer from any state at least as fresh as the revision shows what the store held at some step between the computing and the call |
| `DelegatedExamples.UndisturbedVerifies` | apps/backend/authorization/sync.py:108-111 | A run that nobody disturbs once the store holds its desired tuples finds them and goes on to its commit |
| `DelegatedTheorems.VerifiedIsEvident` | apps/backend/integrations/models.py:70-83 | Under any interleaving of delegated runs with metadata syncs, a document that passes the verified predicate carries evidence committed within the age by a run that computed its tuples from a list of the version the row holds now, and that list has the entries of the present one unless a cutover blanked the version |
| `DelegatedTheorems.CommitPinsListExactly` | apps/backend/authorization/sync.py:500-529 | Whatever happens until its commit, a run can only enable a document that holds the list its tuples were computed from, if and only if the version it read was not blank |
| `DelegatedTheorems.GuardPinsListExactly` | apps/backend/authorization/sync.py:500-516 | Every row the compare-and-swap accepts holds the list of the basis, if and only if its version is not blank |
| `DelegatedExamples.BlankVersionMayMislead` | apps/backend/integrations/permission_authority.py:84-91 | A run in which a cutover blanks the version twice: the document passes the verified predicate, its list is one no run ever computed from |
| `DelegatedTheorems.EntryWasTrue` | apps/backend/authorization/sync.py:84-111 | Every entry of the history was so at the step that wrote it: the scan did hold the rows, each call did return that type's tuples of the state it was answered from, the three answers together were the desired tuples |
| `DesiredState.VersionFixesTuples` | apps/backend/authorization/sync.py:406-451 | Lists of one digest yield the same tuples, however their entries and details are ordered |
| `DesiredState.DesiredOfDocument` | apps/backend/authorization/sync.py:298-337 | The desired tuples that name an eligible document are those of its own row |
| `DelegatedEvidence.StepKeeps` | apps/backend/integrations/drive/sync.py:93-147 | Every step keeps that, a sync that writes what it read before a run committed included |
| `DelegatedEvidence.CommitKeeps` | apps/backend/authorization/sync.py:500-529 | The compare-and-swap on the version enables a document only at the version its tuples were computed from, after the run verified them |
| `DelegatedEvidence.VerifyKeeps` | apps/backend/authorization/sync.py:108-111 | A run goes on only if its three answers together are exactly its desired tuples, which makes them so type by type, whoever else wrote meanwhile |
| `DelegatedEvidence.RereadKeeps` | apps/backend/authorization/client.py:115-139 | Each call of the second read is a step of its own, in any order, answered from any state at least as fresh as the run's last batch, or from the present one if it wrote none |
| `DelegatedEvidence.FoundByKind` | apps/backend/authorization/client.py:115-139 | What was read of each type is what is desired of it, as no tuple is of two types |
| `DelegatedEvidence.WriteMetadataKeeps` | apps/backend/integrations/drive/sync.py:100-147 | Preserved verification is evidence for the version being written |
| `DelegatedEvidence.ScanKeeps` | apps/backend/authorization/sync.py:149-219 | The complete scan of a run invalidates by changing the version |
| `DelegatedEvidence.Documents.CommitVerifiedDocuments` | apps/backend/authorization/sync.py:500-529 | The two loops leave the rows their function says and count the updates that hit |
| `DelegatedEvidence.Documents.PersistCompleteScan` | apps/backend/authorization/sync.py:149-219 | The loop over the files found and the update of the others leave the rows their function says |
| `TupleStore.SpiceDb.WriteUpdates` | apps/backend/authorization/client.py:179-207 | For any batch size the store ends with all touches and no deletes; a stop after any batch leaves a set between; the revision is blank exactly when there was nothing to write |
| `TupleStore.SpiceDb.WriteBatches` | apps/backend/authorization/client.py:199-207 | Batches are applied in order; it fails exactly when the store accepts fewer batches than there are |
| `TupleStore.SpiceDb.WriteRelationships` | apps/backend/authorization/client.py:202-206 | One call applies its updates together and yields a token |
| `TupleStore.SpiceDb.ReadManagedTuples` | apps/backend/authorization/client.py:115-139 | The read over the three resource types is everything of the connection |
| `TupleStore.SpiceDb.ReadOauthViewerTuples` | apps/backend/authorization/client.py:141-177 | The scoped read is exactly the user's direct grants |
| `TupleStore.UpdatesFor` | apps/backend/authorization/oauth_viewer.py:118-124 | What is touched and deleted turns the current set into the desired one, and something is touched whenever anything is desired |
| `TupleStore.WriteDifference` | apps/backend/authorization/sync.py:103-108 | The difference turns the current tuples into the desired ones; a failure leaves a set between them |
| `TupleStore.OtherConnectionsOutOfScope` | apps/backend/authorization/client.py:129-138 | A tuple of another connection is in no scope of this one |
| `TupleStore.AppliedWithin` | apps/backend/authorization/client.py:201-206 | Any prefix of the updates only touches what is to be touched and deletes what is to be deleted |
| `OAuthViewer.Reconcile` | apps/backend/authorization/oauth_viewer.py:104-138 | The user's direct grants become exactly the requested active documents, with a revision whenever there is one; no tuple outside the user's scope changes; it fails exactly when the requested scope is invalid or one of its calls fails, and then leaves a set between the old and the new |
| `OAuthViewer.WriteGrants` | apps/backend/authorization/oauth_viewer.py:117-138 | Without another writer it fails exactly when a call fails, and the revision is blank exactly when nothing was and nothing is granted |
| `OAuthViewer.DesiredTuples` | apps/backend/authorization/oauth_viewer.py:58-88 | Succeeds exactly for positive, indexed, active ids within the cap; otherwise the error says which |
| `OAuthViewer.ScopeByColumns` | apps/backend/authorization/oauth_viewer.py:58-83 | A scope is valid if and only if every id is of an active document of the connection and there are no more of them than the cap, however often each is repeated |
| `OAuthViewer.GrantsNameRequested` | apps/backend/authorization/oauth_viewer.py:84-93 | Once reconciled, the user has a direct grant on each requested document and on no other |
| `OAuthViewer.CollectIds` | apps/backend/authorization/oauth_viewer.py:63-69 | The cap error is raised exactly when some prefix of positive ids exceeds the cap |
| `Identifiers.PrefixesKeepApart` | apps/backend/authorization/identifiers.py:9-10 | No connection's prefix matches another connection's ids |
| `Identifiers.PrefixDetermines` | apps/backend/authorization/identifiers.py:9-26 | The connection and the rest of an id can be told from the id |
| `Identifiers.DocumentIdInjective` | apps/backend/authorization/identifiers.py:13-14 | Document ids coincide only for the same connection and document |
| `Identifiers.NamedIdsCoincide` | apps/backend/authorization/identifiers.py:4-26 | Folder, user or group ids coincide exactly when the connection is the same and the names agree up to letter case and outer whitespace |
| `Identifiers.NamesFoldAlike` | apps/backend/authorization/identifiers.py:4-6 | Two names fold to one if and only if they differ in letter case and outer whitespace only |
| `Identifiers.FolderIdsMayCoincide` | apps/backend/authorization/identifiers.py:17-18 | Two folder ids that differ in letter case only share one object id |
| `Identifiers.KindsKeepApart` | apps/backend/authorization/identifiers.py:13-26 | Ids of different kinds never coincide |
| `DelegatedSync.ReconcileManaged` | apps/backend/authorization/sync.py:92-111 | Everything the store holds for the connection becomes the desired set; it fails exactly when a call fails or a desired tuple is out of scope |
| `DelegatedSync.SynchronizeTuples` | apps/backend/authorization/sync.py:84-111 | With no other writer, a run that reaches its commit leaves exactly the documents it will enable backed by a tuple, no direct per-user grant, a revision if any is enabled, and other connections' tuples untouched; it fails exactly when the folders form a cycle or one of its calls fails |
| `DesiredState.DesiredStateOf` | apps/backend/authorization/sync.py:222-338 | Fails exactly on a folder cycle; otherwise eligible and excluded partition the active documents, each excluded one with the reason that comes first among all that apply, and the desired set is exactly the tuples of resolved groups, usable folders and eligible documents |
| `DesiredState.EligibleIffGranted` | apps/backend/authorization/sync.py:299-337 | A document is eligible exactly when some desired tuple names it |
| `DesiredState.BackedIsEligible` | apps/backend/authorization/sync.py:298-337 | Through the worklist's closure: no eligible document has an invalid folder among its in-scope ancestors, along any path |
| `DesiredState.NoViewerDesired` | apps/backend/authorization/sync.py:87-91 | The desired set never holds a direct per-user grant |
| `DesiredState.DesiredIsManaged` | apps/backend/authorization/sync.py:243-337 | The desired set stays within what the connection's scoped read returns |
| `DesiredState.AddDocuments` | apps/backend/authorization/sync.py:299-337 | The document loop sorts every document and collects exactly the tuples of the eligible ones |
| `DesiredState.AddFolders` | apps/backend/authorization/sync.py:268-296 | The folder loop finds exactly the unusable folders and the tuples of the others |
| `DesiredState.AddGroups` | apps/backend/authorization/sync.py:243-266 | The group loop collects exactly the member and nesting tuples |
| `DesiredState.SettleGroups` | apps/backend/authorization/sync.py:235-241 | Every referenced group is resolved completely, or all of them count as unresolved |
| `DesiredState.ResourceAclReason` | apps/backend/authorization/sync.py:370-390 | No reason exactly when the list is complete, opens nothing to the public or a domain, and every entry can be expressed; otherwise the first reason in that order |
| `DesiredState.FirstReason` | apps/backend/authorization/sync.py:378-390 | The reason is that of the first entry that has one |
| `DesiredState.DocumentReason` | apps/backend/authorization/sync.py:393-403 | Only the content-type exclusion is kept; it comes before an invalid folder above, and that before the document's own list |
| `DesiredState.EntryReason` | apps/backend/authorization/sync.py:378-389 | Blank exactly for a deleted principal or a supported, settled, resolved one; what cannot be expressed comes before a pending owner, and that before an unresolved group |
| `DesiredState.GroupsOf` | apps/backend/authorization/sync.py:353-367 | Exactly the groups that some entry that is not deleted names |
| `FolderHierarchy.ValidateAcyclic` | apps/backend/authorization/sync.py:454-483 | Raises exactly when the in-scope parent relation has a cycle; otherwise every folder was visited and numbered above its parents, for any graph and depth |
| `FolderHierarchy.SearchFrom` | apps/backend/authorization/sync.py:466-483 | One start: a back edge closes a real cycle, otherwise everything above the start is finished |
| `FolderHierarchy.ParentEdges` | apps/backend/authorization/sync.py:455-460 | The edges are the named parents that are in scope |
| `FolderHierarchy.IncludeDescendants` | apps/backend/authorization/sync.py:486-497 | The result is the least superset closed under children |
| `FolderHierarchy.DescendantsExactly` | apps/backend/authorization/sync.py:486-497 | It is exactly the folders with an invalid folder at or above them |
| `FolderHierarchy.NoInvalidAncestor` | apps/backend/authorization/sync.py:298-307 | A folder outside the result has no invalid ancestor along any path |
| `GroupResolver.Resolve` | apps/backend/integrations/drive/groups.py:48-80 | Succeeds exactly when every reachable group can be fetched and no cycle is reachable; the answer then is exactly the reachable groups, each fetched once, with its own membership |
| `GroupResolver.ResolveFrom` | apps/backend/integrations/drive/groups.py:65-80 | One requested group: resolves all that is reachable from it, or finds a real cycle or a failing fetch |
| `DriveWalk.WalkFiles` | apps/backend/integrations/drive/google_client.py:384-442 | The strict walk fails exactly when some reachable listing fails; otherwise every reachable file is emitted once, at a least depth, every folder once if asked, on any tree with cycles and shared parents; the tolerant walk counts each failing folder once |
| `DriveWalk.WalkRound` | apps/backend/integrations/drive/google_client.py:417-442 | One round keeps the account of what was found and makes progress |
| `DriveWalk.ListFolder` | apps/backend/integrations/drive/google_client.py:419-442 | Listing one folder emits what is new and queues each new folder once |
| `ExtractionMachine.RunKeeps` | apps/backend/integrations/tasks.py:488-559 | Under any interleaving of duplicate, late, retried and crashed tasks, refreshes, sweeps and reindexing, while refreshes are safe a succeeded or ready document has the chunks of its current content in the graph |
| `ExtractionMachine.RefreshSafeExactly` | apps/backend/integrations/drive/sync.py:252-285 | The promise survives a refresh, for all that may follow until the next, exactly when the graph holds the new content or no task is about to report it written |
| `ExtractionMachine.SucceededIsCurrent` | apps/backend/integrations/tasks.py:152-178 | For a document that never returns to earlier content, succeeded means current |
| `ExtractionGraph.SucceededHoldsItsChunks` | apps/backend/graph/pipeline.py:109-155 | The same of the graph itself: a succeeded or ready document has there exactly the chunk nodes of its current content, with their texts, among any replacements of other documents |
| `ExtractionGraph.ReplacedHolds` | apps/backend/graph/pipeline.py:136-152 | A replacement that is not rolled back leaves exactly the extracted chunks of the document |
| `ExtractionGraph.OtherHolds` | apps/backend/graph/pipeline.py:136-152 | A replacement of another document, failing or not, leaves them as they are |
| `ExtractionMachine.NeverReturningIsSafe` | apps/backend/integrations/drive/sync.py:252-285 | Content that is always new only makes safe refreshes |
| `ExtractionMachine.OnlyCurrentIsWritten` | apps/backend/graph/pipeline.py:124-155 | The graph is only replaced by the chunks of the content current at that moment |
| `ExtractionMachine.ReturningContentMayMislead` | apps/backend/integrations/tasks.py:545-555 | Content that goes from one to another and back while a task is late: the status says succeeded, the graph holds the other |
| `ExtractionMachine.ExtractionRow.SetGraphExtractionState` | apps/backend/integrations/tasks.py:152-178 | Whatever graph and tasks stand beside the row, any status but succeeded keeps the invariant of the machine, and so does success if a task that wrote the graph for the expected hash reports it; for another hash nothing changes |
| `ExtractionMachine.ExtractionRow.MarkPerUserContentReady` | apps/backend/integrations/tasks.py:181-200 | Whoever calls it for whatever hash, the invariant is kept: a row only becomes ready when succeeded for that hash, active and not excluded |
| `ExtractionMachine.ExtractionRow.SweepStale` | apps/backend/integrations/tasks.py:457-478 | No row stays running from before the cutoff; a swept one lost an attempt and nothing of its content or readiness, and the invariant is kept |
| `ExtractionMachine.ExhaustedIsLeftAlone` | apps/backend/integrations/drive/sync.py:223-243 | Once the attempts for a content are used up, no sync enqueues it again, whatever late or duplicate tasks do, until new content, a reindexing or a cutover |
| `GraphReplacement.OthersUnchanged` | apps/backend/graph/writer.py:80-275 | Replacing one document leaves all nodes and edges of other documents as they were |
| `GraphReplacement.TwiceIsOnce` | apps/backend/graph/writer.py:80-275 | Replacing twice with the same input is replacing once |
| `GraphReplacement.NoEdgeEverCrosses` | apps/backend/graph/writer.py:80-275 | Over any sequence of replacements no edge joins two documents or carries a third one's provenance |
| `GraphReplacement.FailsIffChunkMissing` | apps/backend/graph/writer.py:200-228 | Writing entities fails exactly when a mention names a chunk that is not there |
| `GraphReplacement.ChunksAreExact` | apps/backend/graph/writer.py:80-146 | Afterwards the document's chunks are exactly the extracted ones, with their texts |
| `GraphWriter.ReplaceKeepsSeparate` | apps/backend/graph/writer.py:80-275 | A replacement keeps every edge within one document |
| `GraphWriter.OwnerIsUnique` | apps/backend/graph/writer.py:37-42 | A colon-joined id belongs to one document only |
| `GraphWriter.ChunkIdInjective` | apps/backend/graph/writer.py:136-144 | Chunk ids coincide only for the same document and index |
| `GraphWriter.EndpointIds` | apps/backend/graph/writer.py:230-233 | An endpoint stands for the ids of the document's entities with the name, and the type if one is given |
| `GraphWriter.MergeEntitySeparate` | apps/backend/graph/writer.py:204-222 | Merging one entity and its mention stays within the document |
| `GraphStore.Store.ReplaceDocumentEntities` | apps/backend/graph/writer.py:149-275 | The whole method is its function; it fails exactly for a missing chunk; written plus skipped relationships are all the input's |
| `GraphStore.ResolveRelationships` | apps/backend/graph/writer.py:235-251 | A relationship is written exactly when both ends are known and unambiguous, else counted as skipped |
| `GraphStore.IndexEntities` | apps/backend/graph/writer.py:181-199 | The dictionaries give for every name and type exactly the ids of the entities |
| `Retrieval.NonInterference` | apps/backend/retrieval/neo4j.py:19-101 | Each query over the whole graph is the query over the graph cut down to the allowed documents, with its order and its limit |
| `Retrieval.Matches` | apps/backend/retrieval/neo4j.py:19-25 | Every match passes the provenance guard on all three elements and stays within one document |
| `Retrieval.FactsOfCut` | apps/backend/retrieval/neo4j.py:38-53 | The two-step fact match sees nothing outside the allowed documents |
| `Retrieval.SortOrdered` | apps/backend/retrieval/neo4j.py:34-35 | Rows come by relevance, document and chunk index, and none is lost |
| `Retriever.RetrievalSeesOnlyAllowed` | apps/backend/retrieval/neo4j.py:235-286 | A whole retrieval, fusion included, is that over the cut graph |
| `Retriever.RetrievedIsAllowed` | apps/backend/retrieval/neo4j.py:235-286 | Every chunk and fact retrieved is of an allowed document |
| `Retriever.Retrieve` | apps/backend/retrieval/neo4j.py:235-286 | The retrieval with its loops is its function |
| `Retriever.ChunksAllowed` | apps/backend/retrieval/neo4j.py:288-325 | The chunks of the rows are of allowed documents, none twice |
| `Retriever.Chunks` | apps/backend/retrieval/neo4j.py:288-325 | The loop keeps the first usable row of each chunk |
| `Retriever.FactsAllowed` | apps/backend/retrieval/neo4j.py:327-376 | The facts of the rows are of allowed documents, none twice |
| `Retriever.FactsOf` | apps/backend/retrieval/neo4j.py:327-376 | The loop keeps the first usable row of each fact |
| `RankFusion.FuseChunkRankings` | apps/backend/retrieval/neo4j.py:183-205 | The loops over dictionaries compute the fused ranking |
| `RankFusion.FusedIsSum` | apps/backend/retrieval/neo4j.py:187-205 | A fused chunk is the first with its key, its relevance the sum of its reciprocal ranks, its modes those it was found by |
| `RankFusion.FusedAreBest` | apps/backend/retrieval/neo4j.py:197-205 | The result comes best first, and no key left out is better than one that is in |
| `RankFusion.TopKeysAreBest` | apps/backend/retrieval/neo4j.py:197 | Sorting and cutting keeps the best keys in a strict order |
| `ContextAssembly.AssembleContext` | apps/backend/retrieval/context.py:35-119 | The text is within its budget; the kept items are the non-blank ones up to the first that finds no room; every line shows its content in full or, as the last, shrunk as little as possible; the returned chunks and facts are those kept |
| `ContextAssembly.ShrinkToFit` | apps/backend/retrieval/context.py:84-104 | The binary search finds the longest shrunken content that fits among the cut points from sixteen up, or shows that none does |
| `ContextAssembly.ShrunkLeavesLittle` | apps/backend/retrieval/context.py:81-105 | A shrunken line leaves at most ten characters of the budget |
| `ContextAssembly.ExhaustedMeansNoRoom` | apps/backend/retrieval/context.py:77-104 | After a shrunken line no further line fits, each needing at least fifty-seven characters |
| `ContextAssembly.Envelope` | apps/backend/retrieval/context.py:22-32 | A line costs at least fifty-seven characters besides its content |
| `ContextAssembly.CutCostStep` | apps/backend/retrieval/context.py:88-98 | A longer cut costs more, and at most eleven characters more |
| `ContextAssembly.ContextReadsBack` | apps/backend/retrieval/context.py:64-116 | Splitting the text at newlines and decoding each line gives the sources S1 to Sn, kinds, chunk ids and contents, whatever the contents hold |
| `ContextAssembly.CompactShape` | apps/backend/retrieval/context.py:18-19 | Compacting loses no character but whitespace and leaves single inner blanks |
| `Json.ReadsBack` | apps/backend/retrieval/context.py:22-32 | A written string reads back by the grammar of RFC 8259, section 7, whatever it holds |
| `Json.LineReadsBack` | apps/backend/retrieval/context.py:22-32 | A written line reads back as its record |
| `Json.LineHasNoNewline` | apps/backend/retrieval/context.py:22-32 | A written line holds no newline |
| `Json.SplitsBack` | apps/backend/retrieval/context.py:116 | Joined lines without newlines split back |
| `AnswerGate.AnswerQuery` | apps/backend/retrieval/services.py:45-120 | An answer is refused exactly if a stage raised, the budget is not positive or the context supports no answer; the context is assembled from the retrieved evidence of the documents both in the first allow-list and in the later recheck; every citation is of such a document, in the order in which the items are first met |
| `AccessAnswers.AnswerFromGraph` | apps/backend/retrieval/services.py:45-120 | From the lookup through the retrieval to the citation: the context is assembled from what retrieval finds in the part of the graph that belongs to the documents the lookup allows and the recheck keeps; it is refused exactly if it supports no answer; every cited document is witnessed at the lookup and again at the recheck |
| `AccessAnswers.AnswerForUser` | apps/backend/retrieval/services.py:45-120 | Whatever the retriever does with the allow-list, every cited document had its grant in the store at the lookup and was witnessed there by one execution, within the age and under the generations in force, and again at the recheck |
| `AccessAnswers.KeptAfterDenialIsNew` | apps/backend/authorization/lookup.py:217-270 | If a denial commits before the recheck begins, what the recheck keeps was witnessed by an execution that did not exist before the denial, even if the lookup came earlier |
| `AccessAnswers.AllowedSourceDocumentIds` | apps/backend/authorization/lookup.py:187-214 | The lookup returns exactly the documents with fresh evidence and a valid grant through the one active connection and the one authorization; a failure returns none |
| `AccessAnswers.FreshAuthorizedDocuments` | apps/backend/authorization/lookup.py:217-270 | The recheck keeps exactly the asked documents with positive ids and fresh evidence, whatever the lookup found; a failure keeps none |
| `AnswerGate.AnswerFrom` | apps/backend/retrieval/services.py:78-112 | The context is assembled from the narrowed evidence, and an answer is refused exactly if the context supports none; citations are of the narrowed evidence only |
| `AnswerGate.Cite` | apps/backend/retrieval/services.py:90-105 | Every item of the context is cited, once, in the order in which the items are first met |
| `AnswerGate.ContextIsEvidence` | apps/backend/retrieval/services.py:78-92 | The context holds nothing but the evidence it was given |
| `ParagraphSplitter.SplitOversizedParagraph` | apps/backend/graph/extraction.py:91-121 | It ends; the raw slices begin at the front, follow without a gap, overlap by at most the setting, stay within the budget, end at the preferred boundary and reach the end |
| `ParagraphSplitter.NothingLost` | apps/backend/graph/extraction.py:91-121 | Every character that is not whitespace lies in the stripped slice of some cut, which is the chunk of that cut |
| `ParagraphSplitter.StripsAscend` | apps/backend/graph/extraction.py:106-119 | The stripped slices begin in the order of the cuts, also where a slice was nothing but whitespace |
| `ParagraphSplitter.ChunkCount` | apps/backend/graph/extraction.py:91-121 | With an overlap below half of the budget there are at most 1 + ceil((len - max) / (max // 2 - overlap)) chunks |
| `ParagraphSplitter.ChunksBounded` | apps/backend/graph/extraction.py:91-121 | Every chunk is within the maximum |
| `ParagraphSplitter.CutEnd` | apps/backend/graph/extraction.py:97-114 | A slice ends at the last boundary in the second half of its budget, or at the budget if there is none or nothing stands before it |
| `ParagraphSplitter.Extract` | apps/backend/graph/extraction.py:79-89 | Every chunk of the whole text is within the maximum and is the text at a place of its own, within one paragraph; a paragraph within the maximum is exactly one chunk, every other has at least one; the places come in order, and nothing but whitespace lies outside them |
| `ParagraphSplitter.NoChunkCrosses` | apps/backend/graph/extraction.py:79-80 | No chunk crosses a blank line |
| `StoreAccess.StoreViewIsAccess` | apps/backend/authorization/schema.zed:1-29 | Once the store holds what a scan desires of the connection, whatever it holds of other connections, the schema's `view` lets a user view a document if and only if it is eligible and its own captured list, or one at or above a parent folder in scope, names the user, itself or through nested groups |
| `DriveAccess.ViewIsAccess` | apps/backend/authorization/sync.py:222-338 | The same for the desired set by itself: users, nested groups, roles and parents of the lists come out as the schema reads the tuples, and nobody may view an excluded document |
| `DriveAccess.SupportedLetsView` | apps/backend/authorization/schema.zed:7-30 | The roles that can be expressed are those whose relation lets view |
| `DriveAccess.MembershipIsNesting` | apps/backend/authorization/sync.py:243-266 | A user's id belongs to a resolved group's id exactly when the directory lists the user in the group or in one nested below it along the child groups |
| `DriveAccess.UserTuple` | apps/backend/authorization/sync.py:246-255 | A resolved group has a member tuple for a user's id exactly when the directory lists the user in that very group |
| `DriveAccess.NestedTuples` | apps/backend/authorization/sync.py:256-266 | The groups nested in a group's id are its child groups, the group being the resource and the child the subject |
| `DriveAccess.DocumentParents` | apps/backend/authorization/sync.py:308-319 | The parent tuples of an eligible document name as subjects exactly its parents in scope |
| `DriveAccess.FolderParents` | apps/backend/authorization/sync.py:276-286 | The parent tuples of a folder id name as subjects exactly the parents in scope of the usable folders that share the id |
| `DriveAccess.DocumentEntries` | apps/backend/authorization/sync.py:406-438 | Every other tuple of an eligible document stands for an entry of its list that is its own, with the relation of the role and the principal as subject, and every such entry has one |
| `DriveAccess.FolderEntries` | apps/backend/authorization/sync.py:406-438 | The same for a folder id and the entries of the usable folders that share it |
| `DriveInheritance.InheritedKeepAccess` | apps/backend/authorization/sync.py:441-451 | Leaving out an entry that parents in scope carry loses nobody: if what is said to come from a parent stands in that parent's list, whom any entry of an eligible document names may view it |
| `DriveInheritance.InheritedOpens` | apps/backend/authorization/sync.py:441-451 | The inheritance can be followed, through an acyclic hierarchy, up to a folder that has the entry as its own |
| `GroupResolver.FetchMembership` | apps/backend/integrations/drive/groups.py:83-107 | The fetched membership holds exactly the folded addresses of the active users and groups of all pages |
| `Identifiers.FoldedOnce` | apps/backend/authorization/identifiers.py:4-6 | Folding a name twice is folding it once |
| `DelegatedCommit.CommitDecides` | apps/backend/authorization/sync.py:500-529 | Column by column: a commit strips every excluded document of its evidence, so that it passes for no version and no age; it enables every eligible one still in scope at its version, which then passes for every age the time allows; all other rows stay |
| `DelegatedCommit.ExcludedPassesAgainBy` | apps/backend/authorization/sync.py:520-528 | Once a run that excluded a document has committed, the document passes again only after the commit of a run that found it eligible at its version, or after a metadata sync wrote back evidence it had read |
| `DelegatedCommit.PassesExactlyBy` | apps/backend/authorization/sync.py:500-529 | In every reachable state a document without evidence passes after a step if and only if the step is one of these two |
| `DelegatedCommit.StaleReadRestores` | apps/backend/integrations/drive/sync.py:93-147 | The second way is open: a metadata sync that read the row before the commit restores what the run withdrew |
| `DelegatedCommit.ScanDecides` | apps/backend/authorization/sync.py:149-219 | After a complete scan a document passes exactly if it was found with entries of the version it was verified at; one not found leaves the scope with its evidence |
| `DelegatedCommit.SyncDecides` | apps/backend/integrations/drive/sync.py:93-147 | After a metadata sync a document passes exactly if the row read before passed for the list the file has now, young enough, and neither the mode nor the file excludes it |
| `DelegatedLookup.DelegatedAllowedIds` | apps/backend/authorization/lookup.py:141-158 | The delegated lookup returns exactly the documents whose row is verified within the age and that the user may view in the store |
| `DelegatedLookup.ScanDecidesView` | apps/backend/authorization/lookup.py:141-158 | At a store that holds what a computed scan desires, the user may view exactly the eligible documents that the captured lists open to the user |
| `DelegatedLookup.AllowedIsOpened` | apps/backend/authorization/lookup.py:141-158 | What the delegated lookup allows in any reachable state was verified within the age by a run that computed it at the version its row has now; if the store holds what that run desired, the lists the run captured open the document to the user |
| `ExtractionRecovery.RequeueDecides` | apps/backend/integrations/drive/sync.py:223-243 | A sync enqueues a document exactly if it failed with attempts left, or is pending and was never enqueued or longer ago than the timeout; it leaves all else as it is |
| `ExtractionRecovery.SecondSyncEnqueuesExactly` | apps/backend/integrations/drive/sync.py:236-242 | Of two syncs with only time and deliveries between them the second enqueues a pending document again exactly if they are further apart than the timeout |
| `ExtractionRecovery.WaitsUntilOverdue` | apps/backend/integrations/drive/sync.py:207-218 | However many syncs look at a pending document, none enqueues it again before the timeout is over |
| `ExtractionRecovery.LostTaskRecovers` | apps/backend/integrations/drive/sync.py:223-243 | A document whose task was lost before its claim is enqueued again by the first sync after the timeout, and the task then delivered takes it to success, with its content in the graph, and makes it ready if nothing else keeps it out |
| `ExtractionRecovery.StaleTaskRecovers` | apps/backend/integrations/tasks.py:457-485 | A task that stopped after its claim is swept, at the cost of an attempt, then enqueued by the next sync, and the document can reach success |
| `ExtractionRecovery.TaskSucceeds` | apps/backend/integrations/tasks.py:488-558 | A task for the present readable content, with nothing in its way, takes the row to success and the graph to its content |
| `ExtractionRecovery.OutdatedTaskChangesNothing` | apps/backend/integrations/tasks.py:152-178 | A task for other content than the present one changes neither the row nor the graph |
| `ExtractionRecovery.DenialRequeues` | apps/backend/integrations/permission_authority.py:93-101 | A cutover takes the document out of retrieval, and a succeeded extraction is enqueued by the next sync whatever its timeout and budget |
| `ExtractionRecovery.FinishedIsReadyExactly` | apps/backend/integrations/tasks.py:181-200 | In the per-user mode a finished task makes the document ready exactly if the mode is in force and the document is in scope, admitted and of a known permissions version |
| `ExtractionRecovery.RefreshDecides` | apps/backend/integrations/drive/sync.py:252-282 | New content is pending with a fresh budget, not ready, and enqueued by the very sync |
| `ExtractionRecovery.ReindexDecides` | apps/backend/graph/management/commands/graph_reindex_embeddings.py:41-75 | The reindex command sets a document back exactly if it saw it idle with its content and it still is |
| `ExtractionRecovery.FailDecides` | apps/backend/integrations/tasks.py:527-535 | A failure that is not retried costs the row an attempt exactly if the content is still the task's own |
| `ExtractionRecovery.SweepDecides` | apps/backend/integrations/tasks.py:457-485 | The sweep fails exactly the running rows that started longer ago than the timeout, at the cost of an attempt |
| `ExtractionReadiness.ReadyExactly` | apps/backend/integrations/tasks.py:181-202 | Over any run in the per-user mode a document is ready if and only if a finished task for its content marked it so since the last metadata sync, refresh, cutover or leaving of the scope, or it was ready before and none of these came |
| `ExtractionReadiness.ReadyHoldsContent` | apps/backend/integrations/tasks.py:181-202 | What a ready document was marked for is what it still holds: content, scope and version are those the mark found |
| `ExtractionReadiness.ReadinessDecided` | apps/backend/integrations/tasks.py:181-202 | Each step decides readiness: a doubt ends it, a mark begins it, nothing else touches it or the columns the mark rests on |
| `DelegatedCommit.WithdrawalDecides` | apps/backend/integrations/permission_authority.py:82-89 | Leaving the scope, a new root or subject and a cutover each take their documents out of retrieval in one step; the first and the last take the evidence along, the last the version as well |
| `DelegatedCommit.MarkDecides` | apps/backend/integrations/tasks.py:181-200 | The mark of the per-user mode makes a document eligible only in scope and at a known version, and it then passes exactly if the evidence of an earlier run is still there at that version |
| `GraphContents.HoldsWhatWasExtracted` | apps/backend/graph/writer.py:149-269 | After a replacement the graph holds of the document exactly its chunks, its entities with their mentions, and the relationships both of whose ends are known and unambiguous, each from its source's node to its target's with the chunk it was read from last |
| `GraphContents.ReplacesExactly` | apps/backend/graph/writer.py:45-146 | A replacement succeeds if and only if the row is identified, no two chunks bear one index, and every mention names one of the chunks |
| `GraphContents.ShowsItsRow` | apps/backend/graph/writer.py:58-77 | The document's node shows what its row does, and no other document's node changes |
| `GraphContents.JoinsByKey` | apps/backend/graph/writer.py:238-250 | A relationship is written exactly if each of its names stands for one node, and between those nodes in that direction |
| `GraphContents.BearsNameExactly` | apps/backend/graph/writer.py:205-214 | A relationship's node bears the name the relationship uses exactly if the last entity with its id is spelt so |
| `GraphContents.LaterSpellingNames` | apps/backend/graph/writer.py:205-214 | Two spellings of one normalized name share a node, and the later one names it |
| `RetrievalPicks.ChunkQueryPicks` | apps/backend/retrieval/neo4j.py:19-36 | The keyword query returns, of the chunks that an edge joins to a document with one allowed provenance throughout and that hold enough of the terms, as many as the limit lets in, best first by the number of terms, and none left out is better |
| `RetrievalPicks.VectorQueryPicks` | apps/backend/retrieval/neo4j.py:83-101 | The vector query returns in the same way the chunks that are similar enough, by their similarity |
| `RetrievalPicks.FactQueryPicks` | apps/backend/retrieval/neo4j.py:38-70 | The fact query returns in the same way the facts between two entities with the chunks they were read from, by the number of terms in the two names and the text |
| `RetrievalPicks.MatchingCounts` | apps/backend/retrieval/neo4j.py:26-29 | The score is the number of positions in the terms whose term stands somewhere in one of the texts |
| `RetrievalPicks.TakesBest` | apps/backend/retrieval/neo4j.py:34-35 | Sorting and cutting to the limit picks the best places, whatever is sorted |
| `RetrievalAnswers.ChunksRetrieved` | apps/backend/retrieval/neo4j.py:235-286 | The chunks of one retrieval are the fusion of two rankings, each made of the usable rows among the picked ones, every chunk once, with its document, id and text as its node has them |
| `RetrievalAnswers.FactsRetrieved` | apps/backend/retrieval/neo4j.py:328-376 | The facts of one retrieval are what the usable picked rows say, in their order, each once: from its edge's source name by its kind to its target name, with id and text of the chunk it was read from |
| `RetrievalAnswers.FuseFuses` | apps/backend/retrieval/neo4j.py:183-205 | In the fusion of the two rankings each id scores the sum of 1 / (60 + rank) over the rankings it stands in; the best come in order, none left out beats one that is in, and as many come as the limit and the ids allow |
| `Text.LexByFirstDifference` | apps/backend/retrieval/neo4j.py:197 | One string sorts before another exactly if it is a proper prefix of it or has the lower character where the two first differ |
| `ContextReading.ContextShowsEvidence` | apps/backend/retrieval/context.py:51-119 | Read line by line, the text shows the evidence in order, chunks before facts: each record has the next source, its kind and its chunk id and shows its flattened text, cut only at the limits; what is passed over is blank, and what is shown is what is retained |
| `ContextReading.FactReads` | apps/backend/retrieval/context.py:55-58 | A fact between names without whitespace reads: source name, relationship, target name, then its evidence |
| `ContextReading.LinkReads` | apps/backend/retrieval/context.py:56 | A relationship of single words is shown with a blank for every underscore and otherwise as it is |
| `ContextReading.CompactSpreadsWords` | apps/backend/retrieval/context.py:18-19 | Flattening keeps the words of a text with one blank between any two |
| `ContextReading.EveryTextHasWords` | apps/backend/retrieval/context.py:18-19 | Every text is made of words with whitespace between and around them, so the above says what flattening does to it |
| `AnswerGate.ChunksLeft` | apps/backend/retrieval/services.py:80-83 | Narrowing keeps the chunks of the rechecked documents in their order and drops no other |
| `AccessCutover.UndisturbedCutover` | apps/backend/integrations/permission_authority.py:119-179 | An attempt nobody disturbs ends with the connection enabled under its target and the generation of its denial, its documents, authorizations and evidence denied, none of its tuples left, and all else as before |
| `AccessCutover.DenialDeniesAll` | apps/backend/integrations/permission_authority.py:70-103 | Column by column: a denial disables the connection under the new generation, takes eligibility and version from its documents, cuts its authorizations and drops their evidence; all else stays |
| `AccessColumns.ReturnedExactly` | apps/backend/authorization/lookup.py:27-138 | The per-user lookup returns a document exactly if each of its six reads shows what it has to, column by column |
| `AccessColumns.OneTakesPart` | apps/backend/authorization/lookup.py:27-42 | A lookup and a connect need exactly one enabled per-user connection; for connecting it must have a root and the allowed domain |
| `AccessColumns.DomainIsAfterLastAt` | apps/backend/authorization/lookup.py:50-52 | The email's domain is what follows its last at sign, or all of it |
| `AccessColumns.OnlyVisibleIsVerified` | apps/backend/integrations/drive/user_visibility_sync.py:191-240 | In every run, at any time, a row that is not visible shows no revision and no time of verification, and a visible one was verified when it was checked |
| `AccessGates.ChecksWerePassed` | apps/backend/integrations/drive/user_visibility_sync.py:294-313 | However executions, cutovers and disconnects fall between each other's steps, whoever holds an answer of Drive was let ask, whoever aims at the grants holds matching answers and was let aim after that, and whoever writes them was let grant after that, each check as it stood on the columns at its own step |
| `AccessColumns.PreinvalidateDecides` | apps/backend/integrations/drive/user_visibility_sync.py:99-141 | The candidates are the documents in scope; within the cap each gets a row with the marker, and every other row of the authorization is doubted |
| `AccessColumns.CommitWrites` | apps/backend/integrations/drive/user_visibility_sync.py:223-273 | Every candidate's row bore the marker and shows its answer; the run is partial as soon as one is unknown, and only a whole one moves the authorization's last sync |
| `AccessColumns.CompleteWrites` | apps/backend/integrations/drive/user_oauth.py:362-392 | The subject's row is active under the connection's generation and a token of its own, every other row of the email is cut, and neither keeps evidence |
| `AccessColumns.DisconnectWrites` | apps/backend/integrations/drive/user_oauth.py:265-285 | Every authorization of the email on the connection is cut and its evidence gone, and nothing else changes |

## Left out

- Liveness: a run may be re-marked for ever, two authorization rows for one email always deny, and a failed run may stay failed. Claimed are safety, and that an execution can land when nobody disturbs it.
- The Redis lock, Celery delivery and retry countdowns: duplicate, late and repeated executions are steps of the model instead.
- StoreAccess.StoreViewIsAccess: reads the schema by its least solution; the depth limit of the server's evaluation is left out.
- DelegatedLookup.AllowedIsOpened: is about one connection, where the code joins the answers of all enabled ones; the delegated recheck is the same condition on the rows and is not composed with the retrieval.
- DriveInheritance.InheritedKeepAccess: supposes what Drive means by an inherited entry, namely that the parent it is said to come from has it too; the code does not check this.
- AccessHistory.EveryEventWasTrue: in the per-user mode the one call that reads the grants again is taken to see the present tuples, where the code may see any state since the execution's last batch; in the delegated mode each call sees a state of its own.
- Sign-in before the transactions (OAuth exchange, identity token, session state, credential encryption): what the transaction is given is a parameter.
- The SpiceDB cleanup after a disconnect: it is one of the arbitrary foreign writes of the protocol, which the results do not depend on.
- Queueing and scheduling of runs: a run row may be created for any authorization with any generations drawn so far, and its status may change at any time.
- AccessLookup.ReturnedIsWitnessed: is for the per-user mode; `DelegatedLookup` has the other.
- AccessAnswers.AnswerForUser: is for the per-user mode.
- DelegatedTheorems.VerifiedIsBacked: a row always has an access list; folders and groups of a scan are as they may be, their rows are not part of the interleaving, and a batch may be written by anyone at any time.
- AccessSafety.Reachable: starts from empty tables; rows written before the per-user mode existed are not modelled.
- OAuthViewer.Reconcile: takes the checked connection and user id as given; the checks themselves are steps of `AccessProtocol`.
- TupleStore.UpdatesFor: touches some desired tuple where the code touches the least one.
- ExtractionMachine.RunKeeps: is about one document, since rows and graph parts of others are untouched by its tasks; readiness is that of the per-user mode.
- GraphStore.IndexEntities: the entity type is not blank, as the ontology check before it makes sure; the ontology itself is not modelled.
- GraphWriter.ReplaceKeepsSeparate: leaves embeddings, titles and urls of nodes out; relationship rows are written one by one, not grouped by type, which makes no difference as the type is part of the edge.
- Retrieval.SortOrdered: property values are strings, whole numbers or missing, ordered in this order; other values do not occur in written graphs.
- RankFusion.FusedIsSum: knows the two modes `vector` and `keyword` only.
- Choosing the question's terms (tokenizing, stop words) and embedding it: the prepared question is a parameter.
- Retrieval over a graph written by `GraphStore`: the queries are proved on any property graph, which is a model of its own.
- DriveWalk.WalkFiles: a folder path is the sequence of names rather than the string joined by slashes, and the walk runs to its end rather than lazily.
- GroupResolver.Resolve: starts from what each fetch comes to; `GroupResolver.FetchMembership` has the fetch itself, and a fetch that fails is a group missing in the directory.
- ContextAssembly.AssembleContext: leaves the relevance and modes of the items alone.
- Json.ReadsBack: covers strings, the only values in the context's lines.
- PDF and MIME handling, HTTP views, settings, health checks, log redaction and citation url checks: plumbing.
