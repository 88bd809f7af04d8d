# Verified model of the data virtualization server

This project models the parts of the server in which several threads, pods and deployed artefacts have to stay
in step, and proves what they keep.  It also covers three data structures of the vendored Swagger bundle.

- **Source pipeline.** Schema rows, registered data sources, load databases (`Xconn-load`), source databases
  (`Xconn`), the master `Preview` and the first-in-first-out connection executor form a step system
  (`SourcePipeline`). `MetadataServices` holds the same operations as methods that change shared maps in place;
  each is proved to take the step of the specification. `PipelineTheorems` has the invariants over all runs, the
  exact condition under which a source database can go stale, and the bound on work the pipeline does by itself;
  `PipelineOrder` says the same about how connections are handled, `PipelineResults` what comes of a load,
  `PipelineOperations` what each operation does, and `PipelineWitnesses` shows the failing runs.
- **Preview cache and edits.** `PreviewEdits` specifies upserts, removals, imports and the preview served from the
  cache under the virtualization's version. `EditorServices` is the editor in its own form, with a view object
  changed field by field. `PreviewEditTheorems` says exactly which edits leave a stale preview,
  `PreviewEditResults` what edits store and what the preview shows of it.
- **Previews under concurrency.** `PreviewConcurrency` interleaves the callers of `updatePreviewVdb`, with their
  striped lock and the master lock, with the refresh, edits and removals, one shared access at a time; `PreviewAnswers` tells which answer a
  request gets.
- **Naming.** `Naming` splits the attempts of any number of pods into their reads and commits under two uniqueness
  constraints; `NamingFailures` says which commits are lost, `NamingBases` what becomes of the names that
  connections have. `NameSuffix` is the loop that draws the suffix;
  `NamingServices` the retry loop of one pod.
- **Reconciliation.** `Reconciliation` and `ConnectionSynchronizers`: the registered data sources against the
  remote list, in the form with update and in that without, with the local cache of data source objects that the
  loop may share. `ReconciliationTheorems` is about registrations, `ReconciliationMemory` about the cache,
  `ReconciliationSchedule` about the scheduled task.
- **Publishing and deletion jobs.** `BuildJobs`: status objects, the self-requeueing monitor, the configure pool and
  deletion requests, with a step for each access to a status, the active jobs, the queue or the pool. `BuildMonitors`
  is the program's own form, each method run from end to end, and `BuildJobLife` tells what a single pass or request
  makes of a job. `BuildJobRaces` and `BuildJobDeployments` say when a job
  gets a second runner or a second deployment config, `BuildJobDeletions` and `BuildJobVerdicts` which deletions take
  effect, and `BuildJobWitnesses` shows the runs in which these go wrong.
- **Schema trie, path options, view DDL.** `SchemaTrie` is what the trie shows, `SchemaNodes` the heap of nodes
  that own their children, `SchemaPaths` leads from printed paths to nodes; `PathOptions` with `UrlCoding` parses the paths; `ViewDdl` prints a view and reads it
  back with a parser written from the grammar alone.
- **Bundle.** `HashTrie` (with `BitCount` for the bitmap words and `HashTrieLoops` for the array loops) against a
  finite map, with `HashTrieShapes` for its representations, `LruQueues` against the order of last hits, `Base64` against section 4 of RFC 4648.

A component that the program runs concurrently is specified as a function from state to state, one function per
step, and its theorems are about runs of such steps. A component that changes objects in place is a class whose
methods are proved equal to those functions.

## What the proofs found

These are properties of the code as it is, each stated with its exact condition.

- Every connection event and reconciliation runs on the one executor thread that also runs replacements and
  deletions, and source databases stay coherent with their rows in all states exactly when no step is harmful
  (`CoherenceOverRuns`); none is without half-failed updates and removals, as long as objects go by their row's name
  and a new connection has nothing left under another name (`UnfailingIsCoherent`). Three ways to lose it are shown by runs: an update that drops the data source and cannot
  register it again, a removal through an object without a name, and a connection that comes back under another
  name while its old load goes on (`PipelineWitnesses`).
- Five kinds of upsert change what a preview should contain without touching the version (`CacheIsExact`,
  `StalePreviews`, `StaleCompletion`).
- A preview deployed between the scan and the master redeployment of a refresh keeps imports of the previous
  master until the next refresh (`StaleImports`, `ImportsCanBeStale`).
- A request for a preview answers nothing when somebody removes the preview between its deployment and its look-up,
  exactly then (`TheAnswer`).
- A request looks for its job among the active ones twice. If the monitor begins a pass over the job in between, the
  request queues a second runner for it, exactly then (`SecondRunnerIsOverlap`); the second goes on when the first has
  retired (`TwoRunners`).
- A pass tests the status seven times and reads it once more when the build is complete. A write of another thread in
  between makes it deploy a deploying job again, exactly then (`RecheckFinds`, `SecondDeployment`, `DeployedTwice`).
  Undisturbed passes deploy again only a running job with a second runner, or a job whose configuration ends after its
  deployment (`UndisturbedRedeployment`, `DeployedTwiceBySecondRunner`, `DeployedTwiceByLateEnd`).
- A requested deletion takes effect exactly when the end of a deletion is the last word about its job
  (`DeletionVerdict`). A late mark of the request, a late mark of a resubmission, a late end of the configuration and
  a pass that was under way lose it exactly when the pool has no deletion of the job any more (`LateWordLoses`).
  After a late mark the runner requeues itself forever (`LostForGood`); after the other two the deleted job is
  deployed. All four happen (`LateRequestMark`, `LateResubmissionMark`, `LateConfiguration`, `LatePass`).
- The scheduled reconciliation, every five minutes, takes each listed connection that succeeds out of the cache
  (`ScheduledForgets`), and so does an update event. From then on neither a deletion event nor absence from the
  remote list removes a connection that vanishes (`ForgottenOutlivesDeletion`), until an addition without update, the
  reconciliation without update at a reconnect, or a lookup by publishing files it again (`MemoryOverRuns`,
  `RemovalOverRuns`).
- An object that the cache took before its connection could be named hides the objects that are named later. A
  deletion through it removes the row and leaves the registration (`LinkIsExact`); if the connection comes back, two
  registrations claim it and reconciliations end in an exception (`TwoRegistrations`). The scheduled task does not catch
  it, and never runs again (`StoppedByTwoRegistrations`); only a deletion or update event that knows a name of the
  connection repairs the registrations (`OnlyEventsRepair`), and from then on only events and reconnects reconcile.
- A table whose path another table continues loses its mark if it is inserted second (`OrderMatters`).
- The comment that a pod which loses a naming race "picks up whatever someone else set" holds for races about the
  connection id; a race about the name can be lost three times, and then the call gives up (`GivingUp`,
  `ACallGivesUp`). Each loss after the first repeats a random suffix already in use.
- A key clause is printed with unescaped names and checked against escaped ones, so a key over a column whose name
  needs escaping is left out (`KeyIsPrinted`, `ReservedKeyIsLeftOut`).

## Model

| member | source | states |
|---|---|---|
| VdbNames.ClassesAreDisjoint | src/main/java/io/syndesis/dv/server/endpoint/MetadataService.java:85-93 | no database name ends in two of the suffixes `conn`, `-load`, `vdb`, and the master `Preview` in none |
| VdbNames.NamesAreInjective | src/main/java/io/syndesis/dv/server/endpoint/MetadataService.java:686-688 | each class of names determines the source or virtualization it was made from |
| VdbNames.KindsNeverCollide | src/main/java/io/syndesis/dv/server/endpoint/MetadataService.java:136-152 | source, load and preview names of any sources and virtualizations never coincide |
| MetadataServices.MetadataService.UndeployDynamicVdb | src/main/java/io/syndesis/dv/metadata/internal/DefaultMetadataInstance.java:457-466 | exactly the named database is removed |
| MetadataServices.MetadataService.DeployVdb | src/main/java/io/syndesis/dv/metadata/internal/DefaultMetadataInstance.java:427-454 | an existing database is undeployed first, so a failing deployment leaves the name free |
| MetadataServices.MetadataService.RefreshPreviewVdb | src/main/java/io/syndesis/dv/server/endpoint/MetadataService.java:131-158 | the loop drops every preview and redeploys the master over exactly the active source databases |
| MetadataServices.MetadataService.DoDeploySourceVdb | src/main/java/io/syndesis/dv/server/endpoint/MetadataService.java:544-616 | all modes and early exits of a source deployment, including the failed-DDL and exception branches |
| MetadataServices.MetadataService.DeploySourceVdb | src/main/java/io/syndesis/dv/server/endpoint/MetadataService.java:270-282 | the deployment of a source by name; an unknown name changes nothing and is reported |
| MetadataServices.MetadataService.FinishedDeployment | src/main/java/io/syndesis/dv/server/endpoint/MetadataService.java:314-371 | the load callback drops the load database, stores the schema or the marked error and queues a replacement exactly when the row changes or the update conflicts |
| MetadataServices.MetadataService.DeleteSchema | src/main/java/io/syndesis/dv/server/endpoint/MetadataService.java:284-302 | the row is deleted, and only then a delete task queued |
| MetadataServices.MetadataService.DeleteConnection | src/main/java/io/syndesis/dv/openshift/SyndesisConnectionSynchronizer.java:148-159 | a connection loses its row, and its registration under the name of the object at hand; an object without a name leaves the registration, and the task it queues names no source |
| MetadataServices.MetadataService.CreateDataSource | src/main/java/io/syndesis/dv/openshift/TeiidOpenShiftClient.java:642-664 | an object without a name takes its row's or a new one; what it is registered under comes back, or nothing if the program throws |
| MetadataServices.MetadataService.AddConnection | src/main/java/io/syndesis/dv/openshift/SyndesisConnectionSynchronizer.java:119-144 | an update drops the data source first, and nothing is deployed unless it is registered again |
| MetadataServices.MetadataService.RegisterDataSource | src/main/java/io/syndesis/dv/metadata/internal/DefaultMetadataInstance.java:489-495 | a name is registered once; a second registration changes nothing |
| MetadataServices.MetadataService.RunNext | src/main/java/io/syndesis/dv/server/DvAutoConfiguration.java:77-82 | the one executor thread takes the oldest thing to do: a refresh, a replacement, a deletion, or the next connection of an event |
| PipelineTheorems.KindsSurviveStep | src/main/java/io/syndesis/dv/server/endpoint/MetadataService.java:131-158 | every step keeps each kind of database under names of its own class |
| PipelineTheorems.ImportsSurviveStep | src/main/java/io/syndesis/dv/server/endpoint/MetadataService.java:606-615 | the master imports exactly the active source databases, or a refresh is queued |
| PipelineTheorems.SoundOverRuns | src/main/java/io/syndesis/dv/server/endpoint/MetadataService.java:544-616 | over every sequence of steps: rows have different names, databases sit under names of their kind, and the master is current or a refresh is queued |
| PipelineTheorems.HarmIsExact | src/main/java/io/syndesis/dv/server/endpoint/MetadataService.java:360-366 | one step loses coherence if and only if it is harmful: a deployment under a name whose registration belongs to a row of another name, a load that changes a renamed connection's row, a replacement that finds no data source, or a row deleted under another name than its own |
| PipelineTheorems.CoherenceOverRuns | src/main/java/io/syndesis/dv/metadata/internal/DDLDBMetadataRepository.java:51-58 | over every sequence of steps, each source database carries its row's current DDL or a repairing task is queued, in all states, if and only if no step is harmful |
| PipelineOrder.OrderIsExact | src/main/java/io/syndesis/dv/openshift/SyndesisConnectionSynchronizer.java:119-159 | one step keeps rows, registrations, loads and databases in order if and only if the connection it handles, if any, is handled properly |
| PipelineOrder.OrderOverRuns | src/main/java/io/syndesis/dv/openshift/SyndesisConnectionMonitor.java:190-235 | over every sequence of steps order is kept if and only if every connection is handled properly, and with it coherence |
| PipelineOrder.NamedOpsAreProper | src/main/java/io/syndesis/dv/openshift/SyndesisConnectionSynchronizer.java:125-138 | through an object that goes by its row's name, the only improper additions are updates that drop the data source of a deployed database and cannot register it again; the only improper removals fail to delete the row |
| PipelineOrder.UnfailingIsCoherent | src/main/java/io/syndesis/dv/openshift/SyndesisConnectionSynchronizer.java:119-159 | so without half-failed updates and removals every state of every run is coherent |
| PipelineWitnesses.FailedUpdateLosesReplacement | src/main/java/io/syndesis/dv/openshift/SyndesisConnectionSynchronizer.java:125-138 | a failed update during a reload leaves the source database stale with nothing left to do, and a later update that succeeds does not help |
| PipelineWitnesses.NamelessRemovalLeavesDatabase | src/main/java/io/syndesis/dv/openshift/TeiidOpenShiftClient.java:720-726 | a removal through an object without a name leaves the database deployed and its source registered |
| PipelineWitnesses.RenamedWhileLoading | src/main/java/io/syndesis/dv/server/endpoint/MetadataService.java:349-366 | a connection that comes back under another name while its old load goes on ends up stale |
| PipelineTheorems.ReplacementStartsNoLoad | src/main/java/io/syndesis/dv/server/endpoint/MetadataService.java:547-568 | a replacement never starts another load |
| PipelineTheorems.InternalStepsDecrease | src/main/java/io/syndesis/dv/server/endpoint/MetadataService.java:606-615 | every load completion and executor task strictly reduces the weighted outstanding work |
| PipelineTheorems.InternalRunsAreBounded | src/main/java/io/syndesis/dv/server/endpoint/MetadataService.java:360-366 | no run without outside requests is longer than the work outstanding at its start |
| PipelineTheorems.QuiescentAgreement | src/main/java/io/syndesis/dv/server/endpoint/MetadataService.java:544-616 | with nothing outstanding a coherent pipeline has every source database in agreement with its row, none for deleted connections, and a master that imports the active ones |
| PipelineResults.RowHoldsLastLoad | src/main/java/io/syndesis/dv/server/endpoint/MetadataService.java:325-366 | over every run a row holds what the last load of its connection showed: the imported schema, or the error behind `--failed: `; nothing before the first load has ended |
| PipelineResults.DatabaseShowsLastLoad | src/main/java/io/syndesis/dv/server/endpoint/MetadataService.java:544-616 | over every run without a harmful step, once nothing is outstanding a connection whose last load failed has no database, and the database of any other carries exactly the schema that load imported |
| PipelineResults.LoadTakesEffect | src/main/java/io/syndesis/dv/server/endpoint/MetadataService.java:314-371 | over every run, when the load of a registered connection ends with something new or in a conflict, then, whatever else happens to other connections, its row keeps the result, and once its replacement has run a failed load has left no database and any other an active one with exactly that DDL, which the master imports after the refresh |
| PipelineResults.LoadWithoutNews | src/main/java/io/syndesis/dv/server/endpoint/MetadataService.java:344-359 | a load that shows what its row shows already, or whose row is gone, only drops its load database |
| PipelineOperations.DeploymentChanges | src/main/java/io/syndesis/dv/server/endpoint/MetadataService.java:544-616 | when a deployment works from the DDL of the row, when it starts a load, and when it changes nothing; a refresh is queued exactly in the first case |
| PipelineOperations.DeploysFromDdl | src/main/java/io/syndesis/dv/server/endpoint/MetadataService.java:583-616 | what a deployment from DDL leaves: no database for failed DDL or after an exception, else exactly that DDL under the name of the source, active or failed as the server says |
| PipelineOperations.DeploysByLoad | src/main/java/io/syndesis/dv/server/endpoint/MetadataService.java:563-580 | a load database for the source and its connection, or none after an exception |
| PipelineOperations.AdditionDoes | src/main/java/io/syndesis/dv/openshift/SyndesisConnectionSynchronizer.java:119-144 | which row and which registration an addition leaves, told from the state before it, and which deployment follows: a new load for an update, from the row otherwise |
| PipelineOperations.NewConnection | src/main/java/io/syndesis/dv/openshift/SyndesisConnectionSynchronizer.java:119-144 | a connection seen for the first time gets its row, is registered, and its load begins |
| PipelineOperations.RemovalDoes | src/main/java/io/syndesis/dv/openshift/SyndesisConnectionSynchronizer.java:148-159 | which row, registration and task a removal leaves |
| PipelineOperations.FirstInFirstOut | src/main/java/io/syndesis/dv/server/DvAutoConfiguration.java:77-82 | the executor does every task, and every connection of an event, once and in its turn |
| PipelineOperations.RefreshDoes | src/main/java/io/syndesis/dv/server/endpoint/MetadataService.java:131-158 | a refresh drops all previews, lets the master import exactly the active source databases, and touches nothing else |
| PipelineOperations.PreviewsOverRuns | src/main/java/io/syndesis/dv/server/endpoint/MetadataService.java:131-158 | over every run a preview is deployed if and only if it was deployed and neither removed nor swept away by a refresh or deletion since |
| EditorServices.EditorService.ApplyRequest | src/main/java/io/syndesis/dv/server/endpoint/EditorService.java:251-315 | the branches that change a view object and decide whether the virtualization is touched |
| EditorServices.EditorService.UpsertViewEditorState | src/main/java/io/syndesis/dv/server/endpoint/EditorService.java:232-325 | the whole upsert with its rejections; an exception leaves the state as it was |
| EditorServices.EditorService.RemoveViewDefinition | src/main/java/io/syndesis/dv/server/endpoint/EditorService.java:338-358 | a removal touches the version exactly when the view was in the preview |
| EditorServices.EditorService.ImportInto | src/main/java/io/syndesis/dv/server/endpoint/DataVirtualizationService.java:338-360 | what an import overwrites in a stored or new view |
| EditorServices.EditorService.ImportViews | src/main/java/io/syndesis/dv/server/endpoint/DataVirtualizationService.java:329-367 | the import loop; saving two views of one name rolls everything back |
| PreviewEditTheorems.ShareDecides | src/main/java/io/syndesis/dv/server/endpoint/ServiceVdbGenerator.java:190-209 | replacing one view changes the preview text exactly when it changes that view's share of it |
| PreviewEditTheorems.HarmIsAboutShares | src/main/java/io/syndesis/dv/server/endpoint/EditorService.java:275-311 | for an untouched edit, the condition on view, request and parser report tells exactly whether the share changes |
| PreviewEditTheorems.UpsertIsExact | src/main/java/io/syndesis/dv/server/endpoint/EditorService.java:232-325 | an upsert leaves the cached preview right if and only if it is not one of the harmful edits |
| PreviewEditTheorems.RemovalKeeps | src/main/java/io/syndesis/dv/server/endpoint/EditorService.java:338-358 | a removal never leaves a stale preview |
| PreviewEditTheorems.StepIsExact | src/main/java/io/syndesis/dv/server/endpoint/EditorService.java:317-320 | from a coherent state only the harmful edits leave a stale preview, and they always do |
| PreviewEditTheorems.CacheIsExact | src/main/java/io/syndesis/dv/server/endpoint/MetadataService.java:209-244 | over every history of upserts, removals, imports and requests the served preview is what would be built now, if and only if no harmful edit meets a current cache |
| PreviewEditTheorems.StalePreviews | src/main/java/io/syndesis/dv/server/endpoint/EditorService.java:275-311 | four families of harmful edits do leave a stale preview |
| PreviewEditTheorems.StaleCompletion | src/main/java/io/syndesis/dv/server/endpoint/EditorService.java:287 | so does completing a parsable view without changing its DDL |
| PreviewEditTheorems.TouchRecovers | src/main/java/io/syndesis/dv/server/endpoint/EditorService.java:317-320 | any later edit that touches the version makes the cache right again |
| PreviewEditResults.UpsertStored | src/main/java/io/syndesis/dv/server/endpoint/EditorService.java:232-325 | what an upsert of a stored view leaves, field by field: generated DDL exactly when the view is complete, not the user's own, and without DDL, over other paths or not parsable; paths cleared and the annotation taken over for DDL that is parsed again; everything else as requested, all other views as before; and when the version goes up |
| PreviewEditResults.UpsertNew | src/main/java/io/syndesis/dv/server/endpoint/EditorService.java:239-325 | the same for a new view, which goes to the end |
| PreviewEditResults.OtherRequestsChangeNothing | src/main/java/io/syndesis/dv/server/endpoint/EditorService.java:236-257 | a request with an unknown id, a stale version, or a name other than the stored one changes nothing |
| PreviewEditResults.GeneratedIsServed | src/main/java/io/syndesis/dv/server/endpoint/EditorService.java:279-285 | once DDL has been generated for a stored view, the next preview is of the new version and contains the generated text |
| PreviewEditResults.GeneratedIsServedForNew | src/main/java/io/syndesis/dv/server/endpoint/EditorService.java:279-285 | and so it is for a new view |
| PreviewEditResults.PreviewExists | src/main/java/io/syndesis/dv/server/endpoint/ServiceVdbGenerator.java:190-225 | a preview can be built if and only if every complete and parsable view has DDL |
| PreviewEditResults.PreviewShows | src/main/java/io/syndesis/dv/server/endpoint/ServiceVdbGenerator.java:190-225 | a complete and parsable view shows with its whole DDL between the text of the views before and after it, behind a semicolon unless it ends with one; any other does not show |
| PreviewEditResults.ServedPreview | src/main/java/io/syndesis/dv/server/endpoint/MetadataService.java:216-242 | the preview handed out is of the current version: the cached one, or one built now |
| PreviewEditResults.DroppedIsRebuilt | src/main/java/io/syndesis/dv/server/endpoint/MetadataService.java:136-152 | once a refresh has dropped the preview, the next one is built from the views as they are |
| PreviewEditResults.RemovalTakesOne | src/main/java/io/syndesis/dv/server/endpoint/EditorService.java:338-358 | a removal takes out the view with that id and no other, and touches the version if and only if it took part in the preview |
| PreviewEditResults.ImportStores | src/main/java/io/syndesis/dv/server/endpoint/DataVirtualizationService.java:329-367 | an import fails, changing nothing, if and only if DDL cannot be generated or two of its tables have one name that no stored view has; otherwise each stored view shows the last table of its name and the other tables become new views in their order |
| PreviewEditResults.NamesDifferOverRuns | src/main/java/io/syndesis/dv/server/endpoint/EditorService.java:245-247 | over every history no two views have names that differ in case only |
| PreviewEditResults.ServedShowsTheViews | src/main/java/io/syndesis/dv/server/endpoint/MetadataService.java:209-244 | over every history without a harmful edit, the preview served shows the views as they are |
| PreviewConcurrencyTheorems.AdvanceIsLocal | src/main/java/io/syndesis/dv/server/endpoint/MetadataService.java:224-243 | a caller changes only its own place, its own locks and, under the master lock, its own preview |
| PreviewConcurrencyTheorems.LocksSurvive | src/main/java/io/syndesis/dv/server/endpoint/MetadataService.java:114-118 | the striped locks and the master lock each have one holder, in every interleaving |
| PreviewConcurrencyTheorems.InvOverRuns | src/main/java/io/syndesis/dv/server/endpoint/MetadataService.java:209-244 | the invariant of callers, locks, refresh rounds and previews over all interleavings |
| PreviewConcurrencyTheorems.ServedVersion | src/main/java/io/syndesis/dv/server/endpoint/MetadataService.java:216-242 | a preview handed to a caller carries exactly the version its transaction read, and that version's views if it is still current |
| PreviewConcurrencyTheorems.StaleImports | src/main/java/io/syndesis/dv/server/endpoint/MetadataService.java:131-158 | between refreshes a preview predates the master exactly when it was deployed during the last refresh |
| PreviewConcurrencyTheorems.AtMostOneDeployment | src/main/java/io/syndesis/dv/server/endpoint/MetadataService.java:223-241 | however many callers ask, a preview is deployed at most once while nobody edits or invalidates it |
| PreviewConcurrencyTheorems.ImportsCanBeStale | src/main/java/io/syndesis/dv/server/endpoint/MetadataService.java:136-156 | an interleaving that leaves a preview over obsolete imports |
| PreviewAnswers.TheAnswer | src/main/java/io/syndesis/dv/server/endpoint/MetadataService.java:216-242 | in every interleaving, a request that comes upon a preview of the version it read, before or under the lock, deploys nothing and answers with it; any other deploys one of that version and answers with it, and answers nothing if and only if somebody removed the preview between its deployment and its look-up |
| PreviewAnswers.TheFailure | src/main/java/io/syndesis/dv/server/endpoint/MetadataService.java:209-244 | a request fails if and only if its virtualization is not there, or building or deploying throws |
| PreviewAnswers.FailedDeploymentLeavesNone | src/main/java/io/syndesis/dv/metadata/internal/DefaultMetadataInstance.java:427-454 | a deployment that throws leaves no preview behind, whatever was deployed before |
| PreviewAnswers.MasterLockProtects | src/main/java/io/syndesis/dv/server/endpoint/MetadataService.java:234-237 | while a request deploys, nobody redeploys the master, and but for removals nobody touches a preview |
| PreviewAnswers.NoEditIsMissed | src/main/java/io/syndesis/dv/server/endpoint/MetadataService.java:216-233 | in every interleaving, what a request returns was built from views that show every edit made before the request came in |
| PreviewAnswers.NoDeadlock | src/main/java/io/syndesis/dv/server/endpoint/MetadataService.java:224-241 | in every interleaving, whenever a request has not ended, it or the one it waits for can take a step towards its end; ten steps of its own end a request |
| PreviewAnswers.LocksAreReturned | src/main/java/io/syndesis/dv/server/endpoint/MetadataService.java:238-241 | once all requests have ended, returned or failed, all locks are free |
| NameSuffix.RandomCharacters | src/main/java/io/syndesis/dv/openshift/TeiidOpenShiftClient.java:699-710 | the loop fills the array with the five characters of the word, lowest bits first |
| NameSuffix.SuffixIsTheLowBits | src/main/java/io/syndesis/dv/openshift/TeiidOpenShiftClient.java:702-710 | for every 32-bit word the characters are the little-endian base-32 digits of its value modulo 2^25 |
| NameSuffix.SuffixesAgree | src/main/java/io/syndesis/dv/openshift/TeiidOpenShiftClient.java:702-710 | two suffixes are equal if and only if the words agree modulo 2^25 |
| NamingTheorems.SuffixedNamesCollide | src/main/java/io/syndesis/dv/openshift/TeiidOpenShiftClient.java:697-712 | two suffixed names collide, ignoring case, exactly when their bases do and their draws agree modulo 2^25 |
| NamingTheorems.SuffixedNeverCollidesWithPlain | src/main/java/io/syndesis/dv/openshift/TeiidOpenShiftClient.java:686-697 | a suffixed name never equals a plain one, since underscores are removed from bases |
| NamingTheorems.NamesFit | src/main/java/io/syndesis/dv/openshift/TeiidOpenShiftClient.java:685-691 | no name exceeds 255 characters |
| NamingTheorems.InvOverRuns | src/main/java/io/syndesis/dv/openshift/TeiidOpenShiftClient.java:642-664 | the invariant of table and calls over all interleavings of any number of pods |
| NamingTheorems.Agreement | src/main/java/io/syndesis/dv/openshift/TeiidOpenShiftClient.java:677-718 | calls that succeed for one connection id hold one name; for different ids the names differ in more than case |
| NamingTheorems.NamesAreFinal | src/main/java/io/syndesis/dv/openshift/TeiidOpenShiftClient.java:646-651 | a name once held is held for good |
| NamingBases.StripOne | src/main/java/io/syndesis/dv/openshift/TeiidOpenShiftClient.java:686-687 | full stops, question marks, underscores and white space go, every other character stays |
| NamingBases.StripDistributes | src/main/java/io/syndesis/dv/openshift/TeiidOpenShiftClient.java:686-687 | each character goes or stays by itself, and what stays keeps its order |
| NamingBases.BaseIsTheBeginning | src/main/java/io/syndesis/dv/openshift/TeiidOpenShiftClient.java:685-691 | the base is the first 249 characters that stay |
| NamingBases.GoodNameIsItsBase | src/main/java/io/syndesis/dv/openshift/TeiidOpenShiftClient.java:685-691 | a name of at most 249 characters, none of them problematic, is its own base |
| NamingBases.NamesComeFromCalls | src/main/java/io/syndesis/dv/openshift/TeiidOpenShiftClient.java:677-718 | over every run with any number of pods, a connection's name is the base of a name that some call for this connection came with, or that base with a suffix |
| NamingFailures.CommitIsExact | src/main/java/io/syndesis/dv/repository/RepositoryManagerImpl.java:107-114 | a commit is lost if and only if, at that moment, the connection has a row or the candidate is in use: a plain one by any name, a suffixed one by a virtualization or a draw that agrees modulo 2^25 |
| NamingFailures.GivingUp | src/main/java/io/syndesis/dv/openshift/TeiidOpenShiftClient.java:646-659 | over every run a call gives up if and only if three of its commits were lost, and never loses more; the first two went by name, the second over a suffix already in the table |
| NamingFailures.ACallGivesUp | src/main/java/io/syndesis/dv/openshift/TeiidOpenShiftClient.java:646-659 | a run of three pods after which a call has given up while its connection has no row |
| NamingServices.Database.CreateSchema | src/main/java/io/syndesis/dv/repository/RepositoryManagerImpl.java:107-114 | a row is saved exactly when neither unique column would repeat a value |
| NamingServices.AttemptFails | src/main/java/io/syndesis/dv/openshift/TeiidOpenShiftClient.java:678-717 | an undisturbed attempt fails exactly when the connection is unnamed, its base in use and its draw too, and then changes nothing |
| NamingServices.AttemptGives | src/main/java/io/syndesis/dv/openshift/TeiidOpenShiftClient.java:678-717 | a connection keeps the name of its row; one without a row gets its base if nothing goes by it, and otherwise the base, an underscore and five random characters, or nothing |
| NamingServices.GetUniqueKomodoName | src/main/java/io/syndesis/dv/openshift/TeiidOpenShiftClient.java:677-718 | one attempt equals the composition of its three transactions; an unnamed connection whose name needs no change gets exactly that name if nothing goes by it |
| NamingServices.CreateDataSource | src/main/java/io/syndesis/dv/openshift/TeiidOpenShiftClient.java:642-660 | the retry loop ends in a conflict exactly when all three draws are hopeless, and otherwise sets the row's name |
| ReconciliationTheorems.SoundOverRuns | src/main/java/io/syndesis/dv/openshift/TeiidOpenShiftClient.java:628-639 | over every run, with updates or not, rows have different names and no object at work has a name but its row's |
| ReconciliationTheorems.LinkIsExact | src/main/java/io/syndesis/dv/openshift/TeiidOpenShiftClient.java:720-726 | a step leaves every registration with its row if and only if it deletes no registered connection's row through a cached object without a name |
| ReconciliationTheorems.LinkedOverRuns | src/main/java/io/syndesis/dv/openshift/SyndesisConnectionSynchronizer.java:57-101 | and over every run registrations keep their rows if and only if that never happens |
| ReconciliationTheorems.ReconciliationResult | src/main/java/io/syndesis/dv/openshift/SyndesisConnectionSynchronizer.java:87-101 | after a reconciliation of either form: a listed connection is registered if it succeeds, or was and is not dropped first; any other one if it was and the cache does not know its name |
| ReconciliationTheorems.CacheAfterUpdate | src/main/java/io/syndesis/dv/openshift/SyndesisConnectionSynchronizer.java:125-133 | a reconciliation with update leaves in the cache only the listed connections that virtualizations own and what is neither listed nor registered |
| ReconciliationMemory.MemoryStep | src/main/java/io/syndesis/dv/openshift/TeiidOpenShiftClient.java:628-639 | a step leaves a connection in the cache under a name if and only if it files it, or it was there and is not dropped |
| ReconciliationMemory.MemoryOverRuns | src/main/java/io/syndesis/dv/openshift/TeiidOpenShiftClient.java:628-639 | over every run a connection is remembered if and only if some event filed it and none has dropped it since |
| ReconciliationMemory.RemovalOverRuns | src/main/java/io/syndesis/dv/openshift/SyndesisConnectionSynchronizer.java:98-117 | over every run a registered connection that vanishes is deregistered, by its deletion event or by its absence from the list, if and only if some event filed it and none has dropped it since |
| ReconciliationMemory.RunsReconcile | src/main/java/io/syndesis/dv/openshift/SyndesisConnectionSynchronizer.java:87-101 | over every run the registrations after a reconciliation of either form are the listed connections it renews and the vanished ones that the cache has lost |
| ReconciliationMemory.RememberingIsExact | src/main/java/io/syndesis/dv/openshift/SyndesisConnectionSynchronizer.java:119-138 | with every registration remembered, a step keeps it so if and only if it forgets none: no update that succeeds, no nameless object in place of one that does |
| ReconciliationMemory.RememberedOverRuns | src/main/java/io/syndesis/dv/openshift/SyndesisConnectionSynchronizer.java:57-101 | and over every run all registrations are remembered in all states if and only if no step forgets one |
| ReconciliationMemory.DeletionWorks | src/main/java/io/syndesis/dv/openshift/TeiidOpenShiftClient.java:720-726 | a deletion event removes a registration if and only if the cache has the connection with its name |
| ReconciliationMemory.ScheduledForgets | src/main/java/io/syndesis/dv/openshift/SyndesisConnectionMonitor.java:226-233 | the scheduled reconciliation leaves every listed connection that succeeds registered and out of the cache |
| ReconciliationMemory.ForgottenOutlivesDeletion | src/main/java/io/syndesis/dv/openshift/SyndesisConnectionSynchronizer.java:110-117 | a connection out of the cache survives its deletion event and its absence from the list in reconciliations of both forms |
| ReconciliationMemory.TwoRegistrations | src/main/java/io/syndesis/dv/openshift/SyndesisConnectionSynchronizer.java:87-101 | a run that leaves two registrations of one connection, after which a reconciliation fails before it adds or deletes anything |
| ReconciliationSchedule.StoppedByTwoRegistrations | src/main/java/io/syndesis/dv/openshift/SyndesisConnectionMonitor.java:226-233 | over every run the scheduled reconciliations have stopped, and then for good, if and only if one of them met two registrations of one connection |
| ReconciliationSchedule.PodsRun | src/main/java/io/syndesis/dv/openshift/SyndesisConnectionMonitor.java:180-233 | what happens to a pod amounts to a run of events, with the scheduled reconciliations that still ran |
| ReconciliationSchedule.LinkedPodsGoOn | src/main/java/io/syndesis/dv/openshift/SyndesisConnectionMonitor.java:226-233 | they go on as long as no registered connection's row is deleted through an object without a name |
| ReconciliationSchedule.OnlyEventsRepair | src/main/java/io/syndesis/dv/openshift/SyndesisConnectionMonitor.java:190-212 | two registrations of one connection become unique again only by a deletion or update event that knows a name; reconciliations and lookups change nothing but the cache until then |
| ReconciliationSchedule.StoppedPod | src/main/java/io/syndesis/dv/openshift/SyndesisConnectionMonitor.java:226-233 | a run after which registrations are unique again but the schedule is over |
| ConnectionSynchronizers.ConnectionSynchronizer.BuildSyndesisDataSource | src/main/java/io/syndesis/dv/openshift/TeiidOpenShiftClient.java:628-639 | a remote connection becomes a new object with its row's name, which the cache takes only if it has none |
| ConnectionSynchronizers.ConnectionSynchronizer.GetSyndesisDataSourceById | src/main/java/io/syndesis/dv/openshift/TeiidOpenShiftClient.java:580-597 | the cached object, or a new one |
| ConnectionSynchronizers.ConnectionSynchronizer.CreateDataSource | src/main/java/io/syndesis/dv/openshift/TeiidOpenShiftClient.java:642-664 | naming and registration, with their failures, on an object the cache may share |
| ConnectionSynchronizers.ConnectionSynchronizer.DeleteDataSource | src/main/java/io/syndesis/dv/openshift/TeiidOpenShiftClient.java:720-726 | the registration under the object's name goes, and whatever the cache has for the id |
| ConnectionSynchronizers.ConnectionSynchronizer.AddConnection | src/main/java/io/syndesis/dv/openshift/SyndesisConnectionSynchronizer.java:119-144 | an addition skips connections that virtualizations own; an update drops the data source first |
| ConnectionSynchronizers.ConnectionSynchronizer.HandleDeleteConnection | src/main/java/io/syndesis/dv/openshift/SyndesisConnectionSynchronizer.java:110-117 | a deletion acts on the cached object only; that its row cannot be deleted does not stop it |
| ConnectionSynchronizers.ConnectionSynchronizer.GetSyndesisDataSource | src/main/java/io/syndesis/dv/openshift/TeiidOpenShiftClient.java:599-611 | publishing looks a data source up by name and puts it back into the cache |
| ConnectionSynchronizers.ConnectionSynchronizer.HandleAddConnection | src/main/java/io/syndesis/dv/openshift/SyndesisConnectionSynchronizer.java:103-108 | an event works on the cached object if there is one |
| ConnectionSynchronizers.ConnectionSynchronizer.GetSyndesisSources | src/main/java/io/syndesis/dv/openshift/TeiidOpenShiftClient.java:555-577 | the remote list becomes pairwise different objects, of which the cache takes the first per unknown id |
| ConnectionSynchronizers.ConnectionSynchronizer.AddAll | src/main/java/io/syndesis/dv/openshift/SyndesisConnectionSynchronizer.java:93-96 | the loop adds every listed connection and strikes it off the existing ones |
| ConnectionSynchronizers.ConnectionSynchronizer.DeleteAll | src/main/java/io/syndesis/dv/openshift/SyndesisConnectionSynchronizer.java:98-100 | the loop deletes the vanished connections, whatever the order |
| ConnectionSynchronizers.ConnectionSynchronizer.SynchronizeConnections | src/main/java/io/syndesis/dv/openshift/SyndesisConnectionSynchronizer.java:81-101 | the reconciliation, including the exception for two registrations of one connection |
| BuildMonitors.BuildMonitor.PublishVirtualization | src/main/java/io/syndesis/dv/openshift/TeiidOpenShiftClient.java:1225-1245 | a publish request creates a job of its own and queues its runner, unless the active job, or else the cluster, is building |
| BuildMonitors.BuildMonitor.Judging | src/main/java/io/syndesis/dv/openshift/TeiidOpenShiftClient.java:140-265 | every branch of a pass that reads one and the same status throughout |
| BuildMonitors.BuildMonitor.RunPass | src/main/java/io/syndesis/dv/openshift/TeiidOpenShiftClient.java:136-280 | run from end to end, the monitor's pass over a job takes the steps of the specification one after the other, with its seven tests and its second read |
| BuildMonitors.PassIsItsSteps | src/main/java/io/syndesis/dv/openshift/TeiidOpenShiftClient.java:136-280 | the steps of a pass that nobody disturbs amount to judging the job once, by the status it has at the start |
| BuildMonitors.UndisturbedPass | src/main/java/io/syndesis/dv/openshift/TeiidOpenShiftClient.java:211-218 | so they make no other deployment config for a job that is deploying |
| BuildJobLife.PublishOutcome | src/main/java/io/syndesis/dv/openshift/TeiidOpenShiftClient.java:1225-1245 | a publish request changes nothing exactly while the active job of that name is building; otherwise it adds one submitted job with a runner at the end of the queue |
| BuildJobLife.DeletionRequest | src/main/java/io/syndesis/dv/openshift/TeiidOpenShiftClient.java:1436-1479 | an undisturbed deletion request marks the active job, or makes a job of what the cluster knows with the name of its build, or does nothing, and submits the deletion |
| BuildJobLife.OnePass | src/main/java/io/syndesis/dv/openshift/TeiidOpenShiftClient.java:127-283 | an undisturbed pass leaves the status, counts and runner of its job as told by the status before it and the answers of the cluster: when it is configured, deployed, served, failed or cancelled, and when its runner goes on |
| BuildJobLife.AroundOnePass | src/main/java/io/syndesis/dv/openshift/TeiidOpenShiftClient.java:127-283 | and around the job: the queue, the configurations and deletions started, and all other jobs as they were |
| BuildJobLife.PublishedJobRuns | src/main/java/io/syndesis/dv/openshift/TeiidOpenShiftClient.java:127-283 | a published job whose build and deployment succeed is configured, built, deployed once and running with one service, and its runner retires |
| BuildMonitors.BuildMonitor.ConfigureBuild | src/main/java/io/syndesis/dv/openshift/TeiidOpenShiftClient.java:1141-1149 | a configuration names its build and makes the job building, or fails, overwriting the status |
| BuildMonitors.BuildMonitor.DeleteVirtualization | src/main/java/io/syndesis/dv/openshift/TeiidOpenShiftClient.java:1436-1479 | a deletion request, from its first look to the runner it queues, takes its steps one after the other: it takes over the active job, makes a job of what the cluster knows, or does nothing |
| BuildMonitors.BuildMonitor.DeleteResources | src/main/java/io/syndesis/dv/openshift/TeiidOpenShiftClient.java:1497-1589 | failing steps set the job aside for another attempt, but the deletion ends as done all the same |
| BuildJobTheorems.InvOverRuns | src/main/java/io/syndesis/dv/openshift/TeiidOpenShiftClient.java:127-283 | the invariant of jobs, runners, the monitor's place and requests, over all interleavings of single accesses to status, active jobs, queue and pool |
| BuildJobTheorems.EveryJob | src/main/java/io/syndesis/dv/openshift/TeiidOpenShiftClient.java:127-283 | in every reachable state each runner a job was ever given is queued, at work or retired; the job is configured at most once, gets services only after a deployment config and at most once per runner, and its build name is known while a runner sees it building or deploying |
| BuildJobRaces.SecondRunner | src/main/java/io/syndesis/dv/openshift/TeiidOpenShiftClient.java:1436-1442 | over every run a job has a second runner, or is bound to get one, if and only if the second look of some request found it active |
| BuildJobRaces.RacedLookIsExact | src/main/java/io/syndesis/dv/openshift/TeiidOpenShiftClient.java:1481-1485 | between the looks of a request, a second look would find the job active if and only if a pass over it began after the first look and is still under way |
| BuildJobRaces.SecondRunnerIsOverlap | src/main/java/io/syndesis/dv/openshift/TeiidOpenShiftClient.java:1438-1475 | so a job gets a second runner if and only if its pass begins between the two looks of a request for its name and goes on until the second |
| BuildJobRaces.RetiredForGood | src/main/java/io/syndesis/dv/openshift/TeiidOpenShiftClient.java:266-280 | without such a race a job has one runner at most, ever, and none once it has retired |
| BuildJobDeployments.RecheckFinds | src/main/java/io/syndesis/dv/openshift/TeiidOpenShiftClient.java:150-212 | when a pass reads the status once more, it finds the job deploying if and only if it did so at its first read and no other thread has written since |
| BuildJobDeployments.SecondDeployment | src/main/java/io/syndesis/dv/openshift/TeiidOpenShiftClient.java:211-218 | over every run a job gets a second deployment config if and only if a pass over a deployed job with a complete build was disturbed by another thread's write, or had first read another status than deploying |
| BuildJobDeployments.UndisturbedRedeployment | src/main/java/io/syndesis/dv/openshift/TeiidOpenShiftClient.java:211-218 | in the latter case the job was running and has a second runner, or it was building and its configuration ended after it had been deployed |
| BuildJobWitnesses.DeployedTwice | src/main/java/io/syndesis/dv/openshift/TeiidOpenShiftClient.java:203-218 | a run in which a deploying job is marked between the two reads and deployed again |
| BuildJobWitnesses.DeployedTwiceByLateEnd | src/main/java/io/syndesis/dv/openshift/TeiidOpenShiftClient.java:1141-1145 | one in which the configuration ends after the job has been deployed |
| BuildJobWitnesses.DeployedTwiceBySecondRunner | src/main/java/io/syndesis/dv/openshift/TeiidOpenShiftClient.java:1438-1475 | one in which a second runner deploys a running job again |
| BuildJobWitnesses.TwoRunners | src/main/java/io/syndesis/dv/openshift/TeiidOpenShiftClient.java:1438-1475 | one in which the first of two runners has retired and the second goes on |
| BuildJobDeletions.LastWordDecides | src/main/java/io/syndesis/dv/openshift/TeiidOpenShiftClient.java:1462-1479 | in every reachable state without a deletion of the job at work, it is done if and only if the last of all marks, deletion ends, configuration ends and pass writes about it was a deletion end; it waits for its deletion if and only if that was a mark |
| BuildJobDeletions.DeletionsEndInThePool | src/main/java/io/syndesis/dv/openshift/TeiidOpenShiftClient.java:1462-1470 | in every reachable state a job can still become done, without another request, if and only if it is done or a deletion of it is with the pool |
| BuildJobDeletions.LateWordLoses | src/main/java/io/syndesis/dv/openshift/TeiidOpenShiftClient.java:1462-1476 | a mark, a resubmission mark, a configuration end or a pass write makes it impossible for the job to become done without another request, if and only if the pool has no deletion of it any more at that moment |
| BuildJobDeletions.RestingStays | src/main/java/io/syndesis/dv/openshift/TeiidOpenShiftClient.java:150-169 | a deleted or waiting job keeps its status until another request takes it, once no deletion, mark or configuration is outstanding and no pass over it is past the test that would stop it |
| BuildJobVerdicts.TurnComesCloser | src/main/java/io/syndesis/dv/openshift/TeiidOpenShiftClient.java:136-169 | every step of the monitor brings the last pass over a job that is done closer, thirteen at most for each runner up to its own last |
| BuildJobVerdicts.DeletionVerdict | src/main/java/io/syndesis/dv/openshift/TeiidOpenShiftClient.java:150-169 | once a job is at rest, it ends up done with all its runners retired in every continuation in which the monitor gets to them, if and only if a deletion end was the last word |
| BuildJobVerdicts.LostForGood | src/main/java/io/syndesis/dv/openshift/TeiidOpenShiftClient.java:150-154 | the runner of a lost deletion requeues itself in every continuation without another request |
| BuildJobWitnesses.LateRequestMark | src/main/java/io/syndesis/dv/openshift/TeiidOpenShiftClient.java:1462-1476 | a run in which the deletion ends before the request marks the job |
| BuildJobWitnesses.LateResubmissionMark | src/main/java/io/syndesis/dv/openshift/TeiidOpenShiftClient.java:157-160 | one in which the resubmitted deletion ends before the monitor marks the job |
| BuildJobWitnesses.LateConfiguration | src/main/java/io/syndesis/dv/openshift/TeiidOpenShiftClient.java:1141-1145 | one in which the configuration ends after the deletion, and the job is deployed |
| BuildJobWitnesses.LatePass | src/main/java/io/syndesis/dv/openshift/TeiidOpenShiftClient.java:216-218 | one in which a pass that was under way writes its status after the deletion |
| SchemaTrie.PrefixClosure | src/main/java/io/syndesis/dv/server/endpoint/MetadataService.java:739-784 | the paths of the trie are exactly the non-empty prefixes of the inserted paths |
| SchemaTrie.QueryableNodes | src/main/java/io/syndesis/dv/server/endpoint/MetadataService.java:697-728 | a node is queryable if and only if the last entry for a root path, or below the root an entry that no earlier one passes through, decides it, and shows that entry's table |
| SchemaTrie.PrefixFreeTables | src/main/java/io/syndesis/dv/server/endpoint/MetadataService.java:714-724 | for prefix-free input the queryable nodes are exactly the tables |
| SchemaTrie.OrderIsIrrelevant | src/main/java/io/syndesis/dv/server/endpoint/MetadataService.java:700-728 | for prefix-free input the order of the tables does not matter |
| SchemaTrie.OrderMatters | src/main/java/io/syndesis/dv/server/endpoint/MetadataService.java:714-719 | a table whose path is continued shows its mark only if it comes first |
| SchemaNodes.GetMatchingNode | src/main/java/io/syndesis/dv/server/endpoint/MetadataService.java:794-803 | a node of the list with that connection, name and type, or none exists |
| SchemaNodes.RestSchemaNode.AddChild | src/main/java/io/syndesis/dv/server/endpoint/RestSchemaNode.java:134-171 | children are an insertion-ordered set under equality of connection, name and type |
| SchemaNodes.SchemaTree.GetLeafNodeParent | src/main/java/io/syndesis/dv/server/endpoint/MetadataService.java:739-784 | the nodes above the last segment exist afterwards, and the parent returned is the registered one |
| SchemaNodes.SchemaTree.InsertTable | src/main/java/io/syndesis/dv/server/endpoint/MetadataService.java:704-725 | one table takes the insertion step of the trie specification |
| SchemaNodes.SchemaTree.HeapIsRegistry | src/main/java/io/syndesis/dv/server/endpoint/RestSchemaNode.java:29-44 | a heap node is reached along a path if and only if it is registered for it, so by one path only |
| SchemaNodes.SchemaTree.SiblingsDiffer | src/main/java/io/syndesis/dv/server/endpoint/RestSchemaNode.java:151-171 | no two siblings share name and type |
| SchemaNodes.GenerateSourceSchema | src/main/java/io/syndesis/dv/server/endpoint/MetadataService.java:697-728 | the loop builds the trie of the tables that carry a path, and throws exactly when some path does not parse or is empty |
| SchemaPaths.PathSpells | src/main/java/io/syndesis/dv/server/endpoint/MetadataService.java:709-711 | each level of a path has the key of its pair for a type and the value for a name |
| SchemaPaths.RefusedForBadPaths | src/main/java/io/syndesis/dv/server/endpoint/MetadataService.java:704-707 | the structure is refused if and only if the path of some table does not parse, or parses to nothing |
| SchemaPaths.NodesOfTables | src/main/java/io/syndesis/dv/server/endpoint/MetadataService.java:697-728 | for tables whose options print paths: the nodes are exactly at the beginnings of these paths, type by key and name by value; a node is queryable and shows a table's name if and only if that table marks it; tables without a path leave no trace |
| SchemaPaths.TablesInTheHeap | src/main/java/io/syndesis/dv/server/endpoint/MetadataService.java:739-784 | along the path of every table there are node objects, reached one under the other from a root, each with its level's type and name |
| PathOptions.StringTokenizer.NextToken | src/main/java/io/syndesis/dv/utils/PathUtils.java:50-61 | tokens come in order; asking for one too many is an exception |
| PathOptions.GetOptions | src/main/java/io/syndesis/dv/utils/PathUtils.java:50-71 | the parser, with its exceptions for a missing part and a malformed escape |
| PathOptions.RoundTrip | src/main/java/io/syndesis/dv/utils/PathUtils.java:50-71 | parsing undoes printing, for every list of pairs of non-empty text |
| PathOptions.RepeatedSlashes | src/main/java/io/syndesis/dv/utils/PathUtils.java:50-55 | repeated, leading and trailing slashes change nothing |
| PathOptions.MoreThanAPair | src/main/java/io/syndesis/dv/utils/PathUtils.java:58-64 | a token yields its key and value, whatever follows behind another equals sign |
| PathOptions.BadTokens | src/main/java/io/syndesis/dv/utils/PathUtils.java:58-64 | a token without key or value ends the parse with one exception, and with another one if and only if an escape in it is malformed |
| PathOptions.FirstFailureDecides | src/main/java/io/syndesis/dv/utils/PathUtils.java:50-71 | the first bad token of a path decides, whatever comes after it |
| UrlCoding.DecodeUndoesEncode | src/main/java/io/syndesis/dv/utils/PathUtils.java:62-64 | percent-decoding undoes percent-encoding of UTF-8, with `+` for space, for all text |
| UrlCoding.MalformedEscapes | src/main/java/io/syndesis/dv/utils/PathUtils.java:62-64 | decoding fails if and only if some percent sign is not followed by two characters that read as a byte |
| UrlCoding.NothingEscaped | src/main/java/io/syndesis/dv/utils/PathUtils.java:62-64 | text without percent signs keeps its characters, but for plus signs, which turn into spaces |
| ViewDdl.GetODataViewDdl | src/main/java/io/syndesis/dv/server/endpoint/ServiceVdbGenerator.java:235-393 | the text built piece by piece is the printed form of the table's view |
| ViewDdl.CollectColumns | src/main/java/io/syndesis/dv/server/endpoint/ServiceVdbGenerator.java:266-283 | the columns are collected once each, in the order of first appearance |
| ViewDdl.AppendKey | src/main/java/io/syndesis/dv/server/endpoint/ServiceVdbGenerator.java:303-329 | the key clause appears exactly when all its columns are projected |
| ViewDdl.AppendNames | src/main/java/io/syndesis/dv/server/endpoint/ServiceVdbGenerator.java:291-301 | the loop separates names by commas |
| ViewDdl.RoundTrip | src/main/java/io/syndesis/dv/server/endpoint/ServiceVdbGenerator.java:235-393 | parsing the printed view gives the view back, for delimiter-free names and a quote-free description |
| ViewDdl.PrintedViewOfTable | src/main/java/io/syndesis/dv/server/endpoint/ServiceVdbGenerator.java:487-581 | read back, the view declares each column once and selects them in that order, has a non-empty description for an annotation, and for a key the primary key, or the first unique key if there is none, exactly when all its columns are declared |
| ViewDdl.DistinctGrows | src/main/java/io/syndesis/dv/server/endpoint/ServiceVdbGenerator.java:266-283 | columns stand in the order of their first appearance: more of them only add at the end |
| ViewDdl.KeyIsPrinted | src/main/java/io/syndesis/dv/server/endpoint/ServiceVdbGenerator.java:303-329 | with an escape that quotes, the key is printed if and only if none of its columns needs escaping |
| ViewDdl.ReservedKeyIsLeftOut | src/main/java/io/syndesis/dv/server/endpoint/ServiceVdbGenerator.java:303-329 | a table whose only column is a reserved word loses its primary key though the column is projected |
| BitCount.PopcountCounts | src/main/resources/static/swagger-ui-standalone-preset.js:13 | the branch-free population count is the number of set bits, for every 32-bit word |
| BitCount.Has | src/main/resources/static/swagger-ui-standalone-preset.js:13 | masking a bitmap with one bit tests that bit |
| BitCount.Rank | src/main/resources/static/swagger-ui-standalone-preset.js:13 | the count of the bits below a bit is its rank among the set ones |
| BitCount.With | src/main/resources/static/swagger-ui-standalone-preset.js:13 | or-ing one bit sets it and nothing else |
| BitCount.Without | src/main/resources/static/swagger-ui-standalone-preset.js:13 | xor-ing a set bit clears it and nothing else |
| HashTrieProofs.ReplacingAChild | src/main/resources/static/swagger-ui-standalone-preset.js:13 | inserting, replacing or removing a child of a bitmap or full-array node, with its expansions and collapses, reroutes exactly that digit |
| HashTrieProofs.MergeStores | src/main/resources/static/swagger-ui-standalone-preset.js:13 | merging a leaf with a new key stores both, however long their hashes agree |
| HashTrieProofs.UpdateCollision | src/main/resources/static/swagger-ui-standalone-preset.js:13 | an update of a collision node, down to its collapse into a value node |
| HashTrieProofs.UpdateTreeIsRight | src/main/resources/static/swagger-ui-standalone-preset.js:13 | the update of a well-formed tree stores or removes its key, keeps the shape and touches nothing else |
| HashTrieLoops.FindEntry | src/main/resources/static/swagger-ui-standalone-preset.js:13 | the search of an entry list ends at the key's first entry, or at the end |
| HashTrieLoops.ChangeEntries | src/main/resources/static/swagger-ui-standalone-preset.js:13 | the copied entry list after a change, with the last entry moved into a gap |
| HashTrieLoops.SpliceInArray | src/main/resources/static/swagger-ui-standalone-preset.js:13 | the loop copies an array with one element put in |
| HashTrieLoops.SpliceOutArray | src/main/resources/static/swagger-ui-standalone-preset.js:13 | the loop copies an array with one element left out |
| HashTrieLoops.ExpandNodes | src/main/resources/static/swagger-ui-standalone-preset.js:13 | the loop over the bits of the bitmap spreads the children over 32 slots, and the new child takes its own |
| HashTrieLoops.PackNodes | src/main/resources/static/swagger-ui-standalone-preset.js:13 | the loop packs the occupied slots but one and builds the bitmap of their digits |
| HashTrieLoops.StoreEntries | src/main/resources/static/swagger-ui-standalone-preset.js:13 | the loop stores the entries of an outgrown array map one by one |
| HashTrieMap.StoreAllStores | src/main/resources/static/swagger-ui-standalone-preset.js:13 | an outgrown array map becomes a tree with the same entries |
| HashTrieMap.UpdateRefines | src/main/resources/static/swagger-ui-standalone-preset.js:13 | one operation: the trie follows the finite map in its answers and its size |
| HashTrieMap.Apply | src/main/resources/static/swagger-ui-standalone-preset.js:13 | after any history of sets and removals the trie answers every key as the finite map does, and its size is the number of keys |
| HashTrieShapes.TreesAreOutgrown | src/main/resources/static/swagger-ui-standalone-preset.js:13 | after any history a map is a tree if and only if it has had more than eight keys since it was last empty, and the empty map if and only if it has no keys |
| HashTrieShapes.NodesGrowAndShrink | src/main/resources/static/swagger-ui-standalone-preset.js:13 | a seventeenth child turns a bitmap node into a full array, and one left with fewer than eight turns back |
| HashTrieShapes.EntriesInOrder | src/main/resources/static/swagger-ui-standalone-preset.js:13 | in an entry list a new entry goes to the end, a replaced one keeps its place, and the last one moves into the place of a removed one |
| HashTrieShapes.CollisionInOrder | src/main/resources/static/swagger-ui-standalone-preset.js:13 | two keys with one hash make a collision node, the older one first |
| HashTrieShapes.UnchangedIsSame | src/main/resources/static/swagger-ui-standalone-preset.js:13 | an array map gives back itself exactly when there is nothing to change |
| LruQueues.LimitAndOrder | src/main/resources/static/swagger-ui-standalone-preset.js:13 | after any history at most `limit` ids are live, ordered by their last hit |
| LruQueues.EvictionIsLeastRecent | src/main/resources/static/swagger-ui-standalone-preset.js:13 | a hit evicts exactly when the id is new and the queue full, and then the id whose last hit is the longest ago |
| LruQueues.LiveExactly | src/main/resources/static/swagger-ui-standalone-preset.js:13 | after any history exactly those ids live that hits brought in and that no deletion, clearing or hit of a new id on a full queue has taken out since |
| LruQueues.LruQueue.Advance | src/main/resources/static/swagger-ui-standalone-preset.js:13 | the pointer-advancing loop ends at the smallest live index |
| LruQueues.LruQueue.Hit | src/main/resources/static/swagger-ui-standalone-preset.js:13 | the indexed queue takes the step of the ordered one and returns the same eviction |
| LruQueues.LruQueue.Delete | src/main/resources/static/swagger-ui-standalone-preset.js:13 | a deletion removes exactly that id and keeps the head pointer at the smallest live index |
| LruQueues.LruQueue.Clear | src/main/resources/static/swagger-ui-standalone-preset.js:13 | clearing leaves an empty queue |
| Base64.BuildTables | src/main/resources/static/swagger-ui-standalone-preset.js:13 | the loop fills two inverse tables over the alphabet, and the URL-safe letters are read as well |
| Base64.FromByteArray | src/main/resources/static/swagger-ui-standalone-preset.js:13 | the chunked encoder produces the encoding of section 4 of RFC 4648 |
| Base64.ToByteArray | src/main/resources/static/swagger-ui-standalone-preset.js:13 | the decoder on any text, with both of its exceptions and its behaviour on padding where none is due |
| Base64.RoundTrip | src/main/resources/static/swagger-ui-standalone-preset.js:13 | decoding undoes encoding, for every byte sequence |
| Base64.StandardGroups | src/main/resources/static/swagger-ui-standalone-preset.js:13 | the letters of a group are those of its 24 bits, by the table of the standard; one or two bytes at the end are padded |
| Base64.Refusals | src/main/resources/static/swagger-ui-standalone-preset.js:13 | decoding refuses exactly text whose length is no multiple of four and text that begins with padding |
| Base64.OtherCharacters | src/main/resources/static/swagger-ui-standalone-preset.js:13 | a character that is no letter of the alphabet is read as the letter of zero |

## Left out

- Source pipeline: `doDeploySourceVdb`, the load callback, `deleteSchema` with the data source's removal, executor tasks and `refreshPreviewVdb` are single steps there, so their own locks do not appear; the server's undeployment and lookup, and the deployment of the master, are taken not to fail.
- Source pipeline: rows are written by one pod. Handling one connection is one step, although an update leaves the data source unregistered for a moment; only a deployment requested through the web interface could fall in between, and it finds no data source.
- MetadataServices.MetadataService.RefreshPreviewVdb: the exception of a failing undeployment or master deployment is not modelled.
- MetadataServices.MetadataService.FinishedDeployment: the exception of `getSchema`, after which the load database stays deployed, is not modelled.
- EditorServices.EditorService.UpsertViewEditorState: the rejection of a name that belongs to another virtualization is not modelled, because there is one virtualization.
- EditorServices.EditorService.ImportViews: a missing schema and tables that are skipped are not modelled; the tables to import are given.
- PreviewConcurrencyTheorems.ServedVersion: versions only grow, because deleting and recreating a virtualization is not modelled. `updatePreviewVdb` and the fine-grained refresh are steps on values, since a method cannot show an interleaving.
- Preview edits: one virtualization, whose views stand in a fixed order, while the program reads them from a query that asks for none; the answers of the parser and of the DDL generator are parameters, names are compared ignoring ASCII case, an optimistic-lock conflict is a flag of the request.
- NamingTheorems.Agreement: rows are not deleted while pods race, and case folding is that of ASCII letters; a failure that is no uniqueness violation ends a call and is not a step. New names differ from those of rows, which is what the unique column ensures.
- Reconciliation: a failure of the connection service, which the scheduled task catches, is no step; events are handled one after the other on the executor thread, and a lookup by publishing falls between them; the removal of a data source from the server is taken not to fail; rows are changed by one pod only, the set of connections owned by virtualizations is fixed, remote objects are added in the order in which they were read, and the executor tasks a deletion queues belong to the source pipeline.
- ConnectionSynchronizers.ConnectionSynchronizer.GetSyndesisSources: the program collects the objects in an unordered set and skips items that it cannot read; here they are a list in the order of the remote one.
- Build jobs: a publish request is one step, and every one that is not refused makes a job of its own; an access and the submission of a task to the pool that follows it are one step, since the pool may take its time; remote calls are no steps; a job without a build name has no build in the cluster; deployment, services and secrets are outcomes.
- BuildMonitors.BuildMonitor.RunPass: shows a pass that nobody disturbs; its interleavings are those of the steps in `BuildJobs`, since a method cannot show them.
- HashTrieMap.Apply: the in-place mode of nodes with a matching owner (`withMutations`) is not modelled, so aliasing inside a batch of mutations is not captured; the hash is any function of the key, and values are compared by equality, so an undetected change of a value to itself (the program's NaN) does not exist.
- LruQueues.LruQueue.Hit: the index counter is unbounded; the program's is a double, exact up to 2^53.
- UrlCoding.DecodeUndoesEncode: only ASCII digits are read in escapes, and the number of replacement characters for malformed UTF-8 is not that of the Java library.
- SchemaNodes.SchemaTree.GetLeafNodeParent: the first turn of the loop is a method of its own.
- ViewDdl.GetODataViewDdl: only the form with one source table.
- ViewDdl.RoundTrip: escaping is any function, so only names that contain no delimiter after escaping are read back.
- Multi-source views: join emission is disabled in the code, and the text has no intended meaning.
- Views without sources, service databases for publishing and their visibility rules.
- OpenShift, HTTP, WebSocket, log files, archive and pom generation: only their outcomes appear.
- Teiid's parser, validator and query engine; Spring and JPA mechanics beyond transactions, unique columns and version touches.
- The rest of the vendored bundle.
