# CicadaPort sessions: a verified model

CicadaPort scans TCP ports and grabs service banners in sessions that survive cancellation, failure and crashes. This
project models the parts that make a session resumable, and proves what they promise:

- `Session` – plan, endpoint progress, checkpoint and manifest, with every check of their constructors.
- `SessionChanges` – what a call may change in a session, field by field: what results, a banner or an error add, and that
  nothing else changes. The statements about stores and runners are made in these terms.
- `StoreV2Tables`, `StoreV2Theorems`, `StoreV2Increments`, `StoreV2Runs`, `StoreV2`, `StoreV2Contents`, `StoreV2Digest`,
  `StoreV2Migration`, `StoreV2Witnesses` – the SQLite store. The three transactions and the reader are functions on tables
  (`StoreV2Tables`); the class `StoreV2.SessionStoreV2` is the store object with its plan cache, and its methods are proved
  against those functions; `StoreV2Contents` says what `load` returns after an accepted call and why a call is refused.
  A transaction works on a copy that is assigned at COMMIT, so a refused or interrupted call
  leaves the tables alone.
- `StoreV1`, `StoreV1Writers` – the generational store: write-once files and an atomically replaced CURRENT, as an object
  and as a machine of file operations by any number of writers, with a crash between any two.
- `SimplePath` – the loop that persists one checkpoint per result, over either store, and what the incremental commits
  have in common with it.
- `ScanPhase`, `SingleRunner`, `SingleRunnerContents`, `RunnerCalls`, `SingleRunnerStore`, `ExecutorScript`,
  `SessionRuntime` – the single-target runner: the buffer that the scan callback and the periodic flusher share, whole
  runs with any number of resumes, what each step puts into the session and where it comes from, their refinement onto
  the v2 store, and the runner object, which works off a script of what the executor does and whose every action is
  recorded as a step of that machine.
- `BatchRunner`, `BatchHistory`, `BatchSafety`, `BatchContents`, `BatchSources`, `BatchSchedule`, `BatchLiveness`,
  `BatchWitnesses`, `BatchQueue`, `BatchRunnerStore`, `BatchRuntime` – the batch runner: coordinator and endpoint workers
  interleaved at lock granularity, the history of committed steps, what each step puts into the session and where it
  comes from, the scheduler, the verdict, and that every resume ends. `BatchQueue` is the coordinator's code, whose
  every action is a step of that machine; `BatchRuntime` is the runner's load, modify and persist over the v2 store.
- `GoPool`, `BannerReader`, `NativeEvents`, `RustBridge` – the Go worker pool and chunked reader, the event acceptor and
  its producer, and the stream loop of the Rust bridge. `ExecutorContract` – the bridge as the runner's executor.
- `ErrorText` – the text under which an exception is recorded.

Conventions. A sorted, duplicate-free tuple of ports is a set, and a tuple of results is a map keyed by port; the loop that
normalises a port list is `Session.NormalizePorts`. Times are integers. SHA-256 is a free constructor, hence injective.
Identifiers, and the fields of a result that no rule looks at, are abstract. The surroundings (executor, clock, scheduling,
the cancel event) are parameters or nondeterministic steps.

Where the code differs from what one would expect of it, the code is modelled and the exact condition is proved:

- `complete_banner` checks neither that the port is open nor that the plan asks for banners; a banner that violates either
  is committed and makes every later `load` fail, and only such a banner (`StoreV2Increments.BannerRebuilds`; inputs:
  `StoreV2Witnesses.BannerOnClosedPort`, `BannerNotAskedFor`).
- `persist` compares with `load` only after COMMIT, so a checkpoint that disagrees with a column that is never rewritten
  (creation time, endpoint order, identity) is committed and cannot be loaded, and only such a one
  (`StoreV2Theorems.PersistRoundTrip`; inputs: `StoreV2Witnesses.PersistWithOtherCreation`, `PersistInOtherOrder`,
  `PersistWithOtherIdentity`).
- Persisting the loaded checkpoint again is a no-op only after a `persist`; after an incremental commit it is refused as a
  collision (`StoreV2Theorems.PersistAgain`; input: `StoreV2Witnesses.PersistAfterAppend`).
- A migrated directory can be opened again exactly while the database has not advanced (`StoreV2Migration.ReopenExactly`;
  input: `StoreV2Witnesses.ReopenAfterAppend`).
- The v1 sequence is safe exactly with at most one writer (`StoreV1Writers.NeverBackExactly`; a run of two writers that
  goes back: `TwoWritersCanGoBack`). After an interrupted write the same generation is refused when its bytes differ
  (`StoreV1Writers.InterruptedWriteBlocks`; input: `InterruptedSession`).
- A failed commit of a periodic flusher ends a batch CANCELLED, not FAILED (`BatchSafety.FlusherFailureCancels`).
- The batch coordinator looks at the cancel event for the last time before it takes its verdict, so a cancellation that
  comes later is ignored: a resume ends CANCELLED if and only if the event is set while a look is still ahead
  (`BatchSafety.ResumeEndsExactly`; a run that ends COMPLETED with the event set:
  `BatchWitnesses.LateCancelEndsCompleted`).
- An exception whose text has nothing to show cannot be recorded; the run ends by an escaping exception and the session
  stays RUNNING (`ErrorText.RecordableExactly`). The machines cover such an end by their `Crash` step.
- `readIncremental` returns 4097 bytes, one more than its limit, exactly when the earliest terminator ends there
  (`BannerReader.LongestCapture`; input: `CapturesBeyondTheLimit`).

## Model

| member | source | states |
|---|---|---|
| Session.NormalizePorts | src/session.py:141-161 | succeeds exactly when every entry is in range, none repeats an earlier one and the list is not empty unless allowed; the result is the ascending list of the same ports; the first faulty entry decides the error |
| Session.AscendingIsUnique | src/session.py:161 | the ascending list of a set of ports is unique, so tuples can stand for sets |
| Session.EndpointKeysDistinct | src/session.py:820-832 | endpoints that match the plan's targets have distinct keys |
| Session.CreatedIsValid | src/session_runtime.py:687-717 | the first checkpoint of every valid plan passes all checks and is the session that was asked for: its identifier, plan and time, CREATED with sequence 0, and for each target in order an endpoint with nothing completed, every port of the plan pending, no banner and no error |
| Session.WithBannerIsValid | src/session_runtime.py:1046-1060 | recording the banner of an open port keeps progress valid and the open ports unchanged |
| Session.EndpointCounts | src/session.py:718-728 | completed and pending ports of an endpoint add up to the plan's; open never exceeds completed |
| Session.PortTotals | src/session.py:1067-1071 | 0 <= open <= completed <= total over any number of endpoints, with equality of the last two exactly when nothing is pending |
| Session.TargetTotals | src/session.py:1071-1076 | successful plus failed targets never exceed the targets; no failure exactly when no endpoint has an error; all successful exactly when all are done without error |
| Session.ManifestTotality | src/session.py:984-1064 | the manifest of every valid checkpoint passes every check of the manifest constructor, including the equalities of COMPLETED |
| Session.ManifestTellsProgress | src/session.py:1067-1094 | the counters of the manifest tell exactly whether a port is pending and whether an endpoint failed |
| Session.ManifestContents | src/session.py:1067-1094 | every field of the manifest: identifier, fingerprint, status and times, and its counters as the numbers of targets done, targets in error, requested, completed and open ports |
| SessionChanges.RecordedAtContents | src/session_store_v2.py:903-946 | a session with a batch recorded: exactly these results are added, each as it is, to one endpoint; status, error, time and sequence are the stated ones and nothing else changes |
| SessionChanges.BanneredAtContents | src/session_store_v2.py:1046-1120 | a session with a banner recorded: the result of that port carries the text, or none for an empty one, the port is among the banners, and nothing else changes |
| ErrorText.TrimExactly | src/session.py:99-117 | trimming leaves nothing exactly when every character is white space |
| ErrorText.TrimmedBetween | src/session_runtime.py:367 | white space goes at both ends of a text and nowhere else |
| ErrorText.WithoutNulExactly | src/session_runtime.py:368 | NUL characters go, wherever they are, and nothing else does |
| ErrorText.NormalizedExactly | src/session_runtime.py:366-369 | the recorded text is the first 2048 characters of the trimmed message without NULs, or of the type's name when the message is blank |
| ErrorText.RecordableExactly | src/session_runtime.py:366-369 | a normalised error passes the checkpoint's text check exactly when one of its first 2048 characters without NULs is not white space |
| ErrorText.NulCannotBeRecorded | src/session_runtime.py:366-369 | a concrete exception text that cannot be recorded |
| StoreV2Theorems.LoadRowsExactly | src/session_store_v2.py:1170-1223 | the endpoints load exactly when every row's digests match and its progress is valid |
| StoreV2Theorems.LoadSucceedsExactly | src/session_store_v2.py:1154-1266 | sound tables are exactly the ones that load and have no history beyond the current sequence; `load` returns what the tables hold |
| StoreV2Theorems.MergedRowHolds | src/session_store_v2.py:645-717 | after the upsert a row holds exactly the endpoint's progress, whichever rows were skipped because of an equal digest |
| StoreV2Theorems.MergeNeverDrops | src/session_store_v2.py:676-714 | merging a checkpoint removes no result, no banner and changes no identity |
| StoreV2Theorems.MergeAligned | src/session_store_v2.py:632-717 | each endpoint of the checkpoint is merged into its own row and into no other |
| StoreV2Theorems.WriteRebuilds | src/session_store_v2.py:632-758 | when the columns that are never rewritten agree, a write leaves tables that rebuild to the checkpoint |
| StoreV2Theorems.PersistRoundTrip | src/session_store_v2.py:539-806 | after an accepted write `load` returns exactly the checkpoint if and only if creation time, endpoint order and identities agree |
| StoreV2Theorems.PersistAgain | src/session_store_v2.py:613-630 | persisting the loaded checkpoint again changes nothing after a `persist` and is refused after an incremental commit |
| StoreV2.SameSequenceExactly | src/session_store_v2.py:613-630 | under the stored sequence a checkpoint of the session is acknowledged, without any change, if and only if the last commit was a `persist` and it is what `load` returns; every other one is a collision |
| StoreV2.AcknowledgedLoads | src/session_store_v2.py:539-806 | whatever `persist` acknowledges is what `load` returns from then on |
| StoreV2Theorems.PersistNeverDrops | src/session_store_v2.py:595-714 | no accepted `persist` drops a result or banner, and the sequence stays or advances by one |
| StoreV2Theorems.PersistAcceptsExactly | src/session_store_v2.py:595-714 | the next checkpoint of a session is accepted exactly when it keeps every confirmed port and banner |
| StoreV2Theorems.FirstPersistSucceeds | src/session_store_v2.py:553-594 | an empty store accepts every valid checkpoint |
| StoreV2Increments.ByPortIgnoresOrder | src/session_runtime.py:884-903 | results with distinct ports are recorded as the same map in every order of arrival |
| StoreV2Increments.RecordAllAtOnce | src/session_runtime.py:938-970 | the loop that builds one checkpoint per result, each with a clock reading of its own, ends with the whole batch recorded, the sequence advanced by its size and the error of the endpoint cleared |
| StoreV2Increments.AppendableExactly | src/session_store_v2.py:869-902 | the row-by-row checks pass exactly for canonical results of distinct, still pending ports |
| StoreV2Increments.AppendAcceptsExactly | src/session_store_v2.py:824-902 | on sound tables `append_results` is accepted exactly in the stated cases, so its plain INSERT into the history never decides |
| StoreV2Increments.InsertedProgress | src/session_store_v2.py:903-915 | the inserted rows hold the progress with the batch recorded, digests included |
| StoreV2Increments.CommitChainSound | src/session_store_v2.py:917-946 | an incremental commit keeps every condition on the tables except, possibly, the validity of the checkpoint |
| StoreV2Increments.AppendRebuilds | src/session_store_v2.py:808-973 | an accepted append rebuilds to the checkpoint with the batch recorded, and stays loadable exactly when the error text passed along is valid |
| StoreV2Increments.BannerAcceptsExactly | src/session_store_v2.py:1003-1063 | on sound tables `complete_banner` is accepted exactly in the stated cases, none of which is an open port |
| StoreV2Increments.BannerValidExactly | src/session.py:705-711 | progress with one more banner is valid exactly when the port is open and the plan asks for banners |
| StoreV2Increments.BannerRebuilds | src/session_store_v2.py:993-1133 | an accepted banner rebuilds to the checkpoint with that banner, and `load` still succeeds if and only if the port is open and the plan asks for banners |
| StoreV2Contents.AppendLoads | src/session_store_v2.py:808-973 | after an accepted append `load` returns the session with exactly these results confirmed, each as it was given, and everything else as it was |
| StoreV2Contents.BannerLoads | src/session_store_v2.py:993-1133 | after an accepted banner of an open port `load` returns that result with exactly this banner, none for an empty one, and everything else as it was |
| StoreV2Contents.PersistRefusesExactly | src/session_store_v2.py:595-630 | each error that `persist` raises before it writes, exactly when: another session, another plan, a sequence going back, a gap, a collision |
| StoreV2Contents.MergeRefusesExactly | src/session_store_v2.py:676-714 | an endpoint is refused exactly for a confirmed port that the checkpoint lacks, and else exactly for a banner that it lacks |
| StoreV2Contents.FirstDropDecides | src/session_store_v2.py:645-717 | the first endpoint that drops something decides the error of the whole checkpoint |
| StoreV2Contents.AppendRefusesExactly | src/session_store_v2.py:824-868 | the guards of `append_results` in their order, each error exactly when |
| StoreV2Contents.FirstFaultDecides | src/session_store_v2.py:869-902 | the first entry of a batch that is at fault decides the error |
| StoreV2Contents.EntryFaultExactly | src/session_store_v2.py:869-902 | each fault of an entry exactly when: not canonical, repeated, outside the plan, confirmed with another result, confirmed with this one |
| StoreV2Contents.BannerRefusesExactly | src/session_store_v2.py:1003-1063 | the guards of `complete_banner` in their order, each error exactly when |
| StoreV2Contents.LoadRefusesExactly | src/session_store_v2.py:1154-1266 | a damaged result row, a history that does not match and a wrong checkpoint digest are told apart by the first check that fails |
| StoreV2Contents.LastCommit | src/session_store_v2.py:917-935 | the checkpoint digest is stored exactly after a `persist` |
| StoreV2Contents.HistoryGrows | src/session_store_v2.py:936-946 | every accepted change puts exactly one row into the history: its sequence, status and digest |
| StoreV2Contents.PersistReceiptExactly | src/session_store_v2.py:796-806 | the receipt of `persist` describes the checkpoint: its ports counted one by one, its digest |
| StoreV2Contents.ChainReceiptExactly | src/session_store_v2.py:947-973 | the receipt of an increment describes what `load` returns |
| StoreV2Contents.BatchLimits | src/session_store_v2.py:486-492 | a strict store takes one result at a time, so every accepted result is confirmed at once; a balanced one takes up to 128 |
| StoreV2Runs.AppendableSplit | src/session_store_v2.py:869-902 | a batch is acceptable exactly when its first part is, and its second part is after it |
| StoreV2Runs.AppendAllRecords | src/session_store_v2.py:808-973 | a sequence of batches is accepted exactly when all its results are acceptable together, and records them all |
| SimplePath.PrefixIsValid | src/session_runtime.py:938-970 | every checkpoint of the one-by-one loop is a valid checkpoint of the same session, as many steps on as results were recorded |
| SimplePath.AdmitsExactly | src/session_runtime.py:941-953 | the loop takes the next result exactly when all of them so far are canonical results of distinct pending ports |
| SimplePath.EachPersists | src/session_runtime.py:954-970 | over the v2 store every `persist` of the loop is accepted exactly when the results are canonical results of distinct pending ports, and then `load` returns the last checkpoint of the loop |
| SimplePath.EachPersistsV1 | src/session_runtime.py:572-611 | the same over the v1 store, given that no later generation name is taken: its guard and its write-once rule never decide |
| SimplePath.BatchingDoesNotMatter | src/session_store_v2.py:808-973 | for any order of arrival and any split into batches, v2 appends, v2 persists one by one and v1 persists one by one are accepted in the same cases, and the stores load the same completed and pending ports, banners and sequence, also for an endpoint with a recorded error |
| StoreV2Runs.HistoryNeverCollides | src/session_store_v2.py:936-946 | on sound tables no operation fails on an existing history row |
| StoreV2Runs.StepStaysSound | src/session_store_v2.py:539-1152 | every operation within the callers' duties keeps the tables sound, whether it is accepted or not |
| StoreV2Runs.StepIsMonotone | src/session_store_v2.py:539-1152 | no operation drops a confirmed row, replaces the plan or moves the sequence back |
| StoreV2Runs.RunsStaySound | src/session_store_v2.py:1224-1252 | after every sequence of operations from the empty store, `load` succeeds and returns the tables' content, and no history INSERT can collide |
| StoreV2Runs.RunsAreMonotone | src/session_store_v2.py:539-1152 | along every run confirmed rows stay and the sequence never goes back |
| StoreV2Digest.DigestAfter | src/session_store_v2.py:501-522 | what the state digest after an increment is made of: the previous digest, sequence, time, result digests and banner port |
| StoreV2Digest.SameRowWritten | src/session_store_v2.py:872-915 | from the same tables, equal result digests and banner port mean the same row was written with the same content |
| StoreV2Digest.DigestDeterminesState | src/session_store_v2.py:917-946 | two runs of incremental commits from the same tables that end at the same sequence with the same state digest have left identical tables |
| StoreV2.SessionStoreV2.constructor | src/session_store_v2.py:143-178 | a new store is empty with nothing cached |
| StoreV2.SessionStoreV2.Open | src/session_store_v2.py:143-178 | a store opened on an existing database holds its tables and migrations, with nothing cached |
| StoreV2.SessionStoreV2.CachePlan | src/session_store_v2.py:465-469 | fingerprint and port set of the cache belong to the cached plan |
| StoreV2.SessionStoreV2.PlanFromState | src/session_store_v2.py:471-484 | the result is the stored plan or its fault, whatever plan was cached before, and on success the cached port set is the stored plan's |
| StoreV2.SessionStoreV2.HasCheckpoint | src/session_store_v2.py:524-537 | true exactly when a session is stored |
| StoreV2.SessionStoreV2.MergeResults | src/session_store_v2.py:645-689 | the loop over the results computes the upsert |
| StoreV2.SessionStoreV2.MergeEndpoint | src/session_store_v2.py:645-717 | results, banners and error of one endpoint are merged, or refused for dropping something |
| StoreV2.SessionStoreV2.MergeEndpoints | src/session_store_v2.py:645-717 | the loop over the endpoints merges each into the row with its key; its first fault is the fault of the whole |
| StoreV2.SessionStoreV2.WriteCheckpoint | src/session_store_v2.py:546-758 | the transaction of `persist` equals the specification `PersistTx` of `StoreV2Tables`, about which the theorems are proved |
| StoreV2.SessionStoreV2.Persist | src/session_store_v2.py:539-806 | result and tables after a call, accepted or refused, with the comparison after COMMIT; whatever is acknowledged on a sound database is what `load` returns afterwards; a refused call leaves tables alone and may still change the cached plan, coherently |
| StoreV2.SessionStoreV2.CollectRows | src/session_store_v2.py:869-915 | the loop over a batch finds its first fault against the cached port set, or returns all rows and digests in order |
| StoreV2.SessionStoreV2.AppendResults | src/session_store_v2.py:808-973 | equals the specification `AppendTx` for the stored plan, whatever plan is cached, whose contents `StoreV2Contents.AppendLoads` states; a refused call leaves tables alone |
| StoreV2.SessionStoreV2.CompleteBanner | src/session_store_v2.py:993-1133 | equals the specification `BannerTx`, whose contents `StoreV2Contents.BannerLoads` states; a refused call leaves tables alone |
| StoreV2.SessionStoreV2.LoadEndpoints | src/session_store_v2.py:1170-1223 | the loop over the rows rebuilds the endpoints in order or reports the first fault |
| StoreV2.SessionStoreV2.Load | src/session_store_v2.py:1154-1266 | equals the specification `LoadTx` and caches the plan it returns |
| StoreV2.SessionStoreV2.RecordSource | src/session_store_v2.py:1499-1530 | a known source is accepted exactly in the recorded state; a new one is recorded |
| StoreV2.SessionStoreV2.MigrateFromV1 | src/session_store_v2.py:1480-1539 | result, tables and migration table after an import, over its two transactions |
| StoreV2Migration.ImportLoadsTheSource | src/session_store_v2.py:1480-1539 | an import into an empty database succeeds exactly when the plan is in scope, and then `load` returns what the v1 store loads |
| StoreV2Migration.SourceReadsAsPublished | src/session_store_v2.py:1464-1478 | a published v1 session is read as the store that wrote it loads it |
| StoreV2Migration.RunAdvances | src/session_store_v2.py:917-918 | operations that change the tables advance the sequence |
| StoreV2Migration.ReopenExactly | src/session_store_v2.py:176-177 | after any operations, opening a migrated directory again succeeds without any change exactly while the session has not advanced, and is refused as a sequence going back otherwise |
| StoreV2Witnesses.BannerOnClosedPort | src/session_store_v2.py:993-1133 | a concrete session in which a banner of a closed port is committed and `load` fails afterwards |
| StoreV2Witnesses.BannerNotAskedFor | src/session_store_v2.py:993-1133 | a concrete session without banners in which a banner is committed and `load` fails afterwards |
| StoreV2Witnesses.LostExactly | src/session_store_v2.py:747-806 | an accepted successor is committed, refused and never loaded again exactly when a column that is never rewritten disagrees |
| StoreV2Witnesses.PersistWithOtherCreation | src/session_store_v2.py:747-806 | a concrete successor with another creation time for which that happens |
| StoreV2Witnesses.PersistWithOtherIdentity | src/session_store_v2.py:747-806 | a concrete successor with another canonical name for which that happens |
| StoreV2Witnesses.PersistInOtherOrder | src/session_store_v2.py:747-806 | a concrete successor with its two endpoints in the other order for which that happens |
| StoreV2Witnesses.PersistAfterAppend | src/session_store_v2.py:613-630 | a concrete session after one append: persisting what `load` returns is refused as a collision |
| StoreV2Witnesses.ReopenAfterAppend | src/session_store_v2.py:176-177 | a concrete migrated directory: after one append it cannot be opened again |
| StoreV1.PublishedPairLoads | src/session_runtime.py:613-662 | a pointer to a published pair loads exactly its checkpoint, also from any later state of the files |
| StoreV1.LoadsExactly | src/session_runtime.py:613-662 | whatever is on disk, a pointer loads a checkpoint exactly when it names it and both files hold its own documents |
| StoreV1.GuardExactly | src/session_runtime.py:572-593 | each error of the guard of `persist` exactly when, and the checkpoints it lets through |
| StoreV1.RefusesExactly | src/session_runtime.py:613-640 | a missing generation and one with other bytes than CURRENT records are told apart |
| StoreV1.CheckpointStore.WriteGeneration | src/session_runtime.py:466-515 | a generation is published once; other bytes under its name are a collision and change nothing |
| StoreV1.CheckpointStore.Persist | src/session_runtime.py:572-611 | succeeds exactly when the guard passes and neither file name is taken by other bytes; then `load` returns the checkpoint; CURRENT moves only on success and always names a published pair |
| StoreV1.CheckpointStore.Load | src/session_runtime.py:613-669 | with CURRENT naming a published pair, loading succeeds with the checkpoint CURRENT names |
| StoreV1Writers.StepKeepsInv | src/session_runtime.py:466-544 | each file operation of each writer keeps a visible CURRENT naming a published pair, and changes no published generation |
| StoreV1Writers.VisibleCurrentAlwaysLoads | src/session_runtime.py:572-662 | for any number of writers, any interleaving and any crashes, a visible CURRENT loads to the checkpoint it names, and still does for a reader that saw it earlier |
| StoreV1Writers.OneWriterNeverGoesBack | src/session_runtime.py:572-593 | with one writer the sequence of CURRENT never goes back and session and plan never change |
| StoreV1Writers.TwoWritersCanGoBack | src/session_runtime.py:572-611 | with any larger number of writers some interleaving moves it back |
| StoreV1Writers.NeverBackExactly | src/session_runtime.py:572-611 | all runs of n writers, from any point of them on, keep CURRENT from going back exactly when n is at most 1 |
| StoreV1Writers.InterruptedWriteBlocks | src/session_runtime.py:572-611 | after a writer has died over the checkpoint file of the next generation only that very checkpoint is accepted; every other of the same sequence collides and every later one is a gap |
| StoreV1Writers.InterruptedSession | src/session_runtime.py:466-515 | a concrete session in which that happens |
| ScanPhase.BeginInv | src/session_runtime.py:827-846 | a scan starts with its conservation invariant |
| ScanPhase.AcceptInv | src/session_runtime.py:884-903 | an accepted result is moved from pending to the buffer and nothing else is lost or doubled |
| ScanPhase.TakeInv | src/session_runtime.py:847-858 | taking the buffered batch, by the flusher or by the last flush, keeps the invariant |
| ScanPhase.BatchIsAcceptable | src/session_store_v2.py:824-902 | every batch handed to the store is non-empty, within the limit, free of duplicates and for pending ports only |
| ScanPhase.CommitInv | src/session_runtime.py:847-858 | a commit moves exactly its batch from unconfirmed to confirmed |
| ScanPhase.CommitFailedInv | src/session_runtime.py:860-869 | a failed commit drops its batch, whose ports stay pending in the store; the error of a flusher goes on record after it has left the lock |
| ScanPhase.AtMostOneBatchUnconfirmed | src/session_runtime.py:884-903 | the ports pending in the store are those not reported, waiting or dropped, counted once; at most one batch is unconfirmed |
| ScanPhase.DrainedIsConfirmed | src/session_runtime.py:916-936 | after the last flush only what was never reported or was dropped is missing |
| ScanPhase.GuardsRefuseExactly | src/session_runtime.py:884-903 | in every phase a scan can reach, with any flushes and failed commits in between, the callback refuses exactly what is not canonical, was not requested or was reported before, unless it refuses all; so an executor that reports distinct requested ports never meets a guard |
| ScanPhase.RequestIsConserved | src/session_runtime.py:827-922 | every requested port is not reported yet, waiting, dropped by a failed commit or confirmed since the scan began, and only one of these |
| SingleRunner.StepKeepsInv | src/session_runtime.py:729-1071 | every step of the runner keeps the invariant and undoes nothing confirmed |
| SingleRunner.RunsAreSafe | src/session_runtime.py:729-936 | over every run with any crashes, cancels, failures and resumes, in one history of all of them: each port is committed and each banner recorded at most once, each result is as it was committed and carries the banner recorded for it, each scan is asked for exactly the ports of the plan with no commit before it, the sequence is the number of transitions, results, banners and terminal checkpoints, and COMPLETED means every port exactly once |
| SingleRunner.LongerRunKeeps | src/session_runtime.py:749-801 | from any point of a run on, confirmed ports stay, a confirmed result changes only in its banner and only once, the sequence never goes back and COMPLETED never changes |
| SingleRunner.ScanConserves | src/session_runtime.py:835-924 | in every reachable state of a scan the requested ports are conserved as not reported, waiting, dropped and confirmed, at most one batch is unconfirmed and the batch in commit is acceptable |
| SingleRunnerContents.StepContents | src/session_runtime.py:687-1071 | every step of the runner makes of the session exactly what it should, field by field; no other step changes it |
| SingleRunnerContents.NothingIsInvented | src/session_runtime.py:884-1031 | over whole runs every result in the session is one that was reported for its port, but for its banner, and that is one that was returned for the port |
| RunnerCalls.AppendSucceeds | src/session_store_v2.py:808-973 | an acceptable batch for any endpoint of a sound store is accepted and loads as recorded |
| RunnerCalls.BannerSucceeds | src/session_store_v2.py:993-1133 | the banner of an open port without one is accepted and loads as recorded |
| RunnerCalls.PersistSucceeds | src/session_store_v2.py:539-806 | a successor that keeps everything confirmed is accepted and loads as itself |
| SingleRunnerStore.StepSucceeds | src/session_runtime.py:729-1071 | every step of the runner is a store call that is accepted, or no call |
| SingleRunnerStore.RunsLoadTheirCheckpoint | src/session_runtime.py:729-1071 | after every run `load` returns exactly the checkpoint of the run, however results were batched |
| SessionRuntime.SingleTargetSessionRunner.Create | src/session_runtime.py:687-717 | succeeds exactly in scope and without a session, and saves the session that was asked for, untouched, field by field |
| SessionRuntime.SingleTargetSessionRunner.Reopen | src/session_runtime.py:676-686 | a new process on the database that any run of earlier processes has left is in the state of that run, with nothing running |
| SessionRuntime.SingleTargetSessionRunner.Flush | src/session_runtime.py:847-858 | the batch is confirmed, each result as it was buffered, exactly when the clock has not gone back; otherwise it is dropped and the store unchanged |
| SessionRuntime.SingleTargetSessionRunner.Enqueue | src/session_runtime.py:898-903 | the result is buffered as it is, and a full buffer is confirmed in order; whatever was on its way still is |
| SessionRuntime.SingleTargetSessionRunner.Record | src/session_runtime.py:884-903 | exactly which results the callback refuses, with the cancel event it finds, and with which error; a refusal by a guard or by cancellation changes nothing, and only cancellation is raised as such |
| SessionRuntime.SingleTargetSessionRunner.PeriodicFlush | src/session_runtime.py:860-869 | the flusher fails exactly on a clock going back with results buffered, and then never flushes again |
| SessionRuntime.SingleTargetSessionRunner.RunScan | src/session_runtime.py:906-916 | however the executor ends, as long as it reports distinct requested ports no guard fires: what is raised is its own error, and exactly the reported ports are taken; without an error every report was of a new requested port and is on its way as it was reported |
| SessionRuntime.SingleTargetSessionRunner.LastFlush | src/session_runtime.py:916-922 | after the executor has returned the flusher is gone and the rest is flushed unless a flush had failed |
| SessionRuntime.SingleTargetSessionRunner.FinishScan | src/session_runtime.py:916-936 | which error is raised in every case: a failed flush, else the executor's own, else the one for missing ports; without a failed flush the store lacks exactly the ports that were not reported or were dropped |
| SessionRuntime.SingleTargetSessionRunner.StartScan | src/session_runtime.py:827-846 | the request is exactly the pending ports |
| SessionRuntime.SingleTargetSessionRunner.CompleteScanPhase | src/session_runtime.py:822-936 | success means that the executor reported every requested port exactly once and that the store holds the results as they were reported; after reports of distinct requested ports it ends with the error of the executor, else with missing ports, else with success |
| SessionRuntime.SingleTargetSessionRunner.CompleteBanner | src/session_runtime.py:1003-1031 | one banner is confirmed, with the text the executor returned, exactly when the run is not cancelled before it, the banner is admissible and the clock has not gone back; otherwise which fault it is |
| SessionRuntime.SingleTargetSessionRunner.CompleteBannerPhase | src/session_runtime.py:988-1032 | it succeeds exactly when every open port without a banner gets an admissible one, in ascending order under a clock that does not go back, and then each carries its own; otherwise the first port that does not decides the fault |
| SessionRuntime.SingleTargetSessionRunner.RecordFault | src/session_runtime.py:762-801 | a cancellation is recorded as CANCELLED with the endpoint untouched, any other fault as FAILED with the error on the endpoint and nothing else changed |
| SessionRuntime.SingleTargetSessionRunner.FinishRun | src/session_runtime.py:754-761 | COMPLETED is persisted over the latest checkpoint, with no endpoint changed, exactly when the clock is not before the creation |
| SessionRuntime.SingleTargetSessionRunner.BeginRun | src/session_runtime.py:735-749 | exactly when there is no session, another plan is expected or the clock is before the creation; otherwise the session is returned as COMPLETED, or is RUNNING with its error cleared and nothing else changed |
| SessionRuntime.SingleTargetSessionRunner.Resume | src/session_runtime.py:729-801 | COMPLETED is returned unchanged; otherwise the run ends COMPLETED or its fault is on record; it ends COMPLETED whenever the executor delivers everything in time and nobody cancels, and a COMPLETED session holds exactly what was delivered; nothing confirmed is undone, another plan is refused exactly when it is one, and every action is a step of the machine |
| SessionRuntime.SingleTargetSessionRunner.Run | src/session_runtime.py:719-727 | create and resume with the same plan: it never ends in another plan or a missing session, and it succeeds when the executor delivers everything in time; a COMPLETED session holds what the executor has delivered for the plan |
| BatchRunner.ActKeepsInv | src/session_batch.py:626-812 | what one worker does between store calls keeps the invariant of its endpoint |
| BatchHistory.OthersHaveNoEffect | src/session_batch.py:844-885 | the fold of an endpoint depends on its own entries and the resumes only |
| BatchHistory.FoldConfirmed | src/session_batch.py:652-687 | a committed batch is the same as its results one by one, and nothing to other endpoints |
| BatchHistory.CompletedIsLogged | src/session_batch.py:523-551 | a port is completed exactly when one of its results is in the history |
| BatchHistory.WriteMoves | src/session_batch.py:844-885 | a worker's store call, from a snapshot or directly, moves its own endpoint on and no other, and counts in the sequence what it adds to the history |
| BatchHistory.MarkMoves | src/session_batch.py:814-842 | recording an endpoint error is one step of that endpoint alone |
| BatchHistory.TransitionMoves | src/session_batch.py:470-495 | setting RUNNING clears the errors and is one step |
| BatchHistory.TerminalMoves | src/session_batch.py:887-903 | a terminal checkpoint is one step that changes no endpoint |
| BatchSafety.StepKeepsInv | src/session_batch.py:302-468 | every step of coordinator, workers and flushers keeps the invariant, with the lock's snapshot always current, and undoes nothing confirmed |
| BatchSafety.NoLostUpdates | src/session_batch.py:844-885 | in every interleaving each endpoint's loaded progress is the fold of its own committed steps, the sequence is the number of committed steps and no port of an endpoint is committed twice |
| BatchContents.StepContents | src/session_batch.py:258-930 | every step of the batch makes of the session exactly what it should, endpoint by endpoint and field by field, with the texts of its terminal checkpoints; no other step changes it |
| BatchContents.ErrorsInOrder | src/session_batch.py:424-438 | the text of a failed session is the errors of its endpoints in order, with "; " in between |
| BatchSources.ConfirmedIsHeld | src/session_batch.py:523-812 | in every interleaving each endpoint holds exactly the results confirmed for it, each as it was confirmed and with the banner recorded for it, and no banner is recorded twice |
| BatchSources.NothingIsInvented | src/session_batch.py:523-812 | every result and banner of an endpoint is one that was delivered for this endpoint and this port |
| BatchSources.ErrorsWereRaised | src/session_batch.py:384-394 | every error on record is one that the endpoint's own worker raised |
| BatchSafety.ConfirmedStaysConfirmed | src/session_batch.py:302-468 | from any point of a run on nothing confirmed is undone and COMPLETED never changes |
| BatchSafety.CompletedMeansEveryPortOnce | src/session_batch.py:457-468 | COMPLETED means every port of every endpoint is committed exactly once |
| BatchSafety.PendingBranchUnreachable | src/session_batch.py:440-456 | when the verdict is taken every endpoint is finished or has its error on record, and errors are exactly the workers that raised |
| BatchSafety.VerdictExactly | src/session_batch.py:408-468 | a resume is closed as CANCELLED, or its verdict is FAILED exactly when a worker raised and COMPLETED otherwise, marking nothing; at the verdict every endpoint needing work was started exactly once |
| BatchSafety.CancelledResumeEndsCancelled | src/session_batch.py:325-419 | once the cancel event is set with a look at it still ahead a resume can only end CANCELLED, whatever its workers still do |
| BatchSafety.ResumeEndsExactly | src/session_batch.py:321-468 | a resume ends CANCELLED if and only if at some point the cancel event is set with a look at it still ahead; otherwise FAILED if and only if a worker raised, and else COMPLETED |
| BatchSafety.LateCancelIsIgnored | src/session_batch.py:410-468 | wherever the last look finds the event unset, setting it before the verdict changes nothing |
| BatchWitnesses.LateCancelEndsCompleted | src/session_batch.py:410-468 | a concrete run from an empty store that ends COMPLETED with the event set |
| BatchSafety.FlusherFailureCancels | src/session_batch.py:688-697 | after a failed commit of a periodic flusher the resume can end neither FAILED nor COMPLETED: the worker joins its flusher, which sets the event, before the coordinator looks at it for the last time |
| BatchLiveness.NeverStuck | src/session_batch.py:302-468 | in every reachable state of a resume a step is possible that is no failure, crash or cancellation, with the state lock and the callback locks nested as they are |
| BatchLiveness.StepUsesUp | src/session_batch.py:302-468 | every step but a request to cancel uses up one of the steps a resume has left, whatever fails |
| BatchLiveness.ResumesAreBounded | src/session_batch.py:302-468 | a resume makes at most (8 ports + 11) steps for each endpoint and 7 more |
| BatchLiveness.EndIsInReach | src/session_batch.py:302-468 | from every state a resume can be carried to its end without a failure, crash or cancellation |
| BatchSafety.ResumeOfCompletedChangesNothing | src/session_batch.py:302-319 | from a COMPLETED session on, no continuation of any kind writes, starts a worker or gets past loading |
| BatchSafety.SchedulerBounds | src/session_batch.py:340-398 | in every reachable state of a resume no endpoint was started twice or without needing work, the active ones stay within the effective limit, and neither their shares nor the workers granted to the running scans at their start add up to more than the threads of the plan |
| BatchSchedule.QueueExactly | src/session_batch.py:340-357 | a resume queues exactly the endpoints with pending ports or missing banners, in the order of the plan, and the number that may be active is the least of target workers, queued endpoints and threads |
| BatchSchedule.StartsAreInOrder | src/session_batch.py:361-375 | in every reachable state of a resume the endpoints were started in the order of the plan |
| BatchSchedule.ShareExactly | src/session_batch.py:353-356 | the threads are shared out evenly: one more for each active endpoint would exceed them |
| BatchSchedule.GrantExactly | src/session_batch.py:738-745 | a scan gets its share, or one worker for each port when that is less |
| BatchSafety.GrantStays | src/session_batch.py:734-745 | no step changes what a running scan was granted |
| BatchRunnerStore.StepSucceeds | src/session_batch.py:302-930 | every step is a v2 store call that is accepted, or no call |
| BatchRunnerStore.RunsLoadEveryEndpoint | src/session_batch.py:626-885 | for every interleaving the database loads as the checkpoint of the run, each endpoint as the fold of its own steps |
| BatchQueue.Coordinator.SubmitMore | src/session_batch.py:361-375 | endpoints are started from the head of the queue, with a look at the cancel event before each; it stops exactly with an empty queue, at the limit or with the event set, and starts none only if it keeps the queue |
| BatchQueue.Coordinator.AwaitOne | src/session_batch.py:380-383 | waiting ends, because some active endpoint can always go on, and returns exactly the active endpoints that are done |
| BatchQueue.Coordinator.Handle | src/session_batch.py:384-394 | one outcome: success, a cancellation that sets the event, or an error that is recorded under the state lock; nobody else is touched |
| BatchQueue.Coordinator.HandleAll | src/session_batch.py:384-394 | every finished future is handled, also after one that was cancelled |
| BatchQueue.Coordinator.RunQueue | src/session_batch.py:356-406 | the queue loop terminates, whatever goes on around it; endpoints start in queue order, all of them and all outcomes handled unless the event is set; every action is a step of the machine |
| BatchQueue.Coordinator.Shutdown | src/session_batch.py:400-408 | the shutdown of the pool waits until no worker is live, and it terminates |
| BatchQueue.Coordinator.Finish | src/session_batch.py:410-422 | the last look at the event and the end it decides, as of the clock reading taken then and with the text of its status |
| BatchQueue.Coordinator.Resume | src/session_batch.py:302-422 | a whole resume as a run of the machine: it terminates, how it ends is decided exactly by the event and the workers, in every state on the way the scheduler is within its bounds, and the session is left with the last clock reading and the text of its status |
| BatchRuntime.MultiTargetSessionRunner.constructor | src/session_batch.py:230-250 | a new runner over an empty store |
| BatchRuntime.MultiTargetSessionRunner.Open | src/session_batch.py:230-250 | a new runner over an existing database finds what it holds and remembers nothing |
| BatchRuntime.MultiTargetSessionRunner.Create | src/session_batch.py:258-290 | succeeds exactly in scope and without a session, and saves the session that was asked for, with one untouched endpoint for each target in order |
| BatchRuntime.MultiTargetSessionRunner.LoadSession | src/session_batch.py:302-319 | a resume loads the stored session, or says exactly when there is none or another plan is expected; it changes nothing |
| BatchRuntime.MultiTargetSessionRunner.BeginRun | src/session_batch.py:292-316 | creating a session and resuming it with the same plan never ends in another plan or a missing session, and work begins on the session that was asked for |
| BatchRuntime.MultiTargetSessionRunner.Persist | src/session_batch.py:905-930 | a successor is accepted exactly when it keeps everything confirmed, and then is loaded and remembered |
| BatchRuntime.MultiTargetSessionRunner.MutateAll | src/session_batch.py:858-868 | the loop changes the one endpoint with the key and no other |
| BatchRuntime.MultiTargetSessionRunner.MutateEndpoint | src/session_batch.py:844-885 | exactly when a mutation is persisted, and that it changes one endpoint of the loaded checkpoint, by the mutation, and no other |
| BatchRuntime.MultiTargetSessionRunner.MarkEndpointError | src/session_batch.py:814-842 | an error is recorded exactly for a known endpoint, a valid text and a valid clock, and changes that endpoint's error only |
| BatchRuntime.MultiTargetSessionRunner.TransitionToRunning | src/session_batch.py:470-495 | RUNNING is persisted with every error cleared and nothing else changed |
| BatchRuntime.MultiTargetSessionRunner.MarkPendingWork | src/session_batch.py:440-446 | every endpoint that needs work is marked in turn, each by a checkpoint of its own |
| BatchRuntime.MultiTargetSessionRunner.FinalizeFromCurrent | src/session_batch.py:424-468 | it always succeeds: FAILED with the joined errors, COMPLETED when nothing is left to do, or FAILED with the endpoints marked that still need work; and it is the verdict that the machine's theorems are about |
| GoPool.StepKeepsInv | go-banner/main.go:749-807 | every step conserves every port: not fed, queued, held by a worker, delivered or dropped, once each |
| GoPool.StartsWorkers | go-banner/main.go:749-757 | one worker is started for each port, and at most 32; the channels hold as many as there are workers |
| GoPool.ConsumerChoices | go-banner/main.go:796-806 | the sink is called with every outcome until it has failed, and the rest is drained |
| GoPool.EachPortAtMostOnce | go-banner/main.go:749-807 | in every reachable state no closed channel has been used and the sink was called at most once per port |
| GoPool.UncancelledDeliversAll | go-banner/main.go:749-807 | without cancellation the delivered ports are a permutation of the request |
| GoPool.NoCallAfterFailure | go-banner/main.go:796-806 | after the sink has failed it is never called again |
| GoPool.OnlyTheSinkCancels | go-banner/main.go:750-751 | unless the parent cancels, the pool is cancelled only by a failing sink |
| GoPool.NeverStuck | go-banner/main.go:749-807 | until the consumer is done some goroutine can step |
| GoPool.QuiescentExactly | go-banner/main.go:749-807 | a pool that can no longer step by itself is exactly one whose feeder, workers, closer and consumer have all ended |
| GoPool.RunsAreBounded | go-banner/main.go:749-807 | every run has at most five steps per port, one per worker and four more |
| BannerReader.IndexFrom | go-banner/main.go:595 | the first occurrence, or -1 when there is none |
| BannerReader.TerminatorIndex | go-banner/main.go:590-603 | the least position at which any terminator ends, or -1 |
| BannerReader.EarliestEndIsUnique | go-banner/main.go:590-603 | that position is unique |
| BannerReader.Capture | go-banner/main.go:617-632 | one read stops exactly with what the stream determines, or keeps all bytes without a terminator |
| BannerReader.CaptureIsUnique | go-banner/main.go:605-650 | captured bytes and truncation flag are determined by the stream |
| BannerReader.LongestCapture | go-banner/main.go:617-632 | at most 4097 bytes are captured, and more than 4096 exactly when the earliest terminator ends there; the stream is said to be cut exactly when it is longer than 4096 bytes and no terminator ends in time, and then the first 4096 bytes are kept |
| BannerReader.CapturesBeyondTheLimit | go-banner/main.go:617-632 | a concrete stream of which 4097 bytes are captured |
| BannerReader.ReadIncremental | go-banner/main.go:605-650 | however a connection cuts its bytes into reads, captured bytes and flag are those the stream determines; the raw length is what was read up to the first read after which the reader stops; phase and error when it ends without a terminator |
| NativeEvents.NativeEventStream.constructor | src/native_events.py:43-49 | the effective workers of the expectation: the argument, but at least one and at most one for each port |
| NativeEvents.NativeEventStream.Accept | src/native_events.py:73-87 | an event is accepted exactly when the protocol allows it next, and a refused one changes nothing |
| NativeEvents.NativeEventStream.Read | src/native_events.py:63-71 | the reader accepts the longest admissible prefix and fails exactly when the lines are not admissible |
| NativeEvents.NativeEventStream.Finish | src/native_events.py:89-95 | it succeeds exactly for a complete trace |
| NativeEvents.MiddleExactly | src/native_events.py:73-87 | before the end the accepted traces are exactly a start and distinct requested ports counted from 1 |
| NativeEvents.FinishSucceedsExactly | src/native_events.py:73-95 | accepted to the end are exactly the traces of start, each port once with the counter from 1 to n, then end |
| NativeEvents.NativeEventWriter.Emit | go-banner/main.go:228-234 | one event with the next sequence number is appended |
| NativeEvents.EmitRun | go-banner/main.go:878-914 | the events of a run whose sink never failed, each with its port, status and counter |
| NativeEvents.DeliveredTraceIsProtocol | go-banner/main.go:863-914 | the events of a run that delivered a permutation of the ports follow the protocol of the expectation that the Python side builds |
| NativeEvents.SuccessfulRunIsAccepted | go-banner/main.go:863-914 | every event trace of a successful run, for every interleaving of the pool, is accepted to the end by a stream that expects as many workers as there are ports, at most 32 |
| NativeEvents.ReceiveRun | src/bridge_go.py:76-83 | producer and acceptor together: the stream as the Python side builds it reads every event of a successful run and finishes with the whole trace |
| RustBridge.NormalizePorts | src/bridge_rust.py:62-75 | the ascending distinct ports, or the fault |
| RustBridge.Stream | src/bridge_rust.py:391-427 | the loop over the queue stops at the first turn that does not go on; that turn decides the error, and the callback has been called with exactly the ports reported up to there |
| RustBridge.Scan | src/bridge_rust.py:276-459 | the callback gets distinct requested ports however the scan ends, exactly those reported; it returns normally exactly when the stream ended well with a record of every requested port and process and event stream ended well, and then it returns those records in order; which error is raised in every other case, a cancellation exactly when the event is set at the turn that stops the loop or while waiting |
| ExecutorContract.DistinctReports | src/session_runtime.py:884-903 | the reported ports are without repetition exactly when the reporting turns have distinct ports |
| ExecutorContract.BridgeIsHonest | src/bridge_rust.py:276-459 | what the bridge guarantees of the ports its callback gets is exactly what the runner relies on, and with it the phase succeeds exactly when the bridge does with the whole request |
| ExecutorContract.ScanThroughBridge | src/session_runtime.py:906-936 | with the bridge as executor the scan phase ends as the bridge does, whatever the engine sends: success exactly when the stream ended well with every requested port, a cancellation exactly when the bridge was cancelled; the store lacks exactly the ports that were not delivered |

## Left out

- SQLite itself, fsync, file modes, symbolic links, ownership and disk-space checks: transactions, the exclusive link and the replacement of CURRENT are taken to be atomic.
- Event, artifact and metadata tables, audit, recovery, WAL checkpoints and the export bundle of the v2 store: no rule of the session reads them.
- JSON, UTF-8, UUID and ISO-8601 parsing, the list of requested targets, the result fields other than owner, port, protocol, state and banner: records are typed, and `rest` stands for fields no modelled rule looks at.
- Trimming and NUL characters of texts: the constructors trim error texts and refuse NULs; texts in checkpoints are taken as trimmed and without NULs, and `ErrorText` treats the texts of exceptions.
- Result documents under the row of another port: the port of a row and of its document are the same by construction of every write, and only tampering could separate them.
- Failures of the store other than its own refusals: in the machines every commit may fail; in the runner objects a commit fails only when the store refuses it.
- Concurrent callers of one v2 store object outside the runners' locks: the plan cache is written outside the store's lock.
- Callbacks and presenters: `event_callback`, `_emit` and the exceptions they may raise.
- SessionRuntime.SingleTargetSessionRunner.RunScan: the flusher's turns between the return of the executor and its join, and reports between a failed commit of the flusher and the record of its error, are part of the machine `SingleRunner`, not of the object.
- ExecutorContract.ScanThroughBridge: a cancel event that is set between the bridge's own check and the callback; what the callback then does is stated by `Record`.
- StoreV2.SessionStoreV2.Open: databases whose stored fingerprint is not that of the stored plan, or with two rows of one endpoint; the schema forbids the latter and only tampering leads to the former.
- BatchRuntime.MultiTargetSessionRunner.Open: databases that do not load; the runner reports their fault from its first call of `load`.
- BatchQueue.Coordinator.Shutdown: which of the futures that have not started are withdrawn; a worker that starts with the event set may raise at its first look, and either way the resume ends CANCELLED.
- BatchQueue.Coordinator.Resume: exceptions that escape the coordinator (a clock before the creation time, an error that cannot be recorded) and the store calls themselves; the first are a `Crash` of the machine, the second are `BatchRunnerStore` and `BatchRuntime`.
- BannerReader.ReadIncremental: the escape sequences of terminators are decoded before the model.
- NativeEvents.NativeEventStream.Read: the callback of the reader and its exceptions, empty lines and the join timeout.
- RustBridge.Scan: validation of a record's fields beyond its port, diagnostics, and the subprocess itself.
- The v1 store classes on a directory that holds a v2 database: they then read from that database.
- Progress of a v1 store after an orphan generation: only the exact success condition of one call is stated.
- Sockets, TLS, probes, subprocesses, signals and timeouts: nondeterministic steps that return a value.
- Command line, terminal interface, reports, configuration, logging, metrics, benchmarks, release and supply-chain scripts: validation and presentation around the modelled core.
