# Bulk file loading in the Terra data repository, modelled in Dafny

This project models the core of the data repository's bulk file load and
proves properties of the model. The core has these parts:

- **The bulk-load driver** (`IngestDriverStep`). It is one step of a load
  flight and runs a polling loop over the load ledger (one row per file to
  load, in state NOT_TRIED, RUNNING, SUCCEEDED or FAILED). First it resets
  launch orphans: RUNNING rows whose flight the workflow engine (Stairway)
  does not know. Then each turn of the loop:
  - reconciles every RUNNING row with the state of its flight;
  - stops when nothing is running and nothing is left;
  - drains and stops once more loads have failed than allowed;
  - otherwise launches new worker flights, up to a budget of
    `podCount * LOAD_CONCURRENT_FILES` running loads, and waits for one of
    them to finish.
- **The file-ingest worker flight** (`FileIngestWorkerFlight`). It has four
  steps. The model gives the step that reserves the target path
  (`IngestFileDirectoryStep`) and the step that picks the storage bucket
  (`IngestFilePrimaryDataLocationStep`) in full.
- **The file namespace**, as the DAO tests pin it down (`FileDaoTest`). It
  is a store of path-keyed directory entries, file records and dataset
  references. Creating a file makes its missing ancestor directories;
  deleting it removes the directories left empty. References block
  deletion.
- **Small transformers and validators:**
  - checksum lists, the bulk-array size check and the conversion of a
    file-system item to its API model (`FileService`);
  - label sanitising and validation (`LabelUtils`);
  - project and bucket name derivation (`OneProjectPerProfileIdSelector`);
  - case-insensitive lookup of configuration constants (`ConfigEnum`);
  - row-key namespacing and the column-type mapping of the search index
    (`IndexDataStep`);
  - budget amounts and filters (`BudgetUtils`);
  - the pod-count check of a test configuration (`KubernetesSpecification`).

Each source file becomes one module or more:

- The driver is the class `IngestDriver.IngestDriverStep`. It works over a
  `Loads.LoadLedger` (the ledger rows as a `seq`) and an
  `Engine.Environment`. The environment stands for Stairway, the Kubernetes
  pod count and the clock. It holds the known flights, the queue and a
  finite trace of ticks: each sleep consumes one tick and applies that
  tick's status changes. The methods are proved against specification
  functions: `Reconcile`, `ResetOrphans`, `MarkRunning`, `FindCandidates`
  and `Count`. The lemmas beside those functions state what the driver
  promises about counts, orphans and its exits. The waits and the passes
  of the load loop are proved against `WaitAnyRun`, `WaitAllRun` and
  `TurnRel`. These relate what the driver observes (`Observed`: the
  ledger, the flights, the submissions, the pod count, the queue and the
  ticks left) before and after.
- The worker steps are classes over a `FileStores.FileStore` and a
  `WorkingMaps.WorkingMap` (the flight's working map: FILE_ID,
  LOAD_COMPLETED, BUCKET_INFO and PROFILE_MODEL).
  `WorkerScenarios` runs them through first loads, retries, recoveries and
  re-runs.
- The namespace is the function layer `Namespace` (creation, pruning, tree
  and id invariants), with the store class `FileStores.FileStore` on top.
  `FileDaoScenarios` replays each DAO test against the store.
  `Paths` holds `getDirectoryPath` and `getName`.
- The pure transformers are functions with lemmas: `FileService`,
  `LabelUtils`, `ProjectSelector`, `Config`, `IndexData`, `Budget` and
  `Kubernetes`.

Some behaviour of the code that the model keeps as written:

- **The drain test.** The driver drains when `maxFailedFileLoads != -1`
  and the failure count exceeds it. Any negative limit other than -1
  therefore drains at the first pass that finds a load to wait for.
- **The launch count.** It is computed only when the running count is
  below the budget, so the code never takes `budget - running` when that
  is negative.
- **Waiting.** waitForAny polls before it sleeps. It keeps polling until
  fewer loads run than just after the launch. waitForAll sleeps before each
  poll.
- **Undo after adopting an id.** The directory step's undo deletes the
  entry of whatever FILE_ID holds at that point. After adopting an earlier
  run's id, that is the earlier run's entry.
- **Blocked deletes.** A dataset reference blocks `deleteFileStart` with a
  dependency error naming "dataset". A reference added after the delete
  started makes `deleteFileComplete` fail as corrupt ("any references").
- **Label length.** sanitizeLabel cuts a label longer than 63 characters
  to its first 62, although its comment speaks of 63 characters.

## Model

| member | source | states |
|---|---|---|
| IngestDriver.ClassifySwitch | src/main/java/bio/terra/service/filedata/flight/ingest/IngestDriverStep.java:206-245 | The flight-status switch, each case both ways. RUNNING, WAITING, READY and QUEUED keep the load running. ERROR and FATAL fail it, with the flight's exception text or "unknown error". SUCCESS with a result map succeeds with that map's file id and file info. SUCCESS without a result map throws FileSystemCorruptException "no result map in flight state". Any other status throws CorruptMetadataException "Invalid flight state: …". |
| IngestDriver.Recorded | src/main/java/bio/terra/service/filedata/flight/ingest/IngestDriverStep.java:218-240 | Reconciliation writes only into RUNNING rows, and what it writes is FAILED or SUCCEEDED. |
| IngestDriver.Reconcile | src/main/java/bio/terra/service/filedata/flight/ingest/IngestDriverStep.java:206-245 | The reconciled ledger has the same rows in the same places. Each row carries what its flight's verdict records. |
| IngestDriver.ReconcileByPass | src/main/java/bio/terra/service/filedata/flight/ingest/IngestDriverStep.java:206-245 | The loop over the RUNNING rows, writing each row's verdict in turn, produces exactly `Reconcile`. |
| IngestDriver.BlockingError | src/main/java/bio/terra/service/filedata/flight/ingest/IngestDriverStep.java:207-243 | A row whose reconciliation throws makes the whole ledger unreconcilable. The exception is one of FlightNotFound, FileSystemCorrupt and CorruptMetadata. |
| IngestDriver.RunningLoadBlocks | src/main/java/bio/terra/service/filedata/flight/ingest/IngestDriverStep.java:206-245 | A RUNNING load that throws is a row of the ledger, so the ledger is unreconcilable. |
| IngestDriver.KeptUpTo | src/main/java/bio/terra/service/filedata/flight/ingest/IngestDriverStep.java:204-216 | The still-running list built from a prefix of the loads is no longer than that prefix. |
| IngestDriver.NoneThrowAll | src/main/java/bio/terra/service/filedata/flight/ingest/IngestDriverStep.java:206-245 | If a prefix of the loads reconciles, no load in that prefix throws. |
| IngestDriver.NoneThrowPrefix | src/main/java/bio/terra/service/filedata/flight/ingest/IngestDriverStep.java:206-245 | A load that throws stops every longer prefix from reconciling. |
| IngestDriver.ReconcileStep | src/main/java/bio/terra/service/filedata/flight/ingest/IngestDriverStep.java:206-245 | One loop turn: the load joins realRunningLoads if and only if it is still running. failureCount grows by one if and only if the flight failed. The turn writes the load's row. |
| IngestDriver.ReconciledRowRunning | src/main/java/bio/terra/service/filedata/flight/ingest/IngestDriverStep.java:210-216 | A reconciled row is RUNNING if and only if it was RUNNING and its flight has not finished. |
| IngestDriver.ReconciledRowFailed | src/main/java/bio/terra/service/filedata/flight/ingest/IngestDriverStep.java:218-228 | A reconciled row is FAILED if and only if it was FAILED already or its flight failed. |
| IngestDriver.ReconcileCountsRunning | src/main/java/bio/terra/service/filedata/flight/ingest/IngestDriverStep.java:206-247 | After reconciliation the RUNNING count equals the size of realRunningLoads. |
| IngestDriver.ReconcileCountsNotTried | src/main/java/bio/terra/service/filedata/flight/ingest/IngestDriverStep.java:206-245 | Reconciliation leaves the number of NOT_TRIED rows unchanged. |
| IngestDriver.ReconcileCountsFailed | src/main/java/bio/terra/service/filedata/flight/ingest/IngestDriverStep.java:203-247 | After reconciliation the FAILED count is the ledger's earlier failure count plus the number of ERROR or FATAL flights seen. |
| IngestDriver.RunningReconcilable | src/main/java/bio/terra/service/filedata/flight/ingest/IngestDriverStep.java:206-245 | If no RUNNING load, taken in order, throws, the ledger can be reconciled. |
| IngestDriver.ReconcileSummary | src/main/java/bio/terra/service/filedata/flight/ingest/IngestDriverStep.java:189-254 | What getLoadCandidates leaves behind. The RUNNING count is the number still running and never grows. The FAILED count adds the new failures. The NOT_TRIED count is unchanged. No orphan remains. The candidates are distinct NOT_TRIED rows of the reconciled ledger. |
| IngestDriver.ReconcileKeeps | src/main/java/bio/terra/service/filedata/flight/ingest/IngestDriverStep.java:189-254 | Reconciliation keeps every NOT_TRIED row and leaves no orphan. |
| IngestDriver.ResetOrphans | src/main/java/bio/terra/service/filedata/flight/ingest/IngestDriverStep.java:173-187 | Exactly the RUNNING rows whose flight Stairway does not know go back to NOT_TRIED. Every other row is untouched, and no orphan is left. |
| IngestDriver.ResetByPass | src/main/java/bio/terra/service/filedata/flight/ingest/IngestDriverStep.java:178-186 | The loop over the RUNNING rows, resetting each orphan, produces exactly `ResetOrphans`. |
| IngestDriver.OrphanStep | src/main/java/bio/terra/service/filedata/flight/ingest/IngestDriverStep.java:179-186 | One turn of the orphan loop writes only the current load's row. |
| IngestDriver.MarkRunning | src/main/java/bio/terra/service/filedata/flight/ingest/IngestDriverStep.java:284 | Marking loads RUNNING keeps the ledger's length and every row's key. |
| IngestDriver.MarkRunningSnoc | src/main/java/bio/terra/service/filedata/flight/ingest/IngestDriverStep.java:266-291 | One more submission marks its own row RUNNING with its flight id. |
| IngestDriver.MarkRunningUntouched | src/main/java/bio/terra/service/filedata/flight/ingest/IngestDriverStep.java:266-291 | A row that no submission names is left as it was. |
| IngestDriver.LastLaunched | src/main/java/bio/terra/service/filedata/flight/ingest/IngestDriverStep.java:266-291 | The last submission of a launch names a NOT_TRIED row that the earlier submissions left alone. |
| IngestDriver.MarkRunningCounts | src/main/java/bio/terra/service/filedata/flight/ingest/IngestDriverStep.java:266-291 | Submissions for distinct NOT_TRIED rows move exactly that many rows from NOT_TRIED to RUNNING. All other counts stay. |
| IngestDriver.MarkRunningNoOrphans | src/main/java/bio/terra/service/filedata/flight/ingest/IngestDriverStep.java:284-290 | Rows marked RUNNING whose flights were submitted are not orphans. |
| IngestDriver.LaunchedCounts | src/main/java/bio/terra/service/filedata/flight/ingest/IngestDriverStep.java:266-291 | Launching the first n candidates raises RUNNING by n and lowers NOT_TRIED by n. FAILED stays. |
| IngestDriver.LaunchSummary | src/main/java/bio/terra/service/filedata/flight/ingest/IngestDriverStep.java:256-292 | A complete launch moves the counts by the number launched and leaves no orphan behind. |
| IngestDriver.LaunchOrphan | src/main/java/bio/terra/service/filedata/flight/ingest/IngestDriverStep.java:284-290 | A row marked RUNNING whose submission then failed is an orphan. This is the window that checkForOrphans repairs. |
| IngestDriver.LaunchCount | src/main/java/bio/terra/service/filedata/flight/ingest/IngestDriverStep.java:111-127 | The launch count never exceeds the candidate count. Below the budget, it fills the budget or takes every candidate, and never takes running loads above the budget. At or above the budget it is 0. |
| IngestDriver.IngestDriverStep.constructor | src/main/java/bio/terra/service/filedata/flight/ingest/IngestDriverStep.java:57-73 | Stores the step's parameters. |
| IngestDriver.IngestDriverStep.UndoStep | src/main/java/bio/terra/service/filedata/flight/ingest/IngestDriverStep.java:138-141 | Undo always succeeds and changes nothing. |
| IngestDriver.IngestDriverStep.CheckForOrphans | src/main/java/bio/terra/service/filedata/flight/ingest/IngestDriverStep.java:173-187 | The new ledger is `ResetOrphans` of the old one. |
| IngestDriver.IngestDriverStep.ResetIfOrphan | src/main/java/bio/terra/service/filedata/flight/ingest/IngestDriverStep.java:179-186 | One turn: a load whose flight is unknown is set to NOT_TRIED, and nothing else changes. |
| IngestDriver.IngestDriverStep.LaunchOne | src/main/java/bio/terra/service/filedata/flight/ingest/IngestDriverStep.java:267-290 | Draws a flight id that no flight has. Marks the row RUNNING with it before submitting. When the queue accepts, the flight is QUEUED with the load's inputs; otherwise nothing is submitted. |
| IngestDriver.IngestDriverStep.LaunchLoads | src/main/java/bio/terra/service/filedata/flight/ingest/IngestDriverStep.java:256-292 | Submits the first launchCount candidates, in order, each under a fresh flight id with its FileLoadModel. On success the ledger is `MarkRunning` of those submissions and the counts move by launchCount. A failed submission leaves an orphan. |
| IngestDriver.IngestDriverStep.LaunchEach | src/main/java/bio/terra/service/filedata/flight/ingest/IngestDriverStep.java:266-291 | The loop of launchLoads, with the same contract on submissions and rows. |
| IngestDriver.IngestDriverStep.ReconcileLoad | src/main/java/bio/terra/service/filedata/flight/ingest/IngestDriverStep.java:207-244 | One pass of the switch. It succeeds if and only if the load does not throw. It returns the flight's verdict and writes what `Recorded` says. |
| IngestDriver.IngestDriverStep.ReconcileEach | src/main/java/bio/terra/service/filedata/flight/ingest/IngestDriverStep.java:206-247 | The reconciliation loop. It succeeds if and only if no load throws, and then returns realRunningLoads and the failure count. Otherwise it returns the exception of a load that throws. |
| IngestDriver.IngestDriverStep.GetLoadCandidates | src/main/java/bio/terra/service/filedata/flight/ingest/IngestDriverStep.java:189-254 | It succeeds if and only if the ledger is reconcilable, and the ledger becomes `Reconcile` of the old one. The running list holds the loads still running. The candidates are the first n NOT_TRIED rows. The failure count is the old FAILED count plus the new failures. The counts agree with the new ledger, and no orphan remains. Otherwise it returns the exception of a blocking row. |
| IngestDriver.IngestDriverStep.WaitForAny | src/main/java/bio/terra/service/filedata/flight/ingest/IngestDriverStep.java:143-155 | Its outcome and final state are those of `WaitAnyRun` from the state it starts in: poll, wake at the first poll that sees fewer than originallyRunning loads, otherwise sleep one tick and poll again. It stops with the poll's corrupt-state exception, or when the trace ends. It keeps orphans out and the NOT_TRIED count fixed. |
| IngestDriver.IngestDriverStep.WaitForAll | src/main/java/bio/terra/service/filedata/flight/ingest/IngestDriverStep.java:157-166 | Its outcome and final state are those of `WaitAllRun`: sleep one tick, then poll, until a poll sees no load running. It wakes only when nothing is running. |
| IngestDriver.IngestDriverStep.LoadLoopTurn | src/main/java/bio/terra/service/filedata/flight/ingest/IngestDriverStep.java:90-131 | One pass of the load loop is `TurnRel`. A throwing poll ends the step. With nothing running and no candidate the step ends with success, after only the poll. Past the failure threshold nothing is submitted, the driver waits for all loads and ends drained, unfinished or with the wait's exception. Otherwise exactly LaunchCount flights are submitted, for the first candidates in order, unless a submission fails. A pass that goes on leaves fewer loads pending, the loop's termination measure. |
| IngestDriver.IngestDriverStep.LaunchAndWait | src/main/java/bio/terra/service/filedata/flight/ingest/IngestDriverStep.java:110-130 | Appends its submissions to the engine's. There are exactly LaunchCount of them unless a submission fails, which ends the step with FAILURE_RETRY. Each one carries the inputs of the candidate in the same position. The loop goes on only once fewer loads run than right after the launch. |
| IngestDriver.IngestDriverStep.DoStep | src/main/java/bio/terra/service/filedata/flight/ingest/IngestDriverStep.java:76-136 | A normal exit leaves nothing RUNNING, and nothing NOT_TRIED unless the budget is not positive. A drained exit means maxFailedFileLoads is not -1 and is exceeded, with nothing RUNNING. Success leaves no orphan. FAILURE_RETRY comes only from a failed submission and leaves an orphan. A thrown error is a corrupt-state exception. The pass that ends the step is `TurnRel` from what the driver observed at its start, with the step's outcome. That observation has no orphan. |
| IngestDriver.IngestDriverStep.DrainLoads | src/main/java/bio/terra/service/filedata/flight/ingest/IngestDriverStep.java:104-108 | The drain submits nothing and waits for all loads (`DrainTurn`). It ends drained with nothing running, or with the wait's exception, or unfinished. |
| IngestDriver.IngestDriverStep.TurnExitsNormally | src/main/java/bio/terra/service/filedata/flight/ingest/IngestDriverStep.java:97-102 | A pass ends the step with plain success if and only if its poll succeeds and finds no load running and no candidate. |
| IngestDriver.IngestDriverStep.TurnDrains | src/main/java/bio/terra/service/filedata/flight/ingest/IngestDriverStep.java:104-108 | Past the failure threshold a pass submits nothing and ends the step. A drained end happens only past the threshold, with nothing left running. |
| IngestDriver.IngestDriverStep.TurnLaunches | src/main/java/bio/terra/service/filedata/flight/ingest/IngestDriverStep.java:110-127 | A pass that does not end the step polled successfully and submitted exactly LaunchCount flights, for the first candidates in order, keeping the earlier submissions. Afterwards fewer loads run than the running count plus that launch count. |
| IngestDriver.WaitAnyRunShape | src/main/java/bio/terra/service/filedata/flight/ingest/IngestDriverStep.java:143-155 | waitForAny submits nothing and consumes ticks from the front of the trace. It wakes only when fewer than originallyRunning loads run. It gives up only with the trace ended and that many loads still running. It stops only on an unreconcilable ledger. |
| IngestDriver.WaitAnyRunFrame | src/main/java/bio/terra/service/filedata/flight/ingest/IngestDriverStep.java:143-155 | waitForAny submits nothing, consumes ticks only from the front of the trace, and forgets no flight. |
| IngestDriver.WaitAnyRunEnds | src/main/java/bio/terra/service/filedata/flight/ingest/IngestDriverStep.java:143-155 | waitForAny wakes only with fewer than originallyRunning loads running. It ends with the trace empty only when that many or more still run. It stops only on an unreconcilable ledger. |
| IngestDriver.WaitAnyPollsFirst | src/main/java/bio/terra/service/filedata/flight/ingest/IngestDriverStep.java:146-150 | When the first poll already sees fewer than originallyRunning loads running, waitForAny wakes at once without consuming a tick. |
| IngestDriver.WaitAllRunShape | src/main/java/bio/terra/service/filedata/flight/ingest/IngestDriverStep.java:157-166 | waitForAll submits nothing and consumes ticks from the front of the trace. It wakes only once nothing is running and after at least one sleep. |
| Loads.RunningLoads | src/main/java/bio/terra/service/filedata/flight/ingest/IngestDriverStep.java:178 | findRunningLoads returns exactly the RUNNING rows, as many as the RUNNING count. |
| Loads.NotTriedLoads | src/main/java/bio/terra/service/filedata/flight/ingest/IngestDriverStep.java:197 | Exactly the NOT_TRIED rows, as many as the NOT_TRIED count. |
| Loads.FindCandidates | src/main/java/bio/terra/service/filedata/flight/ingest/IngestDriverStep.java:197 | findCandidates(n) returns the RUNNING rows and the FAILED count. Its candidates are min(n, NOT_TRIED) distinct NOT_TRIED rows, and none when n ≤ 0. |
| Loads.SetState | src/main/java/bio/terra/service/filedata/flight/ingest/IngestDriverStep.java:284 | Rewrites only the row with the given target path. |
| Loads.CountSetState | src/main/java/bio/terra/service/filedata/flight/ingest/IngestDriverStep.java:225-238 | Giving a row a new state moves exactly one row from its old state's count to the new one's. |
| Loads.DistinctNotTried | src/main/java/bio/terra/service/filedata/flight/ingest/IngestDriverStep.java:197 | The NOT_TRIED rows of a keyed ledger are keyed too. |
| Loads.ApplyEachPointwise | src/main/java/bio/terra/service/filedata/flight/ingest/IngestDriverStep.java:206-245 | A pass over loads taken from the ledger updates each of their rows once and leaves every other row alone. |
| Loads.ApplyEachRunning | src/main/java/bio/terra/service/filedata/flight/ingest/IngestDriverStep.java:179-186 | A pass over the RUNNING rows, with an update that writes nothing elsewhere, updates the table row by row. |
| Loads.LoadLedger.constructor | src/main/java/bio/terra/service/filedata/flight/ingest/IngestDriverStep.java:197 | A ledger over keyed rows. |
| Loads.LoadLedger.SetLoadFileState | src/main/java/bio/terra/service/filedata/flight/ingest/IngestDriverStep.java:184 | setLoadFileNotTried, setLoadFileRunning, setLoadFileFailed and setLoadFileSucceeded each rewrite one row, as `SetState` says. |
| Engine.Advance | src/main/java/bio/terra/service/filedata/flight/ingest/IngestDriverStep.java:168-171 | While the driver sleeps, only flights already known change state. |
| Engine.Environment.constructor | src/main/java/bio/terra/service/filedata/flight/ingest/IngestDriverStep.java:91-92 | An engine whose known flight ids were all issued before the next one. |
| Engine.Environment.GetFlightState | src/main/java/bio/terra/service/filedata/flight/ingest/IngestDriverStep.java:181 | The state of a known flight. An unknown id is FlightNotFoundException (None). |
| Engine.Environment.CreateFlightId | src/main/java/bio/terra/service/filedata/flight/ingest/IngestDriverStep.java:268 | An id that no flight has. |
| Engine.Environment.SubmitToQueue | src/main/java/bio/terra/service/filedata/flight/ingest/IngestDriverStep.java:290 | Succeeds if and only if the queue accepts and the id is new. The flight is then QUEUED and recorded with its inputs. Otherwise nothing changes (StairwayExecutionException). |
| Engine.Environment.Sleep | src/main/java/bio/terra/service/filedata/flight/ingest/IngestDriverStep.java:168-171 | One wait consumes one tick and applies its status changes and pod count. It reports when the trace has ended. |
| DirectoryStep.IngestFileDirectoryStep.constructor | src/main/java/bio/terra/service/filedata/flight/ingest/IngestFileDirectoryStep.java:38-47 | The step over one directory store. |
| DirectoryStep.IngestFileDirectoryStep.DoStep | src/main/java/bio/terra/service/filedata/flight/ingest/IngestFileDirectoryStep.java:38-102 | LOAD_COMPLETED is false before any case. With no entry at the path, the entry with FILE_ID and the load tag is created, with its missing directories. An entry of another load throws "Path already exists: <path>", and the store and FILE_ID stay. Our own entry changes nothing. An entry of our load with a different id makes FILE_ID that id, with LOAD_COMPLETED true if and only if its file record exists. An aborted transaction asks for a retry. A success leaves the path holding FILE_ID with our load tag. |
| DirectoryStep.IngestFileDirectoryStep.UndoStep | src/main/java/bio/terra/service/filedata/flight/ingest/IngestFileDirectoryStep.java:104-114 | Deletes the entry holding the current FILE_ID (the adopted id after a re-run) and prunes its emptied directories. An aborted transaction asks for a retry and nothing changes. |
| PrimaryLocationStep.ResourceService.constructor | src/main/java/bio/terra/service/filedata/flight/ingest/IngestFilePrimaryDataLocationStep.java:40-52 | A resource service with no requests yet. |
| PrimaryLocationStep.ResourceService.GetOrCreateBucketForFile | src/main/java/bio/terra/service/filedata/flight/ingest/IngestFilePrimaryDataLocationStep.java:40-55 | Records the request. It gives the bucket found or created, or BucketLockException. |
| PrimaryLocationStep.ResourceService.UpdateBucketMetadata | src/main/java/bio/terra/service/filedata/flight/ingest/IngestFilePrimaryDataLocationStep.java:65-70 | Records the update and creates or deletes no bucket. |
| PrimaryLocationStep.IngestFilePrimaryDataLocationStep.constructor | src/main/java/bio/terra/service/filedata/flight/ingest/IngestFilePrimaryDataLocationStep.java:31-38 | The step for one dataset and resource service. |
| PrimaryLocationStep.IngestFilePrimaryDataLocationStep.DoStep | src/main/java/bio/terra/service/filedata/flight/ingest/IngestFilePrimaryDataLocationStep.java:31-58 | With LOAD_COMPLETED true, no bucket is asked for and nothing is written. Otherwise, including a missing LOAD_COMPLETED, BUCKET_INFO is the bucket for (dataset, PROFILE_MODEL, this flight). A BucketLockException asks for a retry and leaves BUCKET_INFO as it was. No bucket is ever removed: the service's buckets gain the answered bucket, and stay as they were on a lock failure or a completed load. |
| PrimaryLocationStep.IngestFilePrimaryDataLocationStep.UndoStep | src/main/java/bio/terra/service/filedata/flight/ingest/IngestFilePrimaryDataLocationStep.java:60-71 | Always succeeds. It updates the bucket metadata whatever LOAD_COMPLETED says, and deletes no bucket. |
| WorkingMaps.WorkingMap.constructor | src/main/java/bio/terra/service/filedata/flight/ingest/IngestFilePrimaryDataLocationStep.java:33-34 | A flight's working map starts without any of its keys. |
| WorkingMaps.WorkingMap.Completed | src/main/java/bio/terra/service/filedata/flight/ingest/IngestFilePrimaryDataLocationStep.java:33-34 | LOAD_COMPLETED as a flag, true if and only if it holds true; a missing value reads as false. |
| WorkerFlight.IndexOf | src/main/java/bio/terra/service/filedata/flight/ingest/FileIngestWorkerFlight.java:63-66 | The position of the first step of a kind in the plan. |
| WorkerFlight.FileIngestWorkerFlight.constructor | src/main/java/bio/terra/service/filedata/flight/ingest/FileIngestWorkerFlight.java:31-67 | Builds the worker plan. |
| WorkerFlight.FileIngestWorkerFlight.AddStep | src/main/java/bio/terra/service/filedata/flight/ingest/FileIngestWorkerFlight.java:63-66 | Appends one step, with its retry rule. |
| WorkerFlight.PlanOrder | src/main/java/bio/terra/service/filedata/flight/ingest/FileIngestWorkerFlight.java:50-66 | Four steps, each kind once. The file id comes before the directory entry, which its undo needs. The path is reserved before the data copy. The file record that makes the file visible comes last. |
| WorkerFlight.PlanRetries | src/main/java/bio/terra/service/filedata/flight/ingest/FileIngestWorkerFlight.java:48-66 | Exactly the directory and file steps carry the random-backoff retry rule, both with maxStairwayThreads. |
| WorkerFlight.IngestFileId | src/main/java/bio/terra/service/filedata/flight/ingest/FileIngestWorkerFlight.java:51-53 | FILE_ID gets a new id that no entry holds. |
| WorkerScenarios.ReserveAlone | src/main/java/bio/terra/service/filedata/flight/ingest/IngestFileDirectoryStep.java:66-76 | The first flight in an empty store takes the first id. It reserves the path and the directories above it, with LOAD_COMPLETED false. |
| WorkerScenarios.ReserveFirst | src/main/java/bio/terra/service/filedata/flight/ingest/IngestFileDirectoryStep.java:66-76 | The directory step of that first flight. |
| WorkerScenarios.FirstLoadCompletes | src/main/java/bio/terra/service/filedata/flight/ingest/FileIngestWorkerFlight.java:54-62 | A reserved path holds an ingesting file until the file record turns it into a file under the same id. |
| WorkerScenarios.AbortThenRetry | src/main/java/bio/terra/service/filedata/flight/ingest/IngestFileDirectoryStep.java:97-99 | An aborted creation asks for a retry and reserves nothing. The retried step reserves the path. |
| WorkerScenarios.RecoveryResumes | src/main/java/bio/terra/service/filedata/flight/ingest/IngestFileDirectoryStep.java:83-84 | Re-running the step of the same flight finds its own entry and changes nothing. |
| WorkerScenarios.SecondFlight | src/main/java/bio/terra/service/filedata/flight/ingest/IngestFileDirectoryStep.java:84-94 | A second flight of the same load adopts the first flight's id, leaves the store unchanged, and sets LOAD_COMPLETED to whether that file is complete. |
| WorkerScenarios.RerunAfterCompletion | src/main/java/bio/terra/service/filedata/flight/ingest/IngestFileDirectoryStep.java:84-94 | After a completed load, a re-run adopts the id and marks itself completed. Its location step asks for no bucket. |
| WorkerScenarios.RerunAfterCrash | src/main/java/bio/terra/service/filedata/flight/ingest/IngestFileDirectoryStep.java:104-114 | After a crash, a re-run adopts the id and is not completed. Undoing its directory step deletes the first flight's entry and the directories made for it. |
| WorkerScenarios.UndoAdopted | src/main/java/bio/terra/service/filedata/flight/ingest/IngestFileDirectoryStep.java:104-114 | Undo in a flight that adopted the only file's id empties the store. |
| WorkerScenarios.OtherLoadRefused | src/main/java/bio/terra/service/filedata/flight/ingest/IngestFileDirectoryStep.java:78-81 | A load with another tag gets FileAlreadyExistsException and the first load's entry stays. |
| Paths.LastSlash | src/test/java/bio/terra/filesystem/FileDaoTest.java:111-120 | The position of the last '/', or none if there is no '/'. |
| Paths.GetDirectoryPath | src/test/java/bio/terra/filesystem/FileDaoTest.java:111-120 | A directory path is shorter than its path. |
| Paths.GetName | src/test/java/bio/terra/filesystem/FileDaoTest.java:111-120 | getName: the text after the last '/'. SplitJoin and JoinSplit state that it and getDirectoryPath split a path in two. |
| Paths.SplitJoin | src/main/java/bio/terra/service/filedata/flight/ingest/IngestFileDirectoryStep.java:72-73 | The entry's directory path and name join back to the target path. |
| Paths.JoinSplit | src/main/java/bio/terra/service/filedata/flight/ingest/IngestFileDirectoryStep.java:72-73 | Joining a directory path and a name, then splitting, gives both back. |
| Paths.ParentOfValid | src/test/java/bio/terra/filesystem/FileDaoTest.java:111-120 | The directory path of a valid path is the root sentinel "" or a shorter valid path, and its name is a valid leaf. |
| Paths.Ancestors | src/test/java/bio/terra/filesystem/FileDaoTest.java:174-180 | The ancestors of a path are valid paths shorter than it. |
| Paths.AncestorsChain | src/test/java/bio/terra/filesystem/FileDaoTest.java:174-180 | The ancestors run from a top-level directory down to the path's directory path, each the directory path of the next. |
| Paths.AncestorsOfParent | src/test/java/bio/terra/filesystem/FileDaoTest.java:174-180 | A path's ancestors are its directory path's ancestors plus that directory path. |
| Paths.DirectoryPathExamples | src/test/java/bio/terra/filesystem/FileDaoTest.java:111-120 | getDirectoryPath gives "/foo/bar" for "/foo/bar/fribble", gives "/foo" for "/foo/bar", and gives "" for "/foo". |
| Namespace.PruneRemovesOnlyAbove | src/test/java/bio/terra/filesystem/FileDaoTest.java:211-218 | The empty-directory sweep removes only directories at or above its start and keeps the others' entries. |
| Namespace.Prune | src/test/java/bio/terra/filesystem/FileDaoTest.java:211-218 | Removing the empty directories at and above a path. PruneRemovesOnlyAbove and PruneTree state what it removes and keeps. |
| Namespace.RemoveEntry | src/test/java/bio/terra/filesystem/FileDaoTest.java:211-218 | The delete: remove the entry, then prune above it. RemoveLeafTree and RemoveOnlyFile state its effect. |
| Namespace.RemoveLeafTree | src/test/java/bio/terra/filesystem/FileDaoTest.java:211-218 | Removing an entry with nothing below keeps the namespace a tree. |
| Namespace.PruneTree | src/test/java/bio/terra/filesystem/FileDaoTest.java:211-218 | The sweep keeps the namespace a tree. |
| Namespace.FileRefIsLeaf | src/test/java/bio/terra/filesystem/FileDaoTest.java:174-180 | A file has nothing below it. |
| Namespace.RemoveFileRef | src/test/java/bio/terra/filesystem/FileDaoTest.java:211-218 | Deleting a file keeps a tree. It removes the file and only directories above it, and leaves everything else as it was. |
| Namespace.RemoveWithSibling | src/test/java/bio/terra/filesystem/FileDaoTest.java:251-261 | Deleting one of two files in a directory removes that file alone. |
| Namespace.AncestorsAreChain | src/test/java/bio/terra/filesystem/FileDaoTest.java:174-180 | The ancestors are a chain of directories ending at the directory path. |
| Namespace.AddDirsShape | src/test/java/bio/terra/filesystem/FileDaoTest.java:174-180 | Making ancestors adds exactly the missing ones, as directories with fresh ids, and keeps every existing entry. |
| Namespace.AddLeafTree | src/test/java/bio/terra/filesystem/FileDaoTest.java:174-180 | A new entry below a present parent keeps a tree. |
| Namespace.AddDirsTree | src/test/java/bio/terra/filesystem/FileDaoTest.java:174-180 | Making a chain of directories keeps a tree and leaves every path of the chain a directory. |
| Namespace.FileAncestor | src/test/java/bio/terra/filesystem/FileDaoTest.java:174-180 | Finds an ancestor that is a file, or reports that every present ancestor is a directory. |
| Namespace.CreateEntryFails | src/test/java/bio/terra/filesystem/FileDaoTest.java:174-180 | Creation fails if and only if the path exists or an ancestor is a file. |
| Namespace.CreateEntry | src/test/java/bio/terra/filesystem/FileDaoTest.java:174-180 | The create: fail if the path exists or an ancestor is a file, otherwise add the missing ancestor directories and the entry. CreateEntryFails, CreateEntryTree and CreateEntryKeys state its contract. |
| Namespace.CreateEntryTree | src/test/java/bio/terra/filesystem/FileDaoTest.java:174-180 | Creation keeps a tree, with the entry at its path and DIRECTORY at every ancestor. |
| Namespace.CreateEntryKeys | src/test/java/bio/terra/filesystem/FileDaoTest.java:174-180 | Creation changes nothing that was there. It adds only the path and its missing ancestors, with fresh ids. |
| Namespace.PathChainIsChain | src/test/java/bio/terra/filesystem/FileDaoTest.java:390-419 | A path and its ancestors form a chain. |
| Namespace.ChainLengths | src/test/java/bio/terra/filesystem/FileDaoTest.java:390-419 | Paths down a chain grow strictly longer, so they are distinct. |
| Namespace.CreateAlone | src/test/java/bio/terra/filesystem/FileDaoTest.java:174-180 | In an empty namespace creation succeeds and makes exactly the path and its ancestors, each ancestor a directory. |
| Namespace.ChainRootChildren | src/test/java/bio/terra/filesystem/FileDaoTest.java:390-395 | The root lists exactly one child, the top of the chain. |
| Namespace.ChainInnerChildren | src/test/java/bio/terra/filesystem/FileDaoTest.java:397-411 | Each inner directory lists exactly one child, the next path down. |
| Namespace.ChainLastChildren | src/test/java/bio/terra/filesystem/FileDaoTest.java:413-419 | The last path lists nothing. |
| Namespace.ListingAlone | src/test/java/bio/terra/filesystem/FileDaoTest.java:390-419 | With one file, the root and each ancestor list exactly the next path down and are directories, and the file has no children. |
| Namespace.PruneChain | src/test/java/bio/terra/filesystem/FileDaoTest.java:214-218 | Sweeping up a chain of empty directories removes them all. |
| Namespace.ChainDropLast | src/test/java/bio/terra/filesystem/FileDaoTest.java:214-218 | Dropping the last path of a chain leaves the rest of the chain. |
| Namespace.CreatedIsAlone | src/test/java/bio/terra/filesystem/FileDaoTest.java:174-180 | A file created in an empty namespace is alone with its directories. |
| Namespace.RemoveOnlyFile | src/test/java/bio/terra/filesystem/FileDaoTest.java:211-218 | Deleting the only file removes every directory above it, leaving the namespace empty. |
| Namespace.CreateThenRemoveAlone | src/test/java/bio/terra/filesystem/FileDaoTest.java:174-218 | Creating a file in an empty namespace and deleting it leaves the namespace empty. |
| Namespace.SiblingAncestors | src/test/java/bio/terra/filesystem/FileDaoTest.java:239-243 | Two files in one directory share their ancestors, and neither is an ancestor of the other. |
| Namespace.CreateSibling | src/test/java/bio/terra/filesystem/FileDaoTest.java:239-243 | A second file in the first file's directory adds only itself. |
| Namespace.RemoveSibling | src/test/java/bio/terra/filesystem/FileDaoTest.java:251-261 | Deleting one of two sibling files leaves the other alone with the directories. |
| Namespace.AddDirsFresh | src/test/java/bio/terra/filesystem/FileDaoTest.java:174-180 | Directories that take ids from the counter keep ids unique and below the counter. |
| Namespace.CreateKeepsIdsFresh | src/test/java/bio/terra/filesystem/FileDaoTest.java:174-180 | Creating an entry with an unused id keeps ids unique and below the counter. |
| Namespace.PutFreshId | src/test/java/bio/terra/filesystem/FileDaoTest.java:174-180 | One new entry with an unused id keeps ids unique. |
| FileStores.FileStore.constructor | src/test/java/bio/terra/filesystem/FileDaoTest.java:98-109 | A fresh dataset's store: no entries, records or references, and ids fresh. |
| FileStores.FileStore.TypeOf | src/test/java/bio/terra/filesystem/FileDaoTest.java:146-154 | DIRECTORY if and only if a directory entry. FILE if and only if a file entry whose record exists. INGESTING_FILE otherwise. |
| FileStores.FileStore.LookupByPath | src/main/java/bio/terra/service/filedata/flight/ingest/IngestFileDirectoryStep.java:66 | The entry at the path, or none if and only if the path is absent. |
| FileStores.FileStore.RetrieveByPath | src/test/java/bio/terra/filesystem/FileDaoTest.java:382-388 | A missing path raises not-found "Object not found". Otherwise the object there, with its id and type. |
| FileStores.FileStore.FindById | src/test/java/bio/terra/filesystem/FileDaoTest.java:378-380 | The path holding an id, or none if and only if no entry has it. With unique ids it is that path. |
| FileStores.FileStore.RetrieveById | src/test/java/bio/terra/filesystem/FileDaoTest.java:378-380 | Finds by id exactly what lookup by path finds, or none if and only if no entry has the id. |
| FileStores.FileStore.LookupFile | src/main/java/bio/terra/service/filedata/flight/ingest/IngestFileDirectoryStep.java:88 | The file record, present if and only if the file is complete. |
| FileStores.FileStore.ListContents | src/test/java/bio/terra/filesystem/FileDaoTest.java:390-419 | "/" lists the root. A missing path is not-found. Otherwise the listing is the paths directly below. |
| FileStores.FileStore.CreateDirectoryEntry | src/main/java/bio/terra/service/filedata/flight/ingest/IngestFileDirectoryStep.java:67-76 | The store becomes `CreateEntry`'s result: the entry at the path with its missing ancestors as directories. On failure nothing changes. |
| FileStores.FileStore.CreateFileStart | src/test/java/bio/terra/filesystem/FileDaoTest.java:174-180 | Draws the id and creates an ingesting file there with its missing directories. On failure nothing changes. It keeps ids fresh. |
| FileStores.FileStore.DrawId | src/main/java/bio/terra/service/filedata/flight/ingest/FileIngestWorkerFlight.java:51-53 | The next id from the counter, which no entry holds. |
| FileStores.FileStore.CreateFileComplete | src/test/java/bio/terra/filesystem/FileDaoTest.java:146-148 | Records the file so the object there is FILE with the same id. It fails, changing nothing, if and only if no file entry has the id. |
| FileStores.FileStore.CreateFileCompleteUndo | src/test/java/bio/terra/filesystem/FileDaoTest.java:150-154 | Drops the record, so the file is INGESTING_FILE again. |
| FileStores.FileStore.RemoveAt | src/test/java/bio/terra/filesystem/FileDaoTest.java:211-218 | Removes the file entry and then each directory above it left empty. |
| FileStores.FileStore.CreateFileStartUndo | src/test/java/bio/terra/filesystem/FileDaoTest.java:182-189 | A directory path is refused with FileSystemCorruptException "bad file object type" and nothing changes. A file is removed with its emptied directories. An absent path gives false. |
| FileStores.FileStore.StoreDatasetFileDependency | src/test/java/bio/terra/filesystem/FileDaoTest.java:426-428 | One more reference from the dataset. |
| FileStores.FileStore.RemoveDatasetFileDependency | src/test/java/bio/terra/filesystem/FileDaoTest.java:430-432 | One reference fewer, never below zero. |
| FileStores.FileStore.DeleteFileStart | src/test/java/bio/terra/filesystem/FileDaoTest.java:263-289 | True if and only if a file has the id and nothing refers to it, and then the file is marked with the flight. A referenced file fails with a dependency error naming "dataset". An id held only by a directory fails with "attempt to delete a directory". No such object gives false. |
| FileStores.FileStore.FindFileRef | src/test/java/bio/terra/filesystem/FileDaoTest.java:204-209 | The path of a file entry with the id, or none if and only if every entry with it is a directory. |
| FileStores.FileStore.DeleteFileComplete | src/test/java/bio/terra/filesystem/FileDaoTest.java:197-209 | True if and only if the file exists, is marked by this flight and is unreferenced. It then removes the entry, its record, its mark and the emptied directories. A reference gives "any references". Another flight's mark gives "being deleted by someone else". An id held only by a directory gives "attempt to delete a directory". An error changes nothing. |
| FileStores.FileStore.DeleteDirectoryEntry | src/main/java/bio/terra/service/filedata/flight/ingest/IngestFileDirectoryStep.java:109 | Removes the file entry holding the id, with its emptied directories. It reports whether there was one. |
| FileStores.FileStore.DeleteAllFiles | src/test/java/bio/terra/filesystem/FileDaoTest.java:350 | deleteFilesFromStudy leaves no entry, record or mark. |
| FileDaoScenarios.StartAlone | src/test/java/bio/terra/filesystem/FileDaoTest.java:174-180 | createFileStart in a fresh store gives id 0: the file and its ancestors alone. |
| FileDaoScenarios.StartFirst | src/test/java/bio/terra/filesystem/FileDaoTest.java:174-180 | The createFileStart of that first file. |
| FileDaoScenarios.CompleteUndoComplete | src/test/java/bio/terra/filesystem/FileDaoTest.java:146-156 | complete gives FILE with the same id. undo gives INGESTING_FILE. complete again. |
| FileDaoScenarios.DeleteFile | src/test/java/bio/terra/filesystem/FileDaoTest.java:158-161 | An unreferenced file is deleted by deleteFileStart and then deleteFileComplete. |
| FileDaoScenarios.FileLifecycle | src/test/java/bio/terra/filesystem/FileDaoTest.java:122-219 | fileStateTest and deleteOnEmptyTest: complete, undo, undoing a directory's creation refused, delete started, its completion refused for another flight ("being deleted by someone else") and for a directory's id ("attempt to delete a directory"), then the delete completes and nothing is left. |
| FileDaoScenarios.DeleteWithRefusals | src/test/java/bio/terra/filesystem/FileDaoTest.java:193-213 | deleteFileStart succeeds, the completions by another flight and with a directory's id are refused with their messages, and the last completion removes the file with its emptied directories. |
| FileDaoScenarios.RefusedCompletes | src/test/java/bio/terra/filesystem/FileDaoTest.java:197-209 | deleteFileComplete by another flight gives "being deleted by someone else", and with a directory's id gives "attempt to delete a directory". Neither changes the store. |
| FileDaoScenarios.DependsOnlyCount | src/test/java/bio/terra/filesystem/FileDaoTest.java:263-289 | With one dataset referring, the file is referenced if and only if the count is positive. |
| FileDaoScenarios.AddReference | src/test/java/bio/terra/filesystem/FileDaoTest.java:426-428 | The count goes up by one. |
| FileDaoScenarios.DropReference | src/test/java/bio/terra/filesystem/FileDaoTest.java:430-432 | The count goes down by one. |
| FileDaoScenarios.StartDelete | src/test/java/bio/terra/filesystem/FileDaoTest.java:268-289 | deleteFileStart fails naming "dataset" while the count is positive and succeeds at zero. |
| FileDaoScenarios.DependenciesBlockDelete | src/test/java/bio/terra/filesystem/FileDaoTest.java:263-285 | Three references, then two removed: deleteFileStart is refused both times. |
| FileDaoScenarios.DeleteAfterDependencies | src/test/java/bio/terra/filesystem/FileDaoTest.java:287-304 | The last reference removed, the delete starts. A reference added in between makes completion fail with "any references". Once it is removed, the delete completes. |
| FileDaoScenarios.StartAnother | src/test/java/bio/terra/filesystem/FileDaoTest.java:239-243 | createFileStart of a second file. |
| FileDaoScenarios.StartSiblings | src/test/java/bio/terra/filesystem/FileDaoTest.java:231-243 | Two files started in one fresh directory. |
| FileDaoScenarios.CompleteBoth | src/test/java/bio/terra/filesystem/FileDaoTest.java:245-248 | Both files complete under their ids. |
| FileDaoScenarios.DeleteFirstSibling | src/test/java/bio/terra/filesystem/FileDaoTest.java:251-261 | Deleting A removes A alone; the directories and B stay. |
| FileDaoScenarios.DontDeleteOnNotEmpty | src/test/java/bio/terra/filesystem/FileDaoTest.java:221-312 | dontDeleteOnNotEmptyTest from start to end: nothing is left. |
| FileDaoScenarios.CompleteAlone | src/test/java/bio/terra/filesystem/FileDaoTest.java:374-376 | A store holding one complete file. |
| FileDaoScenarios.ListDown | src/test/java/bio/terra/filesystem/FileDaoTest.java:390-419 | One listing and one type per path, each what the store holds. |
| FileDaoScenarios.PathLookup | src/test/java/bio/terra/filesystem/FileDaoTest.java:364-425 | Lookup by id equals lookup by path. A missing path is not-found. Each level lists its one child, a directory down to the file. |
| FileDaoScenarios.FindAlone | src/test/java/bio/terra/filesystem/FileDaoTest.java:378-388 | The lookups of pathLookupTest. |
| FileDaoScenarios.ListAlone | src/test/java/bio/terra/filesystem/FileDaoTest.java:390-419 | The listings of pathLookupTest. |
| FileDaoScenarios.StudyDelete | src/test/java/bio/terra/filesystem/FileDaoTest.java:316-362 | The file is found by path before deleteFilesFromStudy and not found after, with nothing left. |
| FileService.MakeChecksums | src/main/java/bio/terra/service/filedata/FileService.java:248-265 | A crc32c entry if and only if crc32c is present, and an md5 entry if and only if md5 is present. crc32c comes first and md5 last, with types "crc32c" and "md5". |
| FileService.ToFileModel | src/main/java/bio/terra/service/filedata/FileService.java:208-244 | Fails if and only if the item, or an enumerated child, is of another kind. FSFile gives FILE with its file detail. FSDir gives DIRECTORY with its directory detail. The common fields and checksums are copied. |
| FileService.ToFileModelOk | src/main/java/bio/terra/service/filedata/FileService.java:239-241 | Conversion fails exactly for items reaching another kind, with FileSystemCorruptException. |
| FileService.ContentsModelsOk | src/main/java/bio/terra/service/filedata/FileService.java:231-237 | The children convert if and only if each does. |
| FileService.ContentsModels | src/main/java/bio/terra/service/filedata/FileService.java:231-237 | The conversion of a directory's contents, in order. ContentsModelsOk, ContentsModelsAt and ContentsPrefixFails state its contract. |
| FileService.ToFileModelContents | src/main/java/bio/terra/service/filedata/FileService.java:227-238 | Contents are present if and only if the directory is enumerated, with one model per child in order. |
| FileService.ContentsModelsAt | src/main/java/bio/terra/service/filedata/FileService.java:231-237 | The i-th content model is the i-th child's model. |
| FileService.ContentsPrefixFails | src/main/java/bio/terra/service/filedata/FileService.java:231-237 | The first failing child fails the whole directory. |
| FileService.FileModelFromFSItem | src/main/java/bio/terra/service/filedata/FileService.java:208-244 | The loop over children builds exactly `ToFileModel`. |
| FileService.CheckBulkArraySize | src/main/java/bio/terra/service/filedata/FileService.java:115-120 | Refuses if and only if the size exceeds the maximum, with BulkLoadFileMaxExceededException and its message. |
| FileService.BulkArrayLimitEdge | src/main/java/bio/terra/service/filedata/FileService.java:115-120 | A size equal to the maximum is accepted, and one more is refused. |
| IndexData.NamespacedKeyInjective | src/main/java/bio/terra/service/snapshot/flight/create/IndexDataStep.java:85-90 | Two fields never land on one key. |
| IndexData.NamespacedKeysInjective | src/main/java/bio/terra/service/snapshot/flight/create/IndexDataStep.java:85-90 | The renaming is injective for all keys. |
| IndexData.NamespacedKey | src/main/java/bio/terra/service/snapshot/flight/create/IndexDataStep.java:85-90 | The key of a non-kept field, prefixed by the table name and a '.'. NamespacedKeyInjective states that distinct keys stay distinct. |
| IndexData.NamespaceRow | src/main/java/bio/terra/service/snapshot/flight/create/IndexDataStep.java:80-91 | Fails if and only if the typed row holds a null value. |
| IndexData.NamespaceRowShape | src/main/java/bio/terra/service/snapshot/flight/create/IndexDataStep.java:80-91 | "type" is the table name. datarepo_row_id and type keep their names, and any other key k becomes "<table>.k". Values are carried unchanged. |
| IndexData.Typed | src/main/java/bio/terra/service/snapshot/flight/create/IndexDataStep.java:80-91 | The renamed row with its "type" field; NamespaceRowShape states its keys and values. |
| IndexData.RowRequestOk | src/main/java/bio/terra/service/snapshot/flight/create/IndexDataStep.java:92-95 | A request goes to the index under the row's datarepo_row_id, with the renamed fields. |
| IndexData.RowRequest | src/main/java/bio/terra/service/snapshot/flight/create/IndexDataStep.java:92-95 | One row's index request; RowRequestOk states where it goes and what it carries. |
| IndexData.RowRequestsAt | src/main/java/bio/terra/service/snapshot/flight/create/IndexDataStep.java:69-95 | One request per row, in order, each the request for its row. |
| IndexData.IndexTableData | src/main/java/bio/terra/service/snapshot/flight/create/IndexDataStep.java:69-104 | The table's first error, or the bulk request for all rows, which is sent only when there are rows. |
| IndexData.PrefixFails | src/main/java/bio/terra/service/snapshot/flight/create/IndexDataStep.java:69-95 | An error in early rows is the table's error. |
| IndexData.ColumnMapping | src/main/java/bio/terra/service/snapshot/flight/create/IndexDataStep.java:133-147 | A type fails if and only if it is given and its upper-cased form is none of STRING, FILE_REF, DATE and INTEGER. The failure is PdaoException "Didn't recognize type …". |
| IndexData.ColumnMappingIgnoresCase | src/main/java/bio/terra/service/snapshot/flight/create/IndexDataStep.java:133-147 | Types equal upper-cased map alike. |
| IndexData.ColumnMappingText | src/main/java/bio/terra/service/snapshot/flight/create/IndexDataStep.java:135-137 | No type and "string" are text, and "float" is refused. |
| IndexData.ColumnMappingTyped | src/main/java/bio/terra/service/snapshot/flight/create/IndexDataStep.java:138-141 | "date" is date and "Integer" is integer. |
| IndexData.ColumnMappingFileRef | src/main/java/bio/terra/service/snapshot/flight/create/IndexDataStep.java:135-137 | "File_Ref" is text. |
| IndexData.ColumnPropertiesOk | src/main/java/bio/terra/service/snapshot/flight/create/IndexDataStep.java:131-147 | The column mappings fail if and only if a type is unknown or two column keys collide. |
| IndexData.ColumnPropertiesKeys | src/main/java/bio/terra/service/snapshot/flight/create/IndexDataStep.java:131-147 | One key per column. |
| IndexData.ColumnPropertiesValues | src/main/java/bio/terra/service/snapshot/flight/create/IndexDataStep.java:131-147 | Each column key maps to its type's mapping. |
| IndexData.ColumnProperties | src/main/java/bio/terra/service/snapshot/flight/create/IndexDataStep.java:131-147 | The loop of createMapping over the columns; ColumnPropertiesOk, ColumnPropertiesKeys and ColumnPropertiesValues state its contract. |
| IndexData.ColumnKeyInjective | src/main/java/bio/terra/service/snapshot/flight/create/IndexDataStep.java:131-132 | Column keys are equal if and only if the names are. |
| IndexData.ColumnKeyNotKept | src/main/java/bio/terra/service/snapshot/flight/create/IndexDataStep.java:131-151 | A column key is never "type" or "datarepo_row_id". |
| IndexData.CreateMappingShape | src/main/java/bio/terra/service/snapshot/flight/create/IndexDataStep.java:126-160 | Succeeds if and only if the types are known and the names are distinct. The result is then the column mappings plus "type" and "datarepo_row_id" as keyword. |
| IndexData.CreateMapping | src/main/java/bio/terra/service/snapshot/flight/create/IndexDataStep.java:126-160 | createMapping: the column mappings, then "type" and "datarepo_row_id" as keyword; CreateMappingShape states its contract. |
| LabelUtils.KeepShape | datarepo-clienttests/src/main/java/common/utils/LabelUtils.java:71 | The filter leaves only `[a-z0-9-_]` and keeps such strings as they are. |
| LabelUtils.KeepNothing | datarepo-clienttests/src/main/java/common/utils/LabelUtils.java:71-74 | Nothing survives if and only if there is no label character. |
| LabelUtils.KeepConcat | datarepo-clienttests/src/main/java/common/utils/LabelUtils.java:71 | The filter works character by character: filtering a concatenation gives the concatenation of the filtered parts. |
| LabelUtils.SanitizeLabel | datarepo-clienttests/src/main/java/common/utils/LabelUtils.java:70-81 | sanitizeLabel: lower-case, filter, put an "x" in front unless the result starts with a letter, cut an over-long result. An empty filtered string is the StringIndexOutOfBoundsException of substring(0, 1). Its contract is stated by SanitizeShape, SanitizeLength and SanitizeFixedPoints. |
| LabelUtils.SanitizeShape | datarepo-clienttests/src/main/java/common/utils/LabelUtils.java:70-81 | Fails if and only if nothing survives the lower-casing and filtering (substring throws). Otherwise the label is 1 to 63 lower-case label characters starting with a letter. |
| LabelUtils.SanitizeLength | datarepo-clienttests/src/main/java/common/utils/LabelUtils.java:72-78 | The output is a prefix of the filtered, lower-cased input with an "x" in front unless it starts with a letter. Its length grows by one for that "x" and is cut to 62 once over 63. |
| LabelUtils.SanitizeFixedPoints | datarepo-clienttests/src/main/java/common/utils/LabelUtils.java:70-81 | Sanitising leaves a string as it is if and only if it is in label form. |
| LabelUtils.SanitizeIdempotent | datarepo-clienttests/src/main/java/common/utils/LabelUtils.java:70-81 | Sanitising twice equals sanitising once. |
| LabelUtils.CheckEntry | datarepo-clienttests/src/main/java/common/utils/LabelUtils.java:31-45 | An entry passes if and only if its key is not empty, both parts sanitise and, in strict mode, both are already sanitised. It returns both sanitised forms. |
| LabelUtils.ValidateLabelMap | datarepo-clienttests/src/main/java/common/utils/LabelUtils.java:20-54 | More than 64 labels throws. It accepts exactly the maps `LabelsAccepted` says. Strict mode returns the input, and sanitise mode returns the sanitised map. |
| LabelUtils.ValidateEntries | datarepo-clienttests/src/main/java/common/utils/LabelUtils.java:26-53 | The loop accepts exactly the maps whose every entry passes. In sanitise mode the sanitised keys must also be distinct. |
| LabelUtils.LabelTurn | datarepo-clienttests/src/main/java/common/utils/LabelUtils.java:31-51 | One turn either refuses the whole map or extends the sanitised map by its entry. |
| LabelUtils.DuplicateFound | datarepo-clienttests/src/main/java/common/utils/LabelUtils.java:46-51 | A sanitised key already present means two keys collide. |
| LabelUtils.AddMapped | datarepo-clienttests/src/main/java/common/utils/LabelUtils.java:46-51 | A new sanitised key extends the map. |
| LabelUtils.MappedUnique | datarepo-clienttests/src/main/java/common/utils/LabelUtils.java:46-53 | The sanitised map does not depend on the visiting order. |
| LabelUtils.StrictAcceptsSanitised | datarepo-clienttests/src/main/java/common/utils/LabelUtils.java:37-45 | Strict mode accepts exactly at most 64 entries, all in label form. Sanitise mode then returns the same map. |
| ProjectSelector.ReplaceAt | src/main/java/bio/terra/service/resourcemanagement/OneProjectPerProfileIdSelector.java:41 | The replacement keeps the length and works one character at a time. |
| ProjectSelector.SuffixShape | src/main/java/bio/terra/service/resourcemanagement/OneProjectPerProfileIdSelector.java:39-44 | The suffix is "-" followed by one character per name character: that character lower-cased, or "-" when it is outside `[a-z-0-9]`. So the suffix holds only `[a-z0-9-]`. |
| ProjectSelector.ProfileSuffix | src/main/java/bio/terra/service/resourcemanagement/OneProjectPerProfileIdSelector.java:40-41 | "-" then the lower-cased profile name with every character outside a-z, '-' and 0-9 replaced by '-'. SuffixShape states this character by character. |
| ProjectSelector.ProjectIdForDataset | src/main/java/bio/terra/service/resourcemanagement/OneProjectPerProfileIdSelector.java:20-22 | The core project id followed by the profile suffix; ProjectIdsAgree states that it ignores the dataset name. |
| ProjectSelector.ProjectIdForSnapshot | src/main/java/bio/terra/service/resourcemanagement/OneProjectPerProfileIdSelector.java:25-27 | The same project id as for a dataset of that profile (ProjectIdsAgree). |
| ProjectSelector.ProjectIdForFile | src/main/java/bio/terra/service/resourcemanagement/OneProjectPerProfileIdSelector.java:30-32 | The same project id as for a dataset of that profile (ProjectIdsAgree). |
| ProjectSelector.BucketForFile | src/main/java/bio/terra/service/resourcemanagement/OneProjectPerProfileIdSelector.java:35-37 | The file's project id followed by "-bucket" (BucketOfProject). |
| ProjectSelector.SuffixOfPlainName | src/main/java/bio/terra/service/resourcemanagement/OneProjectPerProfileIdSelector.java:40-41 | A name already in `[a-z-0-9]` is used as it is. |
| ProjectSelector.ProjectIdsAgree | src/main/java/bio/terra/service/resourcemanagement/OneProjectPerProfileIdSelector.java:20-44 | The dataset, snapshot and file project ids agree whatever name is asked for. Each is the core project id plus "-" plus the suffix. |
| ProjectSelector.BucketOfProject | src/main/java/bio/terra/service/resourcemanagement/OneProjectPerProfileIdSelector.java:35-37 | The bucket is the file's project id followed by "-bucket". |
| Config.AllValues | src/main/java/bio/terra/service/configuration/ConfigEnum.java:13-76 | The 48 constants in declaration order. |
| Config.LookupIn | src/main/java/bio/terra/service/configuration/ConfigEnum.java:79-82 | The loop finds a matching constant, or shows that none matches. |
| Config.Matches | src/main/java/bio/terra/service/configuration/ConfigEnum.java:80 | A constant answers to a name when they are equal ignoring case; a null name matches nothing. LookupIgnoresCase and LookupRoundTrip state the lookup's contract in its terms. |
| Config.LookupByApiName | src/main/java/bio/terra/service/configuration/ConfigEnum.java:78-85 | A match, or ConfigNotFoundException (for a null name too) when no constant matches. |
| Config.LookupFirst | src/main/java/bio/terra/service/configuration/ConfigEnum.java:79-82 | Returns the first match in declaration order. |
| Config.LookupIgnoresCase | src/main/java/bio/terra/service/configuration/ConfigEnum.java:80 | Names cased differently find the same constant. |
| Config.NameKeyInverse | src/main/java/bio/terra/service/configuration/ConfigEnum.java:13-76 | The name key reads each constant's name back to it. |
| Config.NameKeyIgnoresCase | src/main/java/bio/terra/service/configuration/ConfigEnum.java:80 | The name key ignores case. |
| Config.NamesDistinct | src/main/java/bio/terra/service/configuration/ConfigEnum.java:13-76 | Names are distinct ignoring case, so at most one constant matches. |
| Config.LookupRoundTrip | src/main/java/bio/terra/service/configuration/ConfigEnum.java:78-82 | lookupByApiName of a constant's name, in any case, is that constant. |
| Budget.WrapInt32 | datarepo-clienttests/src/main/java/common/utils/BudgetUtils.java:88 | Java int arithmetic: the value modulo 2^32 in the signed range. |
| Budget.WrapInt32InRange | datarepo-clienttests/src/main/java/common/utils/BudgetUtils.java:88 | A value in range is kept. |
| Budget.GetBudgetAmount | datarepo-clienttests/src/main/java/common/utils/BudgetUtils.java:84-92 | The units are the dollars and the currency is kept. The nanos are an int, equal to cents * 10^7 for -214 to 214 cents. In general the nanos are the int that Java's 32-bit product gives: in range and congruent to cents * 10^7 modulo 2^32. |
| Budget.BudgetAmountRange | datarepo-clienttests/src/main/java/common/utils/BudgetUtils.java:88 | The product fits exactly for -214 to 214 cents. 215 cents wraps negative. |
| Budget.ServiceIdsDistinct | datarepo-clienttests/src/main/java/common/utils/BudgetUtils.java:99-113 | The three services have distinct ids. |
| Budget.PrefixedEachInverse | datarepo-clienttests/src/main/java/common/utils/BudgetUtils.java:123-139 | Dropping the prefix gives back each element. |
| Budget.ConvertProjectIds | datarepo-clienttests/src/main/java/common/utils/BudgetUtils.java:123-130 | Each project id gets the "projects/" prefix, in order. |
| Budget.Values | datarepo-clienttests/src/main/java/common/utils/BudgetUtils.java:132-139 | The services' ids, in order. |
| Budget.ConvertServiceIds | datarepo-clienttests/src/main/java/common/utils/BudgetUtils.java:132-139 | Each service id gets the "services/" prefix, in order. |
| Budget.ConvertLabels | datarepo-clienttests/src/main/java/common/utils/BudgetUtils.java:141-156 | Each label value is wrapped in a one-element list, under the same keys. |
| Budget.GetBudgetFilter | datarepo-clienttests/src/main/java/common/utils/BudgetUtils.java:119-159 | Refuses if and only if there is more than one label, with "Only one label key/value pair allowed.". Otherwise the projects, services and labels are converted, and a null or empty argument leaves its field empty. |
| Kubernetes.Validate | datarepo-clienttests/src/main/java/runner/config/KubernetesSpecification.java:9-13 | Throws if and only if fewer than one pod is asked for. |
| Kubernetes.ValidateEdges | datarepo-clienttests/src/main/java/runner/config/KubernetesSpecification.java:4-13 | The default of one pod passes, and zero fails although the message says ">= 0". |

## Left out

- **Stairway, KubeService, LoadService and the Firestore DAO are abstract.**
  Their code is not part of this model. They become the
  `Engine.Environment` and `Loads.LoadLedger` classes and the
  `FileStores.FileStore` class. The store follows what `FileDaoTest`
  asserts, not the Firestore transactions. The model's Stairway never
  forgets a flight during the step: `Engine.Advance` and `Sleep` keep every
  known flight id. So once `checkForOrphans` has reset the unknown ones,
  FlightNotFoundException cannot reach `getLoadCandidates`, and the only
  exceptions `DoStep` can throw are FileSystemCorrupt and CorruptMetadata.
- **findCandidates is modelled as an assumed query.** Its candidates are
  the first `n` NOT_TRIED rows in ledger order, and none when `n ≤ 0`.
  Its running list is the RUNNING rows and its failure count the FAILED
  rows.
- **DatabaseOperationException is not modelled.** Ledger and store calls
  never fail with it. The driver's FAILURE_RETRY therefore comes only from
  a failed submission (StairwayExecutionException).
- **Sleep and the pod count come from a finite trace of ticks.** When the
  trace runs out, `DoStep` returns `Unfinished`. The real loop would go on
  waiting. No time or thread interruption is modelled.
- **IngestDriver.IngestDriverStep.WaitForAny:** worker flights change
  status only while the driver sleeps, that is, at a tick of the trace.
  Real workers also finish while the driver runs. No tick falls between the
  pass's `getLoadCandidates` and the first poll of `waitForAny`. So inside
  `DoStep` that first poll always sees the loads just counted plus those
  just launched, and never wakes. Every pass that waits sleeps at least
  once. `WaitAnyPollsFirst` states the poll-first order for any state, but
  `DoStep` never hands `WaitForAny` a state where it applies.
- **Ids are counters.** UUIDs and flight ids are drawn from counters; in
  practice a UUID gives the same freshness.
- **Exception texts are not modelled.** The text that ERROR and FATAL
  flights leave in a row is the flight's exception, or "unknown error",
  with no `toString` formatting.
- **Two preconditions replace error paths.** The target paths of loads
  must be valid absolute paths (`ValidPath`). The directory step, like its
  code, requires FILE_ID to be present.
- **Directories carry no load tag.** A directory at the target path is
  therefore "another load's entry".
- **Three worker steps are abstract.** `IngestFileIdStep` is modelled only
  by `IngestFileId`. `IngestFilePrimaryDataStep` (the byte copy, its
  checksums and its size) is not modelled. `IngestFileFileStep` appears
  only as its place in the plan and as `CreateFileComplete`.
- **The resource service is an answer oracle.** `None` stands for
  BucketLockException.
- **Abort oracle:** `DaoCall` says which store call aborts its
  transaction.
- **The store does not keep everything.** Mime type and description
  travel in the request for a load but are not part of a directory entry.
- **FileDaoScenarios.StudyDelete:** testStudyDelete's 1001 files are
  modelled as one file.
- **FileDaoScenarios.PathLookup:** it does not include the test's closing
  deleteFileStart and deleteFileComplete; `DeleteFile` states those.
- **BudgetUtils is only partly modelled.** getBudgetThresholdRule works in
  floating point and is not modelled. The client calls that create and
  read budgets are I/O.
- **The search index is only partly modelled.** The Elasticsearch
  client's calls (index creation, bulk send, refresh) are left out. The
  model returns the bulk request instead of sending it.
- **Only three operations of FileService are modelled.** The others are
  job submission and lookups through the DAO.
- **Case mapping covers ASCII letters only.** Java case mapping does more
  on other characters.
- **ConfigEnum's parameters are not modelled.** Their values and defaults
  live in other code.
- **DirectoryStoreFailure stands for an error the DAO code would raise.**
  `fileDao.createDirectoryEntry` (IngestFileDirectoryStep.java:76) is not
  part of this model. When an ancestor of the target path is a file, the
  model's store refuses the create. The step then throws
  `DirectoryStoreFailure` out of the step.
- **IngestDriver.IngestDriverStep.LoadLoopTurn:** Java `int` overflow is
  not modelled. `podCount * concurrentFiles` (IngestDriverStep.java:93) is computed on
  unbounded integers. The Java product wraps past 2^31 - 1.
- **Java nulls are not modelled.** A null `initialValue` makes
  sanitizeLabel throw NullPointerException at `toLowerCase`
  (LabelUtils.java:71). In OneProjectPerProfileIdSelector a null profile
  name throws NullPointerException, and a null core project id gives a
  project id starting with "null". In getBudgetFilter a null project id
  in the list becomes "projects/null", and a null ServiceId in the list
  throws NullPointerException (BudgetUtils.java:124-139). The model's
  strings and list elements are never null. The nulls it keeps are
  wrapped in `Option`: a null list or map argument of getBudgetFilter, a
  null field value of a search-index row (`NullValue`), an absent column
  type of the search-index mapping, and an absent name in
  lookupByApiName.
