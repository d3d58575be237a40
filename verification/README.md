# Verified model of the ETL runner

This project models the runner of the ETL service and proves what its design promises. The model has
four layers.

- **Data.** `Rows`, `Keyset`, `Sinks`, `Writers`, `Transforms`, `Strings` and `Targets` are values and pure
  functions: rows with a nullable incremental key, the batch query under SQL's three-valued comparison with
  NULLS LAST, upserts as overlays of (document, field) cells, transform chains and target names.
- **Engine.** One pipeline, one runner process and any number of API calls as a state machine (`Engine`). An
  action is one await of the runner, one API call, one change of the source table, or a failure; a history is
  any finite sequence of actions, so API calls fall between any two awaits, and a crash on either side of any
  commit. `EngineProtocol`, `EngineProgress`, `EngineSafety`, `EngineRuns`, `EngineKeys`, `EngineReplay`,
  `EnginePages`, `EngineNulls`, `EngineConverge`, `EngineAccounts`, `EngineRequests`, `EngineRecovery`,
  `EngineResume` and `EngineTwin` prove theorems about all histories.
  `Status`, `Exclusion` and `Recovery` cover any number of runners and pipelines.
- **Imperative code.** `Store` is the database and the session as a class whose methods are the repositories'
  methods and update its fields in place; each may be preceded by API calls and replaced by an exception, a
  lost connection or a crash. `Runners`, `Orchestration` and `Manager` hold the batch loops, the executor, the
  retry loop, the ticks and the main loop. Every method is proved to record a run of the engine
  (`Store.Valid`), so the engine's theorems hold of the loops. `FullScan` and `TaskPlan` are the two full
  loops and the task validation against their own specifications (`Chunks`, and acceptance as a property of
  the task set).
- **One concrete pipeline.** `Instances` applies the theorems to films through `normalize_title`.

A sink is a map from (document, field) to value. `Written(out, rows)` is the cells that transform and writer
make of these rows, `Scan(source, k)` the keyed rows above `k` in key order, `Between(source, j, k)` those
above `j` and not above `k`. An output is row-wise when cutting a batch anywhere does not change it.

Main results, each over all histories:

- A pipeline that goes from RUNNING to IDLE has the whole scan above its initial checkpoint in the sink
  (`EngineSafety.EndToEnd`; for the index, up to cells of rows without a key, `EngineReplay.EndToEndIndex`, and
  with the exact condition for all cells, `EngineNulls.EndToEndIndexExactly`; for the loops,
  `Orchestration.Finalize`; in full mode the whole source, `FullScan.DispatchFull`). For films this says, column
  by column, what the table or document shows (`Instances.TitlesConverge`, `Instances.RatingsConverge`,
  `Instances.IndexConverges`).
- At every moment the Postgres sink is the fold of the rows up to the checkpoint
  (`EngineSafety.AtomicCheckpoint`), and the index is that fold in every cell no later row writes
  (`EngineReplay.ReplayAbsorption`).
- For transforms that are not row-wise the committed batches take the place of the rows: at every moment the
  Postgres sink is those batches (`EnginePages.SinkIsBatches`), and with one batch size every history that
  finishes, over either sink, ends in the sink of one undisturbed run (`EnginePages.OneSizeEndToEnd`); full runs
  with one page size likewise (`Chunks.InterruptedRunsLeaveNoTrace`).
- On a source that grows while it is read, rows at or below the checkpoint have their current value in the
  sink (`EngineConverge.Convergence`).
- Transforms cannot affect the checkpoint, the rows read, the runs or the status
  (`EngineTwin.TransformsCannotAffectTheCursor`).
- Requests are neither lost nor claimed twice (`Status.ClaimConservation`,
  `EngineRequests.RunRequestSurvives`).
- A queued pipeline has a history to IDLE with a given batch size exactly when the NULL guard does not end it,
  and the undisturbed one reads every row above the checkpoint once (`EngineKeys.CanFinishExactly`,
  `EngineRuns.UndisturbedRunFinishes`). There is no dead end: at any moment of any history, whatever failed
  before, an enabled pipeline can still finish exactly when it is not FAILED and its rows can be committed one
  by one (`EngineResume.CanStillFinishExactly`).

## Where code and documents differ

The model follows the code. These promises of the documents do not hold of it, each with its exact condition.

- README.md:410 says recovery marks stale executions as failed. The code fails the *run* and queues the
  *pipeline* again, and it reaches only pipelines found RUNNING. A pause request before the crash hides the
  pipeline (`EngineRecovery.StaleRunSurvivesRecovery`); its run then stays RUNNING exactly until the first
  restart that finds the pipeline RUNNING (`EngineRecovery.OpenUntilRecovery`,
  `EngineRecovery.OpenAfterRestart`).
- docs/ARCHITECTURE.md:241-244 and docs/VALIDATION_SCENARIOS.md:198 promise that one runner at a time executes
  a pipeline. A run request accepted from PAUSE_REQUESTED or PAUSED, or a restart's re-queue, while an
  execution is still in a batch lets a second runner claim (`Exclusion.TwoRunnersExecute`,
  `Exclusion.RearmedOverlaps`). At most one runner executes at every moment, and after any further claim,
  exactly when no such move occurs (`Exclusion.CalmHistoriesAreExclusive`); an ordinary rerun is none
  (`Exclusion.RerunIsExclusive`). After such a move and another runner's claim the first one finalises the
  execution of the other (`Exclusion.PausedRunnerFinishesAnother`, `Exclusion.RearmedFinishesAnother`); a
  finalisation is always the runner's own exactly when no such move occurs (`Exclusion.FinishesOwnExactly`).
  The theorems about data are for one runner process.
- docs/ARCHITECTURE.md:193-200 promises that a pause leaves no partial batch. It holds of the transaction and of
  a loop that leaves at the pause (`EngineSafety.PauseAtBatchBoundary`, `EnginePages.PauseExitIsExact`). If the
  process dies between the write of a batch to the index and its checkpoint, a pause requested meanwhile is
  applied by the next tick with the batch in the index (`EngineResume.PausedWithPartialBatch`). Every pause
  finds just the rows up to the checkpoint exactly when there is nothing to fetch
  (`EngineResume.PausesAtCheckpointExactly`).
- The NULL guard on the tail row runs after the write. It protects the checkpoint and the Postgres table
  (`EngineSafety.NullsNeverCommitted`), not the index. No batch holds a row without a key if and only if a
  checkpoint is stored, no row lacks a key, or the keyed rows fill a first batch
  (`EngineKeys.NullsStayOutExactly`); then such rows leave no trace (`EngineNulls.NullsLeaveNoTrace`).
  Otherwise the first batch is written to the index and can never be committed
  (`EngineNulls.NullRowReachesIndex`). What it wrote stays there even though the pipeline finishes later:
  after a crash and with a smaller batch size it ends IDLE with the row still in the index
  (`EngineNulls.NullRowStaysAfterFinish`). So "a completed run erases all trace" holds of the
  cells that no row without a key writes in every history (`EngineReplay.EndToEndIndex`). Of all cells it holds,
  for an index that does not contain those rows beforehand, if and only if the guard holds or no keyed row
  exists, in which case no history finishes (`EngineNulls.EndToEndIndexExactly`).
- By the same guard, with NULL keys in the source whether a first run completes depends on the batch size
  (`Keyset.FirstRunCompletes`).
- The API accepts requests for a disabled pipeline; they stay pending, and a tick claims or applies them
  exactly when the pipeline is enabled (`EngineRequests.RunRequestSurvives`,
  `EngineRequests.PauseRequestSurvives`).
- A guard for a checkpoint with a value but no id exists and never fires: `Store.Store.GetState` proves that
  branch dead.
- FAILED is left by no operation, also not by a run request (`EngineRequests.FailedIsAbsorbing`).

## Assumptions

The pair (incremental key, id) is unique per row and ids are not NULL (README.md:188-195); the stored
checkpoint text keeps the order of the source; transforms are pure and do not change their input rows;
`max_attempts` is at least 1 and the backoff table is not empty, as in the constructor's defaults. In full mode
the query returns its rows in one fixed order (README.md:166-167). Theorems that need more say so: a static
source, a row-wise output, ids that name documents.

## Model

| member | source | states |
|---|---|---|
| Keyset.WhereDropsNulls | src/runner/adapters/sql_incremental.py:93-106 | under three-valued logic the WHERE clause passes exactly the keyed rows strictly above the cursor; only a query without cursor returns NULL keys |
| Keyset.PageFacts | src/runner/adapters/sql_incremental.py:93-112 | a batch is sorted, at most `batch_size` long, a gap-free lower part of what passes the cursor, empty exactly when nothing passes |
| Keyset.PageIsOrdered | src/runner/adapters/sql_incremental.py:107-112 | within a batch keyed rows come by time and then id, rows without a key after them by id |
| Keyset.CursorAdvances | src/runner/adapters/sql_incremental.py:176-177 | the number of rows above the cursor strictly falls with each batch: the loop terminates |
| Keyset.PaginationIsScan | src/runner/adapters/sql_incremental.py:88-118 | for every batch size and start the concatenated batches are one sorted scan of the rows above the cursor, each once |
| Keyset.CursorRunsComplete | src/runner/adapters/sql_incremental.py:99-106 | from a stored cursor the NULL guard cannot end a run, for any batch size |
| Keyset.NullInFirstBatch | src/runner/adapters/sql_incremental.py:93-98 | a first batch holds a NULL key if and only if one exists and the keyed rows do not fill the batch |
| Keyset.FirstRunCompletes | src/runner/adapters/sql_incremental.py:156-158 | a first run gets to the end if and only if no key is NULL or the keyed rows fill the first batch |
| EngineRuns.UndisturbedRunFinishes | src/runner/orchestration/dispatcher.py:41-71 | a queued, enabled pipeline whose batches can all be committed has a history to IDLE: one SUCCESS run that reads every keyed row above the checkpoint once and writes what they become |
| EngineKeys.CanFinishExactly | src/runner/adapters/sql_incremental.py:88-195 | with a fixed batch size a queued pipeline can go from RUNNING to IDLE in some history if and only if its undisturbed batches get to the end |
| EngineResume.ResumedRunFinishes | src/runner/main.py:72-92 | no dead end: from every moment of every history an enabled pipeline that is not FAILED and whose remaining batches can be committed finishes after a restart and a run request |
| EngineResume.CanStillFinishExactly | src/runner/orchestration/dispatcher.py:41-71 | from every moment of every history an enabled pipeline can still go from RUNNING to IDLE if and only if it is not FAILED and its remaining rows can be committed one by one |
| Sinks.UpsertOverlaysDocument | src/runner/adapters/writers.py:49-66 | an upsert overlays the named fields of one document and leaves every other field and document |
| Sinks.PartialBulk | src/runner/adapters/writers.py:245-255 | whatever subset of a bulk request is applied, only cells of the bulk change |
| Writers.BuildPayload | src/runner/adapters/writers.py:231-243 | the payload loop succeeds exactly when every record has the required fields, and then yields one upsert per record, in order |
| Writers.WritesFilmDim | src/runner/adapters/writers.py:49-66 | a record written to `analytics.film_dim` leaves its id, title and rating (NULL if missing) in the row of its id, keeps the other columns and touches no other row |
| Writers.WritesFilmRatingAgg | src/runner/adapters/writers.py:68-90 | likewise `avg_rating` and `rating_count` in `analytics.film_rating_agg`, each under its own name |
| Writers.WritesIndex | src/runner/adapters/writers.py:231-243 | a record written to an index leaves all its fields in the document of its id, keeps the other fields and touches no other document |
| Writers.RefusedRecords | src/runner/adapters/writers.py:63-87 | a record is refused exactly when its id is missing, the title for the film table, or the average or count for the rating table |
| Writers.ItemsAppend | src/runner/adapters/writers.py:61-64 | payloads of a batch are the payloads of its parts |
| Transforms.ApplyChain | src/runner/adapters/tasks_incremental.py:121-125 | the loop with early exit computes the chain |
| Transforms.EarlyExitIsComposition | src/runner/adapters/tasks_incremental.py:121-125 | for row-wise transforms the early exit equals plain composition |
| Transforms.EarlyExitExactly | src/runner/adapters/tasks_incremental.py:121-125 | for any transforms: once one of them returns nothing the chain returns nothing, otherwise it is plain composition |
| Transforms.ChainIsRowWise | src/runner/adapters/tasks_incremental.py:121-128 | a chain of row-wise transforms with either writer makes a row-wise output |
| Transforms.TasksAgreeWithLegacy | src/runner/adapters/sql_incremental.py:126-132 | the task runner over a chain and the legacy runner over its composition send the same upserts |
| Transforms.NormalizeTitle | src/pipelines/python_tasks/normalize_title.py:1-8 | the loop marks and strips every non-empty title and keeps all other fields, rows and their order |
| Transforms.NormalizeIsHomomorphic | src/pipelines/python_tasks/normalize_title.py:1-8 | it is row-wise |
| Transforms.NormalizeKeeps | src/pipelines/python_tasks/normalize_title.py:1-8 | row by row: all other columns and empty or missing titles are kept, other titles stripped and marked |
| Strings.StripTrims | src/pipelines/python_tasks/normalize_title.py:6 | strip removes white space at both ends, all of it and nothing else |
| Strings.WhiteSpace | src/pipelines/python_tasks/normalize_title.py:6 | which characters count as white space, code point by code point |
| Strings.StripPadded | src/app/core/constants.py:18 | any padding of white space is stripped and the text between is left |
| Instances.FilmsFit | src/pipelines/python_tasks/normalize_title.py:1-8 | with any writer this pipeline meets the premises of the safety and convergence theorems |
| Instances.TitlesConverge | src/runner/adapters/tasks_incremental.py:92-154 | in every history over a changing source a film at or below the checkpoint has its title in the table (stripped and marked unless empty or no text), its id and its rating |
| Instances.RatingsConverge | src/runner/adapters/writers.py:68-90 | likewise its average rating and its rating count in the other table |
| Instances.IndexConverges | src/runner/adapters/writers.py:231-243 | likewise every column of its row in the document of an index |
| Status.ClaimConservation | src/runner/repos/pipelines.py:40-54 | for any number of runners: claims + withdrawn requests + pending request = accepted run requests + re-queues + initially pending |
| Status.RunRequestStays | src/app/repositories/pipelines.py:148-164 | RUN_REQUESTED is left only by a claim or an accepted pause request, for any number of runners |
| Status.PauseRequestStays | src/app/repositories/pipelines.py:116-135 | PAUSE_REQUESTED is left only by apply-pause, an accepted run request or a permanent failure |
| Exclusion.TwoRunnersExecute | docs/ARCHITECTURE.md:241-244 | counterexample to mutual exclusion: pause, run again, second claim |
| Exclusion.GuardedStep | src/app/repositories/pipelines.py:111-141 | exclusion stays guarded after a move if and only if the move is no run request that finds an execution PAUSE_REQUESTED or PAUSED, and no re-queue of one that is RUNNING |
| Exclusion.RearmedOverlaps | src/runner/repos/pipelines.py:40-54 | after such a move any other runner's claim makes two execute |
| Exclusion.RerunIsExclusive | src/runner/orchestration/dispatcher.py:64-71 | from any state with one executing runner, its finish, a request by anyone and a claim by any runner leave that one executing alone |
| Exclusion.CalmHistoriesAreExclusive | docs/VALIDATION_SCENARIOS.md:196-212 | for any number of runners, at most one executes at every moment and after any further claim if and only if no move re-arms an execution |
| Exclusion.PausedRunnerFinishesAnother | src/runner/orchestration/dispatcher.py:56-64 | counterexample with two runners: after a pause exit the first one finalises the execution of the second |
| Exclusion.RearmedFinishesAnother | src/runner/orchestration/dispatcher.py:63-64 | after a re-arming move and a claim by any other runner the first runner's finalisation is accepted and leaves the other one executing |
| Exclusion.FinishesOwnExactly | src/runner/orchestration/dispatcher.py:63-64 | for any number of runners: at every moment of a history, also after any further claim, an accepted finalisation can only end the runner's own execution, alone, if and only if no move re-arms an execution |
| Exclusion.CalmFinishesAreOwn | src/runner/orchestration/dispatcher.py:63-64 | in every history that re-arms no execution a finalisation is the only runner's own |
| EngineProtocol.ProtoAlways | src/runner/services/pause.py:9-18 | invariant of every history: where an open transaction can exist and what it holds; cursor = committed checkpoint between batches; after a pause exit the status is never RUNNING |
| EngineProtocol.CommitFrame | src/runner/repos/pipelines.py:53-67 | no commit other than a batch's own changes checkpoint, committed rows or source: the commits inside status updates publish nothing |
| EngineProgress.ProgressAlways | src/runner/adapters/sql_incremental.py:88-193 | committed rows are sorted, above the initial checkpoint, end at the checkpoint and skip nothing, also while the source changes on top |
| EngineSafety.OnlyDrainedRunsFinish | src/runner/orchestration/dispatcher.py:52-71 | only the conditional finalisation of a run that saw an empty batch takes RUNNING to IDLE: a paused run never finishes successfully |
| EngineSafety.EndToEnd | src/runner/orchestration/dispatcher.py:52-71 | whenever RUNNING becomes IDLE the Postgres sink is the initial sink with every keyed row above the initial checkpoint upserted in key order |
| EngineReplay.CompleteHistoriesAgree | docs/ARCHITECTURE.md:193-200 | any two histories from one start that finish end with the same checkpoint and committed rows, and the same sink: wholly in Postgres or if rows without a key are kept out, else in every cell no such row writes |
| EngineSafety.AtomicCheckpoint | src/runner/adapters/sql_incremental.py:126-182 | in every state, crash points included, the sink is the fold of the rows up to the committed checkpoint |
| EnginePages.SinkIsBatches | src/runner/adapters/sql_incremental.py:126-182 | for any transform, in every state of every history, also while the source changes, the Postgres sink is the initial one with the committed batches written one after another |
| EnginePages.BatchesAreApplied | src/runner/adapters/sql_incremental.py:142-182 | the committed batches are, row by row, the rows between the two checkpoints, for either sink and any transform |
| EnginePages.BatchesAreDrained | src/runner/adapters/sql_incremental.py:88-118 | with one batch size, at every moment of every history over a static source: what was committed, followed by an undisturbed run from the checkpoint, is the undisturbed run from the start |
| EnginePages.OneSizeSink | src/runner/adapters/tasks_incremental.py:121-156 | with one batch size and any transform, at every moment: Postgres holds the committed batches; an index holds them up to cells of the one next batch, exactly right after a commit |
| EnginePages.OneSizeEndToEnd | src/runner/orchestration/dispatcher.py:52-71 | end-to-end safety for any transform and either sink, with one batch size and no guard against NULL keys: whenever RUNNING becomes IDLE the sink is the initial one with the batches of one undisturbed run written over it |
| EnginePages.OneSizeHistoriesAgree | docs/ARCHITECTURE.md:193-200 | pausing, failing, crashing and resuming make no difference for any transform and either sink: two finishing histories with one batch size end with the same checkpoint, rows and sink |
| EngineSafety.PauseAtBatchBoundary | src/runner/services/pause.py:13-18 | on every entry to PAUSED, for either sink and any transform, nothing is uncommitted, the step changes neither sink nor checkpoint, and the committed rows are those up to the checkpoint; with Postgres and a row-wise output the sink is their fold |
| EnginePages.PauseExitIsExact | src/runner/services/pause.py:13-18 | a loop that leaves at a pause leaves exactly the committed batches in the sink, also in an index, for any transform and one batch size |
| EngineResume.PausedWithPartialBatch | docs/ARCHITECTURE.md:193-200 | counterexample for the index, for any transform: a batch is written, a pause requested, the process dies and restarts, and the next tick applies the pause: PAUSED with the batch in the index and the checkpoint before it |
| EngineResume.PausesAtCheckpointExactly | docs/ARCHITECTURE.md:193-200 | in every history every entry to PAUSED finds just the rows up to the checkpoint in the index if and only if there is nothing to fetch (row-wise output, ids name documents, the next row is not there beforehand) |
| EngineSafety.NullsNeverCommitted | src/runner/adapters/sql_incremental.py:156-158 | for either sink no NULL-keyed row is ever committed and no committed checkpoint is NULL; the Postgres table holds the committed rows and nothing else |
| EngineSafety.CheckpointMonotone | src/runner/adapters/sql_incremental.py:176-182 | the checkpoint never moves back, strictly rises with each committed batch and moves with nothing else |
| EngineReplay.DrainedRerunIsSilent | docs/TASK_MODEL.md:235 | on an unchanged drained source, for any transform, no history commits a row, moves the checkpoint or changes the sink; for an index that NULL-keyed rows can get into, a row-wise output changes no cell but theirs |
| EngineSafety.TouchedRowAlone | docs/TASK_MODEL.md:236 | after one row was touched a finished history commits exactly that row |
| EngineAccounts.TouchedRowReadOnce | docs/TASK_MODEL.md:236 | after one row was touched the runs that drained the source report 1 read in all, less a row that a failed attempt committed, for any transform |
| EngineReplay.ReplayAbsorption | src/runner/adapters/writers.py:231-257 | despite partial bulks and replays, in every history a cell no row above the checkpoint writes holds the fold of the rows up to it; for a cell that a NULL-keyed row writes this needs such rows to be kept out |
| EngineReplay.DrainedSink | src/runner/adapters/sql_incremental.py:115-118 | once a run has seen an empty batch the sink, of either kind, is the complete scan; of an index into which NULL-keyed rows could get, this is said of the cells they do not write |
| EngineReplay.EndToEndIndex | src/runner/orchestration/dispatcher.py:63-71 | end-to-end safety with the Elasticsearch sink, for every finishing history: no trace of partial bulks in any cell that no NULL-keyed row writes, and in no cell at all if such rows are kept out |
| EngineNulls.EndToEndIndexExactly | src/runner/orchestration/dispatcher.py:63-71 | every finished history with batch sizes up to n leaves exactly the scan over the initial index if and only if there is a checkpoint, no NULL-keyed row, n keyed rows, or no keyed row (ids name documents, and the index does not hold the NULL-keyed rows beforehand) |
| EngineNulls.NullRowStaysAfterFinish | src/runner/main.py:72-81 | the finishing history of the other case: a first batch is written and lost in a crash, the batch size lowered, and the pipeline ends IDLE with that batch under the scan |
| EngineKeys.PageKeyedExactly | src/runner/adapters/sql_incremental.py:93-112 | a batch holds no NULL key if and only if there is a cursor, no such row, or enough keyed rows to fill it |
| EngineKeys.FlightIsKeyed | src/runner/adapters/sql_incremental.py:88-132 | under that guard no batch of any history ever holds a NULL-keyed row |
| EngineKeys.NullsStayOutExactly | src/runner/adapters/sql_incremental.py:126-158 | over all histories of a queued pipeline with batch sizes up to n: no batch in flight holds a NULL-keyed row if and only if there is a checkpoint, no such row, or n keyed rows |
| EngineNulls.NullsLeaveNoTrace | src/runner/adapters/writers.py:231-257 | under the guard a cell that only NULL-keyed rows would write keeps its initial value in the index |
| EngineNulls.NullRowReachesIndex | src/runner/adapters/tasks_incremental.py:127-140 | without the guard the index becomes its initial content with the whole first batch upserted, NULL-keyed row included, each row of it with its values; that batch can never be committed |
| EngineConverge.Convergence | src/runner/adapters/sql_incremental.py:93-182 | with inserts and touches on top at any moment, every current row at or below the checkpoint has its current transformed value in the sink |
| EngineConverge.DrainedRunConverges | src/runner/adapters/sql_incremental.py:115-118 | when a run finds no more rows, the whole current source is in the sink |
| EngineAccounts.RowAccounting | src/runner/repos/runs.py:34-76 | for any transform: rows committed = rows_read of SUCCESS runs + rows of failed or crashed attempts, whose counts stay 0; a SUCCESS run has read exactly what it committed, and if the output is row-wise has written what that became |
| EngineAccounts.CountedOnce | src/runner/adapters/sql_incremental.py:121 | no row is committed, hence counted, by two runs, for any transform |
| EngineAccounts.DrainedRerunReadsNothing | docs/TASK_MODEL.md:235 | on an unchanged drained source every run reports 0 read and 0 written, for any transform |
| EngineRequests.StatusIsEventHistory | src/runner/repos/pipelines.py:40-135 | the runner moves the status only through the guarded updates |
| EngineRequests.EngineClaimConservation | src/runner/repos/pipelines.py:89-103 | claim conservation in every history, restarts included |
| EngineRequests.FailedIsAbsorbing | src/runner/repos/pipelines.py:119-135 | no API or runner step leaves FAILED |
| EngineRequests.RunRequestSurvives | src/app/services/pipelines.py:82-99 | a run request accepted during an execution, also inside the pause window or while the runner is about to apply a listed pause, survives its end, crash and restart, and the next tick claims it if and only if the pipeline is enabled |
| EngineRequests.PauseRequestSurvives | src/app/services/pipelines.py:101-115 | a pause request stays or is applied unless a run request or permanent failure consumed it, and the next tick of an idle runner applies it if and only if the pipeline is enabled |
| EngineRequests.PauseTakesEffect | src/app/repositories/pipelines.py:116-135 | a pause request is accepted in every status but FAILED and PAUSED, IDLE included, and the next tick of an idle, enabled runner pauses the pipeline without a run |
| EngineTwin.TransformsCannotAffectTheCursor | src/runner/adapters/tasks_incremental.py:130-151 | two histories with any two transforms and sinks commit the same checkpoints and report the same rows read |
| Store.Store.RunPipeline | src/app/services/pipelines.py:82-99 | the idempotent wrapper queues the pipeline unless it is RUNNING or FAILED, from any other status |
| Store.Store.PausePipeline | src/app/services/pipelines.py:101-115 | the idempotent wrapper leaves the pipeline PAUSE_REQUESTED unless it is PAUSED or FAILED, from any other status |
| Store.Store.ObserveActive | src/runner/repos/pipelines.py:13-26 | exactly an enabled pipeline that is RUN_REQUESTED or PAUSE_REQUESTED is seen as active, with that status |
| Store.Store.ClaimRunRequested | src/runner/repos/pipelines.py:40-54 | claims if and only if the status is RUN_REQUESTED at that moment |
| Store.Store.FinishRunningToIdle | src/runner/repos/pipelines.py:105-117 | succeeds if and only if still RUNNING; then the run was drained and nothing else was published |
| Store.Store.FailIfActive | src/runner/repos/pipelines.py:119-135 | fails a pipeline if and only if it is RUNNING or PAUSE_REQUESTED |
| Store.Store.StartRun | src/runner/repos/runs.py:19-32 | appends one RUNNING run with zero counts |
| Store.Store.TakeSnapshot | src/runner/services/pipeline_snapshot.py:33-50 | the one step that freezes a batch size: the one given, and an exception freezes none |
| Store.Store.FinishFailed | src/runner/repos/runs.py:58-76 | marks the run FAILED and keeps its counts |
| Store.Store.GetState | src/runner/adapters/sql_incremental.py:64-74 | returns the committed checkpoint; value and id are always both set |
| Store.Store.Query | src/runner/adapters/sql_incremental.py:93-112 | returns the page above the cursor; an empty page ends the run as drained |
| Store.Store.Write | src/runner/adapters/writers.py:213-257 | a complete Postgres write joins the open transaction and leaves the table alone; a complete bulk is in the index at once; one that raised leaves any part of it, and nothing in Postgres |
| Store.Store.CommitBatch | src/runner/adapters/sql_incremental.py:179-182 | the pending writes and the checkpoint become visible together, or an exception leaves sink and checkpoint as they were |
| Store.Store.RecoverStuck | src/runner/main.py:72-81 | closes the open runs and re-queues the pipeline if it is still RUNNING, else changes neither |
| Runners.PauseIfRequested | src/runner/services/pause.py:9-18 | true if and only if the status read was PAUSE_REQUESTED, even if the apply lost a race; then the status is what apply-pause makes of it and not RUNNING; otherwise the loop goes on with the same cursor |
| Runners.Checkpoint | src/runner/adapters/sql_incremental.py:142-182 | the committed key is the key of the reader's last row, visible together with the batch; a NULL key or any other exception leaves sink and checkpoint as they were |
| Runners.WriteRows | src/runner/adapters/sql_incremental.py:128-132 | success delivers and counts exactly the batch output, nothing if it is empty; a refused record changes nothing in the sink; any other exception leaves at most part of a bulk |
| Runners.RunSqlIncremental | src/runner/adapters/sql_incremental.py:62-195 | the loop terminates and is a run of the engine; it raises if and only if an await raised, a record was refused or the tail key is NULL; else it returns drained, with nothing above the checkpoint, or after a pause, with the status no longer RUNNING; for any transform the rows read are the rows this run committed, and if the output is row-wise the rows written are what they became |
| Runners.RunTasksIncremental | src/runner/adapters/tasks_incremental.py:70-156 | the same for the task runner and its chain |
| Orchestration.Execute | src/runner/orchestration/executor.py:60-123 | one run row per execution: SUCCESS with the returned counts, or FAILED with zeros after a rollback, unless connection or process was lost |
| Orchestration.Finalize | src/runner/orchestration/dispatcher.py:56-71 | a pipeline set to IDLE has the complete scan in its sink (an index in every cell no NULL-keyed row writes, in all if those are kept out); otherwise it is not RUNNING and has the status that the API gave it, and its sink is untouched |
| Orchestration.RunAttempts | src/runner/orchestration/dispatcher.py:52-113 | retry protocol: 1 to `max_attempts` runs, all but the last FAILED, the last SUCCESS or all failed and the guarded permanent failure written exactly if the status was still RUNNING or PAUSE_REQUESTED; one clamped delay between two attempts; a connection lost in an attempt is swallowed, only a crash or giving up leaves as an exception |
| Orchestration.Dispatch | src/runner/orchestration/dispatcher.py:35-113 | a pause request still pending is applied, a run request claimed or already taken by others; an undisturbed claim follows the retry protocol with the configured batch size (1000 if that is 0); a lost connection leaves as an exception if and only if it was lost before the snapshot or in the update that gives up; a finished pipeline has the scan, and with one batch size for any transform the undisturbed batches, in its sink |
| Orchestration.RunTick | src/runner/orchestration/manager.py:45-73 | the tick of one pipeline: an inactive or disabled one is not dispatched and keeps its runs; a listed pause is applied; a dispatched one freezes the configured batch size and follows the retry protocol; an exception is not passed on |
| Manager.Tick | src/runner/orchestration/manager.py:45-73 | over several pipelines: exactly the active ones are listed before any is dispatched, and exactly the listed ones dispatched; an exception of one, also a connection lost while it executes, does not keep the others from it; only a crash or a connection lost outside an execution ends the tick and leaves the rest pending; the counts are the numbers of listed pipelines and of dispatches without exception |
| Orchestration.Startup | src/runner/main.py:72-92 | after recovery the pipeline is not RUNNING; its open runs are closed if it was found RUNNING and untouched otherwise |
| Orchestration.MainLoop | src/runner/main.py:72-109 | unless the process dies in recovery, which counts as a failure, or in a tick, there is a tick for every batch size, each with its own, leading from the moment after the one before to the next as a tick does, beginning with a pipeline that is not RUNNING |
| Orchestration.Operate | src/runner/main.py:62-109 | over any number of processes killed or crashed anywhere, the sink is the fold of the rows up to the checkpoint (Postgres), or agrees with it in every cell that no later row and no NULL-keyed row that could get in writes (Elasticsearch); for any transform and one configured batch size it is the committed batches, in an index up to cells of the next one |
| Chunks.OffsetsAgree | src/runner/adapters/sql_full.py:122-123 | advancing by rows fetched and advancing by the page size leave the same rows to read, and fewer of them |
| Chunks.PiecesCover | src/runner/adapters/tasks_full.py:66-73 | the pages are non-empty and cover the source exactly once, in order |
| Chunks.CompleteRunIgnoresPageSize | src/runner/adapters/sql_full.py:60-80 | a complete full run writes the same for every page size |
| Chunks.CompleteRunsAgree | src/runner/adapters/tasks_full.py:66-93 | complete runs of the two loops commit the same pages, report the same counts and leave the same sink |
| Chunks.RunIsAbsorbed | src/runner/adapters/sql_full.py:60-137 | for any transform: whatever a run committed or left behind, a complete run with the same page size afterwards ends in the sink it produces alone; for a row-wise output what a complete run writes does not depend on the page size |
| Chunks.InterruptedRunsLeaveNoTrace | README.md:211-214 | after any series of full runs, paused, broken or complete, a complete one ends in the sink it produces alone: with any page sizes if the output is row-wise, with one page size for any transform |
| FullScan.RunSqlFull | src/runner/adapters/sql_full.py:60-137 | commits a prefix of the pages, all of them when it completes, with exact counts; checks the status after every page and goes on if and only if no pause was requested; breaks if and only if an await raised or the writer refused a record, and then leaves at most cells of the next page |
| FullScan.RunTasksFull | src/runner/adapters/tasks_full.py:66-93 | the same for the loop that advances by the page size |
| FullScan.Database.PauseIfRequested | src/runner/services/pause.py:9-18 | full mode: true if and only if the status read was PAUSE_REQUESTED; then the status seen by the apply becomes PAUSED if it still is; otherwise the run goes on with the status it read |
| FullScan.RunsUntilComplete | src/runner/orchestration/executor.py:125-138 | any series of paused and broken full runs of either kind ended by a complete one leaves the sink of a single undisturbed run, whenever complete runs with these page sizes write the same: one size, or a row-wise output |
| FullScan.DispatchFull | src/runner/orchestration/dispatcher.py:52-113 | full mode, executions, finalisation and retries included, for any transform: RUNNING becomes IDLE exactly when the dispatch finished, with the whole source written over the initial sink and no pause request found after any page; it becomes FAILED exactly when it gave up after `max_attempts` failures and the status was still RUNNING or PAUSE_REQUESTED; it stays RUNNING only if the connection or process was lost, or if after those failures the failing update raised as well |
| TaskPlan.ValidateTasks | src/runner/services/task_plan.py:7-55 | accepts exactly the acceptable task sets, returns their strictly increasing permutation with the SQL reader first, and every error is explained by the tasks |
| TaskPlan.PlanIsCanonical | src/runner/services/task_plan.py:11-55 | all permutations of a task list are accepted or rejected alike and normalised to the same plan |
| TaskPlan.AcceptedPlansAreWritable | src/runner/adapters/tasks_incremental.py:57-64 | on an accepted plan the runner's recheck and the writer's guards cannot fire |
| TaskPlan.LastTaskDecides | src/runner/adapters/tasks_incremental.py:57-62 | an accepted plan writes to the non-empty override of its last task, otherwise to the pipeline's target |
| Targets.AcceptedTargetsAreWritable | src/app/core/constants.py:17-27 | a target is accepted if and only if it spells a destination; the chosen writer then writes there, and its unsupported-target, prefix and empty-index guards are dead for every string |
| Targets.PaddedTargets | src/app/core/constants.py:3-27 | the two tables and two indexes, with any padding around them and after the prefix, are where their spellings are written |
| Targets.OnlyTheseTargets | src/app/core/constants.py:3-27 | there is no other destination, and every other string is refused by the allow-list |
| Recovery.Catalog.Startup | src/runner/main.py:72-92 | with API calls in between, afterwards no pipeline is RUNNING, those still RUNNING are queued again; a run changes if and only if it is open and its pipeline was listed, and then in its status only |
| Recovery.Catalog.MarkRunRequestedBulk | src/runner/repos/pipelines.py:89-103 | re-queues the listed pipelines that are still RUNNING and counts them |
| Recovery.ApplyIsPerPipeline | src/app/repositories/pipelines.py:111-171 | requests for one pipeline never affect another |
| EngineRecovery.OpenAfterRestart | src/runner/main.py:72-81 | an open run survives a restart, with API calls between listing and updating, if and only if the pipeline was not found RUNNING |
| EngineRecovery.OpenUntilRecovery | src/runner/repos/runs.py:78-93 | in every history a run that no process executes stays RUNNING exactly until a restart finds its pipeline RUNNING, and is FAILED from then on |
| EngineRecovery.StaleRunSurvivesRecovery | README.md:410 | such a run is reachable: pause request, crash, restart leave it RUNNING while the pipeline is PAUSED |

## Left out

- FastAPI routes, Pydantic schemas, settings, Alembic, Docker and logging: plumbing or one-branch checks.
- SQL text building, drivers and the ORM identity map: a query is its meaning, a session an overlay with
  commit and rollback, the checkpoint pair written as one.
- The Elasticsearch client, index creation, mappings, `_jsonify` and the text form of document ids.
- Disconnect detection and dynamic imports: an exception is ordinary, a disconnect or a crash at will;
  transforms are arbitrary pure functions.
- Clock values, timestamps of rows and runs, error texts, the wait for the database at startup and the actual
  sleeping.
- Transforms that raise: an exception inside a transform has the effect of one in the write that follows it,
  which is modelled; it is not a branch of its own.
- The guards for missing key columns and non-datetime keys: rows are typed, only the NULL key is modelled.
  Identifier and mode checks before the loops likewise.
- The identity of ids: ids are integers standing for order-preserving text, and the id key is `film_id`.
- PATCH updates: only the batch size changes, between ticks; `enabled` is fixed. Several pipelines that share
  a sink table.
- Writers.BuildPayload: the Postgres branch of the source is a comprehension over the same records.
- Store.Store.Query: the source table of the imperative layer is static, so that the loops terminate; sources
  that change during a run are covered by the engine only.
- Runners.RunSqlIncremental: which transform the pipeline type selects is not modelled; it is a parameter.
- Manager.Tick: the order by name is the order of the given list, and the process-wide effect of a crash on
  the pipelines not being dispatched is not modelled.
- FullScan.DispatchFull: run rows and backoff are those of the incremental dispatch and are not repeated; their
  awaits are.
- Transforms.NormalizeTitle: titles that are neither text nor empty raise in the source and are kept here.
- Recovery.Catalog.Startup: set-at-once updates instead of one row after another, as in the UPDATE statements.
