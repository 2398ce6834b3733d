# Verification of the LLM worker

A Dafny 4.11 model of the LLM worker and proofs about it. The worker polls ClickHouse for
pending batches, runs each batch's rows through a bounded thread pool against Bedrock or
the Anthropic Messages API, writes the results back in chunks, and marks the batch
complete. `dafny verify dfyconfig.toml` checks the whole project.

| file | what it holds |
|---|---|
| `Json.dfy`, `Rows.dfy`, `Permutations.dfy`, `Paths.dfy` | JSON values with Python's dynamic access, the table rows and row parsing, and small mathematics |
| `Pool.dfy` | `process_batch_iter` and `invoke` as a step machine: generator and worker threads interleave freely |
| `PoolInvariants.dfy`, `PoolTheorems.dfy`, `PoolProgress.dfy`, `PoolRefinement.dfy` | what every step keeps; exactly once, abort bounds and causality; termination; agreement with the sequential program |
| `Provenance.dfy` | what a result row can be at all: an answer, a refusal or an abort with a cause |
| `Executor.dfy` | the same code as loops over a mutable object, each statement logged as a step of the machine |
| `PageWriter.dfy` | the lazy generator driven by the 50-row chunk writer: how much work a crash can lose |
| `Tables.dfy`, `Protocol.dfy` | the append-only tables and their queries; any number of workers with crashes and ambiguous writes |
| `Fleet.dfy` | the whole system: any number of workers, each running its pages through a pool and a chunk writer over shared tables; it refines `Protocol` |
| `Store.dfy`, `Service.dfy`, `Publish.dfy` | the retried and chunked writes, the page loop, the poll loop and the publish timer as mutable objects |
| `Adaptive.dfy`, `Bedrock.dfy` | the learned temperature and inference-profile fallbacks, as functions and as the provider object |
| `Learning.dfy` | the temperature fallback run by many threads at once against one provider |
| `Contract.dfy`, `Translate.dfy`, `Envelope.dfy` | normalising v0 and v1 rows; the two request builders; the two reply extractors |
| `Licenses.dfy` | the licence tree writer and the drift check over a file tree |

Assumptions, all visible as preconditions or as guards of the machines' steps: row ids do
not repeat within a batch; a batch gets no more inputs once it has a status row; results
are never deleted; `max_workers`, `retry_max_attempts` and `batch_page_size` are at least 1
(`src/llm_worker/config.py:76-84`). What the backend answers, which of two threads moves,
whether a write fails and whether a failed write landed are all left open.

Four promises hold only under a condition. Each is proved as an if-and-only-if, next to
inputs that show it fail:

- v0 and v1 spellings of a request agree unless the token limit is an explicit null and the
  request is otherwise acceptable (`Contract.SpellingsAgree`, `Contract.NullTokenLimitDiffers`).
- Tools survive Bedrock's `toolConfig` (`Translate.ConverseToolsRoundTrip`) unless a
  description is falsy but not `""` (`Translate.NullDescriptionIsLost`) or the forced name is
  falsy but not null (`Translate.EmptyForcedNameIsLost`).
- Both extractors write the same envelope (`Envelope.EnvelopeParity`) unless, with JSON
  output, an empty text block follows the JSON object (`Envelope.EmptyTextHidesAnswer`), a
  refusal comes without its details or they without it (`Envelope.UnexplainedRefusalDiffers`),
  or details of another kind bring a category to a reply that is no result
  (`Envelope.StrayCategoryDiffers`).
- Checking what was just written finds no drift unless a licence text holds a carriage
  return: it is written as it is and read back with newlines translated
  (`Licenses.Regenerate`, `Licenses.CarriageReturnDrifts`). The licence texts the script
  extracts are themselves read with newlines translated (`scripts/gen_licenses.py:72`), so
  they never do (`Licenses.TranslatedTextsNeverDrift`).

## Model

| member | source | states |
|---|---|---|
| PoolTheorems.ExactlyOnce | src/llm_worker/executor.py:169-220 | Every schedule that consumes the generator emits each input row exactly once, and the results carry exactly the inputs' ids. |
| PoolTheorems.AtEveryPoint | src/llm_worker/executor.py:176-202 | At every point of every schedule at most `max_workers` futures are unreaped, and exactly that many while the generator waits with rows left to submit; no row has been emitted twice, and fewer than `max_workers` of the rows called had their first call after the abort flag was set. |
| PoolTheorems.AbortBound | src/llm_worker/executor.py:143-155 | If every call the backend can make aborts the batch, the call history of every reachable state names at most `max_workers` rows, whatever the other rows hold. |
| PoolTheorems.CallsPartition | src/llm_worker/executor.py:81-167 | By the record of calls made, a consumed page splits three ways: aborted rows, failed and never called; rows the parser refused, failed with its error and never called; and called rows, whose columns say what the last answer was, all answers before having been worth a retry. |
| PoolTheorems.AnswersArrive | src/llm_worker/executor.py:124-167 | Column by column: a called row settled by a reply is emitted complete, under its own ids, with that text and no error; one settled by an error is failed, with an empty response and that error. |
| PoolTheorems.EmissionKinds | src/llm_worker/executor.py:66-167 | The three-way split holds of what has been emitted in any sound state, consumed or not. |
| Provenance.EmissionsAreGenuine | src/llm_worker/executor.py:66-167 | Whatever a page yields is an answer the backend can give to an attempt of that row, the parser's refusal of it, or an abort in a batch the backend can abort. |
| Provenance.FlagMeansStrike | src/llm_worker/executor.py:145-155 | The abort flag is only ever up when the backend could abort the batch on some row of the page. |
| Provenance.ConsumedIsGenuine | src/llm_worker/executor.py:169-220 | So is every result of a consumed page, and it is of the page's batch. |
| Provenance.NoneAborted | src/llm_worker/executor.py:66-74 | A backend that aborts no batch has no row reported as aborted. |
| PoolTheorems.CallsAreReal | src/llm_worker/executor.py:42-64 | Every answer on record was given to a row of the page within its attempts and is one the backend can give; at most one settles a row. |
| PoolTheorems.EmittedIsPart | src/llm_worker/executor.py:169-220 | What has been emitted at any point answers rows of the page, each at most once. |
| PoolTheorems.AbortHasItsCause | src/llm_worker/executor.py:145-167 | A result that reads "Batch aborted" exists only beside a row for which the record holds an aborting answer the backend could give, and which was emitted with that error. |
| PoolTheorems.RunIsSound | src/llm_worker/executor.py:169-220 | All invariants of the pool hold in every state of every schedule. |
| PoolTheorems.LateBoundKept | src/llm_worker/executor.py:81-89 | Every step keeps the number of rows past the abort check, or called late, below `max_workers`. |
| PoolTheorems.StrikeBoundKept | src/llm_worker/executor.py:143-155 | With a backend that aborts every call, every step keeps the rows on record as called, or about to be, within `max_workers`. |
| PoolInvariants.ShapeKept | src/llm_worker/executor.py:182-216 | Every step keeps the window of in-flight futures: bounded, holding every unfinished task, and free below `max_workers` outside the wait. |
| PoolInvariants.ConservedKept | src/llm_worker/executor.py:174-220 | Every step keeps the multiset of emitted plus owed rows equal to the input rows. |
| PoolInvariants.SourcedKept | src/llm_worker/executor.py:66-167 | Every step keeps each result true to its row, to the branch that made it and to the record of calls: a result of the backend is that of the answer that settled the row. |
| PoolProgress.NeverStuck | src/llm_worker/executor.py:188-216 | Until the generator is exhausted, some thread can move: the pool does not deadlock. |
| PoolProgress.StepPays | src/llm_worker/executor.py:42-64 | Every step uses up part of a finite budget of attempts and loop turns. |
| PoolProgress.SchedulesAreBounded | src/llm_worker/executor.py:42-64 | No schedule has more than `n * (max_attempts + 5) + 12 * n + 8` steps for `n` rows. |
| PoolProgress.MaximalSchedulesFinish | src/llm_worker/executor.py:169-220 | A schedule that nothing extends has emitted every row exactly once. |
| PoolProgress.EveryRunCanFinish | src/llm_worker/executor.py:169-220 | From every reachable state the generator can be consumed to its end, keeping what it has emitted. |
| PoolProgress.PartOfAnAnswer | src/llm_worker/main.py:166-176 | Whatever a page has yielded when its worker dies is the beginning of an answer to every row of the page. |
| PoolRefinement.EachAsIfAlone | src/llm_worker/executor.py:76-167 | With a deterministic backend and no aborting row, each emitted result is what `invoke` returns on that row alone. |
| PoolRefinement.SchedulesAgree | src/llm_worker/executor.py:169-220 | Under the same conditions every schedule returns the same multiset of results as mapping `invoke` over the inputs. |
| PoolRefinement.OneWorkerIsSequential | src/llm_worker/executor.py:182-220 | With one worker the results come in input order: each row in turn up to the first that aborts, then aborted results. |
| Executor.CompleteWithRetry | src/llm_worker/executor.py:42-64 | At most `retry_max_attempts` calls, every one but the last failing with a retryable error, the last such only when none is left; the row's ids, status, response and error are those of the last answer. |
| Executor.Invoke | src/llm_worker/executor.py:76-167 | After an abort no call is made and the row is failed as aborted; a row that does not parse makes none and is failed with the parser's error; otherwise its columns are those of the last answer, and the flag is set exactly by an aborting error. |
| Executor.BatchIter.ParseRow | src/llm_worker/executor.py:91-141 | Parsing a row, and beginning its first call if it parses, is a step of the pool's machine and touches only its own task. |
| Executor.BatchIter.AwaitAnswer | src/llm_worker/executor.py:42-64 | The end of one provider call is a step of the pool's machine and touches only its own task. |
| Executor.BatchIter.Advance | src/llm_worker/executor.py:76-167 | Each stage of `invoke` is a step of the pool's machine and touches only its own task. |
| Executor.BatchIter.Refill | src/llm_worker/executor.py:182-202 | Submitting while there is room is a run of the machine. |
| Executor.BatchIter.WaitFirstCompleted | src/llm_worker/executor.py:188-189 | The wait returns a non-empty set of finished in-flight futures. |
| Executor.BatchIter.Reap | src/llm_worker/executor.py:190-192 | Yielding the finished futures, with the pool moving at each yield, is a run of the machine. |
| Executor.BatchIter.StopOnAbort | src/llm_worker/executor.py:194-196 | Once the flag is up, exactly the unsubmitted rows are added to the aborted ones and nothing more is submitted. |
| Executor.BatchIter.CancelFirst | src/llm_worker/executor.py:204-205 | Cancelling the first future left is a step of the machine; it stops the row if no thread has begun it, and touches no other. |
| Executor.BatchIter.CancelQueued | src/llm_worker/executor.py:204-205 | Cancelling what is left, in order, is a run of the machine while threads still start queued tasks. |
| Executor.BatchIter.Report | src/llm_worker/executor.py:207-213 | Reporting a finished or cancelled future is a step of the machine. |
| Executor.BatchIter.Drain | src/llm_worker/executor.py:207-213 | Each future left is reported through its result or joins the aborted rows. |
| Executor.BatchIter.SkipAborted | src/llm_worker/executor.py:215-220 | The aborted rows are emitted to the end of the generator. |
| Executor.BatchIter.Process | src/llm_worker/executor.py:169-220 | The loops terminate, perform a complete run of the machine, and answer every row of the page once. |
| Rows.Decode | src/llm_worker/executor.py:91-141 | A row reaches the provider only as a well-formed request. |
| Rows.DecodeReads | src/llm_worker/executor.py:91-141 | The request is built from the row's own model, prompt, params and tool config in that order, an empty column standing for an empty object; what the builder refuses is malformed. |
| Rows.BadColumnIsInvalid | src/llm_worker/executor.py:92-110 | Either column that is no JSON text fails the row as invalid JSON, whatever the other holds. |
| Rows.RowDenotes | src/llm_worker/executor.py:91-141 | A row whose columns spell an acceptable request, in any mix of versions, becomes that request, field by field. |
| PageWriter.PageRunIsSound | src/llm_worker/main.py:166-198 | While the generator is consumed chunk by chunk with failing writes, the chunks and the pending results are always the emitted results in order. |
| PageWriter.LostWorkBound | src/llm_worker/main.py:166-176 | In every reachable state at most `max_workers + 49` submitted rows are not in the results table, so a crash repeats at most that many. |
| PageWriter.GivesUpAfterThree | src/llm_worker/main.py:178-198 | An error escapes the chunk writer exactly when three writes in a row have failed, and until then the same chunk is sent again. |
| PageWriter.ReturnedPageIsComplete | src/llm_worker/main.py:166-198 | When the loop returns, the chunks are the result stream cut at every 50th, none empty, only the last short, and answer each row of the page once. |
| Tables.PageIsNextRows | src/llm_worker/clickhouse.py:140-160 | A page holds rows of the batch without a result, none twice, by ascending id, as many as the limit allows. |
| Tables.PageSkipsNothing | src/llm_worker/clickhouse.py:157-158 | A missing row with a smaller id than one on the page is on the page too. |
| Tables.CountInputsIsCardinality | src/llm_worker/clickhouse.py:190-192 | `total_rows` is the number of distinct input rows. |
| Tables.CountIfCounts | src/llm_worker/clickhouse.py:186-201 | Each count is the number of result rows of the batch that have its status. |
| Tables.CountInputsCounts | src/llm_worker/clickhouse.py:190-192 | `total_rows` is the number of input rows of the batch, repeated ids included. |
| Tables.CountsOfCovered | src/llm_worker/clickhouse.py:186-201 | Once every input has a result, completed plus failed is at least the total, and equal to it if no row has two results. |
| Protocol.PendingIsExact | src/llm_worker/clickhouse.py:124-138 | The pending query returns exactly the batches with a `pending` and no `complete` row, said on the rows of the table. |
| Protocol.EmptyPageMeansCovered | src/llm_worker/main.py:114-117 | An empty page means that every input row has a result. |
| Protocol.StepIsSafe | src/llm_worker/main.py:111-164 | Each step of a worker keeps what it is about to write true of the tables it saw. |
| Protocol.SafeKept | src/llm_worker/main.py:65-229 | Every step of any worker or of the producer keeps the tables and all workers safe. |
| Protocol.RunSafety | src/llm_worker/main.py:65-229 | For any number of workers, crashing anywhere and suffering clean or ambiguous write failures: a `complete` row means every input has a result; its total is the number of the batch's inputs, its two counts together cover it, and neither exceeds the number of the batch's results with that status; and every result is for an input. |
| Protocol.AloneSafeKept | src/llm_worker/main.py:111-229 | With one worker, every step other than an ambiguous result write keeps the counts of all `complete` rows equal to the tables, and no row with a result under way a second time. |
| Protocol.MarkingGivesUpAfterThree | src/llm_worker/main.py:200-229 | A status row is sent until it is written or three writes of it have failed, and then the worker polls again. |
| Protocol.ExactCounts | src/llm_worker/main.py:130-160 | With one worker and failed result writes that land nothing, `completed` and `failed` of every `complete` row equal the numbers of the batch's completed and failed results, and add up to the total. |
| Fleet.OkKept | src/llm_worker/main.py:111-198 | Every step of the whole system keeps each worker's pool, generator and chunk writer sound, and every row it counts as written in the results table. |
| Fleet.StepSimulates | src/llm_worker/main.py:111-198 | Every step of the whole system, down to a pool thread's, is a step of the protocol or one it does not see. |
| Fleet.Refines | src/llm_worker/main.py:65-229 | Every run of the whole system is a run of the protocol, over the same tables. |
| Fleet.FleetIsSafe | src/llm_worker/main.py:65-229 | The run safety above, counts included, holds of the whole system. |
| Fleet.FleetCountsExactly | src/llm_worker/main.py:130-160 | So do the exact counts, with one worker and failed result writes that land nothing. |
| Fleet.TracedKept | src/llm_worker/main.py:111-198 | Every step of the whole system keeps each page made of input rows of one batch and each result row genuine. |
| Fleet.FleetResultsAreGenuine | src/llm_worker/main.py:111-198 | In every state of every run each result row is an answer the backend can give to an attempt of its input row, the parser's refusal of it, or an abort in a batch the backend can abort; if it aborts none, no row says it was aborted. |
| Fleet.FleetLosesLittle | src/llm_worker/main.py:166-176 | At any point of any run, each worker has called the backend for at most `max_workers + 49` rows of its page that have no result row. |
| Store.AllLandedIds | src/llm_worker/main.py:178-198 | However often a retried insert lands, the ids with a result are the old ones and the inserted ones. |
| Store.ClickHouse.ReadPage | src/llm_worker/clickhouse.py:140-172 | One read is counted, and returns the page or fails. |
| Store.ClickHouse.WriteResults | src/llm_worker/clickhouse.py:174-184 | An insert appends its rows, or fails with or without having appended them. |
| Store.ClickHouse.WriteStatus | src/llm_worker/clickhouse.py:203-222 | A status insert appends its row, or fails with or without having appended it. |
| Store.ClickHouse.WriteResultsWithRetry | src/llm_worker/main.py:178-198 | At most 3 inserts, exactly 3 before giving up, append nothing but the chunk's rows, at most 3 times each; success means all of them landed. |
| Store.ClickHouse.WriteResultsInChunks | src/llm_worker/main.py:166-176 | The chunks concatenate to the stream, each of 1 to 50 rows and all but the last of 50; success means all rows landed, failure that only rows of the stream did. |
| Store.ClickHouse.WriteStatusWithRetry | src/llm_worker/main.py:200-229 | At most 3 inserts, exactly 3 before giving up; the status row landed at most once for each, at least once on success, and nothing else changed. |
| Service.PagesIsCeiling | src/llm_worker/main.py:114-128 | The page count used below is the rounded-up quotient of rows and page size. |
| Service.PageIsWorkedOff | src/llm_worker/main.py:114-128 | Writing the answers of a page takes exactly that page off the missing rows. |
| Service.MarkingRemoves | src/llm_worker/clickhouse.py:124-138 | A `complete` row takes its batch, and no other, off the pending list, however often it landed. |
| Service.PollIsNextBatches | src/llm_worker/clickhouse.py:124-138 | A poll gives pending batches by ascending id, as many as the limit allows, and skips none. |
| Service.PageAdvances | src/llm_worker/main.py:114-128 | A page's writes add genuine results of the batch, however the pool was scheduled and wherever a write failed. |
| Service.NoneAborted | src/llm_worker/executor.py:66-74 | With a backend that aborts no batch, none of the results a worker adds says it was aborted. |
| Service.OnePollDrains | src/llm_worker/main.py:69-77 | An error-free poll starts the first `limit` pending batches, none twice, and leaves exactly the others. |
| Service.Worker.ProcessPage | src/llm_worker/main.py:114-128 | A page is run through the pool, and what is appended to the results is what that run emitted: nothing else ever, and all of it on success, which shrinks the missing rows by the page's size. |
| Service.Worker.MarkComplete | src/llm_worker/main.py:130-160 | The status row written for a covered batch gives the numbers of its inputs, of its completed and of its failed results in the tables. |
| Service.Worker.ProcessSingleBatch | src/llm_worker/main.py:111-164 | It terminates; on success the page query ran exactly `ceil(outstanding / page_size) + 1` times, with a publish check between any two pages, every input has a result, and a `complete` row with the tables' own counts was written; on failure any row written is still true. Every appended result is of the batch and genuine. |
| Service.Worker.ServeBatches | src/llm_worker/main.py:73-77 | The batches start in the list's order, each right after a clear look at the stop flag, until one fails or a stop is seen; all started but one that failed leave the pending list, and without errors all of them do. |
| Service.Worker.Run | src/llm_worker/main.py:65-85 | In every run no batch starts once the stop flag has been seen, every poll is preceded by a publish check, and only genuine results and true status rows are added; without errors or new arrivals all N pending batches are started once and completed after `ceil(N / limit)` non-empty polls. |
| Publish.PublishSchedule | src/llm_worker/main.py:87-109 | A call attempts a write exactly when the worker is not stopping and 600 s have passed since every earlier success and 30 s since every earlier failure. |
| Publish.Publisher.MaybePublish | src/llm_worker/main.py:87-109 | The method with its one field follows that schedule. |
| Adaptive.FallbackLearnsOnlyItsModel | src/llm_worker/providers/base.py:149-188 | Undisturbed, one fallback makes a second call exactly when it learns its own model, and then for the first time. |
| Adaptive.Complete | src/llm_worker/providers/bedrock.py:110-168 | For every outcome stream and whatever other threads learn meanwhile: one to three calls, the ARN only before the bare model, at most one rejected temperature, and no such rejection reaches the caller; a request with thinking or a JSON format, or for a model already learned, never sends a temperature. |
| Adaptive.AbsorbedErrorsFailTheRow | src/llm_worker/providers/bedrock.py:170-183 | The errors the fallbacks absorb are never worth a retry or an abort to either adapter. |
| Adaptive.Classification | src/llm_worker/providers/bedrock.py:170-176 | To Bedrock exactly denied access aborts the batch, and exactly four error codes and transport errors are retried; to the Messages adapter exactly its authentication and its transient errors. |
| Adaptive.RejectionMeans | src/llm_worker/providers/base.py:26-40 | A message rejects the temperature exactly when it names it, in any case, and says not supported, unsupported or deprecated. |
| Adaptive.DeprecatedIsRejection | src/llm_worker/providers/base.py:30-31 | The documented deprecation message is such a rejection. |
| Adaptive.UnsupportedIsRejection | src/llm_worker/providers/base.py:30-31 | So is that of a model that does not support it, in another case. |
| Adaptive.RangeIsNoRejection | src/llm_worker/providers/base.py:31-33 | The documented range error is not. |
| Adaptive.CompleteIsPrescribed | src/llm_worker/providers/bedrock.py:110-152 | The calls of a completion: the first goes to the configured ARN if and only if there is one and it has not been found invalid within 300 s, with a temperature if and only if the request has no thinking or format and the model is not learned; a rejected temperature is followed by the same call without one, an ARN not found by a call of the bare model, and nothing else by any call. |
| Adaptive.PrescribedIsUnique | src/llm_worker/providers/bedrock.py:110-152 | That determines the calls completely. |
| Adaptive.MessagesArePrescribed | src/llm_worker/providers/anthropic_messages.py:54-66 | The Messages adapter's calls are the same without profiles. |
| Adaptive.InvalidatesMeans | src/llm_worker/providers/bedrock.py:112-135 | An ARN is noted as invalid exactly when one of the calls went to it and was not found. |
| Adaptive.OneVisit | src/llm_worker/providers/bedrock.py:110-152 | A completion costs one call plus one if it finds the ARN invalid plus one if it learns the model's temperature, and touches no other model's state. |
| Adaptive.CallsAreAccountedFor | src/llm_worker/providers/base.py:176-188 | Over any serial history, a model's calls are exactly its completions, plus its ARN invalidations, plus one if its temperature was learned. |
| Adaptive.InvalidationsAreSpaced | src/llm_worker/providers/bedrock.py:112-143 | Of any two visits that find a model's ARN invalid, the later begins at least 300 s after the earlier noted it. |
| Adaptive.InvalidationsTakeTime | src/llm_worker/providers/bedrock.py:112-143 | So the n-th comes at least `300 * (n - 1)` s after the history began. |
| Adaptive.AmortisedCalls | src/llm_worker/providers/bedrock.py:110-152 | k completions over T seconds make at most `k + 1 + floor(T / 300) + 1` calls. |
| Adaptive.RetriedRowCalls | src/llm_worker/executor.py:42-64 | The fallbacks nested in the executor's retry cost a row at most two calls more than its attempts while those take less than 300 s. |
| Learning.RejectionsAreFew | src/llm_worker/providers/base.py:176-188 | However many fallbacks W threads run against one provider, and however they interleave, at most W calls that sent a model a temperature are rejected for it, and none if the model was known at the start. |
| Learning.RunIsBounded | src/llm_worker/providers/base.py:176-188 | Until a model is learned every rejection is still held by its thread; from then on rejections and calls on their way together stay within W. |
| Learning.LearnedStays | src/llm_worker/providers/base.py:178-188 | Once a model is learned it stays so, no fallback begun later sends it a temperature, and only calls already on their way can still be rejected. |
| Learning.EndsAsFallback | src/llm_worker/providers/base.py:149-188 | Each fallback of a thread makes the calls, and leaves the set, of the single-threaded function given what the other threads learned meanwhile. |
| Bedrock.Provider.Converse | src/llm_worker/providers/bedrock.py:154-168 | A call sends what it is told to, and other threads may learn while it is awaited. |
| Bedrock.Provider.CompleteWithTemperatureFallback | src/llm_worker/providers/base.py:149-188 | The method's calls and final state are those of the fallback function. |
| Bedrock.Provider.ResolveTarget | src/llm_worker/providers/bedrock.py:137-152 | The ARN if one is configured and was not found invalid within the last 300 s, else the bare model; a model is noted as unmapped only when it was looked up in vain. |
| Bedrock.Provider.CompleteRequest | src/llm_worker/providers/bedrock.py:110-135 | The mutable provider makes exactly the prescribed calls, at most three, ends in the function's state, and raises or returns what the last of them did. |
| Bedrock.Provider.CompleteMessages | src/llm_worker/providers/anthropic_messages.py:54-66 | Exactly the prescribed calls without profiles: at most two, both to the bare model, the second without temperature. |
| Contract.PrefixedRefResolves | src/llm_worker/contract.py:68-76 | Whatever follows an `mc:` or `provider:` prefix survives, further colons and prefixes included. |
| Contract.UnprefixedRefStays | src/llm_worker/contract.py:68-76 | A value without such a prefix is left alone, and comes back from under either. |
| Contract.BuildRequest | src/llm_worker/contract.py:79-109 | A normalised request has named tools, never tools beside a JSON format, never thinking beside a forced tool, and no empty thinking or effort. |
| Contract.EncodedToolDenotes | src/llm_worker/contract.py:152-172 | A tool normalises to the same value, or the same error, in either spelling. |
| Contract.EncodedToolsDenote | src/llm_worker/contract.py:112-119 | So does a list in which every tool has its own spelling. |
| Contract.EncodedConfigDenotes | src/llm_worker/contract.py:112-184 | So do the tools and the forced tool of a whole config, whichever way the choice is spelled. |
| Contract.RaisesIffUnacceptable | src/llm_worker/contract.py:79-184 | However it is spelled, a request fails if and only if it has an unnamed tool, a malformed format or one beside tools, a thinking or effort that is not a non-empty string, or thinking beside a forced tool. |
| Contract.RequestDenotes | src/llm_worker/contract.py:79-184 | Every other request is normalised to what it says, however it is spelled: its model and prompt, its limit or 512, its temperature or 0, its tools one by one with their defaults, its forced name, its format, thinking and effort. |
| Contract.NewKeysWin | src/llm_worker/contract.py:84-86 | Of two spellings in one row the newer key wins, unless it is a null limit. |
| Contract.OnlyObjectsAreRead | src/llm_worker/contract.py:79-109 | Params, or a non-empty config, that are no object fail the row; an empty config of any kind is none. |
| Contract.OneBadTool | src/llm_worker/contract.py:112-119 | One tool that is no object fails the row. |
| Contract.UnrecognisedChoice | src/llm_worker/contract.py:175-184 | A choice that names no tool forces none. |
| Contract.SpellingsAgree | src/llm_worker/contract.py:79-184 | Any two spellings of one abstract request normalise to the same request or error if and only if they use one key for the token limit, or it is not an explicit null, or the request is unacceptable. |
| Contract.NullTokenLimitDiffers | src/llm_worker/contract.py:84-86 | The concrete request on which the two versions differ. |
| Translate.BuildToolConfig | src/llm_worker/providers/bedrock.py:235-246 | Every tool is nested in Converse's own shape, with nothing beside it, and so is the choice; read as v0, the config gives back the tools, with falsy descriptions as `""`, and the forced tool if it is usable. |
| Translate.ConverseToolsRoundTrip | src/llm_worker/providers/bedrock.py:235-246 | It gives back the same tools and forced tool if and only if no description is falsy other than `""` and the forced name is absent or non-empty. |
| Translate.NullDescriptionIsLost | src/llm_worker/providers/bedrock.py:238-240 | The concrete tool that does not survive. |
| Translate.EmptyForcedNameIsLost | src/llm_worker/providers/bedrock.py:244-245 | The concrete forced name that does not survive. |
| Translate.BuildOutputConfig | src/llm_worker/providers/bedrock.py:217-232 | The schema is sent as printed JSON under its name, with a description only when there is one. |
| Translate.BuildConverseKwargs | src/llm_worker/providers/bedrock.py:186-214 | The Converse request, read field by field, asks for exactly what the normalised request means: one user message, limits, tools in Converse's own nesting, format, thinking and effort, with the schema as its printed text reads back; refusal details are asked for beside a format only, and there are no other keys. |
| Translate.BuildFlatTools | src/llm_worker/providers/anthropic_messages.py:93-101 | Every tool has the Messages API's own three keys and no other; read as v1, the items are the tools. |
| Translate.BuildKwargs | src/llm_worker/providers/anthropic_messages.py:83-117 | The Messages request, read field by field, asks for exactly what the normalised request means: one user message, limits, tools in its own flat shape, a choice that says it is of a tool, format, thinking and effort, with no other keys. |
| Translate.MessagesToolsRoundTrip | src/llm_worker/providers/anthropic_messages.py:93-103 | The tools always come back, and the forced tool if and only if it is absent or usable. |
| Translate.BuildForBoth | src/llm_worker/providers/bedrock.py:186-214 | The two backends are asked for the same thing if and only if no description is falsy other than `""` and a schema reads back from its printed text. |
| Envelope.BuildOutput | src/llm_worker/providers/base.py:43-88 | The dict filled by branches is the envelope of the reply's verdict. |
| Envelope.WrittenReadsBack | src/llm_worker/providers/base.py:43-88 | The envelope determines the text, the tool inputs, and which of the four endings it was with its stop reason and category. |
| Envelope.PlainEnvelope | src/llm_worker/providers/base.py:65-72 | Without JSON output the envelope is the joined texts and, unless there are none, the tool inputs in order, and nothing else. |
| Envelope.ResultIffFinishedObject | src/llm_worker/providers/base.py:68-88 | With JSON output every key is determined: `tool_uses` holds the object of the last text if and only if there is one and the reply stopped by itself; otherwise the stop reason, the category and, unless it is a refusal, which of the two errors it was. |
| Envelope.ExtractOutput | src/llm_worker/providers/bedrock.py:249-275 | The Bedrock extractor writes the envelope of the non-empty texts, the tool inputs present, and the refusal recognised from `stop_details`. |
| Envelope.ConverseContentJoins | src/llm_worker/providers/bedrock.py:256-264 | The texts and inputs of a Bedrock reply are those of its blocks, in order. |
| Envelope.ConverseBlockAdds | src/llm_worker/providers/bedrock.py:256-264 | A block gives its text if it has a non-empty one, and else its tool input if it has one. |
| Envelope.ToLlmResponse | src/llm_worker/providers/anthropic_messages.py:120-146 | The Messages extractor writes the envelope of all texts, tool inputs and the stop details' category. |
| Envelope.MessageContentJoins | src/llm_worker/providers/anthropic_messages.py:121-127 | The texts and inputs of a Messages reply are those of its blocks, in order. |
| Envelope.SameContent | src/llm_worker/providers/bedrock.py:256-264 | For corresponding block lists Bedrock keeps the non-empty ones of the texts and the same tool inputs. |
| Envelope.EnvelopeParity | src/llm_worker/providers/anthropic_messages.py:120-146 | Both extractors write the same envelope always without JSON output, and with it if and only if refusal and refusal details come together, or, of any other reply, no empty text hides a JSON object and no category comes beside a failure. |
| Envelope.EmptyTextHidesAnswer | src/llm_worker/providers/bedrock.py:258-259 | The concrete reply with an empty text on which they differ. |
| Envelope.UnexplainedRefusalDiffers | src/llm_worker/providers/bedrock.py:265-270 | The concrete refusal without details on which they differ: Bedrock's `content_filtered` is recorded as a failure. |
| Envelope.StrayCategoryDiffers | src/llm_worker/providers/anthropic_messages.py:144-146 | The concrete reply with details of another kind on which they differ. |
| Paths.DescendantsComeLater | scripts/gen_licenses.py:297 | In the sorted listing everything inside a directory comes after it. |
| Paths.Sorted | scripts/gen_licenses.py:297 | The listing is strictly sorted by component sequence and has exactly the given paths. |
| Licenses.CanonicalDirIsCanonical | scripts/gen_licenses.py:104-106 | Normalising a directory name twice changes nothing more. |
| Licenses.CanonicalDirIsPlain | scripts/gen_licenses.py:104-106 | The name has no capital, no underscore, no dot and no two hyphens in a row. |
| Licenses.WordIsLowered | scripts/gen_licenses.py:104-106 | A word without separators keeps its letters, in lower case. |
| Licenses.RunIsOneHyphen | scripts/gen_licenses.py:104-106 | A whole run of separators becomes one hyphen between the two sides, each read on its own. |
| Licenses.BuildOutputs | scripts/gen_licenses.py:277-289 | Exactly the NOTICE and every package's files are generated, a path shared by packages holding the last one's text, and all lie below LICENSES. |
| Licenses.DeletionIsSafe | scripts/gen_licenses.py:297-298 | Walking the sorted tree in reverse, each entry is still there when it is reached and has nothing left inside it. |
| Licenses.FileTree.CleanLicenses | scripts/gen_licenses.py:295-298 | Every `rmdir` meets an empty directory, LICENSES ends up empty and nothing else changes. |
| Licenses.FileTree.MakeDirectories | scripts/gen_licenses.py:301 | Directories are made along the whole path unless a file is in the way, and then nothing is. |
| Licenses.FileTree.WriteFile | scripts/gen_licenses.py:300-302 | A file is written unless a file or directory is in the way. |
| Licenses.FileTree.WriteOutputs | scripts/gen_licenses.py:292-302 | From any tree, even where the output directory is missing or a file, it succeeds if and only if no file is in place of it, NOTICE is no directory and LICENSES no file in the way; then the generated files are exactly the outputs and the rest is untouched. |
| Licenses.FileTree.FindDrift | scripts/gen_licenses.py:305-322 | Exactly the missing, changed and stale paths are reported, and nothing is if and only if the NOTICE and LICENSES files as read equal the outputs. |
| Licenses.Regenerate | scripts/gen_licenses.py:292-322 | From any tree, writing and then checking finds nothing if and only if no text holds a carriage return. |
| Licenses.CarriageReturnDrifts | scripts/gen_licenses.py:302-314 | The concrete text that drifts. |
| Licenses.PairIsNewline | scripts/gen_licenses.py:313 | A carriage return and newline read as one newline, wherever they stand. |
| Licenses.LoneReturnIsNewline | scripts/gen_licenses.py:313 | So does a carriage return by itself. |
| Licenses.TranslatedTextsNeverDrift | scripts/gen_licenses.py:72 | Texts read with newlines translated, as the extracted ones are, never drift. |

## Left out

- Logging, sleeping, backoff times, signal installation, environment parsing and the provider registry: they do not decide what is written.
- The boto3, Anthropic and Azure clients: a call is an arbitrary outcome, and the Vertex and Foundry subclasses only build clients.
- JSON parsing and printing: `loads` is an arbitrary partial function and `dumps` an arbitrary one. What `loads` makes of a printed schema is part of what `Translate.BuildConverseKwargs` and `Translate.BuildForBoth` state; `loads("")` failing is assumed where it matters.
- The wording of error columns: `RowError` keeps which branch filled them and the backend's own text.
- ClickHouse itself: SQL text, TTL, partitions, deduplication tokens, partly landed blocks, and the capabilities-column check of `write_worker_info`. A UUID is a number, standing for whatever total order ClickHouse gives it.
- Errors other than ClickHouseError that escape `process_single_batch`, and exceptions that escape `invoke`: `invoke` is taken to return a result, and the provider to answer every call.
- Token usage counts of a reply, and the `process_batch` list wrapper.
- Lower-casing beyond ASCII, in temperature rejections and in canonical directory names.
- Malformed backend replies: the extractors take typed blocks in which a key may be missing, not arbitrary dicts.
- Service.Worker.ProcessPage: runs the page's generator to its end before the writer starts; the interleaving of the two, and what it can lose, is in `PageWriter` and `Fleet`.
- Service.Worker.Run: the moment of the stop signal is bounded by a parameter, so that the loop ends, and the clock and the writes' outcomes are arbitrary.
- Bedrock.Provider.CompleteMessages: the Anthropic errors that reject a temperature share one predicate with Bedrock's, since neither client raises the other's.
- Contract.NormalizeToolList: a dict given for `tools` fails the row with the error of its first key, and a map keeps no order; with keys of both kinds the model names the `AttributeError`.
- Executor.Invoke: takes no missing abort event; the worker always passes one.
- Fairness between batches when one keeps failing: the code promises none.
- In the licence script: extraction from the image, licence and copyright heuristics, the rendering of the NOTICE, symbolic links, and splitting a path text into components. The report of a drift check is a set, without the order of its lines.
