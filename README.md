# emr-data ETL core, modelled in Dafny

This is a model of the load pipeline of the emr-data ETL service. The service reads CSV exports of an
electronic medical record system (caregivers and their care logs) and writes them into a relational
database. The model covers:

- **Discovery and dispatch** (`Orchestrator`, `FileUtils`). The `.csv` files of the input directory
  are listed (in any letter case). Each is classified by name as a caregiver or a carelog file. The
  files run either in two parallel groups or one after another. The per-file results are summed into
  performance statistics.
- **Batching of one file** (`Batcher`). Rows stream in and are cut into batches of `batchSize`. A
  full batch starts when fewer than `maxConcurrency` batches are active; otherwise it is queued. A
  finishing batch starts the oldest queued one. At the end of the stream the partial batch runs,
  the queue drains, and a polling loop waits for `activePromises` to reach zero before resolving
  the file's counters.
- **Transformation** (`Transformer`, `Records`). A row is a property list. Each rule of a rule
  table overwrites its field. Only the caregiver e-mail rule can throw. Franchisors, agencies and
  locations are extracted by first occurrence of their key.
- **The two database writers** (`BatchWriter`, `Retry`). The caregiver writer upserts the
  dependencies, looks up existing caregivers, sorts the new ones by id and inserts them. It retries
  every failure up to `maxRetries` times and sleeps an exponential backoff only after a deadlock.
  The carelog writer keeps only carelogs whose caregiver exists and which are not stored yet, sorts
  them and inserts them. It retries only deadlocks. When a carelog batch throws, the batch falls
  back to writing chunks of `max(10, ⌊n/10⌋)` rows and counts each failed chunk's rows.
- **The counting gate** (`Semaphores`) that wraps each file of a parallel group.
- **The CSV reader** (`CsvReader`): the folds over a row stream that read, preview, take headers
  from and validate a file, and the keyed collection of several files.
- **The logger** (`Logging`): a singleton whose level comes from `LOG_LEVEL`, and a severity
  threshold filter.

The database is a `Store` of id sets. An `Oracle` decides, per attempt, whether an upsert fails,
whether a lookup throws (an existence lookup, or the `findUnique` that follows a failed
dependency upsert), and what a `createMany` reports for the data actually submitted. Every
writer property is proved for all oracles. An `Honest` oracle never reports more rows than it was
given; some bounds hold only for such oracles.

Where the source mutates state step by step, the model does too:

- `Batcher.FileRun` holds `processFile`'s closure variables as fields, and its callbacks are methods.
- `Semaphores.Semaphore` and `Logging.Logger` are classes with fields.
- The retry loops, the partition loops, the chunk loop, the `forEach` extractions, the sequential
  dispatch loop and the CSV folds are `while` or `for` loops. Each is proved equal to a specification
  function, and the properties are proved about that function.

## Model

| member | source | states |
|---|---|---|
| Common.Filter | src/service/optimizedEtlService.ts:54-63 | `filter` keeps only elements satisfying the predicate and never adds any |
| Common.FilterMember | src/service/optimizedEtlService.ts:54-63 | an element is in the filtered list exactly when it is in the input and satisfies the predicate |
| Common.FilterPartition | src/service/batchProcessor.ts:564-595 | filtering by a predicate and by its negation splits the input exactly, as a multiset and in length |
| Common.Map | src/transformers/dataTransformer.ts:22-24 | `map` keeps the length and applies the function at every index |
| Common.ToLower | src/utils/fileUtils.ts:16-17 | lower-casing keeps the length and maps every character |
| Records.ToText | src/transformers/dataTransformer.ts:31 | `String(v \|\| "")` gives "" for every falsy value and the string itself for a string |
| Records.Keys | src/service/csvReader.ts:65-87 | `Object.keys` lists one name per property, in property order |
| Records.Put | src/transformers/dataTransformer.ts:10-12 | overwriting a property the row has keeps the row's keys and their order |
| Records.GetPutSame | src/transformers/dataTransformer.ts:9-12 | after overwriting a present property, reading it gives the new value |
| Records.GetPutOther | src/transformers/dataTransformer.ts:9-12 | overwriting one property leaves every other property's value unchanged |
| Records.GetMissing | src/transformers/dataTransformer.ts:9 | a row reads `undefined` at every key it lacks |
| Transformer.Convert | src/transformers/dataTransformer.ts:162-389 | a rule's conversion throws exactly when it is the e-mail rule and the value is a truthy non-string |
| Transformer.RuleConversions | src/transformers/dataTransformer.ts:162-253 | text rules give "" for falsy values and keep strings; the boolean rule passes booleans, tests strings case-insensitively against "true" and gives false otherwise; date rules give null for falsy values and "None"; the e-mail rule keeps a non-blank string and replaces a falsy or blank value with the placeholder |
| Transformer.RuleTablesConversions | src/transformers/dataTransformer.ts:162-389 | no carelog rule is an e-mail rule, and the only caregiver e-mail rule is the one for `email` |
| Transformer.TransformData | src/transformers/dataTransformer.ts:5-20 | the rule loop returns the transformed row or the first thrown error, and reports the required fields it found missing, as `Transform` defines |
| Transformer.TransformAfterThrow | src/transformers/dataTransformer.ts:8-18 | once a rule throws, later rules change nothing |
| Transformer.TransformKeepsKeys | src/transformers/dataTransformer.ts:5-20 | the transformed row has the same keys in the same order as the input |
| Transformer.LastFieldFresh | src/transformers/dataTransformer.ts:162-389 | with one rule per field, the last rule's field is named by no earlier rule |
| Transformer.TransformMissing | src/transformers/dataTransformer.ts:13-17 | the fields reported missing are exactly the required fields the row lacks, never more entries than rules |
| Transformer.TransformOthers | src/transformers/dataTransformer.ts:5-20 | a key no rule names keeps its original value |
| Transformer.LastRuleValue | src/transformers/dataTransformer.ts:9-12 | the last rule's present field ends as that rule's conversion of the original value |
| Transformer.RuleValue | src/transformers/dataTransformer.ts:9-12 | rule `j`'s present field ends as that rule's conversion of the original value |
| Transformer.TransformValues | src/transformers/dataTransformer.ts:5-20 | every present ruled field becomes its rule's conversion of the original value and every other key keeps its value |
| Transformer.TransformThrows | src/transformers/dataTransformer.ts:199-208 | `transformData` throws exactly when an e-mail rule meets a present, truthy, non-string value |
| Transformer.TransformDataset | src/transformers/dataTransformer.ts:22-24 | one transformed row per input row, in order, and an error exactly when some row throws |
| Transformer.CaregiverRulesDistinct | src/transformers/dataTransformer.ts:162-270 | the caregiver rule table names each field once |
| Transformer.CarelogRulesDistinct | src/transformers/dataTransformer.ts:272-389 | the carelog rule table names each field once |
| Transformer.CaregiverRejected | src/transformers/dataTransformer.ts:86-107 | `toCaregiverData` fails exactly when the row has an `email` property holding a truthy non-string |
| Transformer.CarelogNeverThrows | src/transformers/dataTransformer.ts:109-131 | `toCarelogData` never throws |
| Transformer.TransformCaregivers | src/transformers/dataTransformer.ts:133-156 | every row goes to the results or to the invalid list, never both; an invalid entry holds the row by its index with its error; invalid indices increase |
| Transformer.TransformCarelogs | src/transformers/dataTransformer.ts:158-160 | one carelog per row |
| Transformer.ConvertedBound | src/transformers/dataTransformer.ts:133-156 | conversion never yields more caregivers than rows, and yields all of them when no row throws |
| Transformer.FirstSeenKeys | src/transformers/dataTransformer.ts:27-84 | an extraction holds each registered key once, and only keys some row registers |
| Transformer.FirstSeenOrigin | src/transformers/dataTransformer.ts:32-36 | each extracted entry was built from the first row that registers its key |
| Transformer.FirstSeenOrder | src/transformers/dataTransformer.ts:40 | entries come in the order of their first rows (`Map` insertion order) |
| Transformer.ExtractFirstSeen | src/transformers/dataTransformer.ts:27-84 | the `forEach` over a map gives exactly the entries of the first-seen specification, in order |
| Transformer.ExtractFranchisors | src/transformers/dataTransformer.ts:27-41 | returns the franchisors of the specification `Franchisors` |
| Transformer.ExtractAgencies | src/transformers/dataTransformer.ts:44-65 | returns the agencies of the specification `Agencies` |
| Transformer.ExtractLocations | src/transformers/dataTransformer.ts:68-84 | returns the locations of the specification `Locations` |
| Transformer.FirstSeenEntry | src/transformers/dataTransformer.ts:27-84 | entry `j` comes from the first row registering its key |
| Transformer.FranchisorsSpec | src/transformers/dataTransformer.ts:27-41 | one franchisor per distinct non-empty `franchisor_id`, taken from the first row carrying it |
| Transformer.AgenciesSpec | src/transformers/dataTransformer.ts:44-65 | one agency per distinct `agencyId-franchisorId` string among rows with both ids non-empty, from the first such row |
| Transformer.LocationsSpec | src/transformers/dataTransformer.ts:68-84 | one location per distinct `locations_id` among rows with a non-empty id and name, from the first such row |
| Transformer.AgencyKeyCollision | src/transformers/dataTransformer.ts:52 | two different agencies whose ids join to the same dashed key: only the first is extracted |
| Retry.OrDefault | src/service/batchProcessor.ts:290-292 | `x \|\| d` on a number keeps a non-zero `x` and gives `d` for 0 |
| Retry.PolicyOf | src/service/batchProcessor.ts:290-292 | a missing retry configuration or a zero setting falls back to 3 attempts, 1000 ms and 30000 ms; other settings are kept |
| Retry.Backoff | src/service/batchProcessor.ts:519-523 | the sleep after a deadlock is `baseDelay * 2^(attempt-1)` capped at `maxDelay` |
| Retry.BackoffMonotone | src/service/batchProcessor.ts:519-523 | with a non-negative base the backoff never shrinks across attempts, and stays at the cap once reached |
| Retry.BackoffSeries | src/service/batchProcessor.ts:794-798 | the list of backoffs for attempts 1 to n |
| Retry.RetryExhausted | src/service/batchProcessor.ts:532 | past the last attempt the loop throws the previous error |
| Retry.GiveUp | src/service/batchProcessor.ts:532 | the exhausted loop throws, having run `attempt - 1` attempts |
| Retry.RetrySucceeds | src/service/batchProcessor.ts:447-450 | a successful attempt returns its count |
| Retry.RetryBacksOff | src/service/batchProcessor.ts:514-523 | a deadlock before the last attempt sleeps the backoff and moves on |
| Retry.RetryThrows | src/service/batchProcessor.ts:785-803 | any other failure makes the carelog writer throw that error |
| Retry.RetryMovesOn | src/service/batchProcessor.ts:510-528 | any other failure makes the caregiver writer move on to the next attempt |
| Retry.RetryFromShape | src/service/batchProcessor.ts:296-532 | attempts run consecutively and never past `maxRetries`; the result is what the last attempt came to; each delay follows a deadlock and is capped, so there are fewer delays than attempts |
| Retry.RetryFromCounts | src/service/batchProcessor.ts:296-532 | the attempt and delay counts of a loop run and the cap on every delay |
| Retry.RetryFromLast | src/service/batchProcessor.ts:296-532 | a loop run's result is the last attempt's success or error, or the previous error when no attempt was left |
| Retry.RetryBounds | src/service/batchProcessor.ts:296-532 | at most `maxRetries` attempts; none with a negative `maxRetries`, and then the unknown-failure error |
| Retry.FirstAttemptRuns | src/service/batchProcessor.ts:296 | with a positive `maxRetries` at least one attempt runs |
| Retry.AlwaysDeadlockFrom | src/service/batchProcessor.ts:510-528 | when every attempt deadlocks, all attempts run, the backoffs are slept in between and the last deadlock is thrown |
| Retry.AlwaysDeadlock | src/service/batchProcessor.ts:510-532 | the same for a whole loop from attempt 1 |
| Retry.CarelogFrom | src/service/batchProcessor.ts:785-803 | on the carelog path the sleeps are the consecutive backoffs, every failed attempt but the last deadlocked, and an ordinary error ends the loop with that error |
| Retry.CarelogRetry | src/service/batchProcessor.ts:547-807 | the carelog loop's sleeps are the backoff series of its attempts but one, and a throw before the last allowed attempt is not a deadlock |
| Retry.CaregiverFrom | src/service/batchProcessor.ts:510-532 | the caregiver loop returns from the first success; otherwise it runs every attempt whatever the errors and throws the last |
| Retry.CaregiverRetry | src/service/batchProcessor.ts:296-532 | the same for a whole caregiver loop from attempt 1 |
| Retry.PathsDiverge | src/service/batchProcessor.ts:510-528 | an ordinary failure followed by a would-be success: the caregiver writer reaches the success without sleeping, the carelog writer throws at once |
| BatchWriter.UpsertAllSpec | src/service/batchProcessor.ts:302-379 | upserts only add keys, only the given ones, and all of them when none fails; they end without error when no upsert fails or no fallback `findUnique` throws, and an error is always the throw of the `findUnique` of a key whose upsert failed |
| BatchWriter.UpsertKeys | src/service/batchProcessor.ts:302-320 | one dependency loop computes `UpsertAll`: a failed upsert whose `findUnique` finds nothing only logs, one whose `findUnique` throws ends the loop with that error |
| BatchWriter.UpsertAllAppend | src/service/batchProcessor.ts:302-379 | upserting a concatenation is upserting one part, then the other, and an error in the first part skips the second |
| BatchWriter.UpsertDependencies | src/service/batchProcessor.ts:302-379 | the three upsert loops add what the specification `UpsertAll` adds for franchisors, then agencies, then locations, and return the first `findUnique` error, after which no later dependency is upserted |
| BatchWriter.DependencyLookups | src/service/batchProcessor.ts:314-316 | an attempt whose dependency upserts end in a thrown `findUnique` fails with that error (to be retried or rethrown); an attempt in which no such lookup throws goes on to the caregiver insert |
| BatchWriter.InsertSorted | src/service/batchProcessor.ts:418-419 | insertion adds exactly the element, as a multiset |
| BatchWriter.SortBy | src/service/batchProcessor.ts:418-419 | sorting is a permutation of its input |
| BatchWriter.SortedTail | src/service/batchProcessor.ts:418-419 | dropping the head keeps a sequence sorted |
| BatchWriter.SortedCons | src/service/batchProcessor.ts:418-419 | an element no larger than the head can go in front of a sorted sequence |
| BatchWriter.InsertSortedSorted | src/service/batchProcessor.ts:418-419 | under a total order, inserting into a sorted sequence keeps it sorted |
| BatchWriter.SortBySorted | src/service/batchProcessor.ts:418-419 | under a total order, the sort returns its input in key order |
| BatchWriter.CaregiverPlan | src/service/batchProcessor.ts:382-450 | new and stored caregivers split the batch; exactly the new ones are submitted, once per occurrence, in id order |
| BatchWriter.CaregiverAttemptStep | src/service/batchProcessor.ts:382-450 | one attempt's lookup, partition, sort and insert come to the oracle's caregiver outcome, and a success submitted `CaregiverData` |
| BatchWriter.InsertCaregiversBatchWithDependencies | src/service/batchProcessor.ts:278-533 | the caregiver writer computes `CaregiverWrite`, whose attempts end at the first thrown dependency `findUnique` or at the insert |
| BatchWriter.CaregiverTurn | src/service/batchProcessor.ts:296-528 | one turn of the retry loop upserts the dependencies, tries the insert, and either ends the loop with what the retry specification says or moves on |
| BatchWriter.CaregiverAttempts | src/service/batchProcessor.ts:296-532 | the retry loop runs as `Retry` specifies over outcomes in which a thrown dependency `findUnique` fails the attempt, like a failed insert; dependencies grow by every attempt's upserts; a success adds exactly the submitted ids and a failure adds none |
| BatchWriter.CaregiverWriteOf | src/service/batchProcessor.ts:278-533 | the caregiver write is determined by its loop run and the ids that run added |
| BatchWriter.CaregiverWriteSpec | src/service/batchProcessor.ts:278-533 | the caregiver writer leaves carelogs alone, only adds dependencies and caregivers, adds only ids of submitted new caregivers, and with an honest database reports no more rows than the batch had |
| BatchWriter.CaregiverDataFrom | src/service/batchProcessor.ts:382-419 | the submitted rows come from the batch, so their ids are batch ids |
| BatchWriter.CaregiverCountBound | src/service/batchProcessor.ts:447-450 | with an honest database the caregiver loop reports no more rows than the batch had |
| BatchWriter.DepsAfterGrows | src/service/batchProcessor.ts:296-379 | dependencies only grow over attempts |
| BatchWriter.PartitionCarelogs | src/service/batchProcessor.ts:564-595 | the valid/skipped `push` loop gives the specification's valid and skipped lists |
| BatchWriter.CarelogPartition | src/service/batchProcessor.ts:564-595 | each carelog lands in exactly one list: valid when its caregiver exists, skipped otherwise, both in batch order |
| BatchWriter.CarelogPlan | src/service/batchProcessor.ts:564-661 | exactly the carelogs whose caregiver is stored and whose own id is not are submitted, in id order |
| BatchWriter.CarelogAttemptStep | src/service/batchProcessor.ts:547-661 | one carelog attempt comes to the oracle's carelog outcome, and a success submitted `CarelogData` |
| BatchWriter.InsertCarelogsBatch | src/service/batchProcessor.ts:535-808 | the carelog writer computes `CarelogWrite` |
| BatchWriter.CarelogWriteOf | src/service/batchProcessor.ts:535-808 | the carelog write is determined by its loop run and the ids that run added |
| BatchWriter.CarelogTurn | src/service/batchProcessor.ts:547-803 | one turn of the carelog loop ends with what the retry specification says, or moves on after a deadlock |
| BatchWriter.CarelogAttempts | src/service/batchProcessor.ts:547-807 | the carelog retry loop runs as `Retry` specifies; a success adds exactly the submitted ids and a failure adds none |
| BatchWriter.CarelogWriteSpec | src/service/batchProcessor.ts:535-808 | the carelog writer only adds ids of batch carelogs whose caregiver is stored, and a write that throws changes nothing |
| BatchWriter.CarelogAttemptBound | src/service/batchProcessor.ts:658-661 | with an honest database one carelog attempt reports no more rows than the batch had |
| BatchWriter.CarelogWriteBound | src/service/batchProcessor.ts:535-808 | with an honest database the carelog writer reports no more rows than the batch had |
| BatchWriter.ChunkSize | src/service/batchProcessor.ts:162 | `Math.max(10, Math.floor(n / 10))` is at least 10 and at least n/10, and is one of the two |
| BatchWriter.ChunksSpec | src/service/batchProcessor.ts:165-166 | the chunks are non-empty consecutive slices of at most `k` rows, all full but the last, and together exactly the batch |
| BatchWriter.ChunksFrom | src/service/batchProcessor.ts:165-166 | the chunk at position `i` is `s[i..i+k]`, followed by the chunks from its end |
| BatchWriter.ChunkFallback | src/service/batchProcessor.ts:162-178 | the chunk loop computes `ChunkRun` over `Chunks(batch, ChunkSize(n))` |
| BatchWriter.ChunkRunSpec | src/service/batchProcessor.ts:165-176 | failed rows never exceed the rows submitted, and there is one failure per failed chunk, numbered by position and increasing |
| BatchWriter.ChunkRunBound | src/service/batchProcessor.ts:165-176 | with a bounded writer, inserted plus failed rows never exceed the rows submitted |
| BatchWriter.CarelogWriteFails | src/service/batchProcessor.ts:609-625 | when every lookup throws, the carelog write fails and leaves the store alone |
| BatchWriter.ChunkRunAllFail | src/service/batchProcessor.ts:173-174 | when every chunk write fails, nothing is inserted and every row is counted failed |
| BatchWriter.HonestBounded | src/service/batchProcessor.ts:658-661 | with an honest database the carelog writer is bounded |
| BatchWriter.LookupsFailChunks | src/service/batchProcessor.ts:162-178 | when every lookup throws, the whole fallback inserts nothing and counts every row failed |
| BatchWriter.ProcessCaregiverBatch | src/service/batchProcessor.ts:104-140 | the caregiver branch extracts the dependencies, converts the rows and writes; a thrown write makes the batch throw; with an honest database the outcome fits the batch |
| BatchWriter.ProcessCarelogBatch | src/service/batchProcessor.ts:141-180 | the carelog branch converts and writes, falling back to chunks on a thrown write; it never throws; with an honest database the outcome fits the batch |
| Batcher.AccountedWithin | src/service/batchProcessor.ts:183-197 | finished batches whose outcomes fit count no more rows inserted or failed than they hold |
| Batcher.CompletedWithin | src/service/batchProcessor.ts:183 | `batchesProcessed` counts each non-throwing batch once, and equals the finished batches exactly when none threw |
| Batcher.FinishAccounting | src/service/batchProcessor.ts:183-197 | recording a finished batch keeps the counters equal to those of the finished batches |
| Batcher.CutBatching | src/service/batchProcessor.ts:221-233 | cutting a full batch keeps the rows in order, whether it is queued or started |
| Batcher.RowKeeps | src/service/batchProcessor.ts:218-234 | a stream row keeps the run invariant (rows in order, full cut batches, counters, active count, queue discipline) |
| Batcher.ShiftKeeps | src/service/batchProcessor.ts:201-212 | starting the oldest queued batch keeps every started row accounted for and the cut batches in order |
| Batcher.ReleaseRows | src/service/batchProcessor.ts:201-212 | a `finally` that starts a queued batch keeps every started row accounted for |
| Batcher.DrainRows | src/service/batchProcessor.ts:242-248 | the drain loop taking the next queued batch keeps every started row accounted for |
| Batcher.BatchDoneKeeps | src/service/batchProcessor.ts:99-214 | a running batch finishing keeps the run invariant |
| Batcher.AwaitedFinishRows | src/service/batchProcessor.ts:237-248 | recording the awaited batch moves its rows from awaited to finished |
| Batcher.AwaitedDoneKeeps | src/service/batchProcessor.ts:236-248 | the batch the end handler awaits finishing keeps the run invariant |
| Batcher.EndKeeps | src/service/batchProcessor.ts:236-239 | the end of the stream keeps the run invariant |
| Batcher.ErrorKeeps | src/service/batchProcessor.ts:271-274 | a stream error keeps the run invariant |
| Batcher.PollKeeps | src/service/batchProcessor.ts:250-269 | one test of the polling loop keeps the run invariant |
| Batcher.ResolvedAccountsAll | src/service/batchProcessor.ts:250-269 | a corrected run resolves only when no batch runs or waits, every row read has gone through a finished batch, and the result reports no more inserted plus failed rows than rows read |
| Batcher.RowsInOrder | src/service/batchProcessor.ts:218-234 | the started, then queued, then current batches are the rows in stream order; started and queued batches are full |
| Batcher.LeftoverUncountedResolvesEarly | src/service/batchProcessor.ts:237-239 | as written, with batch size 2, concurrency 1 and three rows, the run resolves while the first batch still runs, with one of three rows accounted for |
| Batcher.LeftoverCountedKeepsPolling | src/service/batchProcessor.ts:237-239 | counting the partial batch, the same run keeps polling while the first batch runs |
| Batcher.FileRun.constructor | src/service/batchProcessor.ts:95-97 | a new run starts with no rows, no queue, no active batch and zero counters |
| Batcher.FileRun.OnRow | src/service/batchProcessor.ts:218-234 | the `data` handler performs `RowStep` and keeps the run invariant |
| Batcher.FileRun.Finish | src/service/batchProcessor.ts:183-197 | recording a finished batch performs `FinishStep` |
| Batcher.FileRun.Release | src/service/batchProcessor.ts:201-212 | the `finally` block performs `ReleaseStep` |
| Batcher.FileRun.DrainNext | src/service/batchProcessor.ts:242-248 | the head of the drain loop performs `DrainStep` |
| Batcher.FileRun.OnBatchDone | src/service/batchProcessor.ts:99-214 | a running batch's completion performs `BatchDoneStep` and keeps the run invariant |
| Batcher.FileRun.OnAwaitedDone | src/service/batchProcessor.ts:237-248 | the awaited batch's completion performs `AwaitedDoneStep` and keeps the run invariant |
| Batcher.FileRun.OnEnd | src/service/batchProcessor.ts:236-248 | the `end` handler performs `EndStep` and keeps the run invariant |
| Batcher.FileRun.OnStreamError | src/service/batchProcessor.ts:271-274 | the `error` handler rejects the run and keeps the run invariant |
| Batcher.FileRun.OnPollTick | src/service/batchProcessor.ts:250-269 | one polling test performs `PollStep` and keeps the run invariant |
| Semaphores.Semaphore.constructor | src/service/batchProcessor.ts:815-821 | a gate starts with its permits and an empty queue, valid when the permits are non-negative |
| Semaphores.Semaphore.Acquire | src/service/batchProcessor.ts:823-832 | granted exactly when a permit is free, taking it; otherwise the waiter joins the back of the queue; validity is kept |
| Semaphores.Semaphore.Release | src/service/batchProcessor.ts:834-843 | with no waiter the permit comes back; otherwise the oldest waiter is woken and takes it; validity is kept |
| Orchestrator.SuppliedSettingsWin | src/service/optimizedEtlService.ts:14-26 | every supplied setting wins over its default, and every omitted one takes the default |
| Orchestrator.DefaultConfig | src/service/optimizedEtlService.ts:14-26 | with no overrides: 5000, 3, transactions on, duplicates not skipped, parallel and tracking on; the writers then retry by the defaults 3/1000/30000 |
| Orchestrator.RunSettingsCuts | src/service/batchProcessor.ts:221-239 | handing the service's batch size to a run, clamped at zero, changes no `length >= batchSize` cut decision; the concurrency and start time pass through unchanged; the service as written (`SourceRunSettings`) hands each file a run whose partial batch is not counted, and differs from the corrected run in that flag alone |
| Orchestrator.DataSuffixRedundant | src/service/optimizedEtlService.ts:103-117 | the "_data" alternatives add nothing to the name tests |
| Orchestrator.DetectFileTypeSpec | src/service/optimizedEtlService.ts:103-117 | caregiver exactly when the lower-cased name contains "caregiver"; carelog exactly when it contains "carelog" and not "caregiver"; unknown otherwise |
| Orchestrator.ParallelSplit | src/service/optimizedEtlService.ts:54-63 | each parallel list holds, in order, exactly the files naming its type; `detectFileType` agrees with the caregiver list |
| Orchestrator.BothGroupsExample | src/service/optimizedEtlService.ts:54-63 | a name with "caregiver" before "carelog" runs in both parallel groups but once, as caregivers, sequentially |
| Orchestrator.CollectSpec | src/service/optimizedEtlService.ts:65-80 | all values in order when every outcome succeeded; otherwise the error of the first failure |
| Orchestrator.SequentialIsCollect | src/service/optimizedEtlService.ts:81-98 | the sequential loop collects, in listing order, the outcomes of the known files |
| Orchestrator.SequentialSpec | src/service/optimizedEtlService.ts:81-98 | one result per known file in listing order, or the first rejection; unknown files are never run |
| Orchestrator.SequentialErrSticks | src/service/optimizedEtlService.ts:84-97 | once a prefix of the loop has failed, the whole loop fails with that error |
| Orchestrator.ProcessSequentially | src/service/optimizedEtlService.ts:81-98 | the loop computes `SequentialRun` |
| Orchestrator.ProcessFilesParallel | src/service/batchProcessor.ts:59-79 | the group's outcome is every run's result in order, or a rejection; a success holds one result per file |
| Orchestrator.RunGroup | src/service/optimizedEtlService.ts:65-80 | an empty group contributes nothing; otherwise the group's results or a rejection |
| Orchestrator.ProcessInParallel | src/service/optimizedEtlService.ts:65-80 | the caregiver group's results, then the carelog group's, or a rejection |
| Orchestrator.ProcessAllFiles | src/service/optimizedEtlService.ts:40-101 | no CSV files gives no results; otherwise the parallel branch when in use, and the sequential loop else |
| Orchestrator.SingleFileSequential | src/service/optimizedEtlService.ts:51 | a single file always runs sequentially |
| Orchestrator.SumAppend | src/service/optimizedEtlService.ts:127-130 | totals over two lists are the sums of the two totals |
| Orchestrator.SumBelow | src/service/optimizedEtlService.ts:127-130 | a pointwise-smaller non-negative field has a smaller non-negative total |
| Orchestrator.StatsOfConcat | src/service/optimizedEtlService.ts:119-144 | the statistics of two lists together add up field by field |
| Orchestrator.StatsRates | src/service/optimizedEtlService.ts:132-134 | zero rates instead of a division by zero; with honest results the success rate is a percentage and the speed is non-negative |
| CsvReader.ReadFile | src/service/csvReader.ts:10-39 | every row in stream order, or the stream's error |
| CsvReader.GetHeaders | src/service/csvReader.ts:65-87 | the first row's keys, none for an empty file, or the stream's error |
| CsvReader.PreviewFile | src/service/csvReader.ts:92-120 | the first `min(n, maxRows)` rows in order, none for a non-positive limit, or the stream's error |
| CsvReader.InconsistentSpec | src/service/csvReader.ts:151-156 | a row number is listed exactly when that row's key count is off, in strictly increasing order |
| CsvReader.ErrorsSnoc | src/service/csvReader.ts:140-156 | one more row adds the duplicate complaint (first row only) and then the width complaint |
| CsvReader.OnValidateRow | src/service/csvReader.ts:139-157 | the row callback sets the headers on the first row and adds that row's complaints |
| CsvReader.ValidateFile | src/service/csvReader.ts:125-176 | validation computes `Validated` of the rows, or the stream's error |
| CsvReader.ValidatedSpec | src/service/csvReader.ts:125-176 | row count, first row's headers, the duplicate complaint at most once and first, one complaint per wrong-width row, valid exactly when nothing is complained about |
| CsvReader.FirstRowConsistent | src/service/csvReader.ts:140-156 | the first row is never complained about for width |
| CsvReader.DuplicateNeverOnObjects | src/service/csvReader.ts:140-148 | on rows with distinct keys the duplicate complaint never appears |
| CsvReader.LastSlash | src/service/csvReader.ts:50 | the position of the last "/" or -1 |
| CsvReader.FileName | src/service/csvReader.ts:50 | the name is empty only for an empty path |
| CsvReader.FileNameSegment | src/service/csvReader.ts:50 | unless the path ends with "/", the name is its last segment |
| CsvReader.FileNameWhole | src/service/csvReader.ts:50 | a path ending with "/" or without "/" is its own name |
| CsvReader.ReadFiles | src/service/csvReader.ts:41-60 | the read loop stores what `Collected` specifies |
| CsvReader.CollectedSpec | src/service/csvReader.ts:41-60 | every path leaves its key and nothing else is a key; the last path's key holds its outcome |
| CsvReader.LaterNameOverwrites | src/service/csvReader.ts:50-53 | two files with the same name: the later read wins |
| FileUtils.EnsureDirectoryExists | src/utils/fileUtils.ts:6-10 | the directory is created exactly when missing, and exists afterwards |
| FileUtils.GetCSVFiles | src/utils/fileUtils.ts:12-23 | a listing error gives no files; never more files than entries |
| FileUtils.GetCSVFilesSpec | src/utils/fileUtils.ts:12-23 | result `i` is the directory joined with the `i`-th CSV name; a name is kept exactly when listed and ending with ".csv" in any case; listing order is kept |
| FileUtils.CsvSuffix | src/utils/fileUtils.ts:16-17 | a name counts exactly when its last four characters lower-case to ".csv" |
| FileUtils.UpperCaseCsvKept | src/utils/fileUtils.ts:16-17 | ".CSV" counts |
| FileUtils.BackupDropped | src/utils/fileUtils.ts:16-17 | ".csv.bak" does not count |
| Logging.IndexOf | src/utils/logger.ts:18-23 | `indexOf` gives the first position of the level, or -1 exactly when absent |
| Logging.ErrorAndDebug | src/utils/logger.ts:18-23 | under any known level errors are written; debug messages exactly under "debug" |
| Logging.UnknownLevels | src/utils/logger.ts:18-23 | an unknown configured level silences every known level; a message at an unknown level is always written |
| Logging.Threshold | src/utils/logger.ts:18-23 | a message more severe than a written one is written too |
| Logging.LevelFrom | src/utils/logger.ts:7-9 | an unset or empty `LOG_LEVEL` means "info"; otherwise its value |
| Logging.DefaultLevel | src/utils/logger.ts:7-9 | the default level writes errors, warnings and information but not debug |
| Logging.Logger.constructor | src/utils/logger.ts:7-9 | the level comes from `LOG_LEVEL` and nothing is written yet |
| Logging.Logger.Log | src/utils/logger.ts:25-56 | one entry when the level passes the filter, none otherwise |
| Logging.Logger.LogEtlResult | src/utils/logger.ts:58-70 | the summary entries of `ResultEntries` |
| Logging.ResultErrorEntry | src/utils/logger.ts:58-70 | under a known level, an error entry appears exactly when the result has errors, and at most two entries are written |
| Logging.Registry.GetInstance | src/utils/logger.ts:11-16 | the first call creates the logger; every later call returns the same one |
| Logging.Registry.GetInstanceTwice | src/utils/logger.ts:11-16 | two calls return the same logger, whose level is the first call's |

## Left out

- The database (Prisma): abstracted to a `Store` of id sets plus an `Oracle` that decides failures and reported counts. Transactions, `session_replication_role` and the transaction timeouts are not modelled.
- `localeCompare` in the id sorts: an arbitrary comparator `le`; sortedness is proved when it is total.
- `path.join`: a parameter `join`.
- `new Date(...)`, `Number(...)`, `Date.now()`/`Math.random()` for the placeholder e-mail and `toISOString`: supplied by the `Env` parameter.
- Floating point: numbers are integers; the rates of `getPerformanceStats` are exact reals; NaN is not modelled.
- Sleeps: recorded as the list of delays slept, not timed.
- The `fs` stream and `csv-parser`: a `CsvStream` of parsed rows plus an optional stream error.
- Console output, timestamps and the message text of log lines: entries are kept as (level, message) pairs.
- `getFileStats` and `processFileInChunks` of the CSV reader: they rely on `fs.statSync` and on pausing a live stream, neither of which the model represents.
- The `batchComplete` event, `initialize`, `shutdown` and `disconnect`: side channels and connection management with no state the model tracks.
- Orchestrator.ProcessFilesParallel: runs the files in listing order, one of the orders the semaphore allows; real interleavings of files are not modelled, and the `Semaphore` is modelled on its own.
- Semaphores.Semaphore: a `maxConcurrency` of zero or less makes every acquire wait forever; the model states validity only for non-negative permits.
- The polling `setTimeout` of the end handler: one poll is a `PollStep`; timing is not modelled.
- An explicit `undefined` in a partial configuration: absence is modelled by `None`; a key present with value `undefined` is treated the same as absent.
- `src/index.ts` (command-line entry) and `src/types/index.ts` (type declarations only) are not part of this model.
- Failed attempts of a writer store nothing in the model, so every attempt submits data computed from the same store; a partial write followed by a retry is not modelled.
- Batcher.FileRun.Finish: chunk-fallback failures are added to `failedRows` and `errors` when the run completes, not as each chunk fails, so an observer mid-run does not see them and their batch numbers are not the `batchesProcessed + 1` of the moment each chunk failed (src/service/batchProcessor.ts:166-176).
- Batcher.FileRun.Finish: the resolved `errors` is a copy; in the source it is the live array (src/service/batchProcessor.ts:266), so a batch finishing after an early resolution still appends to the caller's result. The model stops at resolution.
- Batcher.FileRun.Finish: the end handler's resumption after awaiting the partial batch and that batch's `finally` are one step (`AwaitedDoneStep`); no callback is modelled as running between them.
- Common.ToLower: only ASCII letters are folded; `toLowerCase` also folds non-ASCII letters.
- Records.Keys: a `Row` lists its keys in the order its fields were built; JavaScript lists integer-like keys first, in numeric order, which the model does not reproduce.
- CsvReader.PreviewFile: `maxRows` is a required parameter; the source's default of 5 is the caller's choice here.
- FileUtils.EnsureDirectoryExists: directories are a set of paths; file-system errors are the `Err` of the listing.

## Findings

| source | as written | input that shows it | evidently intended | confidence | as-written member | corrected member |
|---|---|---|---|---|---|---|
| src/service/batchProcessor.ts:237-239 (with 202 and 250-252) | the end handler awaits the partial batch without `activePromises++`, but its `finally` still decrements, so the polling loop can see zero while a full batch is still running and resolve with rows unaccounted | `batchSize` 2, `maxConcurrency` 1, three rows, the partial batch finishing first | the partial batch is counted like every other batch, so the run resolves only once every batch has finished | not executed | Batcher.LeftoverUncountedResolvesEarly | Batcher.ResolvedAccountsAll |

The corrected run is the setting `leftoverCounted = true` of `Batcher.Settings`; the service as written hands each file `Orchestrator.SourceRunSettings`, which is `leftoverCounted = false`, and `Orchestrator.RunSettings` takes the flag so that either run can be chosen; `Batcher.LeftoverCountedKeepsPolling` shows the same input keeps polling there. The agency key `agencyId-franchisorId` can join two different agencies into one key (`Transformer.AgencyKeyCollision`); that is modelled as written.
