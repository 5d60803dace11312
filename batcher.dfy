/** The batcher of `processFile`: rows arrive one at a time from the CSV stream and are
    collected into batches; a full batch is started at once when fewer than `maxConcurrency`
    batches are active, and queued otherwise; a finishing batch starts the oldest queued one;
    at the end of the stream the partial batch is run, the queue is drained, and the run waits
    until no batch is active before it resolves with its counters.

    The run is a class whose fields are the closure variables of `processFile`, and whose
    methods are the callbacks that change them: a row, the end and the error of the stream, the
    completion of a running batch, the completion of the batch the end handler awaits, and one
    evaluation of the final polling loop. What a batch does to the database is the outcome its
    completion carries (`BatchWriter.ProcessCaregiverBatch` and `ProcessCarelogBatch` compute
    it). */
module Batcher {
  import opened Common
  import opened Records
  import opened Retry
  import opened BatchWriter

  /** An entry of the run's `errors`: "Batch N: <error>" or "Batch N Chunk M: <error>". */
  datatype RunError =
    | BatchError(batchNumber: nat, error: StoreError)
    | ChunkError(batchNumber: nat, chunkNumber: nat, error: StoreError)

  /** The `BatchResult` a run resolves with. */
  datatype FileResult = FileResult(totalRows: nat, processedRows: nat, failedRows: nat,
    processingTime: int, batchesProcessed: nat, errors: seq<RunError>)

  /** Where the run is: reading rows; in the end handler, awaiting a batch (the partial batch
      left at the end, or one taken from the queue); in the final polling loop; settled. */
  datatype Phase =
    | Streaming
    | Draining(batch: seq<Row>, fromQueue: bool)
    | Polling
    | Resolved(result: FileResult)
    | Rejected

  /** A finished batch, its outcome, and the batch number its error messages carry
      (`batchesProcessed + 1` when it finished). */
  datatype Done = Done(batch: seq<Row>, outcome: BatchOutcome, number: nat)

  function ChunkErrorOf(number: nat): ChunkFailure -> RunError {
    (f: ChunkFailure) => ChunkError(number, f.chunkNumber, f.error)
  }

  /** The errors one finished batch adds: one per failed chunk, or one for the whole batch. */
  function DoneErrors(d: Done): seq<RunError> {
    match d.outcome
    case Completed(_, _, failures) => Map(failures, ChunkErrorOf(d.number))
    case BatchThrew(e) => [BatchError(d.number, e)]
  }

  /** The rows a finished batch inserted. */
  function InsertedBy(d: Done): nat {
    if d.outcome.Completed? then d.outcome.inserted else 0
  }

  /** The rows a finished batch counts as failed: those of its failed chunks, or all of them
      when it threw. */
  function FailedBy(d: Done): nat {
    if d.outcome.Completed? then d.outcome.failedRows else |d.batch|
  }

  /** Whether a finished batch counts in `batchesProcessed`: it did not throw. */
  function CompletedBy(d: Done): nat {
    if d.outcome.Completed? then 1 else 0
  }

  function Inserted(ds: seq<Done>): nat
    decreases |ds|
  {
    if ds == [] then 0 else Inserted(ds[..|ds| - 1]) + InsertedBy(ds[|ds| - 1])
  }

  function Failed(ds: seq<Done>): nat
    decreases |ds|
  {
    if ds == [] then 0 else Failed(ds[..|ds| - 1]) + FailedBy(ds[|ds| - 1])
  }

  /** The finished batches that did not throw. */
  function CompletedCount(ds: seq<Done>): nat
    decreases |ds|
  {
    if ds == [] then 0
    else CompletedCount(ds[..|ds| - 1]) + CompletedBy(ds[|ds| - 1])
  }

  function Errors(ds: seq<Done>): seq<RunError>
    decreases |ds|
  {
    if ds == [] then [] else Errors(ds[..|ds| - 1]) + DoneErrors(ds[|ds| - 1])
  }

  /** The rows of the finished batches. */
  function DoneRows(ds: seq<Done>): nat
    decreases |ds|
  {
    if ds == [] then 0 else DoneRows(ds[..|ds| - 1]) + |ds[|ds| - 1].batch|
  }

  /** Every finished batch reported no more rows than it had. */
  ghost predicate AllFit(ds: seq<Done>) {
    forall i :: 0 <= i < |ds| ==> Fits(ds[i].outcome, |ds[i].batch|)
  }

  /** Batches whose outcomes fit their sizes never count more rows inserted or failed than they
      hold. */
  lemma {:induction false} AccountedWithin(ds: seq<Done>)
    requires AllFit(ds)
    ensures Inserted(ds) + Failed(ds) <= DoneRows(ds)
    decreases |ds|
  {
    if ds != [] {
      var init := ds[..|ds| - 1];
      assert AllFit(init) by {
        forall i | 0 <= i < |init| ensures Fits(init[i].outcome, |init[i].batch|) {
          assert init[i] == ds[i];
        }
      }
      AccountedWithin(init);
      assert Fits(ds[|ds| - 1].outcome, |ds[|ds| - 1].batch|);
    }
  }

  /** Every batch that did not throw is counted once: completed plus thrown batches are all the
      finished ones. */
  lemma {:induction false} CompletedWithin(ds: seq<Done>)
    ensures CompletedCount(ds) <= |ds|
    ensures CompletedCount(ds) == |ds| <==> forall i :: 0 <= i < |ds| ==> ds[i].outcome.Completed?
    decreases |ds|
  {
    if ds != [] {
      var init := ds[..|ds| - 1];
      CompletedWithin(init);
      assert forall i :: 0 <= i < |init| ==> init[i] == ds[i];
    }
  }

  lemma FlattenRemove<T>(ss: seq<seq<T>>, k: nat)
    requires k < |ss|
    ensures |Flatten(ss)| == |Flatten(ss[..k] + ss[k + 1..])| + |ss[k]|
  {
    assert ss == ss[..k] + ([ss[k]] + ss[k + 1..]);
    FlattenAppend(ss[..k], [ss[k]] + ss[k + 1..]);
    FlattenAppend([ss[k]], ss[k + 1..]);
    FlattenAppend(ss[..k], ss[k + 1..]);
    assert Flatten([ss[k]]) == ss[k] + Flatten([ss[k]][1..]);
  }
  /** The settings of one run: `batchSize` and `maxConcurrency` of the batch configuration,
      whether the partial batch of the end handler is counted in `activePromises` (the source
      does not count it; counting it is the corrected run), and the start time. */
  datatype Settings = Settings(batchSize: nat, maxConcurrency: int, leftoverCounted: bool, startTime: int)

  /** The closure variables of `processFile`, the batches still running, where the run is,
      and its history: the rows read, the full batches cut, the full batches started (in start
      order), the finished batches (in completion order) and whether the end handler's partial
      batch has finished. */
  datatype Run = Run(
    currentBatch: seq<Row>,
    batchQueue: seq<seq<Row>>,
    activePromises: int,
    totalRows: nat,
    processedRows: nat,
    failedRows: nat,
    batchesProcessed: nat,
    errors: seq<RunError>,
    inFlight: seq<seq<Row>>,
    phase: Phase,
    rows: seq<Row>,
    cut: seq<seq<Row>>,
    taken: seq<seq<Row>>,
    finished: seq<Done>,
    leftoverDone: bool)

  function Start(): Run {
    Run([], [], 0, 0, 0, 0, 0, [], [], Streaming, [], [], [], [], false)
  }

  // ---------------------------------------------------------------------------
  // The callbacks, one state change each

  /** The stream's `data` event: the row joins the current batch; a batch that reaches
      `batchSize` is cut, and started when fewer than `maxConcurrency` batches are active, or
      else queued. */
  function RowStep(c: Settings, s: Run, row: Row): Run {
    var s' := AddRow(s, row);
    if |s'.currentBatch| < c.batchSize then s'
    else if s.activePromises >= c.maxConcurrency then QueueCut(s')
    else StartCut(s')
  }

  function AddRow(s: Run, row: Row): Run {
    s.(currentBatch := s.currentBatch + [row], totalRows := s.totalRows + 1, rows := s.rows + [row])
  }

  /** The current batch is cut and joins the back of the queue. */
  function QueueCut(s: Run): Run {
    s.(currentBatch := [], cut := s.cut + [s.currentBatch], batchQueue := s.batchQueue + [s.currentBatch])
  }

  /** The current batch is cut and started. */
  function StartCut(s: Run): Run {
    s.(currentBatch := [], cut := s.cut + [s.currentBatch], activePromises := s.activePromises + 1,
      inFlight := s.inFlight + [s.currentBatch], taken := s.taken + [s.currentBatch])
  }

  /** A finished batch is recorded: a completed one adds its inserted rows, its failed chunk
      rows and one error per failed chunk, and counts as processed; one that threw adds all its
      rows as failed and one error. */
  function FinishStep(s: Run, batch: seq<Row>, outcome: BatchOutcome): Run {
    var d := Done(batch, outcome, s.batchesProcessed + 1);
    s.(finished := s.finished + [d], errors := s.errors + DoneErrors(d),
      processedRows := s.processedRows + InsertedBy(d), failedRows := s.failedRows + FailedBy(d),
      batchesProcessed := s.batchesProcessed + CompletedBy(d))
  }

  /** The `finally` of a batch: one batch fewer is active; then, when the queue is not empty and
      fewer than `maxConcurrency` batches are active, the oldest queued batch is started. */
  function ReleaseStep(c: Settings, s: Run): Run {
    var active := s.activePromises - 1;
    if s.batchQueue != [] && active < c.maxConcurrency then
      s.(batchQueue := s.batchQueue[1..], activePromises := active + 1,
        inFlight := s.inFlight + [s.batchQueue[0]], taken := s.taken + [s.batchQueue[0]])
    else s.(activePromises := active)
  }

  /** The head of the end handler's drain loop: the oldest queued batch is started and awaited,
      or, with the queue empty, the polling loop begins. */
  function DrainStep(s: Run): Run {
    if s.batchQueue != [] then
      s.(batchQueue := s.batchQueue[1..], activePromises := s.activePromises + 1,
        taken := s.taken + [s.batchQueue[0]], phase := Draining(s.batchQueue[0], true))
    else s.(phase := Polling)
  }

  /** Running batch `k` finishes with `outcome`. */
  function BatchDoneStep(c: Settings, s: Run, k: nat, outcome: BatchOutcome): Run
    requires k < |s.inFlight|
  {
    var s' := FinishStep(s, s.inFlight[k], outcome);
    ReleaseStep(c, s'.(inFlight := s.inFlight[..k] + s.inFlight[k + 1..]))
  }

  /** The batch the end handler awaits finishes with `outcome`; the handler, no longer
      awaiting, goes on with its drain loop. */
  function AwaitedDoneStep(c: Settings, s: Run, outcome: BatchOutcome): Run
    requires s.phase.Draining?
  {
    DrainStep(ReleaseStep(c, AwaitedFinish(s, outcome)))
  }

  /** The awaited batch is recorded and the handler stops awaiting it. */
  function AwaitedFinish(s: Run, outcome: BatchOutcome): Run
    requires s.phase.Draining?
  {
    FinishStep(s, s.phase.batch, outcome).(leftoverDone := s.leftoverDone || !s.phase.fromQueue, phase := Polling)
  }

  /** The stream's `end` event: the partial batch, if any, is run and awaited (counted in
      `activePromises` only by the corrected run); otherwise the drain loop begins. */
  function EndStep(c: Settings, s: Run): Run {
    if s.currentBatch != [] then
      s.(phase := Draining(s.currentBatch, false),
        activePromises := s.activePromises + (if c.leftoverCounted then 1 else 0))
    else DrainStep(s)
  }

  /** The stream's `error` event. */
  function ErrorStep(s: Run): Run {
    s.(phase := Rejected)
  }

  /** One test of `while (activePromises > 0)`: with no batch active the run resolves with its
      counters and the time since the start. */
  function PollStep(c: Settings, s: Run, now: int): Run {
    if s.activePromises > 0 then s
    else s.(phase := Resolved(FileResult(s.totalRows, s.processedRows, s.failedRows, now - c.startTime,
      s.batchesProcessed, s.errors)))
  }

  // ---------------------------------------------------------------------------
  // The invariant every callback keeps

  /** Rows are batched in order: the cut batches then the current batch are the rows read,
      every cut batch is full, and the cut batches are started in cut order, the ones not
      started yet waiting in the queue. */
  predicate Batching(c: Settings, s: Run) {
    Flatten(s.cut) + s.currentBatch == s.rows && s.totalRows == |s.rows| &&
    s.taken + s.batchQueue == s.cut &&
    (forall i :: 0 <= i < |s.cut| ==> |s.cut[i]| == Max(c.batchSize, 1)) &&
    (s.phase.Streaming? ==> |s.currentBatch| < Max(c.batchSize, 1))
  }

  /** The counters are those of the finished batches. */
  predicate Accounting(s: Run) {
    s.processedRows == Inserted(s.finished) && s.failedRows == Failed(s.finished) &&
    s.batchesProcessed == CompletedCount(s.finished) && s.errors == Errors(s.finished)
  }

  function Awaited(s: Run): nat {
    if s.phase.Draining? then |s.phase.batch| else 0
  }

  /** The rows of the partial batch once the end handler has started it. */
  function Leftover(s: Run): nat {
    if s.phase.Streaming? || s.phase.Rejected? then 0 else |s.currentBatch|
  }

  /** The `activePromises` of a run in which the source's counting is followed: the running
      batches and the awaited one, less the uncounted partial batch once it is done. */
  function Active(c: Settings, s: Run): int {
    |s.inFlight| + (if s.phase.Draining? && (s.phase.fromQueue || c.leftoverCounted) then 1 else 0)
      - (if s.leftoverDone && !c.leftoverCounted then 1 else 0)
  }

  /** Every started row is running, awaited or finished. */
  predicate RowsStarted(s: Run) {
    |Flatten(s.taken)| + Leftover(s) == |Flatten(s.inFlight)| + Awaited(s) + DoneRows(s.finished)
  }

  /** `activePromises` is `Active`; while streaming, at most `maxConcurrency` batches run and
      a batch waits in the queue only when that many are active. */
  predicate Counted(c: Settings, s: Run) {
    s.activePromises == Active(c, s) &&
    (s.phase.Streaming? ==>
      |s.inFlight| <= Max(c.maxConcurrency, 0) &&
      (s.batchQueue != [] ==> s.activePromises >= c.maxConcurrency))
  }

  /** The partial batch of the end handler is the current batch; it has finished exactly when
      the handler has gone past it. */
  predicate Stages(s: Run) {
    (s.phase.Streaming? || s.phase.Rejected? ==> !s.leftoverDone) &&
    (s.phase.Draining? && !s.phase.fromQueue ==>
      s.phase.batch == s.currentBatch && s.currentBatch != [] && !s.leftoverDone) &&
    ((s.phase.Draining? && s.phase.fromQueue) || s.phase.Polling? || s.phase.Resolved? ==>
      (s.leftoverDone <==> s.currentBatch != []))
  }

  predicate Tasks(c: Settings, s: Run) {
    RowsStarted(s) && Counted(c, s) && Stages(s)
  }

  /** Once the queue is drained it stays empty; a corrected run resolves only when nothing is
      running, with the counters it then holds. */
  predicate Ending(c: Settings, s: Run) {
    (s.phase.Polling? || s.phase.Resolved? ==> s.batchQueue == []) &&
    (c.leftoverCounted && s.phase.Resolved? ==>
      s.inFlight == [] &&
      s.phase.result == FileResult(s.totalRows, s.processedRows, s.failedRows, s.phase.result.processingTime,
        s.batchesProcessed, s.errors))
  }

  predicate Inv(c: Settings, s: Run) {
    Batching(c, s) && Accounting(s) && Tasks(c, s) && Ending(c, s)
  }

  lemma StartInv(c: Settings)
    ensures Inv(c, Start())
  {
  }

  lemma FinishAccounting(s: Run, batch: seq<Row>, outcome: BatchOutcome)
    requires Accounting(s)
    ensures Accounting(FinishStep(s, batch, outcome))
    ensures DoneRows(FinishStep(s, batch, outcome).finished) == DoneRows(s.finished) + |batch|
  {
    var d := Done(batch, outcome, s.batchesProcessed + 1);
    assert (s.finished + [d])[..|s.finished|] == s.finished;
  }

  /** Cutting a full current batch keeps the rows in order: queued, or started when nothing
      waits in the queue. */
  lemma CutBatching(c: Settings, s: Run)
    requires Flatten(s.cut) + s.currentBatch == s.rows && s.totalRows == |s.rows|
    requires s.taken + s.batchQueue == s.cut && s.phase.Streaming?
    requires forall i :: 0 <= i < |s.cut| ==> |s.cut[i]| == Max(c.batchSize, 1)
    requires |s.currentBatch| == Max(c.batchSize, 1)
    ensures Batching(c, QueueCut(s))
    ensures s.batchQueue == [] ==> Batching(c, StartCut(s))
  {
    FlattenSnoc(s.cut, s.currentBatch);
  }

  lemma RowBatching(c: Settings, s: Run, row: Row)
    requires Inv(c, s) && s.phase.Streaming?
    ensures Batching(c, RowStep(c, s, row)) && Accounting(RowStep(c, s, row)) && Ending(c, RowStep(c, s, row))
  {
    var a := AddRow(s, row);
    if |a.currentBatch| >= c.batchSize {
      CutBatching(c, a);
    }
  }

  lemma RowTasks(c: Settings, s: Run, row: Row)
    requires Inv(c, s) && s.phase.Streaming?
    ensures Tasks(c, RowStep(c, s, row))
  {
    var grown := s.currentBatch + [row];
    if |grown| >= c.batchSize {
      FlattenSnoc(s.inFlight, grown);
      FlattenSnoc(s.taken, grown);
    }
  }

  lemma RowKeeps(c: Settings, s: Run, row: Row)
    requires Inv(c, s) && s.phase.Streaming?
    ensures Inv(c, RowStep(c, s, row))
  {
    RowBatching(c, s, row);
    RowTasks(c, s, row);
  }

  /** Starting the oldest queued batch keeps every started row accounted for and the cut
      batches in order. */
  lemma ShiftKeeps(s: Run)
    requires s.batchQueue != []
    ensures s.taken + [s.batchQueue[0]] + s.batchQueue[1..] == s.taken + s.batchQueue
    ensures |Flatten(s.taken + [s.batchQueue[0]])| == |Flatten(s.taken)| + |s.batchQueue[0]|
    ensures |Flatten(s.inFlight + [s.batchQueue[0]])| == |Flatten(s.inFlight)| + |s.batchQueue[0]|
  {
    assert s.batchQueue == [s.batchQueue[0]] + s.batchQueue[1..];
    FlattenSnoc(s.taken, s.batchQueue[0]);
    FlattenSnoc(s.inFlight, s.batchQueue[0]);
  }

  lemma BatchDoneBatching(c: Settings, s: Run, k: nat, outcome: BatchOutcome)
    requires Inv(c, s) && k < |s.inFlight|
    ensures Batching(c, BatchDoneStep(c, s, k, outcome)) && Ending(c, BatchDoneStep(c, s, k, outcome))
  {
    var s' := FinishStep(s, s.inFlight[k], outcome).(inFlight := s.inFlight[..k] + s.inFlight[k + 1..]);
    if s'.batchQueue != [] {
      ShiftKeeps(s');
    }
  }

  /** Starting a queued batch in `finally` keeps every started row accounted for. */
  lemma ReleaseRows(c: Settings, r: Run)
    requires RowsStarted(r)
    ensures RowsStarted(ReleaseStep(c, r))
  {
    if r.batchQueue != [] {
      ShiftKeeps(r);
    }
  }

  /** So does the drain loop taking the next queued batch. */
  lemma DrainRows(r: Run)
    requires RowsStarted(r) && r.phase.Polling?
    ensures RowsStarted(DrainStep(r))
  {
    if r.batchQueue != [] {
      ShiftKeeps(r);
    }
  }

  lemma BatchDoneRows(c: Settings, s: Run, k: nat, outcome: BatchOutcome)
    requires Inv(c, s) && k < |s.inFlight|
    ensures RowsStarted(BatchDoneStep(c, s, k, outcome))
  {
    var b := s.inFlight[k];
    FlattenRemove(s.inFlight, k);
    FinishAccounting(s, b, outcome);
    var s' := FinishStep(s, b, outcome).(inFlight := s.inFlight[..k] + s.inFlight[k + 1..]);
    assert RowsStarted(s');
    ReleaseRows(c, s');
  }

  lemma BatchDoneAccounting(c: Settings, s: Run, k: nat, outcome: BatchOutcome)
    requires Inv(c, s) && k < |s.inFlight|
    ensures Accounting(BatchDoneStep(c, s, k, outcome))
  {
    FinishAccounting(s, s.inFlight[k], outcome);
  }

  lemma BatchDoneCounted(c: Settings, s: Run, k: nat, outcome: BatchOutcome)
    requires Inv(c, s) && k < |s.inFlight|
    ensures Counted(c, BatchDoneStep(c, s, k, outcome)) && Stages(BatchDoneStep(c, s, k, outcome))
  {
  }

  lemma BatchDoneKeeps(c: Settings, s: Run, k: nat, outcome: BatchOutcome)
    requires Inv(c, s) && k < |s.inFlight|
    ensures Inv(c, BatchDoneStep(c, s, k, outcome))
  {
    BatchDoneBatching(c, s, k, outcome);
    BatchDoneRows(c, s, k, outcome);
    BatchDoneAccounting(c, s, k, outcome);
    BatchDoneCounted(c, s, k, outcome);
  }

  lemma AwaitedDoneBatching(c: Settings, s: Run, outcome: BatchOutcome)
    requires Inv(c, s) && s.phase.Draining?
    ensures Batching(c, AwaitedDoneStep(c, s, outcome)) && Ending(c, AwaitedDoneStep(c, s, outcome))
  {
    var s' := AwaitedFinish(s, outcome);
    if s'.batchQueue != [] {
      ShiftKeeps(s');
    }
    var r := ReleaseStep(c, s');
    if r.batchQueue != [] {
      ShiftKeeps(r);
    }
  }

  /** Recording the awaited batch moves its rows from awaited to finished. */
  lemma AwaitedFinishRows(s: Run, outcome: BatchOutcome)
    requires RowsStarted(s) && Accounting(s) && Stages(s) && s.phase.Draining?
    ensures RowsStarted(AwaitedFinish(s, outcome))
  {
    FinishAccounting(s, s.phase.batch, outcome);
  }

  lemma AwaitedDoneRows(c: Settings, s: Run, outcome: BatchOutcome)
    requires Inv(c, s) && s.phase.Draining?
    ensures RowsStarted(AwaitedDoneStep(c, s, outcome))
  {
    var s' := AwaitedFinish(s, outcome);
    AwaitedFinishRows(s, outcome);
    ReleaseRows(c, s');
    DrainRows(ReleaseStep(c, s'));
  }

  lemma AwaitedDoneAccounting(c: Settings, s: Run, outcome: BatchOutcome)
    requires Inv(c, s) && s.phase.Draining?
    ensures Accounting(AwaitedDoneStep(c, s, outcome))
  {
    FinishAccounting(s, s.phase.batch, outcome);
  }

  lemma AwaitedDoneCounted(c: Settings, s: Run, outcome: BatchOutcome)
    requires Inv(c, s) && s.phase.Draining?
    ensures Counted(c, AwaitedDoneStep(c, s, outcome)) && Stages(AwaitedDoneStep(c, s, outcome))
  {
  }

  lemma AwaitedDoneKeeps(c: Settings, s: Run, outcome: BatchOutcome)
    requires Inv(c, s) && s.phase.Draining?
    ensures Inv(c, AwaitedDoneStep(c, s, outcome))
  {
    AwaitedDoneBatching(c, s, outcome);
    AwaitedDoneRows(c, s, outcome);
    AwaitedDoneAccounting(c, s, outcome);
    AwaitedDoneCounted(c, s, outcome);
  }

  lemma EndKeeps(c: Settings, s: Run)
    requires Inv(c, s) && s.phase.Streaming?
    ensures Inv(c, EndStep(c, s))
  {
    if s.currentBatch == [] && s.batchQueue != [] {
      ShiftKeeps(s);
    }
  }

  lemma ErrorKeeps(c: Settings, s: Run)
    requires Inv(c, s) && s.phase.Streaming?
    ensures Inv(c, ErrorStep(s))
  {
  }

  lemma PollKeeps(c: Settings, s: Run, now: int)
    requires Inv(c, s) && s.phase.Polling?
    ensures Inv(c, PollStep(c, s, now))
  {
  }

  // ---------------------------------------------------------------------------
  // What the invariant gives

  /** A corrected run resolves only after every row it read has gone through a finished batch,
      and its result reports at most the rows it read as inserted or failed. */
  lemma ResolvedAccountsAll(c: Settings, s: Run)
    requires Inv(c, s) && c.leftoverCounted && s.phase.Resolved?
    ensures s.inFlight == [] && s.batchQueue == []
    ensures DoneRows(s.finished) == s.totalRows == s.phase.result.totalRows
    ensures AllFit(s.finished) ==>
      s.phase.result.processedRows + s.phase.result.failedRows <= s.phase.result.totalRows
  {
    assert s.taken == s.cut;
    if AllFit(s.finished) {
      AccountedWithin(s.finished);
    }
  }

  /** The batches started, then the batches queued, then the current batch, are the rows read
      in stream order; every started or queued batch is full, and the current batch is not
      while the stream runs. */
  lemma RowsInOrder(c: Settings, s: Run)
    requires Inv(c, s)
    ensures Flatten(s.taken) + Flatten(s.batchQueue) + s.currentBatch == s.rows
    ensures forall i :: 0 <= i < |s.taken| ==> |s.taken[i]| == Max(c.batchSize, 1)
    ensures forall i :: 0 <= i < |s.batchQueue| ==> |s.batchQueue[i]| == Max(c.batchSize, 1)
  {
    FlattenAppend(s.taken, s.batchQueue);
    assert forall i :: 0 <= i < |s.taken| ==> s.taken[i] == s.cut[i];
    assert forall i :: 0 <= i < |s.batchQueue| ==> s.batchQueue[i] == s.cut[|s.taken| + i];
  }

  /** The run the source performs when the partial batch finishes before a running batch:
      with `batchSize` 2, `maxConcurrency` 1 and three rows, the first batch is started, the
      partial batch is awaited without being counted, and its `finally` brings `activePromises`
      to 0; the polling loop then resolves while the first batch is still running, with one of
      the three rows accounted for. */
  lemma LeftoverUncountedResolvesEarly()
    ensures var c := Settings(2, 1, false, 0);
      var streamed := RowStep(c, RowStep(c, RowStep(c, Start(), []), []), []);
      var ended := EndStep(c, streamed);
      ended.phase.Draining? &&
      var s := PollStep(c, AwaitedDoneStep(c, ended, Completed(1, 0, [])), 0);
      Inv(c, s) && s.phase.Resolved? && |s.inFlight| == 1 && s.phase.result.totalRows == 3 &&
      s.phase.result.processedRows == 1 && DoneRows(s.finished) == 1
  {
    var c := Settings(2, 1, false, 0);
    StartInv(c);
    var s1 := RowStep(c, Start(), []);
    RowKeeps(c, Start(), []);
    var s2 := RowStep(c, s1, []);
    RowKeeps(c, s1, []);
    var s3 := RowStep(c, s2, []);
    RowKeeps(c, s2, []);
    var ended := EndStep(c, s3);
    EndKeeps(c, s3);
    var done := AwaitedDoneStep(c, ended, Completed(1, 0, []));
    AwaitedDoneKeeps(c, ended, Completed(1, 0, []));
    PollKeeps(c, done, 0);
    assert [Done([[]], Completed(1, 0, []), 1)][..0] == [];
  }

  /** The same rows in the corrected run: the partial batch is counted, so after it finishes
      the first batch still holds `activePromises` at 1 and the polling loop keeps waiting. */
  lemma LeftoverCountedKeepsPolling()
    ensures var c := Settings(2, 1, true, 0);
      var streamed := RowStep(c, RowStep(c, RowStep(c, Start(), []), []), []);
      var ended := EndStep(c, streamed);
      ended.phase.Draining? &&
      var s := PollStep(c, AwaitedDoneStep(c, ended, Completed(1, 0, [])), 0);
      s.phase.Polling? && s.activePromises == 1 && |s.inFlight| == 1
  {
    var c := Settings(2, 1, true, 0);
    StartInv(c);
    var s1 := RowStep(c, Start(), []);
    RowKeeps(c, Start(), []);
    var s2 := RowStep(c, s1, []);
    RowKeeps(c, s1, []);
    var s3 := RowStep(c, s2, []);
    RowKeeps(c, s2, []);
    var ended := EndStep(c, s3);
    EndKeeps(c, s3);
    var done := AwaitedDoneStep(c, ended, Completed(1, 0, []));
    AwaitedDoneKeeps(c, ended, Completed(1, 0, []));
    PollKeeps(c, done, 0);
  }

  // ---------------------------------------------------------------------------
  // The run as an object

  class FileRun {
    const settings: Settings

    var currentBatch: seq<Row>
    var batchQueue: seq<seq<Row>>
    var activePromises: int
    var totalRows: nat
    var processedRows: nat
    var failedRows: nat
    var batchesProcessed: nat
    var errors: seq<RunError>
    /** The batches started by a row or by a finishing batch and still running. */
    var inFlight: seq<seq<Row>>
    var phase: Phase

    ghost var rows: seq<Row>
    ghost var cut: seq<seq<Row>>
    ghost var taken: seq<seq<Row>>
    ghost var finished: seq<Done>
    ghost var leftoverDone: bool

    ghost function State(): Run
      reads this
    {
      Run(currentBatch, batchQueue, activePromises, totalRows, processedRows, failedRows, batchesProcessed,
        errors, inFlight, phase, rows, cut, taken, finished, leftoverDone)
    }

    ghost predicate Valid()
      reads this
    {
      Inv(settings, State())
    }

    constructor(settings: Settings)
      ensures Valid() && this.settings == settings && State() == Start()
    {
      this.settings := settings;
      currentBatch := [];
      batchQueue := [];
      activePromises := 0;
      totalRows := 0;
      processedRows := 0;
      failedRows := 0;
      batchesProcessed := 0;
      errors := [];
      inFlight := [];
      phase := Streaming;
      rows := [];
      cut := [];
      taken := [];
      finished := [];
      leftoverDone := false;
      StartInv(settings);
    }

    method OnRow(row: Row)
      requires Valid() && phase.Streaming?
      modifies this
      ensures Valid() && State() == RowStep(settings, old(State()), row)
    {
      ghost var s0 := State();
      RowKeeps(settings, s0, row);
      PushRow(row);
      if |currentBatch| >= settings.batchSize {
        if activePromises >= settings.maxConcurrency {
          QueueBatch();
        } else {
          StartBatch();
        }
      }
      assert State() == RowStep(settings, s0, row);
    }

    method PushRow(row: Row)
      modifies this
      ensures State() == AddRow(old(State()), row)
    {
      currentBatch := currentBatch + [row];
      totalRows := totalRows + 1;
      rows := rows + [row];
    }

    method QueueBatch()
      modifies this
      ensures State() == QueueCut(old(State()))
    {
      cut := cut + [currentBatch];
      batchQueue := batchQueue + [currentBatch];
      currentBatch := [];
    }

    method StartBatch()
      modifies this
      ensures State() == StartCut(old(State()))
    {
      cut := cut + [currentBatch];
      activePromises := activePromises + 1;
      inFlight := inFlight + [currentBatch];
      taken := taken + [currentBatch];
      currentBatch := [];
    }

    /** Records a finished batch (the first half of `FinishStep`'s update, then the second). */
    method Finish(batch: seq<Row>, outcome: BatchOutcome)
      modifies this
      ensures State() == FinishStep(old(State()), batch, outcome)
    {
      var d := Done(batch, outcome, batchesProcessed + 1);
      Record(d);
      Count(d);
    }

    method Record(d: Done)
      modifies this
      ensures State() == old(State()).(finished := old(finished) + [d], errors := old(errors) + DoneErrors(d))
    {
      finished := finished + [d];
      errors := errors + DoneErrors(d);
    }

    method Count(d: Done)
      modifies this
      ensures State() == old(State()).(processedRows := old(processedRows) + InsertedBy(d),
        failedRows := old(failedRows) + FailedBy(d), batchesProcessed := old(batchesProcessed) + CompletedBy(d))
    {
      processedRows := processedRows + InsertedBy(d);
      failedRows := failedRows + FailedBy(d);
      batchesProcessed := batchesProcessed + CompletedBy(d);
    }

    method Release()
      modifies this
      ensures State() == ReleaseStep(settings, old(State()))
    {
      activePromises := activePromises - 1;
      if batchQueue != [] && activePromises < settings.maxConcurrency {
        var next := batchQueue[0];
        batchQueue := batchQueue[1..];
        activePromises := activePromises + 1;
        inFlight := inFlight + [next];
        taken := taken + [next];
      }
    }

    method DrainNext()
      modifies this
      ensures State() == DrainStep(old(State()))
    {
      if batchQueue != [] {
        var next := batchQueue[0];
        batchQueue := batchQueue[1..];
        activePromises := activePromises + 1;
        taken := taken + [next];
        phase := Draining(next, true);
      } else {
        phase := Polling;
      }
    }

    method OnBatchDone(k: nat, outcome: BatchOutcome)
      requires Valid() && k < |inFlight|
      modifies this
      ensures Valid() && State() == BatchDoneStep(settings, old(State()), k, outcome)
    {
      ghost var s0 := State();
      BatchDoneKeeps(settings, s0, k, outcome);
      Finish(inFlight[k], outcome);
      inFlight := inFlight[..k] + inFlight[k + 1..];
      Release();
      assert State() == BatchDoneStep(settings, s0, k, outcome);
    }

    method OnAwaitedDone(outcome: BatchOutcome)
      requires Valid() && phase.Draining?
      modifies this
      ensures Valid() && State() == AwaitedDoneStep(settings, old(State()), outcome)
    {
      ghost var s0 := State();
      AwaitedDoneKeeps(settings, s0, outcome);
      var fromQueue := phase.fromQueue;
      Finish(phase.batch, outcome);
      leftoverDone := leftoverDone || !fromQueue;
      phase := Polling;
      Release();
      DrainNext();
      assert State() == AwaitedDoneStep(settings, s0, outcome);
    }

    method OnEnd()
      requires Valid() && phase.Streaming?
      modifies this
      ensures Valid() && State() == EndStep(settings, old(State()))
    {
      ghost var s0 := State();
      EndKeeps(settings, s0);
      if currentBatch != [] {
        phase := Draining(currentBatch, false);
        if settings.leftoverCounted {
          activePromises := activePromises + 1;
        }
      } else {
        DrainNext();
      }
      assert State() == EndStep(settings, s0);
    }

    method OnStreamError()
      requires Valid() && phase.Streaming?
      modifies this
      ensures Valid() && State() == ErrorStep(old(State()))
    {
      ghost var s0 := State();
      ErrorKeeps(settings, s0);
      phase := Rejected;
      assert State() == ErrorStep(s0);
    }

    method OnPollTick(now: int)
      requires Valid() && phase.Polling?
      modifies this
      ensures Valid() && State() == PollStep(settings, old(State()), now)
    {
      ghost var s0 := State();
      PollKeeps(settings, s0, now);
      if activePromises <= 0 {
        phase := Resolved(FileResult(totalRows, processedRows, failedRows, now - settings.startTime,
          batchesProcessed, errors));
      }
      assert State() == PollStep(settings, s0, now);
    }
  }
}
