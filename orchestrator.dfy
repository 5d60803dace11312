/** `OptimizedETLService`: the decisions around the per-file runs. Its configuration is the
    defaults with the caller's settings laid over them; a run lists the CSV files of the input
    directory, classifies each by name, and either starts one parallel group per data type or
    runs the known files one after another; the statistics sum the per-file results.

    A file's run (`BatchProcessor.processFile`) is a parameter: the result it resolves with, or
    the error it rejects with. */
module Orchestrator {
  import opened Common
  import opened Retry
  import opened BatchWriter
  import opened Batcher
  import opened FileUtils

  // ---------------------------------------------------------------------------
  // Configuration

  /** `OptimizedETLConfig`. */
  datatype EtlConfig = EtlConfig(batchSize: int, maxConcurrency: int, enableTransactions: bool,
    skipDuplicates: bool, enableParallelProcessing: bool, enableProgressTracking: bool,
    deadlockRetryConfig: Option<RetryConfig>)

  /** `Partial<OptimizedETLConfig>`: a setting the caller supplies, or leaves out. */
  datatype ConfigOverrides = ConfigOverrides(batchSize: Option<int>, maxConcurrency: Option<int>,
    enableTransactions: Option<bool>, skipDuplicates: Option<bool>,
    enableParallelProcessing: Option<bool>, enableProgressTracking: Option<bool>,
    deadlockRetryConfig: Option<RetryConfig>)

  const NoOverrides := ConfigOverrides(None, None, None, None, None, None, None)

  /** The service constructor: `{ defaults, ...config }`. The service has no default retry
      settings of its own. */
  function ServiceConfig(o: ConfigOverrides): EtlConfig {
    EtlConfig(o.batchSize.GetOr(5000), o.maxConcurrency.GetOr(3), o.enableTransactions.GetOr(true),
      o.skipDuplicates.GetOr(false), o.enableParallelProcessing.GetOr(true),
      o.enableProgressTracking.GetOr(true), o.deadlockRetryConfig)
  }

  /** The `BatchProcessor` constructor, given the service's configuration: its own default retry
      settings stay unless the service's configuration carries some. */
  function ProcessorRetry(c: EtlConfig): RetryConfig {
    c.deadlockRetryConfig.GetOr(RetryConfig(3, 1000, 30000))
  }

  /** What the batch writers read of the processor's configuration. */
  function WriterConfigOf(c: EtlConfig): WriterConfig {
    WriterConfig(Some(ProcessorRetry(c)), c.skipDuplicates)
  }

  /** What a file run reads of it; the batch is cut when its length reaches `batchSize`, which
      no length does below zero, so a negative size behaves as zero. `leftoverCounted` chooses
      the run: `false` is `processFile` as written, whose partial batch at the end is not
      counted in `activePromises`; `true` is the corrected run (see `Batcher.Settings`). */
  function RunSettings(c: EtlConfig, startTime: int, leftoverCounted: bool): Settings {
    Settings(Max(c.batchSize, 0), c.maxConcurrency, leftoverCounted, startTime)
  }

  /** The settings of a file run of the service as written. */
  function SourceRunSettings(c: EtlConfig, startTime: int): Settings {
    RunSettings(c, startTime, false)
  }

  /** Every supplied setting wins over its default, and every setting left out takes it. */
  lemma SuppliedSettingsWin(o: ConfigOverrides)
    ensures ServiceConfig(o).batchSize == if o.batchSize.Some? then o.batchSize.value else 5000
    ensures ServiceConfig(o).maxConcurrency == if o.maxConcurrency.Some? then o.maxConcurrency.value else 3
    ensures ServiceConfig(o).enableTransactions == (o.enableTransactions != Some(false))
    ensures ServiceConfig(o).skipDuplicates == (o.skipDuplicates == Some(true))
    ensures ServiceConfig(o).enableParallelProcessing == (o.enableParallelProcessing != Some(false))
    ensures ServiceConfig(o).enableProgressTracking == (o.enableProgressTracking != Some(false))
    ensures ServiceConfig(o).deadlockRetryConfig == o.deadlockRetryConfig
  {
  }

  /** With nothing supplied: batches of 5000, three at a time, transactions on, duplicates not
      skipped, parallel runs and progress tracking on; the writers then retry by the processor's
      defaults, which are the same as having no retry settings at all. */
  lemma DefaultConfig()
    ensures ServiceConfig(NoOverrides) == EtlConfig(5000, 3, true, false, true, true, None)
    ensures WriterConfigOf(ServiceConfig(NoOverrides)) == WriterConfig(Some(RetryConfig(3, 1000, 30000)), false)
    ensures PolicyOf(WriterConfigOf(ServiceConfig(NoOverrides)).retry) == PolicyOf(None)
  {
  }

  /** Clamping the batch size at zero changes no cut decision, the concurrency and the start
      time pass through, and the service as written hands each file the uncounted partial
      batch of the source. */
  lemma RunSettingsCuts(c: EtlConfig, startTime: int, counted: bool, length: nat)
    ensures length < RunSettings(c, startTime, counted).batchSize <==> length < c.batchSize
    ensures RunSettings(c, startTime, counted).maxConcurrency == c.maxConcurrency
    ensures RunSettings(c, startTime, counted).startTime == startTime
    ensures !SourceRunSettings(c, startTime).leftoverCounted
    ensures SourceRunSettings(c, startTime).(leftoverCounted := true) == RunSettings(c, startTime, true)
  {
  }

  // ---------------------------------------------------------------------------
  // Classification

  datatype DataType = CaregiverType | CarelogType

  /** `detectFileType`. */
  function DetectFileType(filePath: string): Option<DataType> {
    var fileName := ToLower(filePath);
    if Contains(fileName, "caregiver") || Contains(fileName, "caregiver_data") then Some(CaregiverType)
    else if Contains(fileName, "carelog") || Contains(fileName, "carelog_data") then Some(CarelogType)
    else None
  }

  /** The "_data" alternatives add nothing: a name contains "caregiver_data" only if it
      contains "caregiver", and likewise for "carelog". */
  lemma DataSuffixRedundant(name: string)
    ensures Contains(name, "caregiver") || Contains(name, "caregiver_data") <==> Contains(name, "caregiver")
    ensures Contains(name, "carelog") || Contains(name, "carelog_data") <==> Contains(name, "carelog")
  {
    assert "caregiver_data" == "caregiver" + "_data";
    assert "carelog_data" == "carelog" + "_data";
    if Contains(name, "caregiver_data") {
      ContainsExtended(name, "caregiver", "_data");
    }
    if Contains(name, "carelog_data") {
      ContainsExtended(name, "carelog", "_data");
    }
  }

  /** Caregiver is checked first: a name mentioning "caregiver" is a caregiver file whatever else
      it mentions; a carelog file mentions "carelog" and not "caregiver"; anything else is of no
      known type. */
  lemma DetectFileTypeSpec(filePath: string)
    ensures DetectFileType(filePath) == Some(CaregiverType) <==> Contains(ToLower(filePath), "caregiver")
    ensures DetectFileType(filePath) == Some(CarelogType) <==>
      !Contains(ToLower(filePath), "caregiver") && Contains(ToLower(filePath), "carelog")
    ensures DetectFileType(filePath) == None <==>
      !Contains(ToLower(filePath), "caregiver") && !Contains(ToLower(filePath), "carelog")
  {
    DataSuffixRedundant(ToLower(filePath));
  }

  /** The parallel branch's filters. */
  predicate NamesCaregiver(file: string) {
    Contains(ToLower(file), "caregiver") || Contains(ToLower(file), "caregiver_data")
  }

  predicate NamesCarelog(file: string) {
    Contains(ToLower(file), "carelog") || Contains(ToLower(file), "carelog_data")
  }

  function CaregiverFiles(files: seq<string>): seq<string> {
    Filter(files, NamesCaregiver)
  }

  function CarelogFiles(files: seq<string>): seq<string> {
    Filter(files, NamesCarelog)
  }

  /** Each list holds, in listing order, the files naming its type, independently of the other
      list: a file naming both is in both, a file naming neither is in neither. A caregiver
      file by `detectFileType` is exactly a file of the caregiver list; a carelog file by
      `detectFileType` is in the carelog list and not in the caregiver list. */
  lemma ParallelSplit(files: seq<string>, f: string)
    ensures f in CaregiverFiles(files) <==> f in files && Contains(ToLower(f), "caregiver")
    ensures f in CarelogFiles(files) <==> f in files && Contains(ToLower(f), "carelog")
    ensures f in files ==> (DetectFileType(f) == Some(CaregiverType) <==> f in CaregiverFiles(files))
    ensures f in files && DetectFileType(f) == Some(CarelogType) ==>
      f in CarelogFiles(files) && f !in CaregiverFiles(files)
  {
    FilterMember(files, NamesCaregiver, f);
    FilterMember(files, NamesCarelog, f);
    DataSuffixRedundant(ToLower(f));
    DetectFileTypeSpec(f);
  }

  /** `t` occurs in `a + t + b`. */
  lemma {:induction false} ContainsInfix(a: string, t: string, b: string)
    ensures Contains(a + t + b, t)
    decreases |a|
  {
    if a == [] {
      assert a + t + b == t + b;
      assert (t + b)[..|t|] == t;
    } else {
      assert (a + t + b)[1..] == a[1..] + t + b;
      ContainsInfix(a[1..], t, b);
    }
  }

  lemma ToLowerAppend(s: string, t: string)
    ensures ToLower(s + t) == ToLower(s) + ToLower(t)
  {
    assert forall i :: 0 <= i < |s + t| ==> ToLower(s + t)[i] == (ToLower(s) + ToLower(t))[i];
  }

  lemma ContainsEarlier(a: string, t: string, m: string, u: string, b: string)
    ensures Contains(a + t + m + u + b, t)
  {
    assert a + t + m + u + b == a + t + (m + u + b);
    ContainsInfix(a, t, m + u + b);
  }

  lemma ToLowerOfFive(a: string, t: string, m: string, u: string, b: string)
    ensures ToLower(a + t + m + u + b) == ToLower(a) + ToLower(t) + ToLower(m) + ToLower(u) + ToLower(b)
  {
    ToLowerAppend(a + t + m + u, b);
    ToLowerAppend(a + t + m, u);
    ToLowerAppend(a + t, m);
    ToLowerAppend(a, t);
  }

  /** Both `t` and `u` occur in a name made of `t` and later `u`, once lower-cased, when they are
      in lower case already. */
  lemma ContainsBoth(a: string, t: string, m: string, u: string, b: string)
    requires ToLower(t) == t && ToLower(u) == u
    ensures Contains(ToLower(a + t + m + u + b), t) && Contains(ToLower(a + t + m + u + b), u)
  {
    ToLowerOfFive(a, t, m, u, b);
    ContainsEarlier(ToLower(a), t, ToLower(m), u, ToLower(b));
    ContainsInfix(ToLower(a) + t + ToLower(m), u, ToLower(b));
  }

  lemma LowerCaregiver()
    ensures ToLower("caregiver") == "caregiver"
  {
    var g := ToLower("caregiver");
    assert g[0] == 'c' && g[1] == 'a' && g[2] == 'r' && g[3] == 'e' && g[4] == 'g';
    assert g[5] == 'i' && g[6] == 'v' && g[7] == 'e' && g[8] == 'r';
  }

  lemma LowerCarelog()
    ensures ToLower("carelog") == "carelog"
  {
    var l := ToLower("carelog");
    assert l[0] == 'c' && l[1] == 'a' && l[2] == 'r' && l[3] == 'e' && l[4] == 'l' && l[5] == 'o' && l[6] == 'g';
  }

  /** A name in which "caregiver" comes before "carelog", such as "caregiver_carelog.csv", is
      run in both parallel groups, while the sequential branch runs it once, as caregivers. */
  lemma BothGroupsExample(a: string, m: string, b: string)
    ensures var f := a + "caregiver" + m + "carelog" + b;
      f in CaregiverFiles([f]) && f in CarelogFiles([f]) && DetectFileType(f) == Some(CaregiverType)
  {
    var f := a + "caregiver" + m + "carelog" + b;
    LowerCaregiver();
    LowerCarelog();
    ContainsBoth(a, "caregiver", m, "carelog", b);
    ParallelSplit([f], f);
  }

  /** The parallel branch runs only with parallel processing on and more than one CSV file. */
  predicate UsesParallel(c: EtlConfig, csvFiles: seq<string>) {
    c.enableParallelProcessing && |csvFiles| > 1
  }

  // ---------------------------------------------------------------------------
  // Sequential runs

  /** The type a known file is run as. */
  function TypeOf(f: string): DataType {
    DetectFileType(f).GetOr(CaregiverType)
  }

  predicate Known(f: string) {
    DetectFileType(f).Some?
  }

  function KnownFiles(files: seq<string>): seq<string> {
    Filter(files, Known)
  }

  /** The outcome of running file `f` as the type it was classified as. */
  function Outcome(run: (string, DataType) -> Result<FileResult, string>, f: string): Result<FileResult, string> {
    run(f, TypeOf(f))
  }

  /** The sequential loop over a prefix of the listing: unknown files are skipped, each known
      file's result is appended, and the first rejection ends the run with its error. */
  function SequentialRun(files: seq<string>, run: (string, DataType) -> Result<FileResult, string>): Result<seq<FileResult>, string>
    decreases |files|
  {
    if files == [] then Ok([])
    else
      var prev := SequentialRun(files[..|files| - 1], run);
      var f := files[|files| - 1];
      if prev.Err? || !Known(f) then prev
      else if Outcome(run, f).Err? then Err(Outcome(run, f).error)
      else Ok(prev.value + [Outcome(run, f).value])
  }

  /** `Promise.all` read in order, or an `await` loop: all values, or the first error. */
  function Collect<T>(rs: seq<Result<T, string>>): Result<seq<T>, string>
    decreases |rs|
  {
    if rs == [] then Ok([])
    else
      var prev := Collect(rs[..|rs| - 1]);
      var last := rs[|rs| - 1];
      if prev.Err? then prev
      else if last.Err? then Err(last.error)
      else Ok(prev.value + [last.value])
  }

  lemma CollectSnoc<T>(rs: seq<Result<T, string>>, x: Result<T, string>)
    ensures Collect(rs + [x]) ==
      if Collect(rs).Err? then Collect(rs) else if x.Err? then Err(x.error) else Ok(Collect(rs).value + [x.value])
  {
    assert (rs + [x])[..|rs|] == rs;
  }

  /** All values, one per outcome and in order, when every outcome succeeded; otherwise the
      error of the first failing outcome. */
  lemma {:induction false} CollectSpec<T>(rs: seq<Result<T, string>>)
    ensures Collect(rs).Ok? <==> forall i :: 0 <= i < |rs| ==> rs[i].Ok?
    ensures Collect(rs).Ok? ==> |Collect(rs).value| == |rs|
    ensures Collect(rs).Ok? ==> forall i :: 0 <= i < |rs| ==> Collect(rs).value[i] == rs[i].value
    ensures Collect(rs).Err? ==> exists i :: (0 <= i < |rs| && rs[i] == Err(Collect(rs).error) &&
      forall j :: 0 <= j < i ==> rs[j].Ok?)
    decreases |rs|
  {
    if rs != [] {
      var init := rs[..|rs| - 1];
      CollectSpec(init);
      assert forall i :: 0 <= i < |init| ==> init[i] == rs[i];
      if Collect(init).Err? {
        var i :| 0 <= i < |init| && init[i] == Err(Collect(init).error) &&
          forall j :: 0 <= j < i ==> init[j].Ok?;
        assert rs[i] == Err(Collect(rs).error);
      } else if rs[|rs| - 1].Err? {
        assert rs[|rs| - 1] == Err(Collect(rs).error);
      }
    }
  }

  /** The sequential loop is collecting, in listing order, the outcomes of the known files. */
  lemma {:induction false} SequentialIsCollect(files: seq<string>, run: (string, DataType) -> Result<FileResult, string>)
    ensures SequentialRun(files, run) == Collect(Map(KnownFiles(files), (f: string) => Outcome(run, f)))
    decreases |files|
  {
    var out := (f: string) => Outcome(run, f);
    if files == [] {
      assert KnownFiles(files) == [];
    } else {
      var init := files[..|files| - 1];
      var f := files[|files| - 1];
      SequentialIsCollect(init, run);
      assert files == init + [f];
      FilterSnoc(init, f, Known);
      var prev := Map(KnownFiles(init), out);
      if Known(f) {
        MapSnoc(KnownFiles(init), f, out);
        var rs := prev + [out(f)];
        assert rs[..|rs| - 1] == prev;
        assert Map(KnownFiles(files), out) == rs;
        CollectSnoc(prev, out(f));
      } else {
        assert KnownFiles(files) == KnownFiles(init);
      }
    }
  }

  /** The promise of the sequential branch: when every known file's run resolves, one result per
      known file, in listing order; otherwise the error of the first known file whose run
      rejects. Unknown files are never run. */
  lemma SequentialSpec(files: seq<string>, run: (string, DataType) -> Result<FileResult, string>)
    ensures var known := KnownFiles(files); var r := SequentialRun(files, run);
      (r.Ok? <==> forall i :: 0 <= i < |known| ==> Outcome(run, known[i]).Ok?) &&
      (r.Ok? ==> |r.value| == |known| && forall i :: 0 <= i < |known| ==> r.value[i] == Outcome(run, known[i]).value) &&
      (r.Err? ==> exists i :: (0 <= i < |known| && Outcome(run, known[i]) == Err(r.error) &&
        forall j :: 0 <= j < i ==> Outcome(run, known[j]).Ok?))
    ensures forall f :: f in KnownFiles(files) <==> f in files && DetectFileType(f).Some?
  {
    var out := (f: string) => Outcome(run, f);
    SequentialIsCollect(files, run);
    CollectSpec(Map(KnownFiles(files), out));
    forall f
      ensures f in KnownFiles(files) <==> f in files && DetectFileType(f).Some?
    {
      FilterMember(files, Known, f);
    }
  }

  /** A rejection ends the loop: once a prefix has failed, the whole run fails with that error. */
  lemma {:induction false} SequentialErrSticks(files: seq<string>, k: nat, run: (string, DataType) -> Result<FileResult, string>)
    requires k <= |files|
    requires SequentialRun(files[..k], run).Err?
    ensures SequentialRun(files, run) == SequentialRun(files[..k], run)
    decreases |files| - k
  {
    if k < |files| {
      assert files[..k + 1][..k] == files[..k];
      SequentialErrSticks(files, k + 1, run);
    } else {
      assert files[..k] == files;
    }
  }

  /** The sequential `for` loop of `processAllFiles`. */
  method ProcessSequentially(csvFiles: seq<string>, run: (string, DataType) -> Result<FileResult, string>)
    returns (r: Result<seq<FileResult>, string>)
    ensures r == SequentialRun(csvFiles, run)
  {
    var results: seq<FileResult> := [];
    var i := 0;
    while i < |csvFiles|
      invariant i <= |csvFiles|
      invariant SequentialRun(csvFiles[..i], run) == Ok(results)
    {
      var filePath := csvFiles[i];
      assert csvFiles[..i + 1][..i] == csvFiles[..i];
      var dataType := DetectFileType(filePath);
      if dataType.None? {
        i := i + 1;
        continue;
      }
      var result := run(filePath, dataType.value);
      if result.Err? {
        SequentialErrSticks(csvFiles, i + 1, run);
        return Err(result.error);
      }
      results := results + [result.value];
      i := i + 1;
    }
    assert csvFiles[..i] == csvFiles;
    return Ok(results);
  }

  // ---------------------------------------------------------------------------
  // Parallel runs

  function Succeeded(x: FileResult): Result<FileResult, string> {
    Ok(x)
  }

  /** The promise of `processFilesParallel(files, t)`: if every run resolves, one result per
      file, in some completion order; otherwise the error of some run that rejected. */
  predicate GroupOutcome(files: seq<string>, t: DataType, run: (string, DataType) -> Result<FileResult, string>,
                         r: Result<seq<FileResult>, string>) {
    (r.Ok? <==> forall i :: 0 <= i < |files| ==> run(files[i], t).Ok?) &&
    (r.Ok? ==> multiset(Map(r.value, Succeeded)) == multiset(Map(files, (f: string) => run(f, t)))) &&
    (r.Err? ==> exists i :: 0 <= i < |files| && run(files[i], t) == Err(r.error))
  }

  /** `processFilesParallel`, with the runs taken in listing order (one of the orders the
      semaphore allows). */
  method ProcessFilesParallel(files: seq<string>, t: DataType, run: (string, DataType) -> Result<FileResult, string>)
    returns (r: Result<seq<FileResult>, string>)
    ensures GroupOutcome(files, t, run, r)
    ensures r.Ok? ==> |r.value| == |files|
  {
    var results: seq<FileResult> := [];
    var i := 0;
    while i < |files|
      invariant i <= |files|
      invariant forall j :: 0 <= j < i ==> run(files[j], t).Ok?
      invariant Map(results, Succeeded) == Map(files[..i], (f: string) => run(f, t))
    {
      var result := run(files[i], t);
      if result.Err? {
        return Err(result.error);
      }
      MapSnoc(results, result.value, Succeeded);
      MapSnoc(files[..i], files[i], (f: string) => run(f, t));
      assert files[..i + 1] == files[..i] + [files[i]];
      results := results + [result.value];
      i := i + 1;
    }
    assert files[..i] == files;
    return Ok(results);
  }

  /** The promise of the parallel branch: the caregiver group's results, then the carelog
      group's; either group's rejection rejects the run. */
  predicate ParallelOutcome(csvFiles: seq<string>, run: (string, DataType) -> Result<FileResult, string>,
                            r: Result<seq<FileResult>, string>) {
    var cg := CaregiverFiles(csvFiles);
    var cl := CarelogFiles(csvFiles);
    (r.Ok? <==> (forall i :: 0 <= i < |cg| ==> run(cg[i], CaregiverType).Ok?) &&
                (forall i :: 0 <= i < |cl| ==> run(cl[i], CarelogType).Ok?)) &&
    (r.Ok? ==> (|r.value| == |cg| + |cl| &&
      GroupOutcome(cg, CaregiverType, run, Ok(r.value[..|cg|])) &&
      GroupOutcome(cl, CarelogType, run, Ok(r.value[|cg|..])))) &&
    (r.Err? ==> (exists i :: 0 <= i < |cg| && run(cg[i], CaregiverType) == Err(r.error)) ||
                (exists i :: 0 <= i < |cl| && run(cl[i], CarelogType) == Err(r.error)))
  }

  /** An empty group is not started; it contributes nothing. */
  method RunGroup(files: seq<string>, t: DataType, run: (string, DataType) -> Result<FileResult, string>)
    returns (r: Result<seq<FileResult>, string>)
    ensures GroupOutcome(files, t, run, r)
    ensures r.Ok? ==> |r.value| == |files|
  {
    if |files| > 0 {
      r := ProcessFilesParallel(files, t, run);
    } else {
      r := Ok([]);
    }
  }

  /** The parallel branch of `processAllFiles`. */
  method ProcessInParallel(csvFiles: seq<string>, run: (string, DataType) -> Result<FileResult, string>)
    returns (r: Result<seq<FileResult>, string>)
    ensures ParallelOutcome(csvFiles, run, r)
  {
    var caregiverFiles := CaregiverFiles(csvFiles);
    var carelogFiles := CarelogFiles(csvFiles);
    var caregivers := RunGroup(caregiverFiles, CaregiverType, run);
    var carelogs := RunGroup(carelogFiles, CarelogType, run);
    if caregivers.Err? {
      return Err(caregivers.error);
    }
    if carelogs.Err? {
      return Err(carelogs.error);
    }
    var results := caregivers.value + carelogs.value;
    assert results[..|caregiverFiles|] == caregivers.value;
    assert results[|caregiverFiles|..] == carelogs.value;
    return Ok(results);
  }

  /** `processAllFiles(inputDir)`: list the CSV files; none gives no results; otherwise the
      parallel branch when it applies and the sequential loop else. */
  method ProcessAllFiles(c: EtlConfig, inputDir: string, listing: Result<seq<string>, string>,
                         join: (string, string) -> string, run: (string, DataType) -> Result<FileResult, string>)
    returns (r: Result<seq<FileResult>, string>)
    ensures var csvFiles := GetCSVFiles(inputDir, listing, join);
      (csvFiles == [] ==> r == Ok([])) &&
      (UsesParallel(c, csvFiles) ==> ParallelOutcome(csvFiles, run, r)) &&
      (csvFiles != [] && !UsesParallel(c, csvFiles) ==> r == SequentialRun(csvFiles, run))
  {
    var csvFiles := GetCSVFiles(inputDir, listing, join);
    if |csvFiles| == 0 {
      return Ok([]);
    }
    if c.enableParallelProcessing && |csvFiles| > 1 {
      r := ProcessInParallel(csvFiles, run);
    } else {
      r := ProcessSequentially(csvFiles, run);
    }
  }

  /** A single CSV file is always run sequentially, even with parallel processing on. */
  lemma SingleFileSequential(c: EtlConfig, f: string)
    ensures !UsesParallel(c, [f])
  {
  }

  // ---------------------------------------------------------------------------
  // Statistics

  /** `getPerformanceStats`, with the two rates as exact quotients. */
  datatype PerformanceStats = PerformanceStats(totalRows: int, totalProcessed: int, totalFailed: int,
    totalTime: int, averageSpeed: real, successRate: real)

  /** `results.reduce((sum, r) => sum + field(r), 0)`. */
  function Sum(results: seq<FileResult>, field: FileResult -> int): int
    decreases |results|
  {
    if results == [] then 0 else Sum(results[..|results| - 1], field) + field(results[|results| - 1])
  }

  function RowsOf(r: FileResult): int { r.totalRows }
  function ProcessedOf(r: FileResult): int { r.processedRows }
  function FailedOf(r: FileResult): int { r.failedRows }
  function TimeOf(r: FileResult): int { r.processingTime }

  function GetPerformanceStats(results: seq<FileResult>): PerformanceStats {
    var totalRows := Sum(results, RowsOf);
    var totalProcessed := Sum(results, ProcessedOf);
    var totalFailed := Sum(results, FailedOf);
    var totalTime := Sum(results, TimeOf);
    var averageSpeed := if totalTime > 0 then (totalProcessed as real / totalTime as real) * 1000.0 else 0.0;
    var successRate := if totalRows > 0 then (totalProcessed as real / totalRows as real) * 100.0 else 0.0;
    PerformanceStats(totalRows, totalProcessed, totalFailed, totalTime, averageSpeed, successRate)
  }

  /** The totals are plain sums: the sum over two lists one after the other is the sum of the
      two sums, and the sum over one result is its own value. */
  lemma {:induction false} SumAppend(a: seq<FileResult>, b: seq<FileResult>, field: FileResult -> int)
    ensures Sum(a + b, field) == Sum(a, field) + Sum(b, field)
    decreases |b|
  {
    if b == [] {
      assert a + b == a;
    } else {
      var init := b[..|b| - 1];
      assert (a + b)[..|a + b| - 1] == a + init;
      SumAppend(a, init, field);
    }
  }

  lemma {:induction false} SumBelow(results: seq<FileResult>, lo: FileResult -> int, hi: FileResult -> int)
    requires forall i :: 0 <= i < |results| ==> 0 <= lo(results[i]) <= hi(results[i])
    ensures 0 <= Sum(results, lo) <= Sum(results, hi)
    decreases |results|
  {
    if results != [] {
      SumBelow(results[..|results| - 1], lo, hi);
    }
  }

  /** The statistics of two lists of results together: every total is the sum of the two
      lists' totals. */
  lemma StatsOfConcat(a: seq<FileResult>, b: seq<FileResult>)
    ensures GetPerformanceStats(a + b).totalRows == GetPerformanceStats(a).totalRows + GetPerformanceStats(b).totalRows
    ensures GetPerformanceStats(a + b).totalProcessed == GetPerformanceStats(a).totalProcessed + GetPerformanceStats(b).totalProcessed
    ensures GetPerformanceStats(a + b).totalFailed == GetPerformanceStats(a).totalFailed + GetPerformanceStats(b).totalFailed
    ensures GetPerformanceStats(a + b).totalTime == GetPerformanceStats(a).totalTime + GetPerformanceStats(b).totalTime
  {
    SumAppend(a, b, RowsOf);
    SumAppend(a, b, ProcessedOf);
    SumAppend(a, b, FailedOf);
    SumAppend(a, b, TimeOf);
  }

  /** No results, or no rows and no time, give zero rates instead of a division by zero; when
      no file processed more rows than it had, the success rate is a percentage and the speed
      is never negative. */
  lemma StatsRates(results: seq<FileResult>)
    ensures results == [] ==> GetPerformanceStats(results) == PerformanceStats(0, 0, 0, 0, 0.0, 0.0)
    ensures GetPerformanceStats(results).totalTime <= 0 ==> GetPerformanceStats(results).averageSpeed == 0.0
    ensures GetPerformanceStats(results).totalRows == 0 ==> GetPerformanceStats(results).successRate == 0.0
    ensures (forall i :: 0 <= i < |results| ==> results[i].processedRows <= results[i].totalRows) ==>
      0.0 <= GetPerformanceStats(results).successRate <= 100.0 &&
      0.0 <= GetPerformanceStats(results).averageSpeed
  {
    var s := GetPerformanceStats(results);
    if forall i :: 0 <= i < |results| ==> results[i].processedRows <= results[i].totalRows {
      SumBelow(results, ProcessedOf, RowsOf);
      if s.totalRows > 0 {
        var p := s.totalProcessed as real;
        var t := s.totalRows as real;
        assert 0.0 <= p <= t;
        assert p / t <= 1.0 by {
          assert p <= t * 1.0;
        }
        assert 0.0 <= p / t;
      }
      if s.totalTime > 0 {
        assert 0.0 <= s.totalProcessed as real / s.totalTime as real;
      }
    }
  }
}
