/** `Logger`: the level filter, the process-wide instance and the summary of an ETL result.
    The console is modelled as the sequence of entries written to it; timestamps and the
    formatting of each line are not part of the model. */
module Logging {
  import opened Common

  /** The levels, most severe first. */
  const Levels: seq<string> := ["error", "warn", "info", "debug"]

  /** `Array.prototype.indexOf`: the first position holding `x`, or -1. */
  function IndexOf(s: seq<string>, x: string): (i: int)
    ensures -1 <= i < |s|
    ensures i >= 0 ==> s[i] == x && forall j :: 0 <= j < i ==> s[j] != x
    ensures i == -1 <==> x !in s
    decreases |s|
  {
    if s == [] then -1
    else if s[0] == x then 0
    else
      var k := IndexOf(s[1..], x);
      if k == -1 then -1 else k + 1
  }

  /** `shouldLog`: a message at `level` is written under `logLevel` when the level is at least
      as severe, by position in `Levels`. */
  predicate Emits(logLevel: string, level: string) {
    IndexOf(Levels, level) <= IndexOf(Levels, logLevel)
  }

  /** The positions of the four known levels. */
  lemma LevelPositions()
    ensures IndexOf(Levels, "error") == 0 && IndexOf(Levels, "warn") == 1
    ensures IndexOf(Levels, "info") == 2 && IndexOf(Levels, "debug") == 3
  {
  }

  /** Under any recognised level, errors are written; under any level at all, a debug message
      is written exactly when the level is "debug". */
  lemma ErrorAndDebug(logLevel: string)
    ensures logLevel in Levels ==> Emits(logLevel, "error")
    ensures Emits(logLevel, "debug") <==> logLevel == "debug"
  {
    LevelPositions();
  }

  /** An unrecognised level sits at -1 and silences every known level; a message at an
      unrecognised level sits at -1 too and is always written. */
  lemma UnknownLevels(logLevel: string, level: string)
    ensures logLevel !in Levels && level in Levels ==> !Emits(logLevel, level)
    ensures level !in Levels ==> Emits(logLevel, level)
  {
  }

  /** The filter is a threshold: a message is written iff it is at least as severe as the
      level, and a message more severe than a written one is written too. */
  lemma Threshold(logLevel: string, level: string, other: string)
    requires level in Levels && other in Levels
    requires Emits(logLevel, level)
    requires IndexOf(Levels, other) <= IndexOf(Levels, level)
    ensures Emits(logLevel, other)
  {
  }

  /** `process.env.LOG_LEVEL || "info"`: an unset or empty variable means "info". */
  function LevelFrom(env: Option<string>): (level: string)
    ensures env.None? || env.value == "" ==> level == "info"
    ensures env.Some? && env.value != "" ==> level == env.value
  {
    if env.Some? && env.value != "" then env.value else "info"
  }

  /** The default level writes errors, warnings and information but no debug messages. */
  lemma DefaultLevel()
    ensures Emits(LevelFrom(None), "error") && Emits(LevelFrom(None), "warn")
    ensures Emits(LevelFrom(None), "info") && !Emits(LevelFrom(None), "debug")
  {
    LevelPositions();
  }

  /** A line written to the console: its level and its message. */
  datatype Entry = Entry(level: string, message: string)

  /** `ETLResult`. */
  datatype EtlResult = EtlResult(success: bool, recordsRead: int, recordsProcessed: int,
                                 recordsFailed: int, processingTime: int, errors: seq<string>)

  class Logger {
    const logLevel: string
    /** What has been written to the console so far. */
    var written: seq<Entry>

    /** The private constructor: the level comes from `LOG_LEVEL`. */
    constructor(env: Option<string>)
      ensures logLevel == LevelFrom(env) && written == []
    {
      logLevel := LevelFrom(env);
      written := [];
    }

    predicate ShouldLog(level: string)
      reads this
    {
      Emits(logLevel, level)
    }

    /** `info`, `warn`, `error` and `debug`: one entry when the level passes, none otherwise. */
    method Log(level: string, message: string)
      modifies this
      ensures written == old(written) + (if ShouldLog(level) then [Entry(level, message)] else [])
    {
      if ShouldLog(level) {
        written := written + [Entry(level, message)];
      }
    }

    /** `logETLResult`: the summary goes out at "info"; the error entry only when the result
        carries errors. */
    method LogEtlResult(result: EtlResult)
      modifies this
      ensures written == old(written) + ResultEntries(logLevel, result)
    {
      Log("info", "ETL Processing Result");
      if |result.errors| > 0 {
        Log("error", "ETL Processing Errors");
      }
    }
  }

  /** The entries `logETLResult` writes under `logLevel`. */
  function ResultEntries(logLevel: string, result: EtlResult): seq<Entry> {
    (if Emits(logLevel, "info") then [Entry("info", "ETL Processing Result")] else []) +
    (if |result.errors| > 0 && Emits(logLevel, "error") then [Entry("error", "ETL Processing Errors")] else [])
  }

  /** Under a recognised level, `logETLResult` writes an error entry exactly when the result
      carries errors, and never more than two entries. */
  lemma ResultErrorEntry(logLevel: string, result: EtlResult)
    requires logLevel in Levels
    ensures Entry("error", "ETL Processing Errors") in ResultEntries(logLevel, result) <==> |result.errors| > 0
    ensures |ResultEntries(logLevel, result)| <= 2
  {
    ErrorAndDebug(logLevel);
    assert Entry("info", "ETL Processing Result") != Entry("error", "ETL Processing Errors");
  }

  /** The static `Logger.instance` slot and `getInstance`. */
  class Registry {
    var instance: Option<Logger>

    constructor()
      ensures instance == None
    {
      instance := None;
    }

    /** `getInstance`: the first call creates the logger, every later call returns that one. */
    method GetInstance(env: Option<string>) returns (logger: Logger)
      modifies this
      ensures old(instance).Some? ==> logger == old(instance).value
      ensures old(instance).None? ==> fresh(logger) && logger.logLevel == LevelFrom(env) && logger.written == []
      ensures instance == Some(logger)
    {
      if instance.None? {
        var created := new Logger(env);
        instance := Some(created);
      }
      logger := instance.value;
    }

    /** Two calls, whatever the environment at the second, give the same logger. */
    method GetInstanceTwice(env1: Option<string>, env2: Option<string>) returns (a: Logger, b: Logger)
      modifies this
      ensures a == b && instance == Some(a)
      ensures old(instance).None? ==> a.logLevel == LevelFrom(env1)
    {
      a := GetInstance(env1);
      b := GetInstance(env2);
    }
  }
}
