/** The deadlock-aware retry schedule shared by the caregiver and carelog writers: the
    classification of a storage error, the defaults for a missing or falsy retry setting, the
    capped exponential backoff, and the outcome of the attempt loop on either path. */
module Retry {
  import opened Common

  /** What a storage call threw: whether it is an `Error` instance, and its message. */
  datatype StoreError = StoreError(isError: bool, message: string)

  /** Deadlock-class: an `Error` whose message mentions "deadlock", "40P01" or "ShareLock". */
  const DeadlockMarkers: seq<string> := ["deadlock", "40P01", "ShareLock"]

  predicate MentionsAny(msg: string, markers: seq<string>)
    decreases |markers|
  {
    markers != [] && (Contains(msg, markers[0]) || MentionsAny(msg, markers[1..]))
  }

  predicate IsDeadlock(e: StoreError) {
    e.isError && MentionsAny(e.message, DeadlockMarkers)
  }

  /** `deadlockRetryConfig` as configured. */
  datatype RetryConfig = RetryConfig(maxRetries: int, baseDelayMs: int, maxDelayMs: int)

  /** The settings a writer actually uses. */
  datatype Policy = Policy(maxRetries: int, baseDelay: int, maxDelay: int)

  /** `x || d` on a number: 0 is falsy. */
  function OrDefault(x: int, d: int): (r: int)
    ensures x != 0 ==> r == x
    ensures x == 0 ==> r == d
  {
    if x != 0 then x else d
  }

  /** A missing configuration, or a zero setting in it, falls back to 3 attempts, 1000 ms and
      30000 ms; any other setting is kept, negative ones included. */
  function PolicyOf(cfg: Option<RetryConfig>): (p: Policy)
    ensures p.maxRetries != 0 && p.baseDelay != 0 && p.maxDelay != 0
    ensures cfg.None? ==> p == Policy(3, 1000, 30000)
    ensures cfg.Some? ==>
      (cfg.value.maxRetries != 0 ==> p.maxRetries == cfg.value.maxRetries) &&
      (cfg.value.baseDelayMs != 0 ==> p.baseDelay == cfg.value.baseDelayMs) &&
      (cfg.value.maxDelayMs != 0 ==> p.maxDelay == cfg.value.maxDelayMs)
  {
    match cfg
    case None => Policy(3, 1000, 30000)
    case Some(c) => Policy(OrDefault(c.maxRetries, 3), OrDefault(c.baseDelayMs, 1000), OrDefault(c.maxDelayMs, 30000))
  }

  function Pow2(n: nat): (r: nat)
    ensures r >= 1
  {
    if n == 0 then 1 else 2 * Pow2(n - 1)
  }

  /** The sleep after a deadlock on attempt `attempt`: `min(baseDelay * 2^(attempt-1), maxDelay)`. */
  function Backoff(p: Policy, attempt: nat): (d: int)
    requires attempt >= 1
    ensures d <= p.maxDelay
    ensures d == p.maxDelay || d == p.baseDelay * Pow2(attempt - 1)
  {
    Min(p.baseDelay * Pow2(attempt - 1), p.maxDelay)
  }

  lemma {:induction false} Pow2Monotone(m: nat, n: nat)
    requires m <= n
    ensures Pow2(m) <= Pow2(n)
    decreases n - m
  {
    if m < n {
      Pow2Monotone(m, n - 1);
    }
  }

  /** With a non-negative base delay the backoff never shrinks from one attempt to the next,
      and once it reaches the cap it stays there. */
  lemma BackoffMonotone(p: Policy, a: nat, b: nat)
    requires 1 <= a <= b && p.baseDelay >= 0
    ensures Backoff(p, a) <= Backoff(p, b)
    ensures Backoff(p, a) == p.maxDelay ==> Backoff(p, b) == p.maxDelay
  {
    Pow2Monotone(a - 1, b - 1);
    assert p.baseDelay * Pow2(a - 1) <= p.baseDelay * Pow2(b - 1) by {
      MulMonotone(p.baseDelay, Pow2(a - 1), Pow2(b - 1));
    }
  }

  lemma MulMonotone(k: int, x: int, y: int)
    requires k >= 0 && x <= y
    ensures k * x <= k * y
  {
  }

  /** `[Backoff(1), ..., Backoff(n)]`. */
  function BackoffSeries(p: Policy, n: nat): (s: seq<int>)
    ensures |s| == n
    ensures forall i :: 0 <= i < n ==> s[i] == Backoff(p, i + 1)
  {
    seq(n, i requires 0 <= i < n => Backoff(p, i + 1))
  }

  /** The two writers end their attempt loop differently on an error that is not a deadlock
      (or a deadlock on the last attempt): the carelog writer rethrows it at once, the caregiver
      writer only logs it and moves on to the next attempt. */
  datatype Path = CaregiverPath | CarelogPath

  /** What one attempt came to: the count `createMany` reported (or the 0 of an empty insert),
      or the error the attempt threw. */
  datatype AttemptOutcome = AttemptOk(count: nat) | AttemptFailed(error: StoreError)

  /** The error a writer throws when no attempt ran at all. */
  function UnknownError(path: Path): StoreError {
    match path
    case CaregiverPath => StoreError(true, "Unknown error occurred during caregiver insertion")
    case CarelogPath => StoreError(true, "Unknown error occurred during carelog insertion")
  }

  /** The result of a whole attempt loop: the count returned or the error thrown, how many
      attempts ran, and the sleeps taken between them, in order. */
  datatype RetryRun = RetryRun(result: Result<nat, StoreError>, attempts: nat, delays: seq<int>)

  /** The loop from attempt `attempt` on, where attempt `a` comes to `outcome(a)` and `last` is
      the error of the previous attempt, if any. */
  function RetryFrom(path: Path, p: Policy, outcome: nat -> AttemptOutcome, attempt: nat, last: Option<StoreError>): RetryRun
    requires attempt >= 1
    decreases p.maxRetries - attempt, last
  {
    if attempt > p.maxRetries then RetryRun(Err(last.GetOr(UnknownError(path))), attempt - 1, [])
    else match outcome(attempt)
      case AttemptOk(c) => RetryRun(Ok(c), attempt, [])
      case AttemptFailed(e) =>
        if IsDeadlock(e) && attempt < p.maxRetries then
          var rest := RetryFrom(path, p, outcome, attempt + 1, Some(e));
          RetryRun(rest.result, rest.attempts, [Backoff(p, attempt)] + rest.delays)
        else if path == CarelogPath then RetryRun(Err(e), attempt, [])
        else RetryFrom(path, p, outcome, attempt + 1, Some(e))
  }

  /** The loop as a writer runs it: from attempt 1, with no previous error. */
  function Retry(path: Path, p: Policy, outcome: nat -> AttemptOutcome): RetryRun {
    RetryFrom(path, p, outcome, 1, None)
  }

  /** `run`, after the sleeps `delays` already taken. */
  function After(delays: seq<int>, run: RetryRun): RetryRun {
    RetryRun(run.result, run.attempts, delays + run.delays)
  }

  /** The turns of a writer's loop at attempt `attempt`, with `delays` slept so far: past the
      last attempt the loop throws the previous error. */
  lemma RetryExhausted(path: Path, p: Policy, outcome: nat -> AttemptOutcome, attempt: nat, last: Option<StoreError>, delays: seq<int>)
    requires attempt >= 1 && attempt > p.maxRetries
    ensures After(delays, RetryFrom(path, p, outcome, attempt, last)) ==
      RetryRun(Err(last.GetOr(UnknownError(path))), attempt - 1, delays)
  {
    assert delays + [] == delays;
  }

  /** The end of a writer's loop once every attempt has run: it throws the previous error. */
  method GiveUp(path: Path, p: Policy, ghost outcome: nat -> AttemptOutcome, attempt: nat, last: Option<StoreError>, delays: seq<int>)
    returns (run: RetryRun)
    requires attempt >= 1 && attempt > p.maxRetries
    ensures run == After(delays, RetryFrom(path, p, outcome, attempt, last))
    ensures run.attempts == attempt - 1 && run.result.Err?
  {
    RetryExhausted(path, p, outcome, attempt, last, delays);
    run := RetryRun(Err(last.GetOr(UnknownError(path))), attempt - 1, delays);
  }

  /** A successful attempt returns its count. */
  lemma RetrySucceeds(path: Path, p: Policy, outcome: nat -> AttemptOutcome, attempt: nat, last: Option<StoreError>, delays: seq<int>)
    requires 1 <= attempt <= p.maxRetries && outcome(attempt).AttemptOk?
    ensures After(delays, RetryFrom(path, p, outcome, attempt, last)) ==
      RetryRun(Ok(outcome(attempt).count), attempt, delays)
  {
    assert delays + [] == delays;
  }

  /** A deadlock before the last attempt sleeps the backoff and moves on. */
  lemma RetryBacksOff(path: Path, p: Policy, outcome: nat -> AttemptOutcome, attempt: nat, last: Option<StoreError>, delays: seq<int>)
    requires 1 <= attempt < p.maxRetries && outcome(attempt).AttemptFailed? && IsDeadlock(outcome(attempt).error)
    ensures After(delays, RetryFrom(path, p, outcome, attempt, last)) ==
      After(delays + [Backoff(p, attempt)], RetryFrom(path, p, outcome, attempt + 1, Some(outcome(attempt).error)))
  {
    var next := RetryFrom(path, p, outcome, attempt + 1, Some(outcome(attempt).error));
    assert delays + ([Backoff(p, attempt)] + next.delays) == (delays + [Backoff(p, attempt)]) + next.delays;
  }

  /** Any other error: the carelog writer throws it. */
  lemma RetryThrows(p: Policy, outcome: nat -> AttemptOutcome, attempt: nat, last: Option<StoreError>, delays: seq<int>)
    requires 1 <= attempt <= p.maxRetries && outcome(attempt).AttemptFailed?
    requires !(IsDeadlock(outcome(attempt).error) && attempt < p.maxRetries)
    ensures After(delays, RetryFrom(CarelogPath, p, outcome, attempt, last)) ==
      RetryRun(Err(outcome(attempt).error), attempt, delays)
  {
    assert delays + [] == delays;
  }

  /** Any other error: the caregiver writer moves on to the next attempt. */
  lemma RetryMovesOn(p: Policy, outcome: nat -> AttemptOutcome, attempt: nat, last: Option<StoreError>, delays: seq<int>)
    requires 1 <= attempt <= p.maxRetries && outcome(attempt).AttemptFailed?
    requires !(IsDeadlock(outcome(attempt).error) && attempt < p.maxRetries)
    ensures After(delays, RetryFrom(CaregiverPath, p, outcome, attempt, last)) ==
      After(delays, RetryFrom(CaregiverPath, p, outcome, attempt + 1, Some(outcome(attempt).error)))
  {
  }

  /** Attempts run consecutively from `attempt`, never past `maxRetries`; a success or a thrown
      error is what the last attempt came to; every delay follows a deadlock, so there are fewer
      delays than attempts. */
  lemma RetryFromShape(path: Path, p: Policy, outcome: nat -> AttemptOutcome, attempt: nat, last: Option<StoreError>)
    requires attempt >= 1
    ensures var r := RetryFrom(path, p, outcome, attempt, last);
      attempt - 1 <= r.attempts <= Max(attempt - 1, p.maxRetries) &&
      (attempt <= p.maxRetries ==> r.attempts >= attempt) &&
      |r.delays| <= r.attempts - (attempt - 1) &&
      (r.attempts >= attempt ==> |r.delays| < r.attempts - (attempt - 1)) &&
      (r.result.Ok? ==> r.attempts >= attempt && outcome(r.attempts) == AttemptOk(r.result.value)) &&
      (r.result.Err? && r.attempts >= attempt ==> outcome(r.attempts) == AttemptFailed(r.result.error)) &&
      (r.result.Err? && r.attempts == attempt - 1 ==> r.result.error == last.GetOr(UnknownError(path))) &&
      (forall i :: 0 <= i < |r.delays| ==> r.delays[i] <= p.maxDelay)
  {
    RetryFromCounts(path, p, outcome, attempt, last);
    RetryFromLast(path, p, outcome, attempt, last);
  }

  /** The attempt and delay counts of `RetryFromShape`, and the cap on each delay. */
  lemma {:induction false} RetryFromCounts(path: Path, p: Policy, outcome: nat -> AttemptOutcome, attempt: nat, last: Option<StoreError>)
    requires attempt >= 1
    ensures var r := RetryFrom(path, p, outcome, attempt, last);
      attempt - 1 <= r.attempts <= Max(attempt - 1, p.maxRetries) &&
      (attempt <= p.maxRetries ==> r.attempts >= attempt) &&
      |r.delays| <= r.attempts - (attempt - 1) &&
      (r.attempts >= attempt ==> |r.delays| < r.attempts - (attempt - 1)) &&
      (forall i :: 0 <= i < |r.delays| ==> r.delays[i] <= p.maxDelay)
    decreases p.maxRetries - attempt
  {
    if attempt <= p.maxRetries {
      match outcome(attempt)
      case AttemptOk(_) =>
      case AttemptFailed(e) =>
        if IsDeadlock(e) && attempt < p.maxRetries {
          RetryFromCounts(path, p, outcome, attempt + 1, Some(e));
        } else if path == CaregiverPath {
          RetryFromCounts(path, p, outcome, attempt + 1, Some(e));
        }
    }
  }

  /** The result parts of `RetryFromShape`: what the last attempt came to, or the previous error. */
  lemma {:induction false} RetryFromLast(path: Path, p: Policy, outcome: nat -> AttemptOutcome, attempt: nat, last: Option<StoreError>)
    requires attempt >= 1
    ensures var r := RetryFrom(path, p, outcome, attempt, last);
      (r.result.Ok? ==> r.attempts >= attempt && outcome(r.attempts) == AttemptOk(r.result.value)) &&
      (r.result.Err? && r.attempts >= attempt ==> outcome(r.attempts) == AttemptFailed(r.result.error)) &&
      (r.result.Err? && r.attempts == attempt - 1 ==> r.result.error == last.GetOr(UnknownError(path)))
    decreases p.maxRetries - attempt
  {
    if attempt <= p.maxRetries {
      match outcome(attempt)
      case AttemptOk(_) =>
      case AttemptFailed(e) =>
        if (IsDeadlock(e) && attempt < p.maxRetries) || path == CaregiverPath {
          var r := RetryFrom(path, p, outcome, attempt, last);
          var rest := RetryFrom(path, p, outcome, attempt + 1, Some(e));
          RetryFromCounts(path, p, outcome, attempt + 1, Some(e));
          RetryFromLast(path, p, outcome, attempt + 1, Some(e));
          assert r.result == rest.result && r.attempts == rest.attempts && r.attempts >= attempt;
        }
    }
  }

  /** At most `maxRetries` attempts; none at all when `maxRetries` is negative, and then the
      writer throws the unknown-failure error. A success returns what the last attempt
      reported. */
  lemma RetryBounds(path: Path, p: Policy, outcome: nat -> AttemptOutcome)
    ensures var r := Retry(path, p, outcome);
      r.attempts <= Max(0, p.maxRetries) &&
      (r.attempts > 0 ==> |r.delays| < r.attempts) &&
      (p.maxRetries < 1 <==> r.attempts == 0) &&
      (p.maxRetries < 1 ==> r.result == Err(UnknownError(path))) &&
      (r.result.Ok? ==> outcome(r.attempts) == AttemptOk(r.result.value)) &&
      (r.result.Err? && r.attempts > 0 ==> outcome(r.attempts) == AttemptFailed(r.result.error))
  {
    RetryFromShape(path, p, outcome, 1, None);
    if p.maxRetries >= 1 {
      assert Retry(path, p, outcome).attempts >= 1 by {
        FirstAttemptRuns(path, p, outcome);
      }
    }
  }

  lemma FirstAttemptRuns(path: Path, p: Policy, outcome: nat -> AttemptOutcome)
    requires p.maxRetries >= 1
    ensures Retry(path, p, outcome).attempts >= 1
  {
    match outcome(1)
    case AttemptOk(_) =>
    case AttemptFailed(e) =>
      if IsDeadlock(e) && 1 < p.maxRetries {
        RetryFromShape(path, p, outcome, 2, Some(e));
      } else if path == CaregiverPath {
        RetryFromShape(path, p, outcome, 2, Some(e));
      }
  }

  /** An attempt loop in which every attempt deadlocks runs all `maxRetries` attempts, sleeps
      `Backoff(1)`, ..., `Backoff(maxRetries - 1)` in between, and throws the last deadlock. */
  lemma {:induction false} AlwaysDeadlockFrom(path: Path, p: Policy, outcome: nat -> AttemptOutcome, attempt: nat, last: Option<StoreError>)
    requires 1 <= attempt <= p.maxRetries
    requires forall a :: attempt <= a <= p.maxRetries ==> outcome(a).AttemptFailed? && IsDeadlock(outcome(a).error)
    ensures var r := RetryFrom(path, p, outcome, attempt, last);
      r.attempts == p.maxRetries &&
      r.result == Err(outcome(p.maxRetries).error) &&
      |r.delays| == p.maxRetries - attempt &&
      forall i :: 0 <= i < |r.delays| ==> r.delays[i] == Backoff(p, attempt + i)
    decreases p.maxRetries - attempt
  {
    assert outcome(attempt).AttemptFailed?;
    if attempt < p.maxRetries {
      AlwaysDeadlockFrom(path, p, outcome, attempt + 1, Some(outcome(attempt).error));
      var rest := RetryFrom(path, p, outcome, attempt + 1, Some(outcome(attempt).error));
      var r := RetryFrom(path, p, outcome, attempt, last);
      assert r.delays == [Backoff(p, attempt)] + rest.delays;
      forall i | 0 <= i < |r.delays| ensures r.delays[i] == Backoff(p, attempt + i) {
        if i > 0 {
          assert r.delays[i] == rest.delays[i - 1];
        }
      }
    }
  }

  lemma AlwaysDeadlock(path: Path, p: Policy, outcome: nat -> AttemptOutcome)
    requires p.maxRetries >= 1
    requires forall a :: 1 <= a <= p.maxRetries ==> outcome(a).AttemptFailed? && IsDeadlock(outcome(a).error)
    ensures var r := Retry(path, p, outcome);
      r.attempts == p.maxRetries &&
      r.result == Err(outcome(p.maxRetries).error) &&
      r.delays == BackoffSeries(p, p.maxRetries - 1)
  {
    AlwaysDeadlockFrom(path, p, outcome, 1, None);
  }

  /** On the carelog path the sleeps are exactly `Backoff(attempt)`, `Backoff(attempt + 1)`, ...:
      every failed attempt but the last was a deadlock, and an error that is not one ends the
      loop with that very error. */
  lemma {:induction false} CarelogFrom(p: Policy, outcome: nat -> AttemptOutcome, attempt: nat, last: Option<StoreError>)
    requires attempt >= 1
    ensures var r := RetryFrom(CarelogPath, p, outcome, attempt, last);
      (forall i :: 0 <= i < |r.delays| ==> r.delays[i] == Backoff(p, attempt + i)) &&
      (r.attempts >= attempt ==> |r.delays| == r.attempts - attempt) &&
      (forall a :: attempt <= a < r.attempts ==> outcome(a).AttemptFailed? && IsDeadlock(outcome(a).error)) &&
      (r.result.Err? && r.attempts >= attempt && r.attempts < p.maxRetries ==> !IsDeadlock(r.result.error))
    decreases p.maxRetries - attempt
  {
    if attempt <= p.maxRetries {
      match outcome(attempt)
      case AttemptOk(_) =>
      case AttemptFailed(e) =>
        if IsDeadlock(e) && attempt < p.maxRetries {
          CarelogFrom(p, outcome, attempt + 1, Some(e));
          RetryFromShape(CarelogPath, p, outcome, attempt + 1, Some(e));
          var rest := RetryFrom(CarelogPath, p, outcome, attempt + 1, Some(e));
          var r := RetryFrom(CarelogPath, p, outcome, attempt, last);
          assert r.delays == [Backoff(p, attempt)] + rest.delays;
          forall i | 0 <= i < |r.delays| ensures r.delays[i] == Backoff(p, attempt + i) {
            if i > 0 {
              assert r.delays[i] == rest.delays[i - 1];
            }
          }
        }
    }
  }

  /** The carelog writer: its sleeps are `BackoffSeries` of the number of attempts but one, all
      attempts but the last failed with a deadlock, and when it throws before its last allowed
      attempt the error is not a deadlock. */
  lemma CarelogRetry(p: Policy, outcome: nat -> AttemptOutcome)
    ensures var r := Retry(CarelogPath, p, outcome);
      (r.attempts > 0 ==> r.delays == BackoffSeries(p, r.attempts - 1)) &&
      (forall a :: 1 <= a < r.attempts ==> outcome(a).AttemptFailed? && IsDeadlock(outcome(a).error)) &&
      (r.result.Err? && 0 < r.attempts < p.maxRetries ==> !IsDeadlock(r.result.error))
  {
    CarelogFrom(p, outcome, 1, None);
  }

  /** The caregiver writer returns from the first attempt that succeeds; otherwise it runs
      every one of its `maxRetries` attempts, whatever the errors were, and throws the last. */
  lemma {:induction false} CaregiverFrom(p: Policy, outcome: nat -> AttemptOutcome, attempt: nat, last: Option<StoreError>)
    requires attempt >= 1
    ensures var r := RetryFrom(CaregiverPath, p, outcome, attempt, last);
      (forall a :: attempt <= a < r.attempts ==> outcome(a).AttemptFailed?) &&
      (r.result.Err? ==> r.attempts == Max(attempt - 1, p.maxRetries)) &&
      (r.result.Ok? <==> exists a :: attempt <= a <= p.maxRetries && outcome(a).AttemptOk?)
    decreases p.maxRetries - attempt
  {
    if attempt <= p.maxRetries {
      match outcome(attempt)
      case AttemptOk(_) =>
      case AttemptFailed(e) =>
        CaregiverFrom(p, outcome, attempt + 1, Some(e));
        var r := RetryFrom(CaregiverPath, p, outcome, attempt, last);
        var rest := RetryFrom(CaregiverPath, p, outcome, attempt + 1, Some(e));
        assert r.result == rest.result && r.attempts == rest.attempts;
        if r.result.Ok? {
          var a :| attempt + 1 <= a <= p.maxRetries && outcome(a).AttemptOk?;
        }
    }
  }

  lemma CaregiverRetry(p: Policy, outcome: nat -> AttemptOutcome)
    ensures var r := Retry(CaregiverPath, p, outcome);
      (forall a :: 1 <= a < r.attempts ==> outcome(a).AttemptFailed?) &&
      (r.result.Err? ==> r.attempts == Max(0, p.maxRetries)) &&
      (r.result.Ok? <==> exists a :: 1 <= a <= p.maxRetries && outcome(a).AttemptOk?)
  {
    CaregiverFrom(p, outcome, 1, None);
  }

  /** The two paths disagree on an attempt that fails with an ordinary error when a later
      attempt would succeed: the caregiver writer goes on to the success without sleeping, the
      carelog writer gives up at once with that error. */
  lemma PathsDiverge(p: Policy, outcome: nat -> AttemptOutcome, e: StoreError, c: nat)
    requires p.maxRetries >= 2
    requires outcome(1) == AttemptFailed(e) && !IsDeadlock(e) && outcome(2) == AttemptOk(c)
    ensures Retry(CaregiverPath, p, outcome) == RetryRun(Ok(c), 2, [])
    ensures Retry(CarelogPath, p, outcome) == RetryRun(Err(e), 1, [])
  {
    assert RetryFrom(CaregiverPath, p, outcome, 2, Some(e)) == RetryRun(Ok(c), 2, []);
  }
}
