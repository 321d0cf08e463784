/**
 * The logging helper and the bounded retry combinator of
 * saathi-genai-query-parser/app/utils.py.
 *
 * The module-level logger is set to level INFO, so it keeps what is logged at
 * info, warning or error and discards what is logged at debug. The records it
 * keeps are returned as a sequence of `LogEntry` values rather than written
 * to a stream; `time.sleep` is recorded as the list of delays it was given.
 */
module Utils {
  import opened Wrappers
  import opened Text

  /** The two kinds of exception the core raises: FastAPI's HTTPException and a plain Exception. */
  datatype Exception =
    | HttpException(status: int, detail: string)
    | GenericException(message: string)

  datatype Level = Debug | Info | Warning | Error

  /** A log message: free text, or the per-attempt message of `Retry`. */
  datatype Message =
    | Text(text: string)
    | AttemptFailed(attempt: nat, error: Exception)

  datatype LogEntry = LogEntry(level: Level, message: Message)

  /** The logger call `log_message` picks for a level name. */
  function LevelFor(level: string): Level {
    var l := Lower(level);
    if l == "info" then Info
    else if l == "warning" then Warning
    else if l == "error" then Error
    else Debug
  }

  /** The name under which each level is requested. */
  function LevelName(l: Level): string {
    match l
    case Debug => "debug"
    case Info => "info"
    case Warning => "warning"
    case Error => "error"
  }

  /** The logger keeps records at INFO and above. */
  predicate Enabled(l: Level) {
    l != Debug
  }

  /** `log_message(message, level)`: the records the logger keeps for one call. */
  function LogMessage(message: Message, level: string): (r: seq<LogEntry>)
    ensures |r| <= 1
    ensures r == [] <==> LevelFor(level) == Debug
    ensures r != [] ==> r[0] == LogEntry(LevelFor(level), message)
  {
    var l := LevelFor(level);
    if Enabled(l) then [LogEntry(l, message)] else []
  }

  /** The level chosen depends only on the lower-cased name; unknown names fall to debug. */
  lemma LevelForCases(level: string)
    ensures LevelFor(level) == LevelFor(Lower(level))
    ensures LevelFor(level) == Info <==> Lower(level) == "info"
    ensures LevelFor(level) == Warning <==> Lower(level) == "warning"
    ensures LevelFor(level) == Error <==> Lower(level) == "error"
    ensures LevelFor(level) == Debug <==> Lower(level) !in {"info", "warning", "error"}
  {
    LowerIdempotent(level);
  }

  /** Asking for a level by its own name logs one record at that level, unless it is debug. */
  lemma LogMessageByName(message: Message, l: Level)
    ensures LogMessage(message, LevelName(l)) == if l == Debug then [] else [LogEntry(l, message)]
  {
    match l
    case Debug => LevelOfName("debug", Debug);
    case Info => LevelOfName("info", Info);
    case Warning => LevelOfName("warning", Warning);
    case Error => LevelOfName("error", Error);
  }

  /** The level names are lower case, so each one selects its own level. */
  lemma LevelOfName(name: string, l: Level)
    requires name == LevelName(l)
    ensures LevelFor(name) == l
  {
    LowerOfLowerCase(name);
  }

  /** What one call of the retried function did: its outcome and the records it logged. */
  datatype Attempt<T> = Attempt(outcome: Result<T, Exception>, log: seq<LogEntry>)

  predicate FailedUpTo<T>(func: nat -> Attempt<T>, n: nat) {
    forall k :: 0 <= k < n ==> func(k).outcome.Failure?
  }

  /**
   * The records of the first `n` calls, all of which failed: each call's own
   * records, then the warning `log_message(..., level="warning")` keeps for it
   * (LogMessageByName).
   */
  function FailureLog<T>(func: nat -> Attempt<T>, n: nat): seq<LogEntry>
    requires FailedUpTo(func, n)
  {
    if n == 0 then []
    else
      FailureLog(func, n - 1) + func(n - 1).log
      + [LogEntry(Warning, AttemptFailed(n, func(n - 1).outcome.error))]
  }

  /** When the failing calls log nothing themselves, the log holds one warning per call, numbered from 1. */
  lemma {:induction false} FailureLogOfSilentCalls<T>(func: nat -> Attempt<T>, n: nat)
    requires FailedUpTo(func, n)
    requires forall k :: 0 <= k < n ==> func(k).log == []
    ensures |FailureLog(func, n)| == n
    ensures forall k :: 0 <= k < n ==>
      FailureLog(func, n)[k] == LogEntry(Warning, AttemptFailed(k + 1, func(k).outcome.error))
  {
    if n > 0 {
      FailureLogOfSilentCalls(func, n - 1);
    }
  }

  /** The attempt limit as a count: a non-positive `retries` makes no call at all. */
  function MaxCalls(retries: int): nat {
    if retries > 0 then retries else 0
  }

  /**
   * `retry(func, retries, delay)`. Call `k` (counting from 0) of `func` yields
   * `func(k)`. Returns the outcome, the number of calls made, the delays slept
   * and the records logged.
   */
  method Retry<T>(func: nat -> Attempt<T>, retries: int, delay: nat)
    returns (r: Result<T, Exception>, calls: nat, sleeps: seq<nat>, log: seq<LogEntry>)
    ensures calls <= MaxCalls(retries)
    // every call before the last one failed
    ensures calls > 0 ==> FailedUpTo(func, calls - 1)
    // success: the first successful call's value, and no call after it
    ensures r.Success? ==> calls > 0 && r == func(calls - 1).outcome
    // failure: every allowed call was made and failed; the last exception is re-raised
    ensures r.Failure? ==> calls == MaxCalls(retries) && FailedUpTo(func, calls)
    ensures r.Failure? && calls > 0 ==> r.error == func(calls - 1).outcome.error
    ensures r.Failure? && calls == 0 ==> r.error == GenericException("All retry attempts failed")
    // one sleep of `delay` between consecutive calls, none after the last
    ensures |sleeps| == (if calls == 0 then 0 else calls - 1)
    ensures forall s :: 0 <= s < |sleeps| ==> sleeps[s] == delay
    ensures r.Success? ==> log == FailureLog(func, calls - 1) + func(calls - 1).log
    ensures r.Failure? ==>
      log == FailureLog(func, calls) + LogMessage(Text("All retry attempts failed"), "error")
  {
    var lastException: Option<Exception> := None;
    calls, sleeps, log := 0, [], [];
    var attempt := 1;
    while attempt <= retries
      invariant 1 <= attempt && calls == attempt - 1
      invariant calls <= MaxCalls(retries)
      invariant FailedUpTo(func, calls)
      invariant lastException == if calls == 0 then None else Some(func(calls - 1).outcome.error)
      invariant |sleeps| == (if 0 < calls == retries then calls - 1 else calls)
      invariant forall s :: 0 <= s < |sleeps| ==> sleeps[s] == delay
      invariant log == FailureLog(func, calls)
    {
      var a := func(attempt - 1);
      calls := calls + 1;
      log := log + a.log;
      if a.outcome.Success? {
        r := a.outcome;
        return;
      }
      lastException := Some(a.outcome.error);
      log := log + LogMessage(AttemptFailed(attempt, a.outcome.error), "warning");
      LogMessageByName(AttemptFailed(attempt, a.outcome.error), Warning);
      if attempt < retries {
        sleeps := sleeps + [delay];
      }
      attempt := attempt + 1;
    }
    log := log + LogMessage(Text("All retry attempts failed"), "error");
    r := Failure(if lastException.Some? then lastException.value
                 else GenericException("All retry attempts failed"));
  }
}
