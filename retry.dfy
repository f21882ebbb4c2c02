/** The retry executor of SupremeHead._safe_call (Blocking) and
    _safe_call_async (NonBlocking), as a function of what each call of the
    wrapped operation does.  The k-th call (counting from 0) of the operation
    behaves as fn(k); sleeping is counted, not performed. */
module Retry {
  import opened Values

  /** One run of the executor: what it returned or raised, how many times it
      called the operation and how many times it slept. */
  datatype RetryRun<+T> = RetryRun(result: Result<T>, calls: nat, sleeps: nat)

  /** What `raise last_exc` raises when no attempt was made and last_exc is None. */
  const RaiseNoneMessage := "exceptions must derive from BaseException"

  function Max(a: int, b: int): int {
    if a < b then b else a
  }

  /** The attempt count `r` must take part in `range(1, r + 1)`: an int (a bool
      counts as 0 or 1); anything else makes `r + 1` raise TypeError. */
  function AttemptLimit(r: Json): (n: Result<int>)
    ensures n.Ok? <==> (r.JInt? || r.JBool?)
    ensures r.JInt? ==> n == Ok(r.i)
  {
    match r
    case JInt(i) => Ok(i)
    case JBool(b) => Ok(if b then 1 else 0)
    case JStr(_) => Err(Exception("can only concatenate str (not \"int\") to str"))
    case JList(_) => Err(Exception("can only concatenate list (not \"int\") to list"))
    case _ => Err(Exception("unsupported operand type(s) for +: '" + TypeName(r) + "' and 'int'"))
  }

  /** The most whole seconds `time.sleep` accepts: CPython converts the delay
      to nanoseconds in a signed 64-bit integer, floor((2^63 - 1) / 10^9). */
  const MaxSleepSeconds := 9223372036

  /** 2^1024 - 2^970, the least positive int that `float()` rounds past the
      largest double and so refuses to convert. */
  const FloatOverflow := 0xFFFF_FFFF_FFFF_FC00_0000_0000_0000_0000_0000_0000_0000_0000_0000_0000_0000_0000_0000_0000_0000_0000_0000_0000_0000_0000_0000_0000_0000_0000_0000_0000_0000_0000_0000_0000_0000_0000_0000_0000_0000_0000_0000_0000_0000_0000_0000_0000_0000_0000_0000_0000_0000_0000_0000_0000_0000_0000_0000_0000_0000_0000_0000_0000_0000_0000

  const SleepOverflowMessage := "timestamp too large to convert to C _PyTime_t"

  /** The sleep between two attempts: time.sleep(delay) in _safe_call,
      asyncio.sleep(delay) in _safe_call_async.  None when it sleeps (or, for
      asyncio.sleep with delay <= 0, returns at once), else the exception it
      raises.  time.sleep refuses a non-number, a delay whose nanoseconds
      overflow 64 bits (either sign) and then a negative delay; asyncio.sleep
      fails to compare a non-number with 0, and adds a positive delay to the
      loop's float clock, which refuses an int too large for a float. */
  function SleepFault(delay: Json, mode: Mode): (f: Option<Exception>)
    ensures f.None? <==>
      || delay.JBool?
      || (delay.JInt? && mode.Blocking? && 0 <= delay.i <= MaxSleepSeconds)
      || (delay.JInt? && mode.NonBlocking? && delay.i < FloatOverflow)
    ensures delay.JInt? && mode.Blocking? && -MaxSleepSeconds <= delay.i < 0 ==>
      f == Some(Exception("sleep length must be non-negative"))
    ensures delay.JInt? && mode.Blocking? && MaxSleepSeconds < Abs(delay.i) ==>
      f == Some(Exception(SleepOverflowMessage))
  {
    match delay
    case JInt(i) =>
      if mode.Blocking? then
        if MaxSleepSeconds < Abs(i) then Some(Exception(SleepOverflowMessage))
        else if i < 0 then Some(Exception("sleep length must be non-negative"))
        else None
      else if FloatOverflow <= i then Some(Exception("int too large to convert to float"))
      else None
    case JBool(_) => None
    case _ =>
      if mode.Blocking? then Some(Exception("'" + TypeName(delay) + "' object cannot be interpreted as an integer"))
      else Some(Exception("'<=' not supported between instances of '" + TypeName(delay) + "' and 'int'"))
  }

  function Abs(i: int): nat {
    if i < 0 then -i else i
  }

  /** The `for attempt in range(1, r + 1)` loop from `attempt` on, with the
      exception of the previous attempt in `last` and `slept` sleeps so far. */
  function RetryFrom<T>(fn: nat -> Attempt<T>, r: int, delay: Json, mode: Mode, attempt: nat,
                        last: Option<Exception>, slept: nat): (run: RetryRun<T>)
    requires 1 <= attempt
    ensures attempt - 1 <= run.calls <= Max(r, attempt - 1)
    ensures slept <= run.sleeps <= slept + (run.calls - (attempt - 1))
    decreases Max(r + 1 - attempt, 0)
  {
    if attempt > r then
      RetryRun(Err(if last.Some? then last.value else Exception(RaiseNoneMessage)), attempt - 1, slept)
    else
      match fn(attempt - 1)
      case Succeeded(v) => RetryRun(Ok(v), attempt, slept)
      case Raised(e) =>
        if attempt < r then
          match SleepFault(delay, mode)
          case Some(f) => RetryRun(Err(f), attempt, slept)
          case None => RetryFrom(fn, r, delay, mode, attempt + 1, Some(e), slept + 1)
        else
          RetryFrom(fn, r, delay, mode, attempt + 1, Some(e), slept)
  }

  /** The executor with attempt count r and retry delay `delay`. */
  function Retried<T>(fn: nat -> Attempt<T>, r: int, delay: Json, mode: Mode): (run: RetryRun<T>)
    ensures run.calls <= Max(r, 0)
    ensures run.sleeps <= run.calls
  {
    RetryFrom(fn, r, delay, mode, 1, None, 0)
  }

  /** _safe_call as a whole: the `retries` argument (None: the config's
      "retries", default 2) and the config's "retry_delay_seconds" (default 1). */
  function SafeCallRun<T>(fn: nat -> Attempt<T>, retries: Json, config: map<string, Json>, mode: Mode): (run: RetryRun<T>)
    ensures run.sleeps <= run.calls
    ensures var limit := if retries.JNull? then Get(config, "retries", JInt(2)) else retries;
      && (limit.JInt? ==> run.calls <= Max(limit.i, 0))
      && (!(limit.JInt? || limit.JBool?) ==> run.calls == 0 && run.result.Err?)
  {
    var limit := if retries.JNull? then Get(config, "retries", JInt(2)) else retries;
    match AttemptLimit(limit)
    case Err(e) => RetryRun(Err(e), 0, 0)
    case Ok(r) => Retried(fn, r, Get(config, "retry_delay_seconds", JInt(1)), mode)
  }

  /** An operation that returns v on every call, as every wrapped client call of
      the orchestrator does (each swallows its own failures). */
  function Always<T>(v: T): (fn: nat -> Attempt<T>)
    ensures forall k :: fn(k) == Succeeded(v)
  {
    k => Succeeded(v)
  }

  /** What a run says about the calls it made: at most r calls, every call but
      the last raised, a sleep between consecutive calls and none after the
      last, a second call only when the sleep succeeds, a success returns the
      last call's value, and a failure is either the TypeError of `raise None`
      (no attempt at all), the re-raised exception of the r-th failed call, or
      the exception of a sleep that could not happen after the first call. */
  ghost predicate Explains<T>(fn: nat -> Attempt<T>, r: int, delay: Json, mode: Mode, run: RetryRun<T>) {
    && run.calls <= Max(r, 0)
    && (forall k :: 0 <= k < run.calls - 1 ==> fn(k).Raised?)
    && run.sleeps == Max(run.calls - 1, 0)
    && (run.calls >= 2 ==> SleepFault(delay, mode).None?)
    && (run.result.Ok? ==> run.calls >= 1 && fn(run.calls - 1) == Succeeded(run.result.value))
    && (run.result.Err? ==>
          || (r <= 0 && run.calls == 0 && run.result.exc == Exception(RaiseNoneMessage))
          || (1 <= r == run.calls && fn(r - 1) == Raised(run.result.exc))
          || (run.calls == 1 < r && fn(0).Raised? && SleepFault(delay, mode) == Some(run.result.exc)))
  }

  lemma {:induction false} RetryFromExplains<T>(fn: nat -> Attempt<T>, r: int, delay: Json, mode: Mode, attempt: nat,
                                               last: Option<Exception>, slept: nat)
    requires 1 <= attempt <= Max(r, 0) + 1
    requires forall k :: 0 <= k < attempt - 1 ==> fn(k).Raised?
    requires attempt == 1 ==> last.None?
    requires attempt > 1 ==> last == Some(fn(attempt - 2).exc)
    requires slept == if attempt <= r then attempt - 1 else Max(r - 1, 0)
    requires slept >= 1 ==> SleepFault(delay, mode).None?
    ensures Explains(fn, r, delay, mode, RetryFrom(fn, r, delay, mode, attempt, last, slept))
    decreases Max(r + 1 - attempt, 0)
  {
    if attempt > r {
      ExhaustedExplains(fn, r, delay, mode, attempt, last, slept);
    } else if fn(attempt - 1).Succeeded? {
      SucceededExplains(fn, r, delay, mode, attempt, last, slept);
    } else {
      RaisedSoFar(fn, attempt);
      var e := fn(attempt - 1).exc;
      if attempt < r && SleepFault(delay, mode).Some? {
        SleepFaultExplains(fn, r, delay, mode, attempt, last, slept);
      } else {
        var next := if attempt < r then slept + 1 else slept;
        RetryFromExplains(fn, r, delay, mode, attempt + 1, Some(e), next);
        StepExplains(fn, r, delay, mode, attempt, last, slept);
      }
    }
  }

  /** After the last attempt the run raises the last exception, or the TypeError
      of `raise None` when there was no attempt. */
  lemma ExhaustedExplains<T>(fn: nat -> Attempt<T>, r: int, delay: Json, mode: Mode, attempt: nat,
                             last: Option<Exception>, slept: nat)
    requires 1 <= attempt <= Max(r, 0) + 1 && attempt > r
    requires forall k :: 0 <= k < attempt - 1 ==> fn(k).Raised?
    requires attempt == 1 ==> last.None?
    requires attempt > 1 ==> last == Some(fn(attempt - 2).exc)
    requires slept == Max(r - 1, 0)
    requires slept >= 1 ==> SleepFault(delay, mode).None?
    ensures Explains(fn, r, delay, mode, RetryFrom(fn, r, delay, mode, attempt, last, slept))
  {
    var exc := if last.Some? then last.value else Exception(RaiseNoneMessage);
    assert RetryFrom(fn, r, delay, mode, attempt, last, slept) == RetryRun(Err(exc), attempt - 1, slept);
  }

  /** A call that succeeds ends the run with its value. */
  lemma SucceededExplains<T>(fn: nat -> Attempt<T>, r: int, delay: Json, mode: Mode, attempt: nat,
                             last: Option<Exception>, slept: nat)
    requires 1 <= attempt <= r && slept == attempt - 1
    requires slept >= 1 ==> SleepFault(delay, mode).None?
    requires forall k :: 0 <= k < attempt - 1 ==> fn(k).Raised?
    requires fn(attempt - 1).Succeeded?
    ensures Explains(fn, r, delay, mode, RetryFrom(fn, r, delay, mode, attempt, last, slept))
  {
    assert RetryFrom(fn, r, delay, mode, attempt, last, slept) == RetryRun(Ok(fn(attempt - 1).value), attempt, slept);
  }

  /** A sleep that cannot happen after the first call, when that call failed
      and a retry would follow, ends the run with the exception of the sleep. */
  lemma SleepFaultExplains<T>(fn: nat -> Attempt<T>, r: int, delay: Json, mode: Mode, attempt: nat,
                              last: Option<Exception>, slept: nat)
    requires attempt == 1 < r && slept == 0
    requires fn(0).Raised?
    requires SleepFault(delay, mode).Some?
    ensures Explains(fn, r, delay, mode, RetryFrom(fn, r, delay, mode, attempt, last, slept))
  {
    var f := SleepFault(delay, mode).value;
    var run := RetryFrom(fn, r, delay, mode, attempt, last, slept);
    assert run == RetryRun(Err(f), attempt, slept);
    assert fn(0).Raised? && SleepFault(delay, mode) == Some(run.result.exc);
  }

  /** A failed call followed by a sleep (or by nothing, after the last attempt)
      leaves the rest of the run to the next attempt. */
  lemma StepExplains<T>(fn: nat -> Attempt<T>, r: int, delay: Json, mode: Mode, attempt: nat,
                        last: Option<Exception>, slept: nat)
    requires 1 <= attempt <= r
    requires fn(attempt - 1).Raised?
    requires attempt < r ==> SleepFault(delay, mode).None?
    requires Explains(fn, r, delay, mode, RetryFrom(fn, r, delay, mode, attempt + 1, Some(fn(attempt - 1).exc),
                                              if attempt < r then slept + 1 else slept))
    ensures Explains(fn, r, delay, mode, RetryFrom(fn, r, delay, mode, attempt, last, slept))
  {
    assert RetryFrom(fn, r, delay, mode, attempt, last, slept)
        == RetryFrom(fn, r, delay, mode, attempt + 1, Some(fn(attempt - 1).exc), if attempt < r then slept + 1 else slept);
  }

  /** A raising call at `attempt` extends the run of raising calls before it. */
  lemma RaisedSoFar<T>(fn: nat -> Attempt<T>, attempt: nat)
    requires 1 <= attempt
    requires forall k :: 0 <= k < attempt - 1 ==> fn(k).Raised?
    requires fn(attempt - 1).Raised?
    ensures forall k :: 0 <= k < attempt ==> fn(k).Raised?
  {
  }

  /** Every run of the executor is explained by the calls it made. */
  lemma RetriedExplains<T>(fn: nat -> Attempt<T>, r: int, delay: Json, mode: Mode)
    ensures Explains(fn, r, delay, mode, Retried(fn, r, delay, mode))
  {
    RetryFromExplains(fn, r, delay, mode, 1, None, 0);
  }

  /** The first successful call ends the run: its value is returned, no call
      follows it, and the k failed calls before it were each followed by a sleep. */
  lemma FirstSuccessWins<T>(fn: nat -> Attempt<T>, r: int, delay: Json, mode: Mode, k: nat)
    requires k < r
    requires forall j :: 0 <= j < k ==> fn(j).Raised?
    requires fn(k).Succeeded?
    requires SleepFault(delay, mode).None?
    ensures Retried(fn, r, delay, mode) == RetryRun(Ok(fn(k).value), k + 1, k)
  {
    RetriedExplains(fn, r, delay, mode);
    assert fn(k).Succeeded?;
  }

  /** A delay the sleep refuses ends the run after the first failed call (when
      a retry would follow): one call, no sleep, and the sleep's exception
      instead of the call's. */
  lemma BadDelayStopsAfterFirstFailure<T>(fn: nat -> Attempt<T>, r: int, delay: Json, mode: Mode)
    requires 2 <= r
    requires fn(0).Raised?
    requires SleepFault(delay, mode).Some?
    ensures Retried(fn, r, delay, mode) == RetryRun(Err(SleepFault(delay, mode).value), 1, 0)
  {
    RetriedExplains(fn, r, delay, mode);
  }

  /** retry_delay_seconds = 10^10 with two attempts and a failing first call:
      the nanoseconds overflow for time.sleep, so the blocking executor raises
      after one call, while asyncio.sleep accepts the delay and the non-blocking
      executor makes its second call. */
  lemma HugeDelayScenario<T>(fn: nat -> Attempt<T>)
    requires fn(0).Raised?
    ensures Retried(fn, 2, JInt(10000000000), Blocking) == RetryRun(Err(Exception(SleepOverflowMessage)), 1, 0)
    ensures var run := Retried(fn, 2, JInt(10000000000), NonBlocking); run.calls == 2 && run.sleeps == 1
  {
    BadDelayStopsAfterFirstFailure(fn, 2, JInt(10000000000), Blocking);
    RetriedExplains(fn, 2, JInt(10000000000), NonBlocking);
  }

  /** When every one of the r >= 1 attempts fails, the executor makes exactly r
      calls, sleeps r - 1 times (never after the last attempt) and re-raises the
      exception of the last attempt. */
  lemma AllFailedReRaisesLast<T>(fn: nat -> Attempt<T>, r: int, delay: Json, mode: Mode)
    requires 1 <= r
    requires forall k :: 0 <= k < r ==> fn(k).Raised?
    requires SleepFault(delay, mode).None?
    ensures Retried(fn, r, delay, mode) == RetryRun(Err(fn(r - 1).exc), r, r - 1)
  {
    RetriedExplains(fn, r, delay, mode);
  }

  /** With f failures before the first success, the operation is called exactly
      min(f + 1, r) times. */
  lemma CallCount<T>(fn: nat -> Attempt<T>, r: int, delay: Json, mode: Mode, f: nat)
    requires 1 <= r
    requires forall j :: 0 <= j < f ==> fn(j).Raised?
    requires fn(f).Succeeded?
    requires SleepFault(delay, mode).None?
    ensures Retried(fn, r, delay, mode).calls == if f + 1 < r then f + 1 else r
  {
    if f < r {
      FirstSuccessWins(fn, r, delay, mode, f);
    } else {
      AllFailedReRaisesLast(fn, r, delay, mode);
    }
  }

  /** An operation that never raises is called once (r >= 1) and returned from
      without sleeping; with no attempts allowed it is not called at all. */
  lemma NeverRaisingCalledOnce<T>(v: T, r: int, delay: Json, mode: Mode)
    ensures 1 <= r ==> Retried(Always(v), r, delay, mode) == RetryRun(Ok(v), 1, 0)
    ensures r <= 0 ==> Retried(Always(v), r, delay, mode) == RetryRun(Err(Exception(RaiseNoneMessage)), 0, 0)
  {
  }
}
