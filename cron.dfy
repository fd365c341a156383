/**
 * The scheduled fetcher `FastworkCronJob` (src/cron/index.js): an
 * "already running" guard, the run counters, an error log capped at ten
 * entries, and the uptime shown by `getStatus`.
 *
 * `fetchJobs` is asynchronous: it raises the guard, waits for
 * `processJobs`, then records the outcome. The model splits it at that
 * wait into `Begin` and `Finish`, so that a tick arriving in between is a
 * `Begin` on a running job. Times are milliseconds passed in by the
 * caller; the outcome of `processJobs(30)` is a parameter.
 */
module Cron {
  import opened Common

  /** The number of errors the log keeps. */
  const MaxErrors := 10

  /** The limit the cron passes to `processJobs`. */
  const CronLimit := 30

  datatype CronError = CronError(timestamp: int, error: string)

  /** What the awaited `processJobs(30)` did: returned that many jobs, or threw. */
  datatype RunOutcome = Processed(count: nat) | Threw(message: string)

  /** The error log after one more error: the new entry is appended and only the last ten are kept. */
  function LogError(errors: seq<CronError>, e: CronError): (r: seq<CronError>)
    ensures |r| == Min(|errors| + 1, MaxErrors)
    ensures r == (errors + [e])[|errors| + 1 - |r|..]
    ensures r[|r| - 1] == e
  {
    var all := errors + [e];
    if |all| > MaxErrors then all[|all| - MaxErrors..] else all
  }

  /** Logging keeps the most recent entries in order: the log is a suffix of everything ever logged. */
  lemma LogErrorSuffix(history: seq<CronError>, errors: seq<CronError>, e: CronError)
    requires |errors| <= |history| && errors == history[|history| - |errors|..]
    ensures var r := LogError(errors, e);
      var all := history + [e];
      r == all[|all| - |r|..]
  {
    var r := LogError(errors, e);
    var all := history + [e];
    forall i | 0 <= i < |r|
      ensures r[i] == all[|all| - |r| + i]
    {
      assert r[i] == (errors + [e])[|errors| + 1 - |r| + i];
    }
  }

  /** JavaScript's `%`, whose result takes the sign of the dividend. */
  function JsRem(a: int, b: int): (r: int)
    requires b > 0
    ensures a >= 0 ==> r == a % b
    ensures a < 0 ==> -b < r <= 0
  {
    if a >= 0 then a % b else -((-a) % b)
  }

  /** `Math.floor(a / b)` for a positive divisor. */
  function FloorDiv(a: int, b: int): (q: int)
    requires b > 0
    ensures q * b <= a < (q + 1) * b
  {
    a / b
  }

  /** The uptime of `getStatus` as hours, minutes and seconds. */
  datatype Uptime = Uptime(hours: int, minutes: int, seconds: int)

  /** The hours, minutes and seconds of an elapsed time in milliseconds; an exact decomposition when it is not negative. */
  function UptimeOf(elapsedMs: int): (u: Uptime)
    ensures elapsedMs >= 0 ==>
      && u.hours * 3600 + u.minutes * 60 + u.seconds == FloorDiv(elapsedMs, 1000)
      && 0 <= u.minutes < 60 && 0 <= u.seconds < 60 && u.hours >= 0
  {
    var uptime := FloorDiv(elapsedMs, 1000);
    Uptime(FloorDiv(uptime, 3600), FloorDiv(JsRem(uptime, 3600), 60), JsRem(uptime, 60))
  }

  /** What `getStatus` reports. */
  datatype Status = Status(isRunning: bool, lastRun: Option<int>, totalJobsFetched: nat, uptime: Uptime,
                           errors: nat, lastError: Option<CronError>)

  class CronJob {
    var isRunning: bool
    var lastRun: Option<int>
    var totalJobsFetched: nat
    var errors: seq<CronError>
    const startTime: int

    /** The log never holds more than ten errors. */
    predicate Valid()
      reads this
    {
      |errors| <= MaxErrors
    }

    constructor (startTime: int)
      ensures Valid()
      ensures !isRunning && lastRun.None? && totalJobsFetched == 0 && errors == [] && this.startTime == startTime
    {
      isRunning := false;
      lastRun := None;
      totalJobsFetched := 0;
      errors := [];
      this.startTime := startTime;
    }

    /** The start of `fetchJobs`: a call while a run is in progress is skipped and changes nothing. */
    method Begin() returns (started: bool)
      modifies this
      ensures started <==> !old(isRunning)
      ensures isRunning
      ensures lastRun == old(lastRun) && totalJobsFetched == old(totalJobsFetched) && errors == old(errors)
    {
      if isRunning {
        return false;
      }
      isRunning := true;
      started := true;
    }

    /**
     * The end of a started `fetchJobs`: a completed run sets `lastRun` and
     * adds the jobs returned; a failed one logs the error. Either way the
     * guard is lowered.
     */
    method Finish(outcome: RunOutcome, now: int)
      requires Valid()
      modifies this
      ensures Valid()
      ensures !isRunning
      ensures outcome.Processed? ==> lastRun == Some(now) && totalJobsFetched == old(totalJobsFetched) + outcome.count && errors == old(errors)
      ensures outcome.Threw? ==> lastRun == old(lastRun) && totalJobsFetched == old(totalJobsFetched)
                                 && errors == LogError(old(errors), CronError(now, outcome.message))
    {
      if outcome.Processed? {
        lastRun := Some(now);
        totalJobsFetched := totalJobsFetched + outcome.count;
      } else {
        errors := LogError(errors, CronError(now, outcome.message));
      }
      isRunning := false;
    }

    /** `fetchJobs` when nothing else runs in between its start and its end. */
    method FetchJobs(outcome: RunOutcome, now: int)
      requires Valid()
      modifies this
      ensures Valid()
      ensures old(isRunning) ==> isRunning && lastRun == old(lastRun) && totalJobsFetched == old(totalJobsFetched) && errors == old(errors)
      ensures !old(isRunning) ==> !isRunning
      ensures !old(isRunning) && outcome.Processed? ==> lastRun == Some(now) && totalJobsFetched == old(totalJobsFetched) + outcome.count && errors == old(errors)
      ensures !old(isRunning) && outcome.Threw? ==>
                lastRun == old(lastRun) && totalJobsFetched == old(totalJobsFetched)
                && errors == LogError(old(errors), CronError(now, outcome.message))
    {
      var started := Begin();
      if started {
        Finish(outcome, now);
      }
    }

    /** `getStatus`: the flags and counters, the uptime since construction and the most recent error. */
    function GetStatus(now: int): (s: Status)
      reads this
      ensures s.isRunning == isRunning && s.lastRun == lastRun && s.totalJobsFetched == totalJobsFetched
      ensures s.errors == |errors|
      ensures s.lastError.None? <==> errors == []
      ensures s.lastError.Some? ==> s.lastError.value == errors[|errors| - 1]
      ensures now >= startTime ==> s.uptime.hours * 3600 + s.uptime.minutes * 60 + s.uptime.seconds == (now - startTime) / 1000
    {
      Status(isRunning, lastRun, totalJobsFetched, UptimeOf(now - startTime), |errors|,
             if |errors| > 0 then Some(errors[|errors| - 1]) else None)
    }
  }
}
