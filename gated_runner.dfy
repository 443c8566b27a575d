/** The semaphore-gated runner: it validates its configuration, derives the
    lease-renewal throttle interval, and runs one acquire -> run -> release
    cycle against an external counting semaphore.

    The semaphore, the work unit and the throttling callback's timing are
    outside this model: what they answer is passed in, and every call the
    runner makes on the semaphore (plus the moment it starts the work unit)
    is appended to a ghost trace. */
module SemaphoreGatedRunner {
  import opened Wrappers
  import opened JavaNumerics
  import opened GatedRunnerConfiguration

  /** A lock token handed out by the semaphore. */
  type Token = string

  /** What a call can throw: the semaphore's release failure, or anything else. */
  datatype Throwable = LockReleaseFailed | Other(description: string)

  /** The reasons construction fails with an illegal-argument exception. */
  datatype ConfigError = NullConfig | NullRunner | NullLockKey | LockTimeoutBelowOne | MaxLockCountBelowOne

  // ---------------------------------------------------------------------
  // Configuration validation
  // ---------------------------------------------------------------------

  /** Every rule the given fields break, in the order the rules are listed. */
  function Violations(runner: Option<RunnerRef>, lockKey: Option<string>, lockTimeoutSec: int, maxLockCount: int): seq<ConfigError>
  {
    (if runner.None? then [NullRunner] else [])
    + (if lockKey.None? then [NullLockKey] else [])
    + (if lockTimeoutSec < 1 then [LockTimeoutBelowOne] else [])
    + (if maxLockCount < 1 then [MaxLockCountBelowOne] else [])
  }

  /** The guard chain run at the end of construction: it reports the first
      broken rule, and nothing when all four hold. */
  function ValidateConfig(runner: Option<RunnerRef>, lockKey: Option<string>, lockTimeoutSec: int, maxLockCount: int): (r: Option<ConfigError>)
    ensures r.None? <==> Violations(runner, lockKey, lockTimeoutSec, maxLockCount) == []
    ensures r.None? <==> runner.Some? && lockKey.Some? && lockTimeoutSec >= 1 && maxLockCount >= 1
    ensures r.Some? ==> r.value == Violations(runner, lockKey, lockTimeoutSec, maxLockCount)[0]
  {
    if runner.None? then Some(NullRunner)
    else if lockKey.None? then Some(NullLockKey)
    else if lockTimeoutSec < 1 then Some(LockTimeoutBelowOne)
    else if maxLockCount < 1 then Some(MaxLockCountBelowOne)
    else None
  }

  // ---------------------------------------------------------------------
  // Throttle interval
  // ---------------------------------------------------------------------

  /** How often, in milliseconds, progress may refresh the lock: a third of
      the lease, computed in Java `long` arithmetic. While the product
      `lockTimeoutSec * 1000` fits in a `long`, this is the integer quotient
      of the lease in milliseconds by three. */
  function ThrottleFrequencyMs(lockTimeoutSec: Long): (ms: Long)
    ensures 0 <= lockTimeoutSec * 1000 <= MAX_LONG ==>
              0 <= ms && 3 * ms <= lockTimeoutSec * 1000 < 3 * ms + 3
  {
    TruncDiv(WrapLong(lockTimeoutSec * 1000), 3)
  }

  // ---------------------------------------------------------------------
  // Construction
  // ---------------------------------------------------------------------

  /** The final fields of a constructed runner. Validation has passed, so the
      runner and the key are present (they are not optional here). */
  datatype RunnerSettings = RunnerSettings(
    runner: RunnerRef,
    lockKey: string,
    lockTimeoutSec: Long,
    maxLockCount: Int,
    throttleFrequencyMs: Long)

  /** What every constructed runner satisfies: validation passed, and the
      interval is the one derived from the timeout. */
  predicate Admitted(s: RunnerSettings) {
    s.lockTimeoutSec >= 1 && s.maxLockCount >= 1 &&
    s.throttleFrequencyMs == ThrottleFrequencyMs(s.lockTimeoutSec)
  }

  /** What construction from a (possibly null) configuration yields: the
      runner's final fields, or the illegal-argument reason. The
      configuration's progress callback is not read. */
  function Admit(config: Option<ConfigState>): (r: Result<RunnerSettings, ConfigError>)
    ensures config.None? ==> r == Failure(NullConfig)
    ensures config.Some? ==>
              var c := config.value;
              var broken := Violations(c.runner, c.lockKey, c.lockTimeoutSec, c.maxLockCount);
              (r.Failure? <==> broken != []) && (r.Failure? ==> r.error == broken[0])
    ensures r.Success? ==>
              config.Some? &&
              config.value.runner == Some(r.value.runner) &&
              config.value.lockKey == Some(r.value.lockKey) &&
              config.value.lockTimeoutSec == r.value.lockTimeoutSec >= 1 &&
              config.value.maxLockCount == r.value.maxLockCount >= 1 &&
              r.value.throttleFrequencyMs == ThrottleFrequencyMs(r.value.lockTimeoutSec)
    ensures r.Success? ==> Admitted(r.value)
  {
    match config
    case None => Failure(NullConfig)
    case Some(c) =>
      var throttle := ThrottleFrequencyMs(c.lockTimeoutSec);
      match ValidateConfig(c.runner, c.lockKey, c.lockTimeoutSec, c.maxLockCount)
      case Some(e) => Failure(e)
      case None => Success(RunnerSettings(c.runner.value, c.lockKey.value, c.lockTimeoutSec, c.maxLockCount, throttle))
  }

  // ---------------------------------------------------------------------
  // Calls, listeners and outcomes
  // ---------------------------------------------------------------------

  /** One observable step of a run: a call on the semaphore, or the start of
      the work unit. */
  datatype Event =
    | Acquire(key: string, timeoutSec: Long, maxLockCount: Int)
    | Refresh(key: string, lockToken: Option<Token>, timeoutSec: Long)
    | Release(key: string, token: Token)
    | RunnerInvoked(runner: RunnerRef)

  /** The progress listener registered by a run: it captures the key, the
      token the acquire returned (possibly null) and the timeout. */
  datatype RefreshListener = RefreshListener(key: string, lockToken: Option<Token>, timeoutSec: Long)
  {
    /** Notified of progress, the listener refreshes the lock it captured. */
    function ProgressMade(): Event {
      Refresh(key, lockToken, timeoutSec)
    }
  }

  /** One forwarded progress signal: every registered listener, in order. */
  function Broadcast(listeners: seq<RefreshListener>): seq<Event>
  {
    seq(|listeners|, i requires 0 <= i < |listeners| => listeners[i].ProgressMade())
  }

  /** The calls made by `signals` forwarded progress signals. */
  function Refreshes(listeners: seq<RefreshListener>, signals: nat): seq<Event>
  {
    if signals == 0 then [] else Refreshes(listeners, signals - 1) + Broadcast(listeners)
  }

  /** What the work unit does, as far as the runner can see: how many of its
      progress signals the throttle forwards, and whether it throws. */
  datatype WorkUnit = WorkUnit(forwardedSignals: nat, thrown: Option<Throwable>)

  /** How `run` ends: it returns, it returns after logging a swallowed
      failure, or it rethrows the lock-release failure. */
  datatype Exit = Returned | Logged(error: Throwable) | Rethrown

  /** try/finally: a failure of the finally block replaces the body's. */
  function FinallyFailure(body: Option<Throwable>, cleanup: Option<Throwable>): (f: Option<Throwable>)
    ensures cleanup.Some? ==> f == cleanup
    ensures cleanup.None? ==> f == body
  {
    if cleanup.Some? then cleanup else body
  }

  /** The two catch clauses of `run`: a lock-release failure is rethrown,
      any other throwable is logged and swallowed. */
  function Catch(failure: Option<Throwable>): (x: Exit)
    ensures x == Returned <==> failure.None?
    ensures x == Rethrown <==> failure == Some(LockReleaseFailed)
    ensures x.Logged? <==> failure.Some? && failure.value.Other?
    ensures x.Logged? ==> failure == Some(x.error)
  {
    match failure
    case None => Returned
    case Some(LockReleaseFailed) => Rethrown
    case Some(e) => Logged(e)
  }

  /** The result of one run: the calls it made, the listener list after it,
      and how it ended. */
  datatype RunResult = RunResult(events: seq<Event>, listeners: seq<RefreshListener>, exit: Exit)

  /** One run of a runner with the given settings whose progress callback
      already holds `before`, given what the semaphore answers to the acquire
      (a token, null, or a throwable), what the work unit does, and what the
      release throws, if anything. The listener is registered before the
      null-token check, so a declined acquire still registers one. */
  function RunSpec(s: RunnerSettings, before: seq<RefreshListener>, acquireAnswer: Result<Option<Token>, Throwable>,
                   work: WorkUnit, releaseAnswer: Option<Throwable>): RunResult
  {
    var acquire := Acquire(s.lockKey, s.lockTimeoutSec, s.maxLockCount);
    match acquireAnswer
    case Failure(e) => RunResult([acquire], before, Catch(Some(e)))
    case Success(lockToken) =>
      var listeners := before + [RefreshListener(s.lockKey, lockToken, s.lockTimeoutSec)];
      match lockToken
      case None => RunResult([acquire], listeners, Catch(None))
      case Some(token) =>
        RunResult([acquire, RunnerInvoked(s.runner)] + Refreshes(listeners, work.forwardedSignals) + [Release(s.lockKey, token)],
                  listeners,
                  Catch(FinallyFailure(work.thrown, releaseAnswer)))
  }

  // ---------------------------------------------------------------------
  // The objects
  // ---------------------------------------------------------------------

  /** The throttling progress callback the runner builds for itself. Only
      its interval and its listener list are modelled; which signals it
      forwards depends on the clock and is an input of `Run`. */
  class ThrottlingProgressCallback {
    const frequencyMs: Long
    var listeners: seq<RefreshListener>

    constructor (frequencyMs: Long)
      ensures this.frequencyMs == frequencyMs && listeners == []
    {
      this.frequencyMs := frequencyMs;
      listeners := [];
    }

    method AddProgressListener(listener: RefreshListener)
      modifies this
      ensures listeners == old(listeners) + [listener]
    {
      listeners := listeners + [listener];
    }
  }

  /** A runner instance. Its fields are final; the progress callback's
      listener list is the only state a run changes, besides the trace. */
  class GatedRunner {
    const runner: RunnerRef
    const lockKey: string
    const lockTimeoutSec: Long
    const maxLockCount: Int
    const throttleFrequencyMs: Long
    const progressCallback: ThrottlingProgressCallback

    /** Every semaphore call made and every start of the work unit, in order. */
    ghost var trace: seq<Event>

    function Settings(): RunnerSettings {
      RunnerSettings(runner, lockKey, lockTimeoutSec, maxLockCount, throttleFrequencyMs)
    }

    constructor (s: RunnerSettings)
      requires Admitted(s)
      ensures Settings() == s && Admitted(Settings()) && trace == []
      ensures fresh(progressCallback) && progressCallback.listeners == []
      ensures progressCallback.frequencyMs == s.throttleFrequencyMs
    {
      runner := s.runner;
      lockKey := s.lockKey;
      lockTimeoutSec := s.lockTimeoutSec;
      maxLockCount := s.maxLockCount;
      throttleFrequencyMs := s.throttleFrequencyMs;
      progressCallback := new ThrottlingProgressCallback(s.throttleFrequencyMs);
      trace := [];
    }

    /** The semaphore's acquire call; `answer` is what it returns or throws. */
    method AttemptToAcquireLock(answer: Result<Option<Token>, Throwable>) returns (r: Result<Option<Token>, Throwable>)
      modifies this`trace
      ensures r == answer
      ensures trace == old(trace) + [Acquire(lockKey, lockTimeoutSec, maxLockCount)]
    {
      trace := trace + [Acquire(lockKey, lockTimeoutSec, maxLockCount)];
      r := answer;
    }

    /** The semaphore's release call; `answer` is what it throws, if anything. */
    method ReleaseLock(token: Token, answer: Option<Throwable>) returns (thrown: Option<Throwable>)
      modifies this`trace
      ensures thrown == answer
      ensures trace == old(trace) + [Release(lockKey, token)]
    {
      trace := trace + [Release(lockKey, token)];
      thrown := answer;
    }

    /** Runs the work unit with the progress callback: each progress signal
        the throttle forwards notifies every registered listener in turn. */
    method RunWork(work: WorkUnit) returns (thrown: Option<Throwable>)
      modifies this`trace
      ensures thrown == work.thrown
      ensures trace == old(trace) + [RunnerInvoked(runner)] + Refreshes(progressCallback.listeners, work.forwardedSignals)
    {
      trace := trace + [RunnerInvoked(runner)];
      var listeners := progressCallback.listeners;
      var n := 0;
      while n < work.forwardedSignals
        invariant n <= work.forwardedSignals
        invariant trace == old(trace) + [RunnerInvoked(runner)] + Refreshes(listeners, n)
      {
        var i := 0;
        while i < |listeners|
          invariant i <= |listeners|
          invariant trace == old(trace) + [RunnerInvoked(runner)] + Refreshes(listeners, n) + Broadcast(listeners[..i])
        {
          assert Broadcast(listeners[..i + 1]) == Broadcast(listeners[..i]) + [listeners[i].ProgressMade()];
          trace := trace + [listeners[i].ProgressMade()];
          i := i + 1;
        }
        assert listeners[..i] == listeners;
        n := n + 1;
      }
      thrown := work.thrown;
    }

    /** One acquire -> run -> release cycle, with release in a finally block
        and the two catch clauses around the whole. */
    method Run(acquireAnswer: Result<Option<Token>, Throwable>, work: WorkUnit, releaseAnswer: Option<Throwable>)
      returns (exit: Exit)
      modifies this`trace, progressCallback
      ensures var r := RunSpec(Settings(), old(progressCallback.listeners), acquireAnswer, work, releaseAnswer);
              trace == old(trace) + r.events && progressCallback.listeners == r.listeners && exit == r.exit
    {
      var failure: Option<Throwable> := None;
      var acquired := AttemptToAcquireLock(acquireAnswer);
      if acquired.Failure? {
        failure := Some(acquired.error);
      } else {
        var lockToken := acquired.value;
        progressCallback.AddProgressListener(RefreshListener(lockKey, lockToken, lockTimeoutSec));
        if lockToken.Some? {
          var workFailure := RunWork(work);
          var releaseFailure := ReleaseLock(lockToken.value, releaseAnswer);
          failure := FinallyFailure(workFailure, releaseFailure);
        }
      }
      exit := Catch(failure);
    }
  }

  /** Construction from a configuration that may be null: the null check,
      the field copy, the throttle interval and the validation, in the
      order the constructor runs them. A Java constructor that throws
      yields no object, so the object is allocated only once they pass. */
  method Create(config: Configuration?) returns (r: Result<GatedRunner, ConfigError>)
    ensures config == null ==> r == Failure(NullConfig)
    ensures config != null ==>
              var a := Admit(Some(config.State()));
              (r.Success? <==> a.Success?) &&
              (r.Failure? ==> r.error == a.error) &&
              (r.Success? ==> fresh(r.value) && fresh(r.value.progressCallback) &&
                              r.value.Settings() == a.value && r.value.trace == [] &&
                              r.value.progressCallback.listeners == [] &&
                              r.value.progressCallback.frequencyMs == r.value.throttleFrequencyMs)
  {
    if config == null {
      return Failure(NullConfig);
    }
    var runner := config.GetRunner();
    var lockKey := config.lockKey;
    var lockTimeoutSec := config.GetLockTimeoutSec();
    var maxLockCount := config.GetMaxLockCount();
    var throttle := ThrottleFrequencyMs(lockTimeoutSec);
    var invalid := ValidateConfig(runner, lockKey, lockTimeoutSec, maxLockCount);
    if invalid.Some? {
      return Failure(invalid.value);
    }
    var gate := new GatedRunner(RunnerSettings(runner.value, lockKey.value, lockTimeoutSec, maxLockCount, throttle));
    r := Success(gate);
  }
}
