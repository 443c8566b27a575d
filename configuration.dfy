/** The mutable configuration record of a semaphore-gated runner: a Java
    bean whose constructors assign every field and whose setters overwrite
    one field in place. Nothing here validates; the runner does. */
module GatedRunnerConfiguration {
  import opened Wrappers
  import opened JavaNumerics

  /** Identity of a caller-supplied progressing runner (the work unit). */
  datatype RunnerRef = RunnerRef(id: nat)

  /** Identity of a caller-supplied progress callback. */
  datatype CallbackRef = CallbackRef(id: nat)

  /** The values of the five fields; a `None` stands for Java's `null`. */
  datatype ConfigState = ConfigState(
    runner: Option<RunnerRef>,
    progressCallack: Option<CallbackRef>,
    lockKey: Option<string>,
    lockTimeoutSec: Long,
    maxLockCount: Int)

  /** The state the field initialisers give: references null, both numbers -1. */
  function DefaultState(): ConfigState
  {
    ConfigState(None, None, None, -1, -1)
  }

  class Configuration {
    var runner: Option<RunnerRef>
    var progressCallack: Option<CallbackRef>
    var lockKey: Option<string>
    var lockTimeoutSec: Long
    var maxLockCount: Int

    function State(): ConfigState
      reads this
    {
      ConfigState(runner, progressCallack, lockKey, lockTimeoutSec, maxLockCount)
    }

    /** The no-argument constructor keeps the field initialisers. */
    constructor ()
      ensures State() == DefaultState()
    {
      runner := None;
      progressCallack := None;
      lockKey := None;
      lockTimeoutSec := -1;
      maxLockCount := -1;
    }

    /** The four-argument constructor: the five-argument one with no progress callback. */
    constructor Of(runner: Option<RunnerRef>, lockKey: Option<string>, lockTimeoutSec: Long, maxLockCount: Int)
      ensures State() == ConfigState(runner, None, lockKey, lockTimeoutSec, maxLockCount)
    {
      this.runner := runner;
      this.lockKey := lockKey;
      this.lockTimeoutSec := lockTimeoutSec;
      this.maxLockCount := maxLockCount;
      this.progressCallack := None;
    }

    /** Stores every argument unchanged, accepting nulls and negative numbers. */
    constructor WithCallback(runner: Option<RunnerRef>, lockKey: Option<string>, lockTimeoutSec: Long,
                             maxLockCount: Int, progressCallback: Option<CallbackRef>)
      ensures State() == ConfigState(runner, progressCallback, lockKey, lockTimeoutSec, maxLockCount)
    {
      this.runner := runner;
      this.lockKey := lockKey;
      this.lockTimeoutSec := lockTimeoutSec;
      this.maxLockCount := maxLockCount;
      this.progressCallack := progressCallback;
    }

    function GetRunner(): Option<RunnerRef>
      reads this
    {
      runner
    }

    method SetRunner(runner: Option<RunnerRef>)
      modifies this
      ensures GetRunner() == runner
      ensures State() == old(State()).(runner := runner)
    {
      this.runner := runner;
    }

    function GetLockKey(): Option<string>
      reads this
    {
      lockKey
    }

    method SetLockKey(lockKey: Option<string>)
      modifies this
      ensures GetLockKey() == lockKey
      ensures State() == old(State()).(lockKey := lockKey)
    {
      this.lockKey := lockKey;
    }

    function GetLockTimeoutSec(): Long
      reads this
    {
      lockTimeoutSec
    }

    method SetLockTimeoutSec(lockTimeoutSec: Long)
      modifies this
      ensures GetLockTimeoutSec() == lockTimeoutSec
      ensures State() == old(State()).(lockTimeoutSec := lockTimeoutSec)
    {
      this.lockTimeoutSec := lockTimeoutSec;
    }

    function GetMaxLockCount(): Int
      reads this
    {
      maxLockCount
    }

    method SetMaxLockCount(maxLockCount: Int)
      modifies this
      ensures GetMaxLockCount() == maxLockCount
      ensures State() == old(State()).(maxLockCount := maxLockCount)
    {
      this.maxLockCount := maxLockCount;
    }
  }
}
