/** What the runner promises, stated over the specification functions of
    module SemaphoreGatedRunner: the validation order, the throttle interval,
    and the call sequence and exit of one run. */
module GatedRunnerProperties {
  import opened Wrappers
  import opened JavaNumerics
  import opened GatedRunnerConfiguration
  import opened SemaphoreGatedRunner

  /** The acquire answer hands out a token. */
  predicate Granted(acquireAnswer: Result<Option<Token>, Throwable>) {
    acquireAnswer.Success? && acquireAnswer.value.Some?
  }

  // ---------------------------------------------------------------------
  // Configuration and construction
  // ---------------------------------------------------------------------

  /** A configuration left as the no-argument constructor made it breaks all
      four rules, and construction reports the first: the null runner. */
  lemma DefaultConfigRejected()
    ensures Violations(None, None, -1, -1) == [NullRunner, NullLockKey, LockTimeoutBelowOne, MaxLockCountBelowOne]
    ensures Admit(Some(DefaultState())) == Failure(NullRunner)
  {
  }

  /** A zero lease or a zero holder count is rejected at construction, so no
      runner exists to call the semaphore. */
  lemma ZeroTimeoutOrCountRejected(c: ConfigState)
    requires c.lockTimeoutSec == 0 || c.maxLockCount == 0
    ensures Admit(Some(c)).Failure?
    ensures c.runner.Some? && c.lockKey.Some? ==>
              Admit(Some(c)).error == if c.lockTimeoutSec < 1 then LockTimeoutBelowOne else MaxLockCountBelowOne
  {
  }

  /** The configuration's progress callback has no influence on the runner:
      it stores it and never reads it. */
  lemma ProgressCallbackIgnored(c: ConfigState, callback: Option<CallbackRef>)
    ensures Admit(Some(c.(progressCallack := callback))) == Admit(Some(c))
  {
  }

  // ---------------------------------------------------------------------
  // Throttle interval
  // ---------------------------------------------------------------------

  /** Nine seconds give 3000 ms and one second gives 333 ms. */
  lemma ThrottleExamples()
    ensures ThrottleFrequencyMs(9) == 3000
    ensures ThrottleFrequencyMs(1) == 333
  {
  }

  /** For an admitted lease that fits the `long` product, the interval is
      positive and fits at least twice, strictly, into the lease. */
  lemma ThrottleLeavesTwoRenewals(s: RunnerSettings)
    requires Admitted(s) && s.lockTimeoutSec * 1000 <= MAX_LONG
    ensures 333 <= s.throttleFrequencyMs
    ensures 2 * s.throttleFrequencyMs < s.lockTimeoutSec * 1000
  {
  }

  /** Past the `long` range the product wraps and the interval turns
      negative. */
  lemma ThrottleWrapsPastLongRange()
    ensures ThrottleFrequencyMs(MAX_LONG / 1000 + 1) < 0
  {
  }

  // ---------------------------------------------------------------------
  // Refresh calls
  // ---------------------------------------------------------------------

  /** Forwarded signals make one refresh per signal and listener, each with
      the key, token and timeout one listener captured. */
  lemma {:induction false} RefreshesComeFromListeners(listeners: seq<RefreshListener>, signals: nat)
    ensures |Refreshes(listeners, signals)| == signals * |listeners|
    ensures forall e | e in Refreshes(listeners, signals) ::
              e.Refresh? && RefreshListener(e.key, e.lockToken, e.timeoutSec) in listeners
  {
    if signals > 0 {
      RefreshesComeFromListeners(listeners, signals - 1);
      var b := Broadcast(listeners);
      forall e | e in b
        ensures e.Refresh? && RefreshListener(e.key, e.lockToken, e.timeoutSec) in listeners
      {
        var i :| 0 <= i < |b| && b[i] == e;
        assert listeners[i] == RefreshListener(e.key, e.lockToken, e.timeoutSec);
      }
    }
  }

  /** Once a forwarded signal reaches the listeners, every listener has fired. */
  lemma {:induction false} EveryListenerFires(listeners: seq<RefreshListener>, signals: nat, l: RefreshListener)
    requires signals > 0 && l in listeners
    ensures l.ProgressMade() in Refreshes(listeners, signals)
  {
    var i :| 0 <= i < |listeners| && listeners[i] == l;
    assert Broadcast(listeners)[i] == l.ProgressMade();
  }

  // ---------------------------------------------------------------------
  // One run
  // ---------------------------------------------------------------------

  /** Exactly one acquire, with the configured key, timeout and holder
      count, and it is the first call. */
  lemma AcquireFirstAndOnce(s: RunnerSettings, before: seq<RefreshListener>, acquireAnswer: Result<Option<Token>, Throwable>,
                            work: WorkUnit, releaseAnswer: Option<Throwable>)
    ensures var ev := RunSpec(s, before, acquireAnswer, work, releaseAnswer).events;
            |ev| >= 1 && ev[0] == Acquire(s.lockKey, s.lockTimeoutSec, s.maxLockCount) &&
            forall i :: 1 <= i < |ev| ==> !ev[i].Acquire?
  {
    var r := RunSpec(s, before, acquireAnswer, work, releaseAnswer);
    if Granted(acquireAnswer) {
      var listeners := before + [RefreshListener(s.lockKey, acquireAnswer.value, s.lockTimeoutSec)];
      RefreshesComeFromListeners(listeners, work.forwardedSignals);
      forall i | 1 <= i < |r.events| ensures !r.events[i].Acquire? {
        if 2 <= i < |r.events| - 1 {
          assert r.events[i] in Refreshes(listeners, work.forwardedSignals);
        }
      }
    }
  }

  /** When the semaphore returns no token: the work unit never starts, no
      refresh and no release is made, and `run` returns normally. The
      listener is still registered, with a null token. */
  lemma DeclinedAcquireIsNoOp(s: RunnerSettings, before: seq<RefreshListener>, work: WorkUnit, releaseAnswer: Option<Throwable>)
    ensures var r := RunSpec(s, before, Success(None), work, releaseAnswer);
            r.events == [Acquire(s.lockKey, s.lockTimeoutSec, s.maxLockCount)] &&
            r.exit == Returned &&
            r.listeners == before + [RefreshListener(s.lockKey, None, s.lockTimeoutSec)]
  {
  }

  /** The work unit starts, and a release is made, if and only if the
      acquire returned a token. */
  lemma WorkAndReleaseIffGranted(s: RunnerSettings, before: seq<RefreshListener>, acquireAnswer: Result<Option<Token>, Throwable>,
                                 work: WorkUnit, releaseAnswer: Option<Throwable>)
    ensures var ev := RunSpec(s, before, acquireAnswer, work, releaseAnswer).events;
            (exists e | e in ev :: e.RunnerInvoked?) <==> Granted(acquireAnswer)
    ensures var ev := RunSpec(s, before, acquireAnswer, work, releaseAnswer).events;
            (exists e | e in ev :: e.Release?) <==> Granted(acquireAnswer)
  {
    var ev := RunSpec(s, before, acquireAnswer, work, releaseAnswer).events;
    if Granted(acquireAnswer) {
      assert ev[1] in ev;
      assert ev[|ev| - 1] in ev;
    }
  }

  /** With a token, the work unit starts right after the acquire, and the
      release is the last call, made exactly once, with the configured key
      and that token, whatever the work unit did. */
  lemma ReleaseExactlyOnceAfterWork(s: RunnerSettings, before: seq<RefreshListener>, token: Token,
                                    work: WorkUnit, releaseAnswer: Option<Throwable>)
    ensures var ev := RunSpec(s, before, Success(Some(token)), work, releaseAnswer).events;
            var release := Release(s.lockKey, token);
            ev[1] == RunnerInvoked(s.runner) && ev[|ev| - 1] == release &&
            multiset(ev)[release] == 1 &&
            forall e | e in ev && e.Release? :: e == release
  {
    var listeners := before + [RefreshListener(s.lockKey, Some(token), s.lockTimeoutSec)];
    var refreshes := Refreshes(listeners, work.forwardedSignals);
    RefreshesComeFromListeners(listeners, work.forwardedSignals);
    var release := Release(s.lockKey, token);
    var head := [Acquire(s.lockKey, s.lockTimeoutSec, s.maxLockCount), RunnerInvoked(s.runner)];
    var ev := RunSpec(s, before, Success(Some(token)), work, releaseAnswer).events;
    assert ev == head + refreshes + [release];
    assert release !in refreshes;
    assert multiset(ev) == multiset(head) + multiset(refreshes) + multiset([release]);
  }

  /** On a fresh runner (no listener yet) every refresh carries the
      configured key, the acquired token and the configured timeout, and
      there is one per forwarded signal. Without a token there is none. */
  lemma RefreshesUseAcquiredToken(s: RunnerSettings, acquireAnswer: Result<Option<Token>, Throwable>,
                                  work: WorkUnit, releaseAnswer: Option<Throwable>)
    ensures var ev := RunSpec(s, [], acquireAnswer, work, releaseAnswer).events;
            Granted(acquireAnswer) ==>
              |ev| == work.forwardedSignals + 3 &&
              (forall i :: 2 <= i < |ev| - 1 ==> ev[i].Refresh?) &&
              forall e | e in ev && e.Refresh? :: e == Refresh(s.lockKey, acquireAnswer.value, s.lockTimeoutSec)
    ensures var ev := RunSpec(s, [], acquireAnswer, work, releaseAnswer).events;
            !Granted(acquireAnswer) ==> forall e | e in ev :: !e.Refresh?
  {
    if Granted(acquireAnswer) {
      var listeners := [RefreshListener(s.lockKey, acquireAnswer.value, s.lockTimeoutSec)];
      assert [] + listeners == listeners;
      RefreshesComeFromListeners(listeners, work.forwardedSignals);
      var ev := RunSpec(s, [], acquireAnswer, work, releaseAnswer).events;
      forall i | 2 <= i < |ev| - 1 ensures ev[i].Refresh? {
        assert ev[i] in Refreshes(listeners, work.forwardedSignals);
      }
    }
  }

  /** Run an instance again and every listener left from an earlier run
      (with that run's token, or null) also refreshes. */
  lemma ReusedRunnerRefreshesStaleListeners(s: RunnerSettings, before: seq<RefreshListener>, acquireAnswer: Result<Option<Token>, Throwable>,
                                            work: WorkUnit, releaseAnswer: Option<Throwable>, stale: RefreshListener)
    requires Granted(acquireAnswer) && work.forwardedSignals > 0 && stale in before
    ensures stale.ProgressMade() in RunSpec(s, before, acquireAnswer, work, releaseAnswer).events
  {
    var listeners := before + [RefreshListener(s.lockKey, acquireAnswer.value, s.lockTimeoutSec)];
    EveryListenerFires(listeners, work.forwardedSignals, stale);
  }

  /** How `run` ends. A lock-release failure raised anywhere in the guarded
      block is rethrown; when the release fails, its failure is the one that
      counts, whatever the work unit threw; every other throwable is logged
      and `run` returns. */
  lemma ExceptionClassification(s: RunnerSettings, before: seq<RefreshListener>, acquireAnswer: Result<Option<Token>, Throwable>,
                                work: WorkUnit, releaseAnswer: Option<Throwable>)
    ensures var x := RunSpec(s, before, acquireAnswer, work, releaseAnswer).exit;
            x.Logged? ==> x.error.Other?
    ensures var x := RunSpec(s, before, acquireAnswer, work, releaseAnswer).exit;
            acquireAnswer.Failure? ==> x == Catch(Some(acquireAnswer.error))
    ensures var x := RunSpec(s, before, acquireAnswer, work, releaseAnswer).exit;
            Granted(acquireAnswer) && releaseAnswer.Some? ==> x == Catch(releaseAnswer)
    ensures var x := RunSpec(s, before, acquireAnswer, work, releaseAnswer).exit;
            Granted(acquireAnswer) && releaseAnswer.None? ==> x == Catch(work.thrown)
    ensures var x := RunSpec(s, before, acquireAnswer, work, releaseAnswer).exit;
            x == Rethrown <==>
              acquireAnswer == Failure(LockReleaseFailed) ||
              (Granted(acquireAnswer) &&
               (releaseAnswer == Some(LockReleaseFailed) ||
                (releaseAnswer.None? && work.thrown == Some(LockReleaseFailed))))
  {
  }

  /** The end-to-end case: key "job-A", a 9 s lease, one holder, a granted
      token, a work unit whose one signal the throttle does not forward and
      which returns: one acquire, no refresh, one release, no exception. */
  lemma EndToEndJobA(runner: RunnerRef, token: Token)
    ensures var s := RunnerSettings(runner, "job-A", 9, 1, ThrottleFrequencyMs(9));
            var r := RunSpec(s, [], Success(Some(token)), WorkUnit(0, None), None);
            r.events == [Acquire("job-A", 9, 1), RunnerInvoked(runner), Release("job-A", token)] &&
            r.exit == Returned
  {
  }
}
