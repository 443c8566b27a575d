# Semaphore-gated runner

A model of the semaphore-gated runner of `worker-utilities`. A runner is
built from a mutable configuration record. The runner rejects a bad
configuration and derives a lease-renewal throttle interval from the lock
timeout. It then runs one cycle against an external counting semaphore:

1. It acquires a lock.
2. It registers a progress listener that refreshes the lock.
3. If it got a token, it runs the work unit under the lock.
4. It releases the lock in a `finally` block.

Around all of this, a `LockReleaseFailedException` is rethrown and any other
throwable is logged and swallowed.

Files:

- `wrappers.dfy`: `Option` (a Java reference that may be null) and `Result` (a call that may throw).
- `java_numerics.dfy`: Java `long` and `int` as subset types. Also `long` wrap-around and Java's truncating division.
- `configuration.dfy`: the `Configuration` class. It has the five fields, the three constructors, and the four getter/setter pairs.
- `gated_runner.dfy`: the validation chain and the throttle interval. `Admit` is what construction yields. `RunSpec` is the specification of one run. Two classes carry the state: `ThrottlingProgressCallback` holds the listener list and `GatedRunner` holds the final fields and a ghost call trace. `GatedRunner.Run` is proved against `RunSpec`, and `Create` is construction from a possibly null configuration.
- `gated_runner_properties.dfy`: lemmas about validation, the throttle interval and the calls and exit of a run.

The collaborators are parameters of `Run`:

- what the semaphore's acquire returns or throws (`Result<Option<Token>, Throwable>`);
- what the work unit does (how many of its progress signals the throttle forwards, and what it throws);
- what the release throws.

Every semaphore call, and the start of the work unit, is appended to a
ghost trace of `Event`s.

Two quirks of the code are kept:

- The refresh listener is registered before the null-token check. A declined acquire still adds a listener with a null token.
- The progress callback is an instance field, so listeners pile up if an instance is run twice. The class documentation asks for a new instance each time. `ReusedRunnerRefreshesStaleListeners` shows what reuse would do: the later run's forwarded signals also refresh the earlier tokens, null included.

The configuration's `progressCallack` field is stored but never read by the
runner. The runner builds its own throttling callback.

The throttle interval is computed exactly as the Java does. The product
`lockTimeoutSec * 1000` wraps as a `long`, and the division by three
truncates toward zero. The interval is computed before validation, so it is
also defined for rejected timeouts.

Three facts about the code that the model keeps:

- The configuration is a mutable bean: its setters overwrite fields in place (SemaphoreGatedRunnerConfiguration.java:95-158).
- The configuration's Javadoc says progress events are forwarded to the optional progress callback (SemaphoreGatedRunnerConfiguration.java:64-66), but the runner never reads that field (SemaphoreGatedRunnerImpl.java:47-54).
- On a fresh instance no refresh happens without a token. On a reused instance, a listener registered with a null token by an earlier declined run does refresh.

## Model

| member | source | states |
|---|---|---|
| GatedRunnerConfiguration.Configuration.constructor | src/main/java/org/sagebionetworks/workers/util/semaphore/SemaphoreGatedRunnerConfiguration.java:14-22 | The no-argument constructor leaves runner, progress callback and lock key null, and both numbers at -1. |
| GatedRunnerConfiguration.Configuration.Of | src/main/java/org/sagebionetworks/workers/util/semaphore/SemaphoreGatedRunnerConfiguration.java:42-45 | The four-argument constructor gives the same state as the five-argument one with a null progress callback. |
| GatedRunnerConfiguration.Configuration.WithCallback | src/main/java/org/sagebionetworks/workers/util/semaphore/SemaphoreGatedRunnerConfiguration.java:68-77 | Each argument is stored unchanged in its field, with no validation: nulls and negative numbers are kept. |
| GatedRunnerConfiguration.Configuration.SetRunner | src/main/java/org/sagebionetworks/workers/util/semaphore/SemaphoreGatedRunnerConfiguration.java:85-97 | After the setter, the getter returns the value set and no other field has changed. |
| GatedRunnerConfiguration.Configuration.SetLockKey | src/main/java/org/sagebionetworks/workers/util/semaphore/SemaphoreGatedRunnerConfiguration.java:104-115 | After the setter, the getter returns the value set and no other field has changed. |
| GatedRunnerConfiguration.Configuration.SetLockTimeoutSec | src/main/java/org/sagebionetworks/workers/util/semaphore/SemaphoreGatedRunnerConfiguration.java:124-137 | After the setter, the getter returns the value set and no other field has changed. |
| GatedRunnerConfiguration.Configuration.SetMaxLockCount | src/main/java/org/sagebionetworks/workers/util/semaphore/SemaphoreGatedRunnerConfiguration.java:146-159 | After the setter, the getter returns the value set and no other field has changed. |
| SemaphoreGatedRunner.ValidateConfig | src/main/java/org/sagebionetworks/workers/util/semaphore/SemaphoreGatedRunnerImpl.java:99-114 | Accepts exactly when runner and key are present and timeout and count are at least 1. Otherwise it reports the first broken rule in the order null runner, null key, timeout < 1, count < 1. |
| SemaphoreGatedRunner.ThrottleFrequencyMs | src/main/java/org/sagebionetworks/workers/util/semaphore/SemaphoreGatedRunnerImpl.java:53 | When the product is non-negative and fits a `long`, the interval is the integer third of the lease in milliseconds: 3*ms <= t*1000 < 3*ms + 3. |
| SemaphoreGatedRunner.Admit | src/main/java/org/sagebionetworks/workers/util/semaphore/SemaphoreGatedRunnerImpl.java:42-56 | A null configuration fails with NullConfig. Otherwise construction fails exactly when a rule is broken, naming the first one. On success the final fields are the configuration's, runner and key are non-null, timeout and count are at least 1, and the interval is derived from the timeout. |
| SemaphoreGatedRunner.Create | src/main/java/org/sagebionetworks/workers/util/semaphore/SemaphoreGatedRunnerImpl.java:42-56 | Construction from a possibly null configuration matches `Admit`. A built runner is fresh, with an empty trace and a fresh progress callback that has no listeners and is built with the computed interval. |
| SemaphoreGatedRunner.FinallyFailure | src/main/java/org/sagebionetworks/workers/util/semaphore/SemaphoreGatedRunnerImpl.java:80-85 | try/finally: a failure of the release replaces the work unit's failure; otherwise the work unit's failure, if any, stands. |
| SemaphoreGatedRunner.Catch | src/main/java/org/sagebionetworks/workers/util/semaphore/SemaphoreGatedRunnerImpl.java:87-96 | No failure returns. A lock-release failure is rethrown. Any other throwable is logged and `run` returns. |
| SemaphoreGatedRunner.ThrottlingProgressCallback.constructor | src/main/java/org/sagebionetworks/workers/util/semaphore/SemaphoreGatedRunnerImpl.java:54 | The runner's own callback starts with the computed interval and no listeners. |
| SemaphoreGatedRunner.ThrottlingProgressCallback.AddProgressListener | src/main/java/org/sagebionetworks/workers/util/semaphore/SemaphoreGatedRunnerImpl.java:68-76 | Registering appends the listener to the callback's list. |
| SemaphoreGatedRunner.GatedRunner.constructor | src/main/java/org/sagebionetworks/workers/util/semaphore/SemaphoreGatedRunnerImpl.java:47-54 | Requires admitted settings (timeout and count at least 1, interval derived from the timeout) and copies them into the final fields; a fresh throttling callback with that interval is created. |
| SemaphoreGatedRunner.GatedRunner.AttemptToAcquireLock | src/main/java/org/sagebionetworks/workers/util/semaphore/SemaphoreGatedRunnerImpl.java:64-65 | One acquire call with the configured key, timeout and count is recorded. Its answer is returned as given. |
| SemaphoreGatedRunner.GatedRunner.ReleaseLock | src/main/java/org/sagebionetworks/workers/util/semaphore/SemaphoreGatedRunnerImpl.java:84 | One release call with the configured key and the token is recorded. |
| SemaphoreGatedRunner.GatedRunner.RunWork | src/main/java/org/sagebionetworks/workers/util/semaphore/SemaphoreGatedRunnerImpl.java:68-82 | The work unit starts. Each forwarded progress signal makes every registered listener refresh the lock it captured, in order. The work unit's failure is passed on. |
| SemaphoreGatedRunner.GatedRunner.Run | src/main/java/org/sagebionetworks/workers/util/semaphore/SemaphoreGatedRunnerImpl.java:60-97 | The calls appended to the trace, the listener list afterwards and the exit are exactly those of `RunSpec` for the instance's settings. |
| GatedRunnerProperties.DefaultConfigRejected | src/main/java/org/sagebionetworks/workers/util/semaphore/SemaphoreGatedRunnerConfiguration.java:14-22 | A default configuration breaks all four rules, and construction rejects it for its null runner. |
| GatedRunnerProperties.ZeroTimeoutOrCountRejected | src/main/java/org/sagebionetworks/workers/util/semaphore/SemaphoreGatedRunnerImpl.java:106-113 | Any configuration with a zero timeout or a zero count is rejected at construction, before any semaphore call can exist; with runner and key present, the error names the first of the two rules broken. |
| GatedRunnerProperties.ProgressCallbackIgnored | src/main/java/org/sagebionetworks/workers/util/semaphore/SemaphoreGatedRunnerImpl.java:47-54 | The configuration's progress callback has no effect on what construction yields. |
| GatedRunnerProperties.ThrottleExamples | src/main/java/org/sagebionetworks/workers/util/semaphore/SemaphoreGatedRunnerImpl.java:53 | 9 s give 3000 ms; 1 s gives 333 ms. |
| GatedRunnerProperties.ThrottleLeavesTwoRenewals | src/main/java/org/sagebionetworks/workers/util/semaphore/SemaphoreGatedRunnerImpl.java:53 | For admitted settings whose timeout product fits a `long`, the interval is at least 333 ms and fits strictly twice into the lease. |
| GatedRunnerProperties.ThrottleWrapsPastLongRange | src/main/java/org/sagebionetworks/workers/util/semaphore/SemaphoreGatedRunnerImpl.java:53 | One second past the `long` range, the product wraps and the interval is negative. |
| GatedRunnerProperties.RefreshesComeFromListeners | src/main/java/org/sagebionetworks/workers/util/semaphore/SemaphoreGatedRunnerImpl.java:68-76 | Forwarded signals make one refresh per signal and listener. Each refresh carries the key, token and timeout one listener captured. |
| GatedRunnerProperties.EveryListenerFires | src/main/java/org/sagebionetworks/workers/util/semaphore/SemaphoreGatedRunnerImpl.java:68-76 | Once a signal is forwarded, every registered listener has refreshed. |
| GatedRunnerProperties.AcquireFirstAndOnce | src/main/java/org/sagebionetworks/workers/util/semaphore/SemaphoreGatedRunnerImpl.java:64-65 | A run makes exactly one acquire call, with the configured key, timeout and count, and it comes first. |
| GatedRunnerProperties.DeclinedAcquireIsNoOp | src/main/java/org/sagebionetworks/workers/util/semaphore/SemaphoreGatedRunnerImpl.java:68-86 | Without a token, the acquire is the only call: no work unit, no refresh, no release. `run` returns, and a listener with a null token has still been registered. |
| GatedRunnerProperties.WorkAndReleaseIffGranted | src/main/java/org/sagebionetworks/workers/util/semaphore/SemaphoreGatedRunnerImpl.java:79-86 | The work unit starts, and a release is made, if and only if the acquire returned a token. |
| GatedRunnerProperties.ReleaseExactlyOnceAfterWork | src/main/java/org/sagebionetworks/workers/util/semaphore/SemaphoreGatedRunnerImpl.java:80-85 | With a token, the work unit starts right after the acquire. Release is the last call, made exactly once with the key and that token, whether the work unit returned or threw. |
| GatedRunnerProperties.RefreshesUseAcquiredToken | src/main/java/org/sagebionetworks/workers/util/semaphore/SemaphoreGatedRunnerImpl.java:68-76 | On a fresh instance, every call between the work start and the release is a refresh with the key, the acquired token and the timeout, one per forwarded signal. Without a token there is none. |
| GatedRunnerProperties.ReusedRunnerRefreshesStaleListeners | src/main/java/org/sagebionetworks/workers/util/semaphore/SemaphoreGatedRunnerImpl.java:12-19 | Running an instance again makes every listener left by earlier runs refresh too, with its old or null token. |
| GatedRunnerProperties.ExceptionClassification | src/main/java/org/sagebionetworks/workers/util/semaphore/SemaphoreGatedRunnerImpl.java:60-97 | A lock-release failure raised anywhere in the guarded block is rethrown. If the release fails, that failure wins over the work unit's. Anything logged is never a lock-release failure. |
| GatedRunnerProperties.EndToEndJobA | src/main/java/org/sagebionetworks/workers/util/semaphore/SemaphoreGatedRunnerImpl.java:60-97 | Key "job-A", 9 s, one holder, a granted token and a work unit that returns with nothing forwarded: acquire, work, release, and `run` returns. |

## Left out

- The counting semaphore's implementation (a database-backed, cross-process store) is outside this model. Bounded concurrency across processes is its property. Its answers to acquire and release are parameters, and its calls are recorded in a ghost trace.
- The `semaphore` field is not modelled as an object. The constructor does not check it for null. A null semaphore would fail at the acquire call, which the model expresses as an acquire that throws an `Other` failure.
- The clock-based forwarding of the throttling callback is a library class not shown. How many progress signals it forwards is an input of `Run`; only its interval and its listener list are modelled.
- SemaphoreGatedRunner.GatedRunner.RunWork: rests on three assumptions about the throttling callback, a library class that is not part of this model. Each forwarded signal notifies every registered listener, in registration order; `EveryListenerFires` and `ReusedRunnerRefreshesStaleListeners` depend on this. The callback's constructor never throws, including for the negative interval of a rejected configuration (for a default configuration, -333 ms), so `Create` and `Admit` report only the validation failures. A refresh that throws is folded whole into the work unit's thrown value, so a broadcast cut short after some listeners, on a reused instance, cannot be expressed. The work unit is handed the callback and could register listeners of its own; the model assumes it leaves the listener list alone, which `Run`'s statement about the listener list afterwards depends on.
- `addProgressListener` is modelled as a list append that does not throw.
- Java generics and arbitrary throwables are reduced to the two kinds the runner tells apart: `LockReleaseFailed` and `Other`. Logging is the `Logged` exit, which carries the swallowed failure.
- The commented-out progress-callback accessors of the configuration are not modelled. Neither is any forwarding to the configuration's progress callback, since the runner never does it.
- A Java constructor that throws yields no object. `Create` therefore allocates the runner only after the checks pass. The throttle interval is computed before validation, as in the code.
- Concurrency between runner instances is the semaphore's business; a run itself is sequential.
