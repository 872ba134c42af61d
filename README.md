# Method-timing profiler: a Dafny model

This project models the decision and bookkeeping layer of the web crawler's
method profiler. `ProfilerImpl` fixes the start instant of a profiling session
when it is built. Its `wrap` wraps an object in a proxy, but only when the
proxy's interface declares at least one method marked `@Profiled`. Its
`writeData` appends a report block to a writer. Every proxy sends its calls to a
`ProfilingMethodInterceptor`. For a profiled method, the interceptor reads the
clock before and after forwarding the call. It reports the elapsed time to the
profiler's shared `ProfilingState`, keyed by the wrapped object's runtime class
and the method. It returns the result, or rethrows the exception, unchanged.

Modules, one file each:

- `Platform` (`platform.dfy`): stand-ins for the Java platform. These are
  exceptions, reflected methods and interfaces, and delegate call outcomes.
  The injected clock is an unbounded sequence of integer instants; reading it
  consumes one. There is also an append-only writer and the wrapped object.
  The wrapped object has a runtime class and a function that gives each call's
  outcome.
- `State` (`profiling_state.dfy`): the shared profiling state. It is kept as
  the log of every `(key, duration)` entry recorded. Its report text is an
  opaque function of that log.
- `Interceptor` (`interceptor.dfy`): the interceptor class and its `Invoke`.
  `Invoke` is proved equal to a pure specification, `Intercept`. `Run` chains
  `Intercept` over many calls that share one clock and one state. The lemmas
  about `Run` state what those calls do to the log and the clock.
- `Profiler` (`profiler.dfy`): `ProfilerImpl` with its construction, `Wrap`,
  the `IsProfiled` scan and `WriteData`.
- `Scenario` (`scenario.dfy`): client methods. They show what a caller can
  derive from the contracts alone: a refused wrap, one timed fetch, a series
  of invocations that matches `Run`, and two reports.

Two details of the program that the model keeps:

- The record key's class is the wrapped object's runtime class
  (`object.getClass()`), not the class that declares the invoked method
  (`method.getDeclaringClass()`).
- `writeData(Writer)` makes four separate `write` calls. A failure between
  them would leave a partial block. The model's writer never fails.

## Model

| member | source | states |
|---|---|---|
| `Interceptor.Intercept` | starter/webcrawler/src/main/java/com/udacity/webcrawler/profiler/ProfilingMethodInterceptor.java:28-50 | A profiled call takes exactly two clock readings and appends exactly one entry, whatever the outcome. The entry is keyed by (runtime class of the delegate, method), and its duration is the second reading minus the first. An unprofiled call reads nothing and appends nothing. Earlier entries are kept. A normal result is returned unchanged, and the delegate's own exception is rethrown unchanged. An access failure surfaces as a RuntimeException wrapping the IllegalAccessException. |
| `Profiler.GateMatchesTiming` | starter/webcrawler/src/main/java/com/udacity/webcrawler/profiler/ProfilerImpl.java:49-60 | `wrap`'s check (`AnyProfiled`, the flag that `isProfiled` scans) accepts an interface exactly when the interceptor's `isMethodProfiled` (ProfilingMethodInterceptor.java:51-53) would time some declared method, that is, when calling it would append an entry. So `wrap` and `invoke` use one notion of "profiled". |
| `Scenario.InvokeSeries` | starter/webcrawler/src/main/java/com/udacity/webcrawler/profiler/ProfilingMethodInterceptor.java:28-50 | Invoking several methods one after another on one handler leaves the clock count and the log exactly as `Run` says. So the `Run` lemmas below hold for the handler's own `Invoke`. |
| `Interceptor.ProfilingMethodInterceptor.Invoke` | starter/webcrawler/src/main/java/com/udacity/webcrawler/profiler/ProfilingMethodInterceptor.java:28-50 | The imperative handler (start reading, reflective call, catch clauses, finally block) leaves the clock count and the state's log exactly as `Intercept` says. It returns what `Intercept` returns. An unprofiled method leaves the clock and the log untouched. The proxy argument plays no part. |
| `Interceptor.ProfilingMethodInterceptor.Create` | starter/webcrawler/src/main/java/com/udacity/webcrawler/profiler/ProfilingMethodInterceptor.java:22-26 | Fails with a NullPointerException exactly when the clock, the delegate or the state is null. Otherwise it gives a fresh handler holding those three. |
| `Interceptor.BookkeepingIgnoresOutcome` | starter/webcrawler/src/main/java/com/udacity/webcrawler/profiler/ProfilingMethodInterceptor.java:37-48 | The finally block records the same entry and takes the same readings on every exit path: normal return, delegate exception or access failure. |
| `Interceptor.RunAppendsProfiledKeys` | starter/webcrawler/src/main/java/com/udacity/webcrawler/profiler/ProfilingMethodInterceptor.java:32-47 | For calls made one after another through wrappers that share a clock and a state, the log only grows. The new entries' keys are exactly the keys of the profiled calls, in call order, one per call. The clock is read twice per profiled call and at no other time. |
| `Interceptor.RunDurations` | starter/webcrawler/src/main/java/com/udacity/webcrawler/profiler/ProfilingMethodInterceptor.java:35-45 | For calls made one after another, the j-th new entry's duration is the difference between the (2j+1)-th and the (2j)-th clock readings taken by the series. |
| `Interceptor.ProfiledKeysAreProfiled` | starter/webcrawler/src/main/java/com/udacity/webcrawler/profiler/ProfilingMethodInterceptor.java:44-46 | Every key of a profiled call names a profiled method and comes from one of the calls. |
| `Interceptor.UnprofiledNeverLogged` | starter/webcrawler/src/main/java/com/udacity/webcrawler/profiler/ProfilingMethodInterceptor.java:44-46 | Every key that calls made one after another add to the log names a profiled method and comes from one of the calls. So an unprofiled method never appears, however often it is called. |
| `Interceptor.MonotoneClockNonNegative` | starter/webcrawler/src/main/java/com/udacity/webcrawler/profiler/ProfilingMethodInterceptor.java:45 | With a clock that never goes backwards, every logged duration is non-negative. |
| `Interceptor.SteadyClockTotal` | starter/webcrawler/src/main/java/com/udacity/webcrawler/profiler/ProfilingMethodInterceptor.java:44-47 | N calls of one profiled method, under a clock that advances by d per reading, add exactly N * d to the total logged for that key. No call is lost and none is counted twice. |
| `Profiler.ProfilerImpl.constructor` | starter/webcrawler/src/main/java/com/udacity/webcrawler/profiler/ProfilerImpl.java:24-32 | Reads the clock exactly once. The reading becomes `startTime`, a constant that nothing changes afterwards. The state is fresh and its log is empty. |
| `Profiler.ProfilerImpl.Create` | starter/webcrawler/src/main/java/com/udacity/webcrawler/profiler/ProfilerImpl.java:29-31 | A null clock fails with a NullPointerException. Otherwise the result is a fresh profiler whose start instant is the clock's next reading. It keeps the given formatter, line separator and state renderer, and its state's log is empty. |
| `Profiler.ProfilerImpl.Wrap` | starter/webcrawler/src/main/java/com/udacity/webcrawler/profiler/ProfilerImpl.java:34-47 | A null interface fails with a NullPointerException before validation. An interface without a profiled declared method fails with the IllegalArgumentException and builds no handler. A null delegate is then rejected by the handler. Success happens exactly when none of these apply. It gives a fresh handler holding this profiler's own clock and state, so every wrapper shares them. The state and the clock are unchanged. |
| `Profiler.ProfilerImpl.IsProfiled` | starter/webcrawler/src/main/java/com/udacity/webcrawler/profiler/ProfilerImpl.java:49-60 | The loop with early return answers true exactly when some declared method is profiled. It answers false for an interface that declares no methods. |
| `Profiler.ProfilerImpl.WriteData` | starter/webcrawler/src/main/java/com/udacity/webcrawler/profiler/ProfilerImpl.java:69-75 | Appends exactly "Run at " + the RFC 1123 form of `startTime`, then a line separator, then the state's report of its log, then a line separator. Earlier content is kept. The header depends only on the start instant. |

## Left out

- The reflection machinery is not modelled: `Proxy.newProxyInstance`, class loaders and `Method.invoke`. A proxy is the pair (interface, handler). The reflective call is the delegate's `respond` function, which returns a tagged outcome. A non-interface `klass` that `newProxyInstance` would reject is not modelled.
- Annotation lookup (`getAnnotation(Profiled.class)`) is an opaque boolean carried by each method.
- The delegate's own state is not modelled. Its response to a call is a fixed function of the method and the arguments.
- `writeData(Path)` is not modelled: opening the file with CREATE and APPEND, and try-with-resources. It is plumbing over library file I/O.
- IOExceptions from the writer are not modelled. The writer only appends.
- RFC 1123 formatting (section 5.2.14 of RFC 1123), `ZonedDateTime` and its time zone, `Clock`, `Duration` and `System.lineSeparator()` are not modelled concretely. Instants and durations are integers. The formatter, the separator and the state's report text are values given at construction.
- `ProfilingState` is not part of this model: its aggregation, its thread safety and its `write` format. It is kept as an append-only log. `Total` is an observation on that log and is used only in lemmas.
- Concurrent recording from several threads is not modelled. Calls in `Run` happen one after another.
- Profiler.ProfilerImpl.Wrap: "no interceptor or proxy is created" on rejection is stated only as a failure result with no state change. Dafny contracts cannot say that no object was allocated.
- Interceptor.RunAppendsProfiledKeys: a delegate never reads the shared clock and never calls back into a wrapper, so calls happen one after another. Nested profiled calls are not modelled. In those, the inner entry is recorded first.
- Interceptor.RunDurations: for the same reason, a nested profiled call's readings are not modelled. In the program, the outer call's duration spans the inner call's clock readings, and a delegate that reads the shared clock shifts the readings.
