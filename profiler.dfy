/** The profiler's entry point: it fixes the session's start instant, wraps
    objects whose interface has a profiled method, and writes the report. */
module Profiler {
  import opened Platform
  import opened State
  import opened Interceptor

  /** The message of the exception `wrap` throws for an interface without a
      profiled method. */
  const NoProfiledMethod := "doesn't contain profiled method"

  /** The report header's lead-in, before the formatted start instant. */
  const RunAt := "Run at "

  /** Whether some method in `methods` is profiled. */
  ghost predicate AnyProfiled(methods: seq<Method>)
  {
    exists i :: 0 <= i < |methods| && IsMethodProfiled(methods[i])
  }

  /** `wrap` and the interceptor use one notion of "profiled": an interface is
      accepted exactly when the interceptor would time some declared method. */
  lemma GateMatchesTiming(ticks: nat -> int, runtimeClass: string, methods: seq<Method>, outcome: Outcome, s: Snapshot)
    ensures AnyProfiled(methods)
      <==> exists i :: 0 <= i < |methods| && |Intercept(ticks, runtimeClass, methods[i], outcome, s).0.log| == |s.log| + 1
  {
  }

  /** The wrapper a successful `wrap` returns: a proxy implementing `iface`
      whose calls all go to `handler`. */
  datatype Proxy = Proxy(iface: ClassType, handler: ProfilingMethodInterceptor)

  class ProfilerImpl {
    const clock: Clock
    const state: ProfilingState
    /** The instant the session began: read from the clock once, at construction. */
    const startTime: int
    /** The RFC 1123 date-time format of the header (section 5.2.14 of RFC 1123,
        which amends section 5 of RFC 822). */
    const formatRfc1123: int -> string
    /** The platform line separator. */
    const lineSeparator: string

    constructor (clock: Clock, formatRfc1123: int -> string, lineSeparator: string, renderState: seq<Entry> -> string)
      modifies clock
      ensures this.clock == clock && this.formatRfc1123 == formatRfc1123 && this.lineSeparator == lineSeparator
      ensures startTime == clock.ticks(old(clock.consumed))
      ensures clock.consumed == old(clock.consumed) + 1
      ensures fresh(state) && state.log == [] && state.render == renderState
    {
      this.clock := clock;
      this.formatRfc1123 := formatRfc1123;
      this.lineSeparator := lineSeparator;
      state := new ProfilingState(renderState);
      var now := clock.Instant();
      startTime := now;
    }

    /** The constructor as the source has it: a null clock is rejected with a
        NullPointerException before the clock is read. */
    static method Create(clock: Clock?, formatRfc1123: int -> string, lineSeparator: string, renderState: seq<Entry> -> string)
      returns (r: Result<ProfilerImpl, Throwable>)
      modifies clock
      ensures clock == null <==> r.Failure?
      ensures r.Failure? ==> r.error == NullPointerException
      ensures r.Success? ==>
        fresh(r.value) && r.value.clock == clock
        && r.value.startTime == clock.ticks(old(clock.consumed)) && clock.consumed == old(clock.consumed) + 1
        && fresh(r.value.state) && r.value.state.log == [] && r.value.state.render == renderState
        && r.value.formatRfc1123 == formatRfc1123 && r.value.lineSeparator == lineSeparator
    {
      if clock == null {
        return Failure(NullPointerException);
      }
      var profiler := new ProfilerImpl(clock, formatRfc1123, lineSeparator, renderState);
      return Success(profiler);
    }

    /** Wraps `delegate` in a proxy for the interface `klass`. A null `klass`
        fails first; then an interface without a profiled method is rejected
        before any handler is built; then the handler rejects a null delegate.
        The shared state and the clock are left as they were. */
    method Wrap(klass: Option<ClassType>, delegate: Delegate?) returns (r: Result<Proxy, Throwable>)
      ensures klass.None? ==> r == Failure(NullPointerException)
      ensures klass.Some? && !AnyProfiled(klass.value.declaredMethods) ==> r == Failure(IllegalArgumentException(NoProfiledMethod))
      ensures klass.Some? && AnyProfiled(klass.value.declaredMethods) && delegate == null ==> r == Failure(NullPointerException)
      ensures r.Success? <==> klass.Some? && AnyProfiled(klass.value.declaredMethods) && delegate != null
      ensures r.Success? ==>
        fresh(r.value.handler) && r.value.iface == klass.value && r.value.handler.delegate == delegate
        && r.value.handler.clock == clock && r.value.handler.profilingState == state
      ensures unchanged(state, clock)
    {
      if klass.None? {
        return Failure(NullPointerException);
      }
      var profiled := IsProfiled(klass.value);
      if !profiled {
        return Failure(IllegalArgumentException(NoProfiledMethod));
      }
      var handler := ProfilingMethodInterceptor.Create(clock, delegate, state);
      if handler.Failure? {
        return Failure(handler.error);
      }
      return Success(Proxy(klass.value, handler.value));
    }

    /** Whether some declared method of `klass` is profiled: a scan that stops
        at the first profiled method. */
    static method IsProfiled(klass: ClassType) returns (b: bool)
      ensures b <==> AnyProfiled(klass.declaredMethods)
      ensures klass.declaredMethods == [] ==> !b
    {
      var methods := klass.declaredMethods;
      if |methods| == 0 {
        return false;
      }
      for i := 0 to |methods|
        invariant forall j :: 0 <= j < i ==> !IsMethodProfiled(methods[j])
      {
        if IsMethodProfiled(methods[i]) {
          return true;
        }
      }
      return false;
    }

    /** Appends one report block to `writer`: the header line with the start
        instant, the state's own report, then a closing line separator. */
    method WriteData(writer: Writer)
      modifies writer
      ensures writer.written
        == old(writer.written) + RunAt + formatRfc1123(startTime) + lineSeparator + state.render(state.log) + lineSeparator
    {
      writer.Write(RunAt + formatRfc1123(startTime));
      writer.Write(lineSeparator);
      state.Write(writer);
      writer.Write(lineSeparator);
    }
  }
}
