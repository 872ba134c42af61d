/** Clients of the profiler: what a caller can conclude from the contracts
    alone, for a session that wraps a page parser and times its calls. */
module Scenario {
  import opened Platform
  import opened State
  import opened Interceptor
  import opened Profiler

  const Fetch := Method("Parser", "fetch", [], true)
  const Close := Method("Parser", "close", [], false)

  /** An interface whose only method is unprofiled is refused. */
  method RefuseUnprofiledInterface(profiler: ProfilerImpl, delegate: Delegate)
  {
    var refused := profiler.Wrap(Some(ClassType("Closer", [Close])), delegate);
    assert refused == Failure(IllegalArgumentException(NoProfiledMethod));
  }

  /** A profiled call is logged once with its elapsed time and its result is
      returned; an unprofiled call rethrows the delegate's exception and logs
      nothing. */
  method TimeOneFetch(t0: int, elapsed: int, format: int -> string, sep: string, render: seq<Entry> -> string)
  {
    // the clock reads t0 at construction, then t0 + 10 and t0 + 10 + elapsed around the call
    var clock := new Clock((n: nat) => if n == 0 then t0 else if n == 1 then t0 + 10 else t0 + 10 + elapsed);
    var profiler := new ProfilerImpl(clock, format, sep, render);
    assert profiler.startTime == t0;

    var delegate := new Delegate("PageParser", (m: Method, args: seq<Value>) => if m.profiled then Ok(Ref(7)) else Threw(Thrown("IOException", "closed")));
    var wrapped := profiler.Wrap(Some(ClassType("Parser", [Close, Fetch])), delegate);
    assert AnyProfiled([Close, Fetch]) by { assert IsMethodProfiled([Close, Fetch][1]); }
    var handler := wrapped.value.handler;

    var got := handler.Invoke(Null, Fetch, []);
    assert got == Returned(Ref(7));
    assert profiler.state.log == [Entry(MethodKey("PageParser", Fetch), elapsed)];

    var failed := handler.Invoke(Null, Close, []);
    assert failed == Raised(Thrown("IOException", "closed"));
    assert profiler.state.log == [Entry(MethodKey("PageParser", Fetch), elapsed)];
  }

  /** The calls a handler makes when `ms` are invoked on it in turn. */
  function CallsOf(h: ProfilingMethodInterceptor, ms: seq<Method>, args: seq<Value>): seq<Call>
  {
    seq(|ms|, i requires 0 <= i < |ms| => Call(h.delegate.runtimeClass, ms[i], h.delegate.respond(ms[i], args)))
  }

  /** Invoking the methods `ms` one after another on one handler leaves the
      clock and the log exactly as `Run` says, so the lemmas about `Run` hold
      of the handler itself. */
  method InvokeSeries(h: ProfilingMethodInterceptor, ms: seq<Method>, args: seq<Value>)
    modifies h.clock, h.profilingState
    ensures Snapshot(h.clock.consumed, h.profilingState.log)
      == Run(h.clock.ticks, CallsOf(h, ms, args), Snapshot(old(h.clock.consumed), old(h.profilingState.log)))
  {
    ghost var calls := CallsOf(h, ms, args);
    ghost var s0 := Snapshot(h.clock.consumed, h.profilingState.log);
    for k := 0 to |ms|
      invariant Run(h.clock.ticks, calls, s0) == Run(h.clock.ticks, calls[k..], Snapshot(h.clock.consumed, h.profilingState.log))
    {
      ghost var before := Snapshot(h.clock.consumed, h.profilingState.log);
      var _ := h.Invoke(Null, ms[k], args);
      assert calls[k..][0] == calls[k] && calls[k..][1..] == calls[k + 1..];
      assert Run(h.clock.ticks, calls[k..], before) == Run(h.clock.ticks, calls[k + 1..], Snapshot(h.clock.consumed, h.profilingState.log));
    }
    assert calls[|ms|..] == [];
  }

  /** Two reports append two identical blocks, each starting with the header. */
  method ReportTwice(profiler: ProfilerImpl)
  {
    var out := new Writer("");
    profiler.WriteData(out);
    var first := out.written;
    assert first[..|RunAt|] == RunAt;
    profiler.WriteData(out);
    assert out.written == first + first;
  }
}
