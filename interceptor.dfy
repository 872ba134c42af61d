/** The invocation handler behind every wrapper: it forwards each call to the
    wrapped object and, for methods marked as profiled, times the call with
    the shared clock and reports the duration to the shared state. */
module Interceptor {
  import opened Platform
  import opened State

  /** What the wrapper's caller sees: a returned value or a thrown exception. */
  datatype Completion = Returned(value: Value) | Raised(error: Throwable)

  /** The part of the shared world one interception changes: how many clock
      readings have been taken, and the state's log. */
  datatype Snapshot = Snapshot(consumed: nat, log: seq<Entry>)

  /** Whether calls of `m` are measured (the @Profiled annotation). */
  predicate IsMethodProfiled(m: Method)
  {
    m.profiled
  }

  /** One interception, as a function of the clock's readings, the wrapped
      object's runtime class, the invoked method, what the reflective call
      yields, and the shared world before the call. */
  function Intercept(ticks: nat -> int, runtimeClass: string, m: Method, outcome: Outcome, s: Snapshot): (r: (Snapshot, Completion))
    // the clock is read twice for a profiled method and never otherwise
    ensures r.0.consumed == s.consumed + (if IsMethodProfiled(m) then 2 else 0)
    // exactly one entry is appended for a profiled method, none otherwise, whatever the outcome
    ensures |r.0.log| == |s.log| + (if IsMethodProfiled(m) then 1 else 0)
    ensures r.0.log[..|s.log|] == s.log
    // the entry is keyed by the wrapped object's class and times the call from the first reading to the second
    ensures IsMethodProfiled(m) ==>
      r.0.log[|s.log|] == Entry(MethodKey(runtimeClass, m), ticks(s.consumed + 1) - ticks(s.consumed))
    // a result is returned unchanged, the method's own exception is rethrown unchanged,
    // and an access failure surfaces as a RuntimeException around it
    ensures r.1.Returned? <==> outcome.Ok?
    ensures outcome.Ok? ==> r.1.value == outcome.value
    ensures outcome.Threw? ==> r.1.error == outcome.target
    ensures outcome.AccessFailure? ==> r.1.error == RuntimeException(IllegalAccessException(outcome.message))
  {
    var completion :=
      match outcome
      case Ok(v) => Returned(v)
      case Threw(e) => Raised(e)
      case AccessFailure(msg) => Raised(RuntimeException(IllegalAccessException(msg)));
    if IsMethodProfiled(m) then
      var start := ticks(s.consumed);
      var end := ticks(s.consumed + 1);
      (Snapshot(s.consumed + 2, s.log + [Entry(MethodKey(runtimeClass, m), end - start)]), completion)
    else
      (s, completion)
  }

  class ProfilingMethodInterceptor {
    const clock: Clock
    const delegate: Delegate
    const profilingState: ProfilingState

    constructor (clock: Clock, delegate: Delegate, profilingState: ProfilingState)
      ensures this.clock == clock && this.delegate == delegate && this.profilingState == profilingState
    {
      this.clock := clock;
      this.delegate := delegate;
      this.profilingState := profilingState;
    }

    /** The constructor as the source has it: every argument may be null,
        and a null one is rejected with a NullPointerException. */
    static method Create(clock: Clock?, delegate: Delegate?, profilingState: ProfilingState?)
      returns (r: Result<ProfilingMethodInterceptor, Throwable>)
      ensures r.Failure? <==> clock == null || delegate == null || profilingState == null
      ensures r.Failure? ==> r.error == NullPointerException
      ensures r.Success? ==>
        fresh(r.value) && r.value.clock == clock && r.value.delegate == delegate && r.value.profilingState == profilingState
    {
      if clock == null || delegate == null || profilingState == null {
        return Failure(NullPointerException);
      }
      var handler := new ProfilingMethodInterceptor(clock, delegate, profilingState);
      return Success(handler);
    }

    /** Handles a call of `m` with `args` made on the wrapper `proxy`. */
    method Invoke(proxy: Value, m: Method, args: seq<Value>) returns (c: Completion)
      modifies clock, profilingState
      ensures (Snapshot(clock.consumed, profilingState.log), c)
        == Intercept(clock.ticks, delegate.runtimeClass, m, delegate.respond(m, args),
                     Snapshot(old(clock.consumed), old(profilingState.log)))
      ensures !IsMethodProfiled(m) ==> clock.consumed == old(clock.consumed) && profilingState.log == old(profilingState.log)
    {
      var startTime: Option<int> := None;
      var isProfiled := IsMethodProfiled(m);
      if isProfiled {
        var now := clock.Instant();
        startTime := Some(now);
      }
      // the reflective call, its two catch clauses, then the finally block
      var outcome := delegate.respond(m, args);
      var results: Value := Null;
      var thrown: Option<Throwable> := None;
      match outcome {
        case Ok(v) => results := v;
        case Threw(target) => thrown := Some(target);
        case AccessFailure(msg) => thrown := Some(RuntimeException(IllegalAccessException(msg)));
      }
      if isProfiled {
        var end := clock.Instant();
        profilingState.Record(delegate.runtimeClass, m, end - startTime.value);
      }
      c := if thrown.Some? then Raised(thrown.value) else Returned(results);
    }
  }

  /** A call made on some wrapper of one profiler: the wrapped object's
      runtime class, the invoked method and what the reflective call yields. */
  datatype Call = Call(runtimeClass: string, m: Method, outcome: Outcome)

  /** The shared world after a series of calls through wrappers that share
      one clock and one state. */
  function Run(ticks: nat -> int, calls: seq<Call>, s: Snapshot): Snapshot
    decreases |calls|
  {
    if calls == [] then s
    else Run(ticks, calls[1..], Intercept(ticks, calls[0].runtimeClass, calls[0].m, calls[0].outcome, s).0)
  }

  /** The keys of the profiled calls among `calls`, in call order. */
  function ProfiledKeys(calls: seq<Call>): seq<MethodKey>
    decreases |calls|
  {
    if calls == [] then []
    else
      var head := if IsMethodProfiled(calls[0].m) then [MethodKey(calls[0].runtimeClass, calls[0].m)] else [];
      head + ProfiledKeys(calls[1..])
  }

  function KeysOf(log: seq<Entry>): seq<MethodKey>
  {
    seq(|log|, i requires 0 <= i < |log| => log[i].key)
  }

  /** Whatever the outcome of the reflective call, the same entry is logged
      and the clock is read the same number of times. */
  lemma BookkeepingIgnoresOutcome(ticks: nat -> int, runtimeClass: string, m: Method, o1: Outcome, o2: Outcome, s: Snapshot)
    ensures Intercept(ticks, runtimeClass, m, o1, s).0 == Intercept(ticks, runtimeClass, m, o2, s).0
  {
  }

  /** A series of calls only appends to the log: exactly one entry per
      profiled call, with that call's key, in call order; and it takes two
      clock readings per profiled call. */
  lemma {:induction false} RunAppendsProfiledKeys(ticks: nat -> int, calls: seq<Call>, s: Snapshot)
    ensures |s.log| <= |Run(ticks, calls, s).log|
    ensures Run(ticks, calls, s).log[..|s.log|] == s.log
    ensures KeysOf(Run(ticks, calls, s).log[|s.log|..]) == ProfiledKeys(calls)
    ensures Run(ticks, calls, s).consumed == s.consumed + 2 * |ProfiledKeys(calls)|
    decreases |calls|
  {
    if calls == [] {
      assert Run(ticks, calls, s) == s;
    } else {
      var c := calls[0];
      var s1 := Intercept(ticks, c.runtimeClass, c.m, c.outcome, s).0;
      RunAppendsProfiledKeys(ticks, calls[1..], s1);
      var t := Run(ticks, calls, s);
      assert t == Run(ticks, calls[1..], s1);
      var added := s1.log[|s.log|..];
      assert s1.log == s.log + added;
      assert t.log[|s.log|..] == added + t.log[|s1.log|..];
      assert KeysOf(added) == (if IsMethodProfiled(c.m) then [MethodKey(c.runtimeClass, c.m)] else []);
      KeysOfAppend(added, t.log[|s1.log|..]);
    }
  }

  lemma KeysOfAppend(a: seq<Entry>, b: seq<Entry>)
    ensures KeysOf(a + b) == KeysOf(a) + KeysOf(b)
  {
  }

  /** The j-th entry a series of calls appends measures the j-th pair of
      clock readings taken by that series. */
  lemma {:induction false} RunDurations(ticks: nat -> int, calls: seq<Call>, s: Snapshot, j: nat)
    requires |s.log| + j < |Run(ticks, calls, s).log|
    ensures Run(ticks, calls, s).log[|s.log| + j].duration == ticks(s.consumed + 2 * j + 1) - ticks(s.consumed + 2 * j)
    decreases |calls|
  {
    RunAppendsProfiledKeys(ticks, calls, s);
    if calls == [] {
      assert false;
    } else {
      var c := calls[0];
      var s1 := Intercept(ticks, c.runtimeClass, c.m, c.outcome, s).0;
      var t := Run(ticks, calls, s);
      assert t == Run(ticks, calls[1..], s1);
      RunAppendsProfiledKeys(ticks, calls[1..], s1);
      if !IsMethodProfiled(c.m) {
        RunDurations(ticks, calls[1..], s1, j);
      } else if j == 0 {
        assert t.log[|s.log|] == s1.log[|s.log|];
      } else {
        assert |s1.log| + (j - 1) == |s.log| + j;
        RunDurations(ticks, calls[1..], s1, j - 1);
      }
    }
  }

  lemma {:induction false} ProfiledKeysAreProfiled(calls: seq<Call>, k: MethodKey)
    requires k in ProfiledKeys(calls)
    ensures IsMethodProfiled(k.invoked) && exists i :: 0 <= i < |calls| && calls[i].runtimeClass == k.runtimeClass && calls[i].m == k.invoked
    decreases |calls|
  {
    if calls != [] {
      var head := if IsMethodProfiled(calls[0].m) then [MethodKey(calls[0].runtimeClass, calls[0].m)] else [];
      assert ProfiledKeys(calls) == head + ProfiledKeys(calls[1..]);
      if k !in head {
        ProfiledKeysAreProfiled(calls[1..], k);
        var i :| 0 <= i < |calls[1..]| && calls[1..][i].runtimeClass == k.runtimeClass && calls[1..][i].m == k.invoked;
        assert calls[i + 1] == calls[1..][i];
      }
    }
  }

  /** A method that is not profiled never shows up in the log, however often
      it is called; and every key logged belongs to one of the calls made. */
  lemma UnprofiledNeverLogged(ticks: nat -> int, calls: seq<Call>, s: Snapshot, k: MethodKey)
    requires |s.log| <= |Run(ticks, calls, s).log|
    requires k in KeysOf(Run(ticks, calls, s).log[|s.log|..])
    ensures IsMethodProfiled(k.invoked)
    ensures exists i :: 0 <= i < |calls| && calls[i].runtimeClass == k.runtimeClass && calls[i].m == k.invoked
  {
    RunAppendsProfiledKeys(ticks, calls, s);
    ProfiledKeysAreProfiled(calls, k);
  }

  /** With a clock that never goes backwards, no logged duration is negative. */
  lemma MonotoneClockNonNegative(ticks: nat -> int, calls: seq<Call>, s: Snapshot, j: nat)
    requires forall a: nat, b: nat :: a <= b ==> ticks(a) <= ticks(b)
    requires |s.log| + j < |Run(ticks, calls, s).log|
    ensures Run(ticks, calls, s).log[|s.log| + j].duration >= 0
  {
    RunDurations(ticks, calls, s, j);
  }

  /** N profiled calls under a clock that advances by d between readings add
      N * d to the total logged for their key. */
  lemma {:induction false} SteadyClockTotal(ticks: nat -> int, t0: int, d: int, calls: seq<Call>, k: MethodKey, s: Snapshot)
    requires forall n: nat :: ticks(n) == t0 + n * d
    requires IsMethodProfiled(k.invoked)
    requires forall i :: 0 <= i < |calls| ==> calls[i].runtimeClass == k.runtimeClass && calls[i].m == k.invoked
    ensures Total(Run(ticks, calls, s).log, k) == Total(s.log, k) + |calls| * d
    decreases |calls|
  {
    if calls == [] {
      assert Run(ticks, calls, s) == s;
    } else {
      var c := calls[0];
      var s1 := Intercept(ticks, c.runtimeClass, c.m, c.outcome, s).0;
      assert Run(ticks, calls, s) == Run(ticks, calls[1..], s1);
      var n := s.consumed;
      assert ticks(n + 1) - ticks(n) == d by {
        assert ticks(n + 1) == t0 + (n + 1) * d;
        assert ticks(n) == t0 + n * d;
        assert (n + 1) * d == n * d + d;
      }
      assert s1.log == s.log + [Entry(k, d)];
      assert s1.log[..|s1.log| - 1] == s.log;
      assert Total(s1.log, k) == Total(s.log, k) + d;
      SteadyClockTotal(ticks, t0, d, calls[1..], k, s1);
      assert (|calls| - 1) * d + d == |calls| * d;
    }
  }
}
