/** The shared store the interceptors report to. Its aggregation and its
    report format are not modelled: it is kept as the log of every record it
    was given, and its report text is an opaque function of that log. */
module State {
  import opened Platform

  /** Identifies a measured call site: the runtime class of the wrapped
      object together with the invoked method. */
  datatype MethodKey = MethodKey(runtimeClass: string, invoked: Method)

  datatype Entry = Entry(key: MethodKey, duration: int)

  class ProfilingState {
    var log: seq<Entry>
    /** What `write` prints for a given log. */
    const render: seq<Entry> -> string

    constructor (render: seq<Entry> -> string)
      ensures log == [] && this.render == render
    {
      log := [];
      this.render := render;
    }

    /** Reports one measured invocation. */
    method Record(runtimeClass: string, invoked: Method, duration: int)
      modifies this
      ensures log == old(log) + [Entry(MethodKey(runtimeClass, invoked), duration)]
    {
      log := log + [Entry(MethodKey(runtimeClass, invoked), duration)];
    }

    /** Writes the report text of the current log. */
    method Write(writer: Writer)
      modifies writer
      ensures writer.written == old(writer.written) + render(log)
    {
      writer.Write(render(log));
    }
  }

  /** The sum of the durations logged under `key`: what an aggregating store
      would report for that key. An observation on the log, used in lemmas. */
  ghost function Total(log: seq<Entry>, key: MethodKey): int
  {
    if log == [] then 0
    else Total(log[..|log| - 1], key) + (if log[|log| - 1].key == key then log[|log| - 1].duration else 0)
  }
}
