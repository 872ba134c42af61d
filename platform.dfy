/** Stand-ins for the parts of the Java platform the profiler talks to:
    nullable results, exceptions, reflected methods and interfaces, the
    injected clock, the output writer, and the object being wrapped. */
module Platform {

  datatype Option<T> = None | Some(value: T)

  datatype Result<T, E> = Success(value: T) | Failure(error: E)

  /** A value a delegate method returns: Java's null or some object reference. */
  datatype Value = Null | Ref(id: nat)

  /** The exceptions that occur in the profiler, plus whatever a delegate throws. */
  datatype Throwable =
    | NullPointerException
    | IllegalArgumentException(message: string)
    | IllegalAccessException(message: string)
    | RuntimeException(cause: Throwable)
    | Thrown(className: string, message: string)

  /** A reflected method. Whether it carries the @Profiled annotation is an
      opaque flag supplied with the method. */
  datatype Method = Method(declaringClass: string, name: string, parameterTypes: seq<string>, profiled: bool)

  /** A reflected interface type: its name and its declared methods, in the
      order reflection lists them. */
  datatype ClassType = ClassType(name: string, declaredMethods: seq<Method>)

  /** What a reflective call of the delegate yields: the method's own result,
      the exception the method itself threw (reflection reports it wrapped in
      an InvocationTargetException), or an IllegalAccessException raised by
      reflection before the method ran. */
  datatype Outcome =
    | Ok(value: Value)
    | Threw(target: Throwable)
    | AccessFailure(message: string)

  /** The injected clock. Its readings are an unbounded sequence `ticks`;
      `consumed` counts how many readings have been consumed so far. */
  class Clock {
    const ticks: nat -> int
    var consumed: nat

    constructor (ticks: nat -> int)
      ensures this.ticks == ticks && consumed == 0
    {
      this.ticks := ticks;
      consumed := 0;
    }

    /** The current instant: the next reading of the sequence. */
    method Instant() returns (t: int)
      modifies this
      ensures t == ticks(old(consumed))
      ensures consumed == old(consumed) + 1
    {
      t := ticks(consumed);
      consumed := consumed + 1;
    }
  }

  /** A character sink that only appends. */
  class Writer {
    var written: string

    constructor (initial: string)
      ensures written == initial
    {
      written := initial;
    }

    method Write(s: string)
      modifies this
      ensures written == old(written) + s
    {
      written := written + s;
    }
  }

  /** The object being wrapped: its runtime class and how each of its
      methods responds when called reflectively with some arguments. */
  class Delegate {
    const runtimeClass: string
    const respond: (Method, seq<Value>) -> Outcome

    constructor (runtimeClass: string, respond: (Method, seq<Value>) -> Outcome)
      ensures this.runtimeClass == runtimeClass && this.respond == respond
    {
      this.runtimeClass := runtimeClass;
      this.respond := respond;
    }
  }
}
