/**
 * Exceptions as values. A thrown exception is a `Fault`: the class it was
 * created from and its message. The retry policy classifies faults with
 * Java's `Class.isInstance`, which this module models over a fixed class
 * hierarchy: the JDK and JAX-RS classes the library and its callers throw.
 */
module Faults {
  import opened Wrappers

  datatype ExceptionClass =
    | Throwable
    | Error
    | VirtualMachineError
    | UnknownError
    | Exception
    | RuntimeException
    | IllegalArgumentException
    | ClientAvailabilityException
    | ProcessingException
    | WebApplicationException
    | ClientErrorException
    | BadRequestException
    | NotFoundException
    | ServerErrorException
    | InternalServerErrorException
    | ServiceUnavailableException
    | IOException

  /** The direct superclass; `Throwable` is the root. */
  function Parent(c: ExceptionClass): Option<ExceptionClass>
  {
    match c
    case Throwable => None
    case Error => Some(Throwable)
    case VirtualMachineError => Some(Error)
    case UnknownError => Some(VirtualMachineError)
    case Exception => Some(Throwable)
    case RuntimeException => Some(Exception)
    case IllegalArgumentException => Some(RuntimeException)
    case ClientAvailabilityException => Some(RuntimeException)
    case ProcessingException => Some(RuntimeException)
    case WebApplicationException => Some(RuntimeException)
    case ClientErrorException => Some(WebApplicationException)
    case BadRequestException => Some(ClientErrorException)
    case NotFoundException => Some(ClientErrorException)
    case ServerErrorException => Some(WebApplicationException)
    case InternalServerErrorException => Some(ServerErrorException)
    case ServiceUnavailableException => Some(ServerErrorException)
    case IOException => Some(Exception)
  }

  /** Number of superclasses above `c`; it decreases along `Parent`. */
  function Depth(c: ExceptionClass): nat
  {
    match c
    case Throwable => 0
    case Error => 1
    case Exception => 1
    case VirtualMachineError => 2
    case UnknownError => 3
    case RuntimeException => 2
    case IOException => 2
    case IllegalArgumentException => 3
    case ClientAvailabilityException => 3
    case ProcessingException => 3
    case WebApplicationException => 3
    case ClientErrorException => 4
    case ServerErrorException => 4
    case BadRequestException => 5
    case NotFoundException => 5
    case InternalServerErrorException => 5
    case ServiceUnavailableException => 5
  }

  /** `c` and all of its superclasses. */
  function Supers(c: ExceptionClass): (s: set<ExceptionClass>)
    decreases Depth(c)
    ensures c in s && Throwable in s
  {
    match Parent(c)
    case None => {c}
    case Some(p) => {c} + Supers(p)
  }

  /** `kind.isInstance(e)` for an exception `e` created from class `c`. */
  predicate IsInstance(kind: ExceptionClass, c: ExceptionClass)
  {
    kind in Supers(c)
  }

  /** A thrown exception. */
  datatype Fault = Fault(cls: ExceptionClass, message: string)

  /** Some class of `kinds` matches the fault (`kinds.stream().anyMatch(k -> k.isInstance(t))`). */
  predicate MatchesAny(kinds: set<ExceptionClass>, fault: Fault)
  {
    exists k :: k in kinds && IsInstance(k, fault.cls)
  }

  /**
   * A fault the reactive runtime treats as fatal: it rethrows it at once
   * instead of passing it down the retry pipeline. Of the classes that
   * runtime treats so, only `VirtualMachineError` is in this hierarchy.
   */
  predicate Fatal(fault: Fault)
  {
    IsInstance(VirtualMachineError, fault.cls)
  }

  /** Matching is transitive along the hierarchy: a subclass of a subclass of `a` is an `a`. */
  lemma {:induction false} IsInstanceTransitive(a: ExceptionClass, b: ExceptionClass, c: ExceptionClass)
    requires IsInstance(a, b) && IsInstance(b, c)
    ensures IsInstance(a, c)
    decreases Depth(c)
  {
    if b != c {
      match Parent(c)
      case Some(p) =>
        assert b in Supers(p);
        IsInstanceTransitive(a, b, p);
    }
  }
}
