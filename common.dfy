/** Shared value types: optional values, results, and the failures the
    visitor and the traverser raise (PHP exceptions become values). */
module Common {

  datatype Option<+T> = None | Some(value: T)

  datatype Result<+R, +E> = Success(value: R) | Failure(error: E)

  /** The outcome of an operation that returns nothing but may throw. */
  datatype Outcome<+E> = Pass | Fail(error: E)

  /** A scalar PHP value, as found in node attributes and visitor options. */
  datatype Scalar = Int(i: int) | Str(s: string)

  /** The PHP exception class an error is thrown as. */
  datatype ExceptionClass = DomainException | RuntimeException

  /** Every error of the modelled core. */
  datatype Failure =
    | AdtNotSet                               // AbstractVisitor::getAdt without setAdt
    | WrongInterface(visitorClass: string)    // a collecting visitor with no collector interface
    | LoaderNotSet                            // NodeTraverser::getVisitorLoader without a loader
    | VisitorNotLoaded(identifier: string)    // the loader answered false for an identifier

  function ExceptionOf(f: Failure): ExceptionClass
  {
    match f
    case AdtNotSet => DomainException
    case WrongInterface(_) => RuntimeException
    case LoaderNotSet => DomainException
    case VisitorNotLoaded(_) => RuntimeException
  }

  /** The exception message, where the visitor fixes it; the traverser's
      messages are not part of this model. */
  function Message(f: Failure): (m: Option<string>)
    ensures f.AdtNotSet? ==> m == Some("Adt has not been set")
    ensures f.WrongInterface? ==>
      m.Some? && |m.value| == 8 + |f.visitorClass| + 20 &&
      m.value[..8] == "Visitor " && m.value[8..8 + |f.visitorClass|] == f.visitorClass &&
      m.value[8 + |f.visitorClass|..] == " has wrong interface"
    ensures f.LoaderNotSet? || f.VisitorNotLoaded? ==> m.None?
  {
    match f
    case AdtNotSet => Some("Adt has not been set")
    case WrongInterface(c) => Some("Visitor " + c + " has wrong interface")
    case _ => None
  }
}
