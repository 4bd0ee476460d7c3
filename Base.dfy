/** Shared wrappers: optional values, Python exceptions and results that may carry one. */
module Base {

  datatype Option<+T> = None | Some(value: T) {
    function GetOr(default: T): T {
      match this
      case Some(v) => v
      case None => default
    }
  }

  /** A Python exception: its class name, its message, and whether the class derives from
      BaseException only (so that `except Exception` lets it through). */
  datatype Exc = Exc(name: string, message: string, fatal: bool)

  /** The outcome of a Python call that either returns a value or raises. */
  datatype Result<+T> = Ok(value: T) | Err(exc: Exc) {
    predicate IsFailure() { Err? }
    function PropagateFailure<U>(): Result<U>
      requires Err?
    {
      Err(exc)
    }
    function Extract(): T
      requires Ok?
    {
      value
    }
  }

  /** An ordinary exception of the named class, with no message of interest. */
  function Raise(name: string): Exc {
    Exc(name, "", false)
  }

  /** `except Exception` catches exactly the non-fatal exceptions. */
  predicate CaughtByExceptClause(e: Exc) {
    !e.fatal
  }

  function Min(a: int, b: int): int { if a <= b then a else b }
  function Max(a: int, b: int): int { if a >= b then a else b }
}
