/**
 * The exceptions a handler's asynchronous chain can fail with, identified by
 * their runtime class.
 */
module Failures {

  /**
   * A runtime exception class. The four classes the service names are arms of
   * their own; any other class is either a proper subclass of some class
   * (so `parent` is its direct superclass) or a class unrelated to them.
   */
  datatype ExceptionClass =
    | EmployeeNotFoundException
    | DepartmentNotFoundException
    | PersistenceException
    | MissingParameterException
    | Subclass(name: string, parent: ExceptionClass)
    | Unrelated(name: string)

  /**
   * `c` is `ancestor` or inherits from it, as far as the hierarchy below the
   * four named classes goes: their own superclasses (such as RuntimeException)
   * are not represented, so this is Java's `instanceof` only for ancestors that
   * are one of the four or a `Subclass`.
   */
  predicate IsA(c: ExceptionClass, ancestor: ExceptionClass)
  {
    c == ancestor || (c.Subclass? && IsA(c.parent, ancestor))
  }

  /**
   * A raised exception: its runtime class (what `getClass()` returns) and the
   * argument it was constructed with (an id, a name, or a formatted message).
   */
  datatype Thrown = Raised(cls: ExceptionClass, detail: string)

  /** `new EmployeeNotFoundException(key)`. */
  function EmployeeNotFound(key: string): Thrown
  {
    Raised(EmployeeNotFoundException, key)
  }
}
