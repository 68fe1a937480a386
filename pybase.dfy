/** The small part of Python's runtime that both components lean on: optional
    values, results that either hold a value or carry a raised exception, and
    the built-in exception classes with their subclass relation. */
module PyBase {

  datatype Option<+T> = None | Some(value: T) {
    function GetOr(default: T): T {
      match this
      case Some(v) => v
      case None => default
    }
  }

  /** The classes of the exceptions the modelled code raises or catches. */
  datatype ErrorClass =
    | Exception
    | TypeError
    | ValueError
    | AttributeError
    | IndexError
    | RuntimeError
    | OSError
    | FileNotFoundError
    | PermissionError
    | IsADirectoryError

  /** Python's issubclass on the classes above: everything derives from
      Exception, and the three file-system errors derive from OSError. */
  predicate IsSubclass(c: ErrorClass, of: ErrorClass) {
    || c == of
    || of == Exception
    || (of == OSError && (c == FileNotFoundError || c == PermissionError || c == IsADirectoryError))
  }

  /** A raised exception: its class and str(e). */
  datatype Error = Error(cls: ErrorClass, message: string)

  /** A call that returns a value or raises. */
  datatype Result<+T> = Ok(value: T) | Err(error: Error) {
    predicate IsFailure() {
      Err?
    }

    function PropagateFailure<U>(): Result<U>
      requires Err?
    {
      Err(error)
    }

    function Extract(): T
      requires Ok?
    {
      value
    }
  }

  /** A statement that either completes or raises. */
  datatype Outcome = Pass | Fail(error: Error) {
    predicate IsFailure() {
      Fail?
    }

    function PropagateFailure<U>(): Result<U>
      requires Fail?
    {
      Err(error)
    }
  }

  /** The first clause of an `except` chain whose class catches an exception of
      class `c`, or |clauses| when none does; the clauses are tried in order. */
  function FirstCatching(clauses: seq<ErrorClass>, c: ErrorClass): (i: nat)
    ensures i <= |clauses|
    ensures i < |clauses| ==> IsSubclass(c, clauses[i])
    ensures forall j :: 0 <= j < i ==> !IsSubclass(c, clauses[j])
  {
    if clauses == [] then 0
    else if IsSubclass(c, clauses[0]) then 0
    else 1 + FirstCatching(clauses[1..], c)
  }
}
