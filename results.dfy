/** Option and Result types shared by the whole model; both work with `:-`. */
module Results {

  datatype Option<+T> = None | Some(value: T) {
    predicate IsFailure() { None? }

    function PropagateFailure<U>(): Option<U>
      requires None?
    {
      None
    }

    function Extract(): T
      requires Some?
    {
      value
    }

    function GetOr(default: T): T {
      if Some? then value else default
    }
  }

  datatype Result<+T, +E> = Ok(value: T) | Err(error: E) {
    predicate IsFailure() { Err? }

    function PropagateFailure<U>(): Result<U, E>
      requires Err?
    {
      Err(error)
    }

    function Extract(): T
      requires Ok?
    {
      value
    }
  }
}

/**
 * How a call can end without a result. `SystemExit` is what `exit(1)` raises:
 * it is not an `Exception`, so the handlers' `except Exception` does not catch
 * it. Every other variant names the Python exception a step raises.
 */
module Faults {
  datatype Fault =
    | SystemExit       // exit(1) on a missing required tag or parameter
    | IndexError       // netaddr indexing outside the block, or `[-1]` of an empty list
    | AddrFormatError  // netaddr refusing a prefix longer than the address width
    | KeyError         // a missing dictionary key
    | ValueError       // int() of a non-numeral, or a duplicate resource title
    | AttributeError   // a method called on None or on a value of the wrong type
    | LookupFailed     // the EC2 subnet lookup found nothing
    | Unsupported      // more than one IPv6 CIDR association

  /** What `except Exception` catches. */
  predicate IsException(f: Fault) {
    !f.SystemExit?
  }
}
