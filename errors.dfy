/** The exception kinds the homeflux core raises, catches or lets escape,
    and the failure-compatible result type that carries them. Python's
    `except Exception` catches every one of them; `except KeyError` and
    `except nut.NutError` catch only their own kind. */
module Errors {

  datatype Error =
    | KeyError(key: string)          // a missing dict key
    | TypeError                      // subscripting or iterating a value of the wrong kind
    | ValueError                     // int()/float() of a malformed string, or a failed unpack
    | AttributeError                 // calling a method on None
    | OverflowError                  // a date outside 0001-01-01 .. 9999-12-31
    | ValidationError(field: string) // a record field of the wrong type
    | NutError(message: string)      // homeflux.agents.nut.NutError
    | PyNutError                     // nut2.PyNUTError raised by the device client
    | MeterError(message: string)    // homeflux.agents.gwp_opower.MeterError

  datatype Option<+T> = None | Some(value: T)

  datatype Result<+T> = Ok(value: T) | Err(error: Error) {
    predicate IsFailure() { Err? }

    function PropagateFailure<U>(): Result<U>
      requires Err?
    {
      Err(error)
    }

    function Extract(): T
      requires Ok?
    {
      value
    }
  }
}
