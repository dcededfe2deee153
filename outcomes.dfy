/** Result types shared by the whole model. Python signals failure by raising;
    the model returns the kind of exception instead. */
module Outcomes {

  datatype Option<T> = None | Some(value: T)

  /** The Python exceptions that the modelled code can raise. */
  datatype Failure =
    | ValueError         // int() of a non-number, an impossible calendar date, list.remove of a missing item
    | KeyError           // a dictionary lookup of a missing key
    | IndexError         // indexing a list past its end
    | TypeError          // calling a constructor with too few arguments
    | NameError          // a name that no module defines
    | UnboundLocalError  // a local variable read before any assignment

  datatype Result<T> = Ok(value: T) | Err(failure: Failure)
}
