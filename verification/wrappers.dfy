/** Failure-carrying values shared by the modules of this model. A Python
    `None` becomes `None`, and an exception the source lets escape becomes a
    `Failure` naming it. */
module Wrappers {

  datatype Option<+T> = None | Some(value: T)

  datatype Result<+R, +E> = Success(value: R) | Failure(error: E)

  /** The exceptions the modelled Python code can raise on its own inputs. */
  datatype PyError =
    | KeyError(key: string)        // a dict lookup on a missing key
    | IndexError                   // a list index past the end
    | NameError(name: string)      // a variable read before it was bound
    | AttributeError(name: string) // a method called on None
    | TypeError                    // a subscript on a number, a string or None
}
