/** Optional values and fallible results, standing for Python's `None` and raised exceptions. */
module Wrappers {

  datatype Option<+T> = None | Some(value: T)

  /** The exceptions the modelled code can raise. */
  datatype Error =
    | MissingExtension   // ValueError: the template uses {output-ext} but no extension was given
    | TooLong            // RecursionError: the file name cannot be shortened below 255 characters
    | EmptyName          // ValueError from Path.with_name on a path without a name
    | InvalidName        // ValueError from Path.with_name when the new name is not a single path component
    | NotAnInteger       // ValueError from int() on a string that is not a decimal integer

  datatype Outcome<+T> = Ok(value: T) | Err(error: Error)
}
