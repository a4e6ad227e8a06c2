/** The optional-value wrapper used for the optional fields of a character
    record and for a nullable character argument. */
module Wrappers {

  datatype Option<+T> = None | Some(value: T)
}
