/** The optional value used wherever the source has a nullable reference or a
    try-parse that can fail. */
module Wrappers {

  datatype Option<+T> = None | Some(value: T)
}
