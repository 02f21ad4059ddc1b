/** The usual Some/None datatype, used where the source has a null pointer,
    an empty std::function or a failed stream extraction. */
module Wrappers {

  datatype Option<+T> = None | Some(value: T)
}
