/** Python's `None`-or-value, as used for environment lookups and class attributes. */
module Wrappers {

  datatype Option<+T> = None | Some(value: T)
}
