/** The optional-value datatype used for token literals, lookups and the plot sink. */
module Wrappers {
  datatype Option<+T> = None | Some(value: T)
}
