/** A value that may be absent: the model of a TypeScript `T | null` or an optional `T | undefined`. */
module Wrappers {
  datatype Option<+T> = None | Some(value: T)
}
