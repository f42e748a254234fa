/** The optional value used for every `T | null` / `T | undefined` slot of the tool. */
module Wrappers {
  datatype Option<+T> = None | Some(value: T)
}
