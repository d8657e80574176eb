/** The optional-value datatype used for TypeScript's `T | null`, `T | undefined`
    and optional (`?:`) properties. */
module Wrappers {

  datatype Option<+T> = None | Some(value: T)
}
