/** The optional value used wherever the application holds `null` (or
    `undefined`): a missing user, token, error message or store entry. */
module Wrappers {

  datatype Option<+T> = None | Some(value: T)
}
