/** The Some/None datatype used wherever a JavaScript value may be
    `undefined` or `null`: an absent record field, a missing request
    header, a missing storage key. */
module Wrappers {

  datatype Option<+T> = None | Some(value: T)
}
