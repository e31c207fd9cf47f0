/** The absent-or-present result a dispatcher hands back. */
module Wrappers {

  /** `None` stands for JavaScript's `undefined`: the value `execute`
      returns when the receiver has no operation under the requested name. */
  datatype Option<+T> = None | Some(value: T)
}
