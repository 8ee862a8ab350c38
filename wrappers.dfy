/**
 * The optional-value datatype used for absent map entries, missing fields and
 * network replies, and the reply of an accessor that may have to wait.
 */
module Wrappers {

  datatype Option<+T> = None | Some(value: T)

  /** What a request step returns: a value at once, or the handle of a pending request. */
  datatype Reply<+T> = Immediate(value: T) | Pending(handle: nat)
}
