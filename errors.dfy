/** Go's `error` results: `nil` is `None`, a non-nil error is `Some(e)`. */
module Errors {

  datatype Option<+T> = None | Some(value: T)

  /** An error value returned by a collaborator; only its identity matters. */
  datatype Error = Error(message: string)
}
