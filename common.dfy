/** Shared value types: optional values, the errors the action raises, and the
    outcome of an effectful step (normal completion or a thrown error). */
module Common {

  datatype Option<+T> = None | Some(value: T)

  /** The errors the action can throw.  Errors raised by services outside the
      action (token minting, label, review and comment creation, revocation,
      the commit query) are carried as `Upstream`, with whatever cause the
      service reported. */
  datatype Error =
    | MissingInput(name: string)                   // a required action input is empty
    | MissingLabelDescription                      // the event payload has no label description
    | InvalidLabelDescription(description: string) // the description does not split into three parts
    | CommitQueryFailed                            // the paginated commit query did not answer
    | Upstream(cause: string)                      // any other external service failure

  /** How a step of the action ends: it returns, or it throws `error`. */
  datatype Outcome = Done | Failed(error: Error)

  datatype Result<+T> = Success(value: T) | Failure(error: Error)
}
