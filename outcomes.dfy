/** Values that stand for what the screens receive from JavaScript and from
    their asynchronous collaborators. */
module Outcomes {

  /** A field that may be `null` (or `undefined`). */
  datatype Option<+T> = None | Some(value: T)

  /** What awaiting a promise yields: it resolved to a value, or it rejected
      (or the code after it threw) with an error whose `message` is given. */
  datatype Attempt<+T> = Threw(message: string) | Returned(value: T)
}
