/** Failure-carrying datatypes shared by every module of the model.

    The program signals failure by rejecting a promise or throwing
    an exception. Here every such rejection is a value: an `Error` carrying
    the fields the program inspects (`code`, `message`, `stack`), wrapped in
    an `Outcome` (for `Promise<void>`) or a `Result` (for a value-returning
    step).
 */
module Wrappers {

  datatype Option<+T> = None | Some(value: T)

  /** A JavaScript `Error` as far as the program looks at it: Node's `code`
      (`"ENOENT"`, ...; empty when absent), the `message`, and the `stack`
      (empty when absent, which JavaScript treats as false). */
  datatype Error = Error(code: string, message: string, stack: string)

  /** The outcome of an awaited call that returns nothing. */
  datatype Outcome = Pass | Fail(error: Error)

  /** The outcome of an awaited call that returns a value. */
  datatype Result<+T> = Ok(value: T) | Err(error: Error)

  /** The text JavaScript produces for `${error}` when `error` is an `Error`:
      `Error.prototype.toString` gives the name, then `": "` and the message
      when the message is non-empty. */
  function ErrorText(e: Error): (r: string)
    ensures e.message == [] ==> r == "Error"
    ensures e.message != [] ==> |r| > 7 && r[..7] == "Error: " && r[7..] == e.message
  {
    if e.message == [] then "Error" else "Error: " + e.message
  }
}
