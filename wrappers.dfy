/** Optional values and results with an error, the model's stand-ins for
    `undefined`/`null` and for thrown errors or error messages. */
module Wrappers {

  datatype Option<+T> = None | Some(value: T)

  datatype Result<+T, +E> = Ok(value: T) | Err(error: E)

  /** A value caught by a `catch`: an `Error` with its message, or anything else. */
  datatype Thrown = ErrorObject(message: string) | NotAnError

  /** `x || fallback` on an optional string: a missing or empty value gives the fallback. */
  function OrElse(o: Option<string>, fallback: string): (r: string)
    ensures o.Some? && o.value != [] ==> r == o.value
    ensures (o.None? || o.value == []) ==> r == fallback
  {
    if o.Some? && o.value != [] then o.value else fallback
  }

  /** The text of an optional field, `''` when it is missing. */
  function TextOf(o: Option<string>): (r: string)
    ensures o.Some? ==> r == o.value
    ensures o.None? ==> r == []
  {
    if o.Some? then o.value else []
  }
}
