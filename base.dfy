/** Values shared by every part of the model: optional values, the outcome of a
    remote query, and the JavaScript conventions the source relies on
    (truthiness of a nullable string, and how a template literal prints null). */
module Base {

  datatype Option<T> = None | Some(value: T)

  /** A value thrown by the source: an `Error` instance carries its `message`;
      anything else thrown (a plain object from the data service, say) does not. */
  datatype Failure = Failure(message: string, isErrorInstance: bool)

  /** The outcome of one query against the remote data service. */
  datatype Result<T> = Ok(value: T) | Err(failure: Failure)

  /** JavaScript truthiness of a `string | null`: present and non-empty. */
  predicate Truthy(s: Option<string>)
  {
    s.Some? && s.value != ""
  }

  /** `a || b` where `a` is a `string | null` and `b` a string. */
  function OrElse(a: Option<string>, b: string): string
  {
    if Truthy(a) then a.value else b
  }

  /** `${s}` inside a template literal: a null value prints as the text "null". */
  function Interp(s: Option<string>): string
  {
    if s.Some? then s.value else "null"
  }
}
