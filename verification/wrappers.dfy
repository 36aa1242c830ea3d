/** Optional values and the outcome of an awaited call that may throw. */
module Wrappers {

  datatype Option<T> = None | Some(value: T)

  /** What an awaited call rejected with: an `Error` instance with its
      `name` ("Error" for `new Error(..)`, "TypeError" for a failed `fetch`)
      and its `message`, or any other thrown value (kept as the text
      `${value}` renders it to). */
  datatype Thrown = ErrorObject(name: string, message: string) | OtherValue(text: string)

  /** The result of one awaited call: its value, or what it threw. */
  datatype Outcome<T> = Ok(value: T) | Throw(thrown: Thrown)

  /** `error instanceof Error ? error.message : fallback` */
  function MessageOr(t: Thrown, fallback: string): string
  {
    match t
    case ErrorObject(_, m) => m
    case OtherValue(_) => fallback
  }

  /** The template-literal rendering `${error}`, which for an `Error` is
      `Error.prototype.toString`: its name and message joined by ": ",
      or whichever of the two is not empty. */
  function Describe(t: Thrown): (s: string)
    ensures t.ErrorObject? && t.name != "" && t.message != "" ==> s == t.name + ": " + t.message
    ensures t.ErrorObject? && t.message == "" ==> s == t.name
    ensures t.ErrorObject? && t.name == "" ==> s == t.message
    ensures t.OtherValue? ==> s == t.text
  {
    match t
    case ErrorObject(n, m) => if n == "" then m else if m == "" then n else n + ": " + m
    case OtherValue(s) => s
  }

  /** JavaScript truthiness of an optional string: present and non-empty. */
  predicate Truthy(s: Option<string>)
  {
    s.Some? && s.value != ""
  }
}
