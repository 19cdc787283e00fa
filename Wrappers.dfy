/** Values the storefront code gets from JavaScript and from its collaborators. */
module Wrappers {

  /** A JavaScript value that may be `undefined` (or `null`): `None` is the missing value. */
  datatype Option<+T> = None | Some(value: T)

  /** The result of a call into the backend or the payment processor: success with a value,
      or failure carrying the backend's message when it sent one. */
  datatype Outcome<+T> = Ok(value: T) | Fail(message: Option<string>)

  /** JavaScript truthiness of an optional string: `undefined` and `""` are falsy. */
  predicate Truthy(s: Option<string>)
  {
    s.Some? && s.value != ""
  }

  /** JavaScript `a || b` on optional strings: `a` when it is truthy, otherwise `b` as it is. */
  function OrElse(a: Option<string>, b: Option<string>): (r: Option<string>)
    ensures Truthy(a) ==> r == a
    ensures !Truthy(a) ==> r == b
  {
    if Truthy(a) then a else b
  }

  /** JavaScript `msg || fallback` where the fallback is a literal: always a defined string,
      the message when it is non-empty. */
  function MessageOr(msg: Option<string>, fallback: string): (r: string)
    ensures Truthy(msg) ==> r == msg.value
    ensures !Truthy(msg) ==> r == fallback
  {
    if Truthy(msg) then msg.value else fallback
  }

  /** The message a failed call surfaces (`err.response?.data?.message || fallback`). */
  function FailureMessage<T>(o: Outcome<T>, fallback: string): (r: string)
    requires o.Fail?
    ensures Truthy(o.message) ==> r == o.message.value
    ensures !Truthy(o.message) ==> r == fallback
  {
    MessageOr(o.message, fallback)
  }
}
