/** Values shared by every component of the front end: optional values, the
    outcome of a call to the remote API, and JavaScript's `a || b` fallback on
    strings. */
module Common {

  /** A value the server may leave out (`undefined` or `null` in the client). */
  datatype Option<+T> = None | Some(value: T)

  /** How an awaited request to the remote API ended. `Ok` carries the
      response data; `Err` stands for a thrown error and carries the
      `response.data.message` the server sent, if any. The API itself is not
      modelled: every handler takes the outcome as a parameter. */
  datatype Outcome<+T> = Ok(data: T) | Err(serverMessage: Option<string>)

  /** True when `s` is present and non-empty, i.e. truthy in JavaScript. */
  predicate Present(s: Option<string>)
  {
    s.Some? && s.value != ""
  }

  /** JavaScript's `s || fallback` where `s` is an optional string: the empty
      string and a missing value both give way to the fallback. */
  function OrElse(s: Option<string>, fallback: string): (r: string)
    ensures Present(s) ==> r == s.value
    ensures !Present(s) ==> r == fallback
    ensures fallback != "" ==> r != ""
  {
    if Present(s) then s.value else fallback
  }
}
