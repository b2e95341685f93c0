/**
  What the forms of frontend/finsrisk/src/pages/Auth receive from the
  HTTP client for a request: either a response the client resolved with,
  or a rejection, which carries the server's message when there was one.
*/
module ApiClient {
  import opened Wrappers

  datatype Response =
    | Answer(status: int, token: Option<string>, message: Option<string>)   // `response.status`, `response.data.token`, `response.data.message`
    | Thrown(message: Option<string>)                                       // `err.response.data.message`, when present

  /** JavaScript truthiness of an optional string: present and not empty. */
  predicate Present(m: Option<string>)
  {
    m.Some? && m.value != ""
  }

  /** `m || fallback`: the message when it is truthy, else the fallback. */
  function MessageOr(m: Option<string>, fallback: string): (r: string)
    ensures Present(m) ==> r == m.value
    ensures !Present(m) ==> r == fallback
    ensures fallback != "" ==> r != ""
  {
    if Present(m) then m.value else fallback
  }
}
