/** Values as the handlers see them in a parsed JSON request body, and the shape of a reply. */
module Js {

  /** A JSON value that may be `null` or missing. */
  datatype Option<+T> = None | Some(value: T)

  /** JavaScript truthiness of a string field: `undefined`, `null` and `""` are all modelled as `""`. */
  predicate Truthy(s: string) {
    s != ""
  }

  /** JavaScript truthiness of a numeric id field: missing, `null` and `0` are falsy. */
  predicate IdTruthy(n: Option<int>) {
    n.Some? && n.value != 0
  }

  /** `n || null` for a numeric id field. */
  function IdOrNull(n: Option<int>): (r: Option<int>)
    ensures r.Some? <==> IdTruthy(n)
    ensures r.Some? ==> r == n
  {
    if IdTruthy(n) then n else None
  }

  /** `s || fallback` for a string field. */
  function OrElse(s: string, fallback: string): (r: string)
    ensures Truthy(fallback) ==> Truthy(r)
    ensures Truthy(s) ==> r == s
    ensures !Truthy(s) ==> r == fallback
  {
    if Truthy(s) then s else fallback
  }

  /** An HTTP reply: a status code with a JSON body, or a status code with `{ error: message }`. */
  datatype Reply<+T> = Ok(status: int, value: T) | Err(status: int, error: string)
}
