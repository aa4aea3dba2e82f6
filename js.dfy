/**
 * Values as the components see them: optional fields of a reply, and the
 * truthiness rules that `||`, `!x` and `x ? a : b` apply to strings.
 */
module Js {

  /** An optional value: a field that may be `undefined` or `null`. */
  datatype Option<+T> = None | Some(value: T)

  /** A string-valued field is truthy when it is present and not empty. */
  predicate Truthy(s: Option<string>)
  {
    s.Some? && s.value != ""
  }

  /** `s || fallback` on a string-valued field. */
  function Or(s: Option<string>, fallback: string): (r: string)
    ensures Truthy(s) ==> r == s.value
    ensures !Truthy(s) ==> r == fallback
    ensures r == "" ==> fallback == ""
  {
    if Truthy(s) then s.value else fallback
  }

  /** A route parameter such as `useParams().id`: `!id` holds when it is missing or empty. */
  predicate RoutePresent(id: Option<string>)
  {
    Truthy(id)
  }
}
