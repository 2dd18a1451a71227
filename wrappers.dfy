/** Value wrappers shared by every component model. */
module Wrappers {

  /** A nullable value: `null`/`undefined` is `None`. */
  datatype Option<+T> = None | Some(value: T)

  /** The outcome of one call to the hosted backend, supplied as an input to the model. */
  datatype Reply = Ok | Fail(message: string)

  /** A transient notice shown to the user (the toast sink). */
  datatype Toast = Success(text: string) | Error(text: string)

  /** JavaScript truthiness of a nullable string: `null` and `""` are falsy. */
  predicate Truthy(s: Option<string>)
  {
    s.Some? && s.value != ""
  }

  /** `value || null` for a string field: the empty string becomes `null`. */
  function EmptyToNull(s: string): (r: Option<string>)
    ensures r.None? <==> s == ""
    ensures r.Some? ==> r.value == s
  {
    if s == "" then None else Some(s)
  }

  /** `value || ""` for a nullable string field: `null` becomes the empty string. */
  function NullToEmpty(s: Option<string>): (r: string)
    ensures s.None? ==> r == ""
    ensures s.Some? ==> r == s.value
  {
    if s.Some? then s.value else ""
  }

  /** Reading back a form field that was filled from a nullable column gives the column again. */
  lemma EmptyToNullInverse(s: Option<string>)
    requires s != Some("")
    ensures EmptyToNull(NullToEmpty(s)) == s
  {
  }
}
