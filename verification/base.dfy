/** Shared vocabulary: optional values, identifiers and JavaScript truthiness. */
module Base {

  /** A value that may be absent (`undefined`/`null` in the JavaScript source). */
  datatype Option<+T> = None | Some(value: T)

  /** Database ObjectIds, abstracted to naturals. */
  type UserId = nat

  /** Calendar dates, abstracted to a day number; only their order matters here. */
  type Date = int

  /** JavaScript truthiness of an optional string: absent and "" are falsy. */
  predicate Truthy(o: Option<string>) {
    o.Some? && o.value != ""
  }

  /** `x || fallback` for an optional string. */
  function OrElse(o: Option<string>, fallback: string): (r: string)
    ensures Truthy(o) ==> r == o.value
    ensures !Truthy(o) ==> r == fallback
  {
    if Truthy(o) then o.value else fallback
  }
}
