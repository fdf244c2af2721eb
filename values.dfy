/** Small value types shared by every component: optional values, results
    that carry an error message, and the JavaScript notion of a "truthy"
    optional string or number that the source tests with `!x` and `x || d`. */
module Values {

  datatype Option<+T> = None | Some(value: T)

  datatype Result<+T> = Ok(value: T) | Err(error: string)

  /** `s` is truthy in JavaScript: present (not undefined/null) and not "". */
  predicate Present(s: Option<string>) {
    s.Some? && s.value != ""
  }

  /** `s || fallback` for an optional string. */
  function OrElse(s: Option<string>, fallback: string): (r: string)
    ensures Present(s) ==> r == s.value
    ensures !Present(s) ==> r == fallback
  {
    if s.Some? && s.value != "" then s.value else fallback
  }

  /** An optional integer is truthy when present and non-zero. */
  predicate PresentInt(n: Option<int>) {
    n.Some? && n.value != 0
  }
}
