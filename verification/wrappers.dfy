/** Optional values, and the JavaScript notion of a "truthy" optional string that the
    client tests with `!!x`, `x ? … : …` and `x || …`. */
module Wrappers {

  /** A value that may be missing: JavaScript's `null`/`undefined` become `None`. */
  datatype Option<+T> = None | Some(value: T) {

    /** `x ?? fallback`: the present value, with `fallback` standing in for a missing one. */
    function GetOr(fallback: T): T {
      if Some? then value else fallback
    }
  }

  /** An optional string is truthy in JavaScript exactly when it is present and non-empty. */
  predicate Truthy(s: Option<string>) {
    s.Some? && s.value != ""
  }

  /** `s || fallback` on an optional string. */
  function OrElse(s: Option<string>, fallback: string): (r: string)
    ensures Truthy(s) ==> r == s.value
    ensures !Truthy(s) ==> r == fallback
  {
    if s.Some? && s.value != "" then s.value else fallback
  }
}
