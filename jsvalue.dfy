/** JavaScript values as the storefront uses them: a property that may be
    undefined (or null), and the truthiness test behind `if (x)`, `x || y`
    and `x ? a : b` on string-valued properties. */
module JsValue {

  /** `None` stands for `undefined` (and `null`). */
  datatype Option<+T> = None | Some(value: T)

  /** A string-valued property is truthy exactly when it is defined and not
      the empty string; `"0"` and `" "` are truthy. */
  predicate Truthy(v: Option<string>) {
    v.Some? && v.value != ""
  }
}
