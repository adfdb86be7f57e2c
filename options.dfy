/** Optional values and the JavaScript notion of truthiness that the handler
    relies on for its `||`, `?:` and `if` tests. */
module Options {

  /** A value that may be absent (JavaScript `undefined` or `null`). */
  datatype Option<+T> = None | Some(value: T)

  /** An optional string is truthy in JavaScript exactly when it is present
      and not the empty string. */
  predicate Truthy(s: Option<string>)
  {
    s.Some? && s.value != ""
  }

  /** A number is truthy in JavaScript exactly when it is present and not 0
      (NaN does not arise for integer timestamps). */
  predicate TruthyInt(n: Option<int>)
  {
    n.Some? && n.value != 0
  }
}
