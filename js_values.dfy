/** Values as the TypeScript handlers see them: a field that may be `undefined`,
    and JavaScript truthiness of such a field. */
module JsValues {

  datatype Option<+T> = None | Some(value: T)

  /** `if (s)` on a string that may be undefined: `undefined` and `""` are falsy. */
  predicate Truthy(s: Option<string>) {
    s.Some? && s.value != ""
  }
}
