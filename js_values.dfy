/** Values as the request handlers see them: a query, body or session field
    is either absent (`undefined`) or a string. */
module JsValues {

  datatype Option<+T> = None | Some(value: T)

  /** JavaScript truthiness of an optional string: `undefined` and '' are falsy,
      every other string is truthy. */
  predicate Truthy(v: Option<string>)
  {
    v.Some? && v.value != ""
  }
}
