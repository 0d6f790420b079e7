/** Values that JavaScript may leave null or undefined, and the truthiness test
    the command applies to them. */
module Nullable {

  /** A value that may be absent (`null` or `undefined`). */
  datatype Option<+T> = None | Some(value: T)

  /** JavaScript truthiness of a `string | null` (or `string | undefined`):
      both the absent value and the empty string are falsy. */
  predicate Truthy(s: Option<string>)
  {
    s.Some? && s.value != ""
  }
}
