/** The few JavaScript notions the quiz controller depends on: a request-body
    field that may be `undefined`, and the truthiness test `!x` / `x || y`. */
module Js {

  /** A field of a parsed JSON request body; `None` is `undefined` (the key is absent). */
  datatype Option<+T> = None | Some(value: T)

  /** Truthiness of a string field: `undefined` and `""` are falsy, every other string is truthy. */
  predicate TruthyString(v: Option<string>)
  {
    v.Some? && v.value != ""
  }

  /** Truthiness of a number field: `undefined` and `0` are falsy, every other number is truthy. */
  predicate TruthyNumber(v: Option<int>)
  {
    v.Some? && v.value != 0
  }

  /** Truthiness of an array field: `undefined` is falsy, every array (even `[]`) is truthy. */
  predicate TruthyArray<T>(v: Option<seq<T>>)
  {
    v.Some?
  }
}
