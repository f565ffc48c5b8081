/** The result types the model uses for Go's `(value, ok)` and `(value, err)` pairs. */
module Wrappers {
  datatype Option<+T> = None | Some(value: T)

  /** Go's `m[key]`, with the zero value of the element type as `default`. */
  function GetOr<K, V>(m: map<K, V>, key: K, default: V): V {
    if key in m then m[key] else default
  }
}
