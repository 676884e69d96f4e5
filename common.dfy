/** Option and Result values used for the Go code's (value, error) returns. */
module Common {

  datatype Option<+T> = None | Some(value: T)

  /** `Err` carries the Go error; its message is what the handlers compare against. */
  datatype Result<+T, +E> = Ok(value: T) | Err(error: E)

  /** A byte of a Go `[]byte` (audio, request bodies). */
  type Byte = x: int | 0 <= x < 256

  /** No element occurs twice. */
  predicate NoDuplicates<T(==)>(xs: seq<T>)
  {
    forall i, j :: 0 <= i < j < |xs| ==> xs[i] != xs[j]
  }
}
