/** Small shared vocabulary: outcomes of operations that may throw, and the
    loosely typed values a client sends over its connection. */
module Common {

  /** An operation that either yields a value or raises an error message,
      as the game server's handlers `throw` plain strings. */
  datatype Result<T> = Ok(value: T) | Err(error: string)

  datatype Option<T> = None | Some(value: T)

  /** A value received from a client: either a number or a string. The
      handlers test it with `isNumber` and compare it with `===`. */
  datatype Value = Num(n: int) | Str(s: string)

  predicate IsNumber(v: Value) { v.Num? }

  /** No element occurs twice. */
  predicate NoDuplicates<T(==)>(s: seq<T>) {
    forall i, j :: 0 <= i < j < |s| ==> s[i] != s[j]
  }
}
