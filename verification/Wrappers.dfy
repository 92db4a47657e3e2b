/** The stock optional value, used where the source has `undefined` or `null`, and a fact on concatenation. */
module Wrappers {
  datatype Option<+T> = None | Some(value: T)

  lemma Append<T>(x: seq<T>, y: seq<T>, z: seq<T>, u: seq<T>)
    ensures x + y + z + u == x + (y + z + u)
  {}
}
