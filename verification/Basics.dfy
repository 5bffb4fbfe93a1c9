/** What the other modules share. */
module Basics {

  predicate IsDigit(c: char) {
    '0' <= c <= '9'
  }

  datatype Option<T> = None | Some(value: T)

  lemma Assoc<T>(a: seq<T>, b: seq<T>, c: seq<T>)
    ensures a + b + c == a + (b + c)
  {}
}
