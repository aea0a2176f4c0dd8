/** Values that may be missing, and replies that may be errors. */
module Wrappers {

  datatype Option<+T> = None | Some(value: T)

  datatype Result<+T, +E> = Ok(value: T) | Err(error: E)

  function Min(a: int, b: int): int { if a <= b then a else b }

  function Max(a: int, b: int): int { if a <= b then b else a }

  lemma ConcatAssociative<T>(a: seq<T>, b: seq<T>, c: seq<T>)
    ensures a + (b + c) == (a + b) + c
  {
  }

  lemma PiecesArePrefix<T>(whole: seq<T>, from: nat, mid: nat, to: nat)
    requires from <= mid <= to <= |whole|
    ensures whole[from..mid] + whole[mid..to] == whole[from..to]
    ensures whole[from..to] <= whole[from..]
  {
  }
}
