/** What several models share: a value that may be absent, the larger of two numbers, and the regrouping of
    concatenations. */
module Basics {
  datatype Option<T> = None | Some(value: T)

  function Max(a: int, b: int): (m: int)
    ensures m >= a && m >= b && (m == a || m == b)
  {
    if a < b then b else a
  }

  lemma Regroup<T>(a: seq<T>, b: seq<T>, c: seq<T>)
    ensures a + b + c == a + (b + c)
    ensures a + [] == a && [] + a == a
  {
  }

  lemma RegroupFour<T>(a: seq<T>, b: seq<T>, c: seq<T>, d: seq<T>)
    ensures a + b + c + d == a + (b + c + d) == a + b + (c + d)
    ensures a + (b + (c + d)) == a + (b + c) + d == a + (b + c + d)
  {
  }
}
