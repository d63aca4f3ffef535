/** Result types used across the router model. */
module Wrappers {

  /** A value that may be absent (PHP's `null`). */
  datatype Option<+T> = None | Some(value: T)

  /** The outcome of an operation that either succeeds or raises an exception with a message. */
  datatype Outcome<+E> = Pass | Fail(error: E)
}

/**
 * Small identities about sequences. Dafny proves each from the definition of
 * `+` and slicing, but inside the larger recursive proofs of the pattern,
 * matcher and parameter modules it finds them only with some solver seeds;
 * stating them here, where nothing else is in view, and calling them there
 * makes those proofs stable.
 */
module SeqFacts {

  /** Splitting off the head of a non-empty left operand of `+`. */
  lemma Cons<T>(a: seq<T>, r: seq<T>)
    requires a != []
    ensures a + r == [a[0]] + (a[1..] + r)
    ensures (a + r)[0] == a[0] && (a + r)[1..] == a[1..] + r
  {
    assert a == [a[0]] + a[1..];
  }

  /** A common head can be cancelled. */
  lemma ConsCancel<T>(x: T, a: seq<T>, b: seq<T>)
    requires [x] + a == [x] + b
    ensures a == b
  {
    assert a == ([x] + a)[1..];
  }

  /** The empty sequence is a unit of `+`. */
  lemma AppendEmpty<T>(a: seq<T>)
    ensures a + [] == a && [] + a == a
  {
  }
}
