/** Optional values and results with an error, shared by every module of the model. */
module Wrappers {

  /** A value that may be missing: a Go nil pointer, a Python None. */
  datatype Option<+T> = None | Some(value: T)

  /** A return value paired with an error, as Go's `(T, error)` returns are read. */
  datatype Result<+T, +E> = Success(value: T) | Failure(error: E)

  /** The sequence of `n` copies of `x`. */
  function Repeat<T>(x: T, n: nat): (s: seq<T>)
    ensures |s| == n
  {
    if n == 0 then [] else [x] + Repeat(x, n - 1)
  }

  /** One more copy at the end is one more copy. */
  lemma {:induction false} RepeatSnoc<T>(x: T, n: nat)
    ensures Repeat(x, n) + [x] == Repeat(x, n + 1)
  {
    if n > 0 {
      RepeatSnoc(x, n - 1);
      assert Repeat(x, n) + [x] == [x] + (Repeat(x, n - 1) + [x]);
    }
  }

  /** A log that held `base` followed by `n` copies of `x`, once `x` is appended, holds `base`
      followed by `n + 1` copies. */
  lemma RepeatStep<T>(base: seq<T>, before: seq<T>, after: seq<T>, x: T, n: nat)
    requires before == base + Repeat(x, n)
    requires after == before + [x]
    ensures after == base + Repeat(x, n + 1)
  {
    RepeatSnoc(x, n);
    assert after == base + (Repeat(x, n) + [x]);
  }
}
