/** Datatypes shared by the other modules. */
module Prelude {
  datatype Option<+T> = None | Some(value: T)

  datatype Result<+T, +E> = Ok(value: T) | Err(error: E)

  function Last<T>(s: seq<T>): T
    requires s != []
  {
    s[|s| - 1]
  }

  function Front<T>(s: seq<T>): seq<T>
    requires s != []
  {
    s[..|s| - 1]
  }

  function Min(a: int, b: int): int {
    if a <= b then a else b
  }

  function Max(a: int, b: int): int {
    if a <= b then b else a
  }

  function Pow2(n: nat): nat
    ensures Pow2(n) >= 1
  {
    if n == 0 then 1 else 2 * Pow2(n - 1)
  }

  function FoldLeft<A, B>(f: (A, B) -> A, start: A, xs: seq<B>): A {
    if xs == [] then start else f(FoldLeft(f, start, Front(xs)), Last(xs))
  }

  lemma {:induction false} FoldConcat<A, B>(f: (A, B) -> A, start: A, xs: seq<B>, ys: seq<B>)
    ensures FoldLeft(f, start, xs + ys) == FoldLeft(f, FoldLeft(f, start, xs), ys)
  {
    if ys == [] {
      assert xs + ys == xs;
    } else {
      FoldConcat(f, start, xs, Front(ys));
      assert Front(xs + ys) == xs + Front(ys);
    }
  }
}
