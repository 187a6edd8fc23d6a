/** Linear search, as Python's `list.index` performs it. */
module Seqs {
  import opened Wrappers

  /**
   * The position of the first occurrence of `x` in `xs`, or `None` where
   * `list.index` would raise `ValueError`.
   */
  function IndexOf<T(==)>(xs: seq<T>, x: T): (r: Option<nat>)
    ensures r.None? <==> x !in xs
    ensures r.Some? ==> r.value < |xs| && xs[r.value] == x
    ensures r.Some? ==> forall j :: 0 <= j < r.value ==> xs[j] != x
  {
    if xs == [] then None
    else if xs[0] == x then Some(0)
    else
      match IndexOf(xs[1..], x)
      case None => None
      case Some(i) => Some(i + 1)
  }
}
