/** First-match search, shared by `list.index` (the select default) and by
    `df[df[col] == x].index[0]` (the vendor lookup). */
module Search {
  import opened Wrappers

  /** Position of the first element of `xs` equal to `x`; `None` when there is
      none, which is where Python raises (`ValueError` from `list.index`,
      `IndexError` from `.index[0]` of an empty selection). */
  function FirstIndex<T(==)>(xs: seq<T>, x: T): (r: Option<nat>)
    ensures r.None? <==> x !in xs
    ensures r.Some? ==> r.value < |xs| && xs[r.value] == x
    ensures r.Some? ==> forall j :: 0 <= j < r.value ==> xs[j] != x
  {
    if xs == [] then None
    else if xs[0] == x then Some(0)
    else
      match FirstIndex(xs[1..], x)
      case None => None
      case Some(i) => Some(i + 1)
  }
}
