/** The first-match search every `find_column` version runs over the header. */
module Search {
  import opened Common

  /**
   * The index a `for col in columns: if matches(col): return col` loop stops
   * at, or `None` when the loop runs to the end.
   */
  function FirstIndex<T>(xs: seq<T>, matches: T -> bool): (r: Option<nat>)
    ensures r.Some? ==> r.value < |xs| && matches(xs[r.value])
    ensures r.Some? ==> forall k :: 0 <= k < r.value ==> !matches(xs[k])
    ensures r.None? ==> forall k :: 0 <= k < |xs| ==> !matches(xs[k])
  {
    if xs == [] then None
    else if matches(xs[0]) then Some(0)
    else match FirstIndex(xs[1..], matches)
      case None => None
      case Some(i) => Some(i + 1)
  }
}
