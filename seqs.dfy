/** Searches over sequences shared by the stores of the model. */
module Seqs {
  import opened Wrappers

  /**
   * The position of the first element satisfying `p`, or None when none does:
   * the `FirstOrDefault`, `SingleOrDefault` and `First` lookups of the stores.
   */
  function FirstIndex<T>(s: seq<T>, p: T -> bool): (r: Option<nat>)
    ensures r.Some? ==> r.value < |s| && p(s[r.value])
    ensures r.Some? ==> forall j :: 0 <= j < r.value ==> !p(s[j])
    ensures r.None? <==> forall j :: 0 <= j < |s| ==> !p(s[j])
  {
    if |s| == 0 then None
    else if p(s[0]) then Some(0)
    else match FirstIndex(s[1..], p)
      case None => None
      case Some(k) => Some(k + 1)
  }
}
