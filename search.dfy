/** First-match search over an ordered sequence: the shape shared by every
    `for ... : if ...: return` / `break` loop of the pipeline, where
    declaration order decides which candidate wins. */
module Search {

  import opened Outcomes

  /** Index of the first element satisfying `p`, if any. */
  function FirstWhere<T>(xs: seq<T>, p: T -> bool): (r: Option<nat>)
    ensures r.None? <==> forall k :: 0 <= k < |xs| ==> !p(xs[k])
    ensures r.Some? ==> r.value < |xs| && p(xs[r.value])
    ensures r.Some? ==> forall k :: 0 <= k < r.value ==> !p(xs[k])
  {
    if xs == [] then None
    else if p(xs[0]) then Some(0)
    else match FirstWhere(xs[1..], p)
      case None => None
      case Some(i) => Some(i + 1)
  }

  /** The first-match index is determined by the two facts the loops establish:
      the element matches and nothing before it does. */
  lemma FirstWhereUnique<T>(xs: seq<T>, p: T -> bool, i: nat)
    requires i < |xs| && p(xs[i])
    requires forall k :: 0 <= k < i ==> !p(xs[k])
    ensures FirstWhere(xs, p) == Some(i)
  {
  }
}
