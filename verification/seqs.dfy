/** Searching a list: `findIndex` and `find`. */
module Seqs {
  import opened Wrappers

  /** The first position at or after `k` whose element satisfies `p`. */
  function FirstIndexFrom<T>(xs: seq<T>, p: T -> bool, k: nat): (r: Option<nat>)
    ensures r.Some? ==> k <= r.value < |xs| && p(xs[r.value])
    ensures r.Some? ==> forall j :: k <= j < r.value ==> !p(xs[j])
    ensures r.None? ==> forall j :: k <= j < |xs| ==> !p(xs[j])
    decreases |xs| - k
  {
    if k >= |xs| then None
    else if p(xs[k]) then Some(k)
    else FirstIndexFrom(xs, p, k + 1)
  }

  /** `xs.findIndex(p)`, with None for -1. */
  function FirstIndex<T>(xs: seq<T>, p: T -> bool): (r: Option<nat>)
    ensures r.Some? ==> r.value < |xs| && p(xs[r.value])
    ensures r.Some? ==> forall j :: 0 <= j < r.value ==> !p(xs[j])
    ensures r.None? <==> forall j :: 0 <= j < |xs| ==> !p(xs[j])
  {
    FirstIndexFrom(xs, p, 0)
  }

  /** `xs.find(p)`, with None for undefined: the first element satisfying
      `p`. */
  function Find<T>(xs: seq<T>, p: T -> bool): (r: Option<T>)
    ensures r.None? <==> forall j :: 0 <= j < |xs| ==> !p(xs[j])
    ensures r.Some? ==>
      exists i :: 0 <= i < |xs| && xs[i] == r.value && p(xs[i]) && forall j :: 0 <= j < i ==> !p(xs[j])
  {
    match FirstIndex(xs, p)
    case None => None
    case Some(i) => Some(xs[i])
  }
}
