/** Sequence helpers behind the listing post-filters (`slices.Contains` in a
  loop that appends the items it keeps), the first-match lookup of a labelled
  listing, and the map-based de-duplication of namespaces. */
module Seqs {

  import opened Wrappers

  /** `a` can be obtained from `b` by deleting elements, keeping the order of
    the rest. Matching greedily from the end is complete for this relation. */
  predicate IsSubsequence<T(==)>(a: seq<T>, b: seq<T>)
    decreases |b|
  {
    if |a| == 0 then true
    else if |b| == 0 then false
    else if a[|a| - 1] == b[|b| - 1] then IsSubsequence(a[..|a| - 1], b[..|b| - 1])
    else IsSubsequence(a, b[..|b| - 1])
  }

  /** `r` holds exactly the elements of `xs` that `keep` accepts, each as often
    as in `xs`, in the order of `xs`. */
  ghost predicate IsFilterOf<T(!new)>(r: seq<T>, xs: seq<T>, keep: T -> bool) {
    && (forall x :: multiset(r)[x] == (if keep(x) then multiset(xs)[x] else 0))
    && IsSubsequence(r, xs)
  }

  /** The elements of `xs` that `keep` accepts, in order: the loop
    `for i := range xs { if keep(xs[i]) { out = append(out, xs[i]) } }`. */
  function Filter<T(==,!new)>(xs: seq<T>, keep: T -> bool): (r: seq<T>)
    ensures IsFilterOf(r, xs, keep)
    ensures |r| <= |xs|
    decreases |xs|
  {
    if |xs| == 0 then []
    else
      var init := xs[..|xs| - 1];
      var last := xs[|xs| - 1];
      assert xs == init + [last];
      var kept := Filter(init, keep);
      if keep(last) then
        assert (kept + [last])[..|kept|] == kept;
        kept + [last]
      else
        assert last in multiset(kept) ==> last in kept;
        kept
  }

  /** Whatever the filter keeps satisfies the predicate and came from the
    input. */
  lemma FilterMembership<T(!new)>(xs: seq<T>, keep: T -> bool, x: T)
    ensures x in Filter(xs, keep) <==> x in xs && keep(x)
  {
  }

  /** Filtering distributes over concatenation: items of an earlier part of
    the listing stay ahead of items of a later part. */
  lemma {:induction false} FilterAppend<T(!new)>(a: seq<T>, b: seq<T>, keep: T -> bool)
    ensures Filter(a + b, keep) == Filter(a, keep) + Filter(b, keep)
    decreases |b|
  {
    if |b| == 0 {
      assert a + b == a;
    } else {
      var b' := b[..|b| - 1];
      assert (a + b)[..|a + b| - 1] == a + b';
      assert (a + b)[|a + b| - 1] == b[|b| - 1];
      FilterAppend(a, b', keep);
    }
  }

  /** A filter that accepts every item keeps the sequence whole. */
  lemma {:induction false} FilterKeepsAll<T(!new)>(xs: seq<T>, keep: T -> bool)
    requires forall i :: 0 <= i < |xs| ==> keep(xs[i])
    ensures Filter(xs, keep) == xs
    decreases |xs|
  {
    if |xs| > 0 {
      FilterKeepsAll(xs[..|xs| - 1], keep);
      assert xs[..|xs| - 1] + [xs[|xs| - 1]] == xs;
    }
  }

  /** Two predicates that agree on every item filter a sequence the same
    way. */
  lemma {:induction false} FilterAgreesOnAgreeingItems<T(!new)>(xs: seq<T>, p: T -> bool, q: T -> bool)
    requires forall i :: 0 <= i < |xs| ==> p(xs[i]) == q(xs[i])
    ensures Filter(xs, p) == Filter(xs, q)
    decreases |xs|
  {
    if |xs| > 0 {
      FilterAgreesOnAgreeingItems(xs[..|xs| - 1], p, q);
    }
  }

  /** The position of the first element `keep` accepts, if any. */
  function FirstIndex<T>(xs: seq<T>, keep: T -> bool): (r: Option<nat>)
    ensures r.Some? ==> r.value < |xs| && keep(xs[r.value])
    ensures r.Some? ==> forall j :: 0 <= j < r.value ==> !keep(xs[j])
    ensures r.None? <==> forall j :: 0 <= j < |xs| ==> !keep(xs[j])
    decreases |xs|
  {
    if |xs| == 0 then None
    else if keep(xs[0]) then Some(0)
    else
      match FirstIndex(xs[1..], keep)
      case None => None
      case Some(i) => Some(i + 1)
  }

  /** `xs` with later repeats dropped, as the keys of the Go map the namespace
    listings collect. */
  function Distinct<T(==,!new)>(xs: seq<T>): (r: seq<T>)
    ensures forall x :: x in r <==> x in xs
    ensures forall i, j :: 0 <= i < j < |r| ==> r[i] != r[j]
    decreases |xs|
  {
    if |xs| == 0 then []
    else
      var init := xs[..|xs| - 1];
      var last := xs[|xs| - 1];
      assert xs == init + [last];
      var d := Distinct(init);
      if last in d then d else d + [last]
  }
}
