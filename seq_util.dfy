/**
 * The loop shape shared by the batch operations: walk the input in order,
 * append an output for each item that yields one, skip the others.
 */
module SeqUtil {
  import opened Wrappers

  /** The items `f` keeps, transformed, in input order. */
  function FilterMap<A, B>(f: A -> Option<B>, xs: seq<A>): (r: seq<B>)
    ensures |r| <= |xs|
  {
    if xs == [] then []
    else
      var rest := FilterMap(f, xs[..|xs| - 1]);
      match f(xs[|xs| - 1])
      case Some(y) => rest + [y]
      case None => rest
  }

  /** Appending one input item extends the output by that item's image, if any. */
  lemma FilterMapSnoc<A, B>(f: A -> Option<B>, xs: seq<A>, x: A)
    ensures FilterMap(f, xs + [x]) ==
      FilterMap(f, xs) + (match f(x) case Some(y) => [y] case None => [])
  {
    assert (xs + [x])[..|xs + [x]| - 1] == xs;
  }

  /** Taking one more item of `s` appends that item. */
  lemma TakeSnoc<T>(s: seq<T>, n: nat)
    requires n < |s|
    ensures s[..n + 1] == s[..n] + [s[n]]
  {
  }

  /** Taking every item of `s` gives `s`. */
  lemma TakeAll<T>(s: seq<T>)
    ensures s[..|s|] == s
  {
  }

  /** One step of a loop over `xs`: the output for the first i + 1 items extends that for the first i. */
  lemma FilterMapPrefix<A, B>(f: A -> Option<B>, xs: seq<A>, i: nat)
    requires i < |xs|
    ensures FilterMap(f, xs[..i + 1]) ==
      FilterMap(f, xs[..i]) + (match f(xs[i]) case Some(y) => [y] case None => [])
  {
    FilterMapSnoc(f, xs[..i], xs[i]);
    assert xs[..i + 1] == xs[..i] + [xs[i]];
  }

  /** The index map of FilterMapIndices never goes backwards. */
  ghost predicate StrictlyIncreasing(idx: seq<nat>)
  {
    forall i, j :: 0 <= i < j < |idx| ==> idx[i] < idx[j]
  }

  /**
   * FilterMap keeps the input order and drops exactly the items `f` rejects:
   * the k-th output comes from the idx[k]-th input, the indices increase, and
   * every input index not listed is one that `f` maps to None.
   */
  lemma {:induction false} FilterMapIndices<A, B>(f: A -> Option<B>, xs: seq<A>) returns (idx: seq<nat>)
    ensures |idx| == |FilterMap(f, xs)|
    ensures StrictlyIncreasing(idx)
    ensures forall k :: 0 <= k < |idx| ==> idx[k] < |xs| && f(xs[idx[k]]) == Some(FilterMap(f, xs)[k])
    ensures forall i :: 0 <= i < |xs| && i !in idx ==> f(xs[i]).None?
  {
    if xs == [] {
      idx := [];
    } else {
      var n := |xs| - 1;
      var init := xs[..n];
      var sub := FilterMapIndices(f, init);
      assert xs == init + [xs[n]];
      FilterMapSnoc(f, init, xs[n]);
      match f(xs[n])
      case Some(y) =>
        idx := sub + [n];
        forall k | 0 <= k < |idx|
          ensures idx[k] < |xs| && f(xs[idx[k]]) == Some(FilterMap(f, xs)[k])
        {
          if k < |sub| {
            assert xs[idx[k]] == init[sub[k]];
          }
        }
      case None =>
        idx := sub;
        forall k | 0 <= k < |idx|
          ensures idx[k] < |xs| && f(xs[idx[k]]) == Some(FilterMap(f, xs)[k])
        {
          assert xs[idx[k]] == init[sub[k]];
        }
    }
  }

  /** When `f` keeps every item, FilterMap is a one-to-one map. */
  lemma {:induction false} FilterMapTotal<A, B>(f: A -> Option<B>, xs: seq<A>)
    requires forall i :: 0 <= i < |xs| ==> f(xs[i]).Some?
    ensures |FilterMap(f, xs)| == |xs|
    ensures forall i :: 0 <= i < |xs| ==> f(xs[i]) == Some(FilterMap(f, xs)[i])
  {
    if xs != [] {
      var n := |xs| - 1;
      FilterMapTotal(f, xs[..n]);
      assert xs == xs[..n] + [xs[n]];
      FilterMapSnoc(f, xs[..n], xs[n]);
      forall i | 0 <= i < n ensures f(xs[i]) == Some(FilterMap(f, xs)[i]) {
        assert xs[i] == xs[..n][i];
      }
    }
  }
}
