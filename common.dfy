/** Small shared vocabulary: an optional value and the left fold
    `xs.reduce((sum, x) => sum + f(x), 0)` that every summary card uses. */
module Common {

  datatype Option<T> = None | Some(value: T)

  /** `xs.reduce((sum, x) => sum + measure(x), 0)`: a fold from the left,
      so the last element is the one added last. */
  function Sum<T>(xs: seq<T>, measure: T -> int): int
  {
    if xs == [] then 0 else Sum(xs[..|xs| - 1], measure) + measure(xs[|xs| - 1])
  }

  /** The fold distributes over concatenation. */
  lemma {:induction false} SumConcat<T>(xs: seq<T>, ys: seq<T>, measure: T -> int)
    ensures Sum(xs + ys, measure) == Sum(xs, measure) + Sum(ys, measure)
  {
    if ys == [] {
      assert xs + ys == xs;
    } else {
      var init := ys[..|ys| - 1];
      assert (xs + ys)[..|xs + ys| - 1] == xs + init;
      assert (xs + ys)[|xs + ys| - 1] == ys[|ys| - 1];
      SumConcat(xs, init, measure);
    }
  }

  /** Putting an element in front adds exactly its measure. */
  lemma SumPrepend<T>(x: T, xs: seq<T>, measure: T -> int)
    ensures Sum([x] + xs, measure) == measure(x) + Sum(xs, measure)
  {
    SumConcat([x], xs, measure);
    assert [x][..0] == [];
  }

  /** A sum of non-negative measures is non-negative. */
  lemma {:induction false} SumNonNegative<T>(xs: seq<T>, measure: T -> int)
    requires forall i :: 0 <= i < |xs| ==> measure(xs[i]) >= 0
    ensures Sum(xs, measure) >= 0
  {
    if xs != [] {
      var init := xs[..|xs| - 1];
      assert forall i :: 0 <= i < |init| ==> init[i] == xs[i];
      SumNonNegative(init, measure);
    }
  }

  /** When every measure lies in [lo, hi], the sum lies in [lo*n, hi*n]. */
  lemma {:induction false} SumBounds<T>(xs: seq<T>, measure: T -> int, lo: int, hi: int)
    requires forall i :: 0 <= i < |xs| ==> lo <= measure(xs[i]) <= hi
    ensures lo * |xs| <= Sum(xs, measure) <= hi * |xs|
  {
    if xs != [] {
      var init := xs[..|xs| - 1];
      assert forall i :: 0 <= i < |init| ==> init[i] == xs[i];
      SumBounds(init, measure, lo, hi);
      assert lo * |xs| == lo * |init| + lo;
      assert hi * |xs| == hi * |init| + hi;
    }
  }

  /** Two lists that differ at one position only have sums that differ by
      the change of measure at that position. */
  lemma {:induction false} SumReplaceAt<T>(xs: seq<T>, ys: seq<T>, k: nat, measure: T -> int)
    requires |xs| == |ys| && k < |xs|
    requires forall j :: 0 <= j < |xs| && j != k ==> xs[j] == ys[j]
    ensures Sum(ys, measure) == Sum(xs, measure) + measure(ys[k]) - measure(xs[k])
  {
    var n := |xs|;
    if k == n - 1 {
      assert xs[..n - 1] == ys[..n - 1];
    } else {
      SumReplaceAt(xs[..n - 1], ys[..n - 1], k, measure);
    }
  }
}
