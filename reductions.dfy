/** Small stock datatypes shared by the two policies. */
module Wrappers {

  /**
   * An optional value: Python's `None` where a field is not yet set, or, as a
   * result, a numpy call that raises instead of returning a value.
   */
  datatype Option<+T> = None | Some(value: T)
}

/**
 * Two numpy reductions, stated on one row of reals: the row `sum` the
 * planner uses and the first-index `argmax` both policies use.
 */
module Reductions {

  /**
   * The sum of a row, accumulated left to right. `ndarray.sum` adds pairwise,
   * which gives the same value over exact reals.
   */
  function Sum(xs: seq<real>): real
  {
    if xs == [] then 0.0 else Sum(xs[..|xs| - 1]) + xs[|xs| - 1]
  }

  /** A row whose entries all equal `v` sums to `|xs| * v`. */
  lemma {:induction false} SumOfConstantRow(xs: seq<real>, v: real)
    requires forall i :: 0 <= i < |xs| ==> xs[i] == v
    ensures Sum(xs) == |xs| as real * v
  {
    if xs != [] {
      SumOfConstantRow(xs[..|xs| - 1], v);
    }
  }

  /** Entry-wise `lo <= xs[i]` gives `|xs| * lo <= Sum(xs)`, and likewise for an upper bound. */
  lemma {:induction false} SumBounds(xs: seq<real>, lo: real, hi: real)
    requires forall i :: 0 <= i < |xs| ==> lo <= xs[i] <= hi
    ensures |xs| as real * lo <= Sum(xs) <= |xs| as real * hi
  {
    if xs != [] {
      SumBounds(xs[..|xs| - 1], lo, hi);
    }
  }

  /** `k` holds the largest value of `xs`, and no earlier index holds that value. */
  predicate IsFirstMax(xs: seq<real>, k: nat)
  {
    k < |xs| &&
    (forall j :: 0 <= j < |xs| ==> xs[j] <= xs[k]) &&
    (forall j :: 0 <= j < k ==> xs[j] < xs[k])
  }

  /**
   * `ndarray.argmax` on one row: scanning left to right, an entry replaces the
   * best so far only when it is strictly larger, so ties keep the first index.
   * numpy raises on an empty row; callers handle that case before calling.
   */
  function ArgMax(xs: seq<real>): (k: nat)
    requires xs != []
    ensures IsFirstMax(xs, k)
  {
    if |xs| == 1 then 0
    else
      var best := ArgMax(xs[..|xs| - 1]);
      if xs[|xs| - 1] > xs[best] then |xs| - 1 else best
  }

  /** At most one index is the first maximum of a row, so `ArgMax` is the only one. */
  lemma FirstMaxIsArgMax(xs: seq<real>, k: nat)
    requires xs != []
    ensures IsFirstMax(xs, k) <==> k == ArgMax(xs)
  {
  }
}
