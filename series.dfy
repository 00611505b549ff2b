/** The pandas Series operations the dashboard relies on (`sum`, `mean`,
    `abs`, `clip`, `idxmin`, `idxmax`), over exact reals.  A column is a
    `seq<real>`; its index is the default 0..n-1 range, so an index label is
    a position. */
module Series {
  import opened Wrappers

  /** `Series.sum`: the column added up from first to last; 0 when empty.
      Its properties are the lemmas `SumDifference`, `SumAtLeast` and
      `SumAtMost` below. */
  function Sum(xs: seq<real>): real
  {
    if xs == [] then 0.0 else Sum(xs[..|xs| - 1]) + xs[|xs| - 1]
  }

  /** Python's `abs` on one value. */
  function Abs(x: real): (r: real)
    ensures r >= 0.0
    ensures r == x || r == -x
  {
    if x < 0.0 then -x else x
  }

  /** `Series.abs`: the absolute value of every element, order kept. */
  function AbsAll(xs: seq<real>): (r: seq<real>)
    ensures |r| == |xs|
    ensures forall i :: 0 <= i < |xs| ==> r[i] == Abs(xs[i])
  {
    seq(|xs|, i requires 0 <= i < |xs| => Abs(xs[i]))
  }

  /** `Series.clip(lower, upper)` on one value: the nearest point of
      [lower, upper]. */
  function Clip(x: real, lower: real, upper: real): (r: real)
    requires lower <= upper
    ensures lower <= r <= upper
    ensures lower <= x <= upper ==> r == x
    ensures x < lower ==> r == lower
    ensures upper < x ==> r == upper
  {
    if x < lower then lower else if upper < x then upper else x
  }

  /** `Series.mean`: `None` is the NaN pandas gives for an empty column. */
  function Mean(xs: seq<real>): (r: Option<real>)
    ensures r.Some? <==> |xs| > 0
    ensures r.Some? ==> r.value * |xs| as real == Sum(xs)
  {
    if xs == [] then None else Some(Sum(xs) / |xs| as real)
  }

  /** `k` is the first position holding the smallest element. */
  ghost predicate IsFirstMin(xs: seq<real>, k: int)
  {
    0 <= k < |xs| &&
    (forall j :: 0 <= j < |xs| ==> xs[k] <= xs[j]) &&
    (forall j :: 0 <= j < k ==> xs[k] < xs[j])
  }

  /** `k` is the first position holding the largest element. */
  ghost predicate IsFirstMax(xs: seq<real>, k: int)
  {
    0 <= k < |xs| &&
    (forall j :: 0 <= j < |xs| ==> xs[j] <= xs[k]) &&
    (forall j :: 0 <= j < k ==> xs[j] < xs[k])
  }

  /** `Series.idxmin`: where several elements tie for the minimum, the
      first of them. */
  function IdxMin(xs: seq<real>): (k: nat)
    requires |xs| > 0
    ensures IsFirstMin(xs, k)
  {
    if |xs| == 1 then 0
    else
      var k := IdxMin(xs[..|xs| - 1]);
      if xs[|xs| - 1] < xs[k] then |xs| - 1 else k
  }

  /** `Series.idxmax`: where several elements tie for the maximum, the
      first of them. */
  function IdxMax(xs: seq<real>): (k: nat)
    requires |xs| > 0
    ensures IsFirstMax(xs, k)
  {
    if |xs| == 1 then 0
    else
      var k := IdxMax(xs[..|xs| - 1]);
      if xs[k] < xs[|xs| - 1] then |xs| - 1 else k
  }

  /** "The first minimum" names exactly one position, so `IdxMin` is the
      only function meeting its contract. */
  lemma FirstMinIsUnique(xs: seq<real>, k1: int, k2: int)
    requires IsFirstMin(xs, k1) && IsFirstMin(xs, k2)
    ensures k1 == k2
  {
    assert xs[k1] == xs[k2];
  }

  /** "The first maximum" names exactly one position, so `IdxMax` is the
      only function meeting its contract. */
  lemma FirstMaxIsUnique(xs: seq<real>, k1: int, k2: int)
    requires IsFirstMax(xs, k1) && IsFirstMax(xs, k2)
    ensures k1 == k2
  {
    assert xs[k1] == xs[k2];
  }

  /** The sum of a two-element column. */
  lemma SumOfTwo(a: real, b: real)
    ensures Sum([a, b]) == a + b
  {
    assert [a, b][..1] == [a];
    assert [a][..0] == [];
    assert Sum([a]) == a;
  }

  /** The sum of element-wise differences is the difference of the sums. */
  lemma {:induction false} SumDifference(xs: seq<real>, ys: seq<real>, zs: seq<real>)
    requires |ys| == |xs| && |zs| == |xs|
    requires forall i :: 0 <= i < |xs| ==> zs[i] == xs[i] - ys[i]
    ensures Sum(zs) == Sum(xs) - Sum(ys)
  {
    if xs != [] {
      var n := |xs| - 1;
      SumDifference(xs[..n], ys[..n], zs[..n]);
    }
  }

  /** A column whose elements are all at least lo sums to at least n*lo. */
  lemma {:induction false} SumAtLeast(xs: seq<real>, lo: real)
    requires forall i :: 0 <= i < |xs| ==> lo <= xs[i]
    ensures lo * |xs| as real <= Sum(xs)
  {
    if xs != [] {
      SumAtLeast(xs[..|xs| - 1], lo);
    }
  }

  /** A column whose elements are all at most hi sums to at most n*hi. */
  lemma {:induction false} SumAtMost(xs: seq<real>, hi: real)
    requires forall i :: 0 <= i < |xs| ==> xs[i] <= hi
    ensures Sum(xs) <= hi * |xs| as real
  {
    if xs != [] {
      SumAtMost(xs[..|xs| - 1], hi);
    }
  }

  /** The mean of a non-empty column whose elements lie in [lo, hi] lies in
      [lo, hi]. */
  lemma MeanBounds(xs: seq<real>, lo: real, hi: real)
    requires |xs| > 0
    requires forall i :: 0 <= i < |xs| ==> lo <= xs[i] <= hi
    ensures lo <= Mean(xs).value <= hi
  {
    SumAtLeast(xs, lo);
    SumAtMost(xs, hi);
    var n := |xs| as real;
    var m := Mean(xs).value;
    assert m == Sum(xs) / n;
  }
}
