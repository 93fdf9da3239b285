/**
 * Backend utilities (backend/utils.py): the lake bounding box used by the API
 * and the summary statistics of a list of samples, where a NaN sample is
 * modelled as `None` and removed before anything is computed.
 */
module BackendUtils {
  import opened Common
  import FrontendHelpers

  // ---------------------------------------------------------------------------
  // validate_coordinates
  // ---------------------------------------------------------------------------

  const LatMin: real := -17.3
  const LatMax: real := -15.4
  const LonMin: real := -70.3
  const LonMax: real := -68.4

  function ValidateCoordinates(lat: real, lon: real): (r: bool)
    ensures r <==> LatMin <= lat <= LatMax && LonMin <= lon <= LonMax
  {
    (LatMin <= lat <= LatMax) && (LonMin <= lon <= LonMax)
  }

  /**
   * The backend box lies inside the dashboard's box: every point the backend
   * accepts the dashboard accepts too, but not the other way round.
   */
  lemma BackendBoxInsideDashboardBox(lat: real, lon: real)
    ensures ValidateCoordinates(lat, lon) ==> FrontendHelpers.ValidateCoordinates(lat, lon)
    ensures FrontendHelpers.ValidateCoordinates(-17.4, -69.0) && !ValidateCoordinates(-17.4, -69.0)
  {
  }

  // ---------------------------------------------------------------------------
  // calculate_statistics
  // ---------------------------------------------------------------------------

  /** The samples that are not NaN, in their original order. */
  function Clean(values: seq<Option<real>>): (r: seq<real>)
    ensures forall x :: x in r <==> Some(x) in values
    ensures |r| + multiset(values)[None] == |values|
    ensures forall x :: multiset(r)[x] == multiset(values)[Some(x)]
  {
    if |values| == 0 then []
    else
      assert values == [values[0]] + values[1..];
      (if values[0].Some? then [values[0].value] else []) + Clean(values[1..])
  }

  function Sum(s: seq<real>): real
  {
    if |s| == 0 then 0.0 else s[0] + Sum(s[1..])
  }

  function Min(s: seq<real>): (r: real)
    requires |s| > 0
    ensures r in s && forall x :: x in s ==> r <= x
  {
    if |s| == 1 then s[0]
    else
      var m := Min(s[1..]);
      assert forall x :: x in s ==> x == s[0] || x in s[1..];
      if s[0] <= m then s[0] else m
  }

  function Max(s: seq<real>): (r: real)
    requires |s| > 0
    ensures r in s && forall x :: x in s ==> x <= r
  {
    if |s| == 1 then s[0]
    else
      var m := Max(s[1..]);
      assert forall x :: x in s ==> x == s[0] || x in s[1..];
      if s[0] >= m then s[0] else m
  }

  /** Sum of squared deviations from `mean`. */
  function SquaredDeviations(s: seq<real>, mean: real): (r: real)
    ensures r >= 0.0
  {
    if |s| == 0 then 0.0
    else
      var d := s[0] - mean;
      assert d * d >= 0.0 by { if d < 0.0 { assert d * d == (-d) * (-d); } }
      d * d + SquaredDeviations(s[1..], mean)
  }

  /** Every element lies between `lo` and `hi`, so the sum lies between n * lo and n * hi. */
  lemma {:induction false} SumBounds(s: seq<real>, lo: real, hi: real)
    requires forall x :: x in s ==> lo <= x <= hi
    ensures |s| as real * lo <= Sum(s) <= |s| as real * hi
    decreases |s|
  {
    if |s| > 0 {
      assert s[0] in s && lo <= s[0] <= hi;
      assert forall x :: x in s[1..] ==> x in s;
      SumBounds(s[1..], lo, hi);
      assert Sum(s) == s[0] + Sum(s[1..]);
      assert |s| as real * lo == lo + (|s| - 1) as real * lo;
      assert |s| as real * hi == hi + (|s| - 1) as real * hi;
    }
  }

  lemma QuotientBetween(total: real, n: real, lo: real, hi: real)
    requires n > 0.0 && n * lo <= total <= n * hi
    ensures lo <= total / n <= hi
  {
  }

  lemma QuotientFacts(total: real, n: real)
    requires n > 0.0
    ensures (total / n) * n == total
    ensures total >= 0.0 ==> total / n >= 0.0
  {
  }

  /** The mean of a non-empty list lies between any lower and upper bound of its elements. */
  lemma MeanBetween(s: seq<real>, lo: real, hi: real)
    requires |s| > 0
    requires forall x :: x in s ==> lo <= x <= hi
    ensures lo <= Sum(s) / |s| as real <= hi
  {
    SumBounds(s, lo, hi);
    QuotientBetween(Sum(s), |s| as real, lo, hi);
  }

  /** numpy's population statistics; `variance` is the square of `np.std`. */
  datatype Stats = Stats(mean: Option<real>, variance: Option<real>, min: Option<real>,
                         max: Option<real>, count: nat)

  function CalculateStatistics(values: seq<Option<real>>): (r: Stats)
    ensures r.count == |Clean(values)| == |values| - multiset(values)[None]
    ensures r.count == 0 <==> r == Stats(None, None, None, None, 0)
    ensures r.count > 0 ==> r.mean.Some? && r.variance.Some? && r.min.Some? && r.max.Some?
    ensures r.count > 0 ==> Some(r.min.value) in values && Some(r.max.value) in values
    ensures r.count > 0 ==> r.min.value <= r.mean.value <= r.max.value
    ensures r.count > 0 ==> forall x :: Some(x) in values ==> r.min.value <= x <= r.max.value
    ensures r.count > 0 ==> r.variance.value >= 0.0
    ensures r.count > 0 ==> r.mean.value == Sum(Clean(values)) / r.count as real
  {
    var clean := Clean(values);
    if |clean| == 0 then
      Stats(None, None, None, None, 0)
    else
      var n, total := |clean| as real, Sum(clean);
      var lo, hi := Min(clean), Max(clean);
      MeanBetween(clean, lo, hi);
      QuotientFacts(total, n);
      QuotientFacts(SquaredDeviations(clean, total / n), n);
      Stats(Some(total / n), Some(SquaredDeviations(clean, total / n) / n), Some(lo), Some(hi), |clean|)
  }
}
