/**
 * Result shaping in the backend's service layer (backend/services.py,
 * class GEEService): the statistics summary, the time-series points, the
 * risk-zone histogram and the look-back period handed to the processor.
 * The remote service's replies are plain input values here.
 */
module BackendServices {
  import opened Common
  import opened StringOrder
  import GeeProcessor

  // ---------------------------------------------------------------------------
  // get_latest_image_data
  // ---------------------------------------------------------------------------

  /** The arguments handed to `process_latest`. */
  datatype ProcessArgs = ProcessArgs(months: int, cloudCoverage: int, days: Option<int>)

  /** `months or 6` is passed on; `cloud_coverage` and `days` unchanged. */
  function LatestImageArgs(months: Option<int>, cloudCoverage: int, days: Option<int>): (r: ProcessArgs)
    ensures r.months == (if months.Some? && months.value != 0 then months.value else 6)
    ensures r.cloudCoverage == cloudCoverage && r.days == days
  {
    ProcessArgs(OrElse(months, 6), cloudCoverage, days)
  }

  /**
   * The look-back window the processor ends up using: `days` when truthy,
   * otherwise 30 days per month, six months when `months` is missing or zero.
   * The `/latest` route first replaces `months` by `None if days else (months or 6)`
   * (backend/main.py:129); that changes nothing here.
   */
  lemma LatestPeriod(months: Option<int>, cloudCoverage: int, days: Option<int>)
    ensures var a := LatestImageArgs(months, cloudCoverage, days);
            GeeProcessor.PeriodDays(a.months, a.days)
            == if Truthy(days) then days.value else OrElse(months, 6) * 30
    ensures var routed := if Truthy(days) then None else Some(OrElse(months, 6));
            var a := LatestImageArgs(routed, cloudCoverage, days);
            GeeProcessor.PeriodDays(a.months, a.days)
            == GeeProcessor.PeriodDays(LatestImageArgs(months, cloudCoverage, days).months, days)
  {
  }

  // ---------------------------------------------------------------------------
  // calculate_risk_zones (post-processing and fallback)
  // ---------------------------------------------------------------------------

  /**
   * What the frequency-histogram reduction yields: it raised, or the reply
   * dictionary, in which a band may map to a histogram or to JSON null.
   */
  datatype HistogramReply = Raised | Reply(bands: map<string, Option<map<string, real>>>)

  /** Python's `int(v)` on a float: truncation toward zero. */
  function TruncateToInt(v: real): (r: int)
    ensures v >= 0.0 ==> r as real <= v < r as real + 1.0
    ensures v < 0.0 ==> r as real - 1.0 < v <= r as real
  {
    if v >= 0.0 then v.Floor else -((-v).Floor)
  }

  /** The counts returned when the computation fails. */
  const FallbackZones: map<string, int> := map["1" := 0, "2" := 0, "3" := 0]

  /**
   * Risk-level histogram with stringified keys and integer counts. Histogram
   * keys arrive as strings, so `str(k)` leaves them as they are. A missing
   * band gives an empty histogram; a failure, including `.items()` on null,
   * gives zero counts for the three levels.
   */
  function RiskZones(reply: HistogramReply): (r: map<string, int>)
    ensures reply.Raised? ==> r == FallbackZones
    ensures reply.Reply? && "Risk_Level" !in reply.bands ==> r == map[]
    ensures reply.Reply? && "Risk_Level" in reply.bands && reply.bands["Risk_Level"].None? ==> r == FallbackZones
    ensures reply.Reply? && "Risk_Level" in reply.bands && reply.bands["Risk_Level"].Some? ==>
              var h := reply.bands["Risk_Level"].value;
              r.Keys == h.Keys && forall k :: k in h ==> r[k] == TruncateToInt(h[k])
  {
    match reply
    case Raised => FallbackZones
    case Reply(bands) =>
      var zones := if "Risk_Level" in bands then bands["Risk_Level"] else Some(map[]);
      match zones
      case None => FallbackZones
      case Some(h) => map k | k in h :: TruncateToInt(h[k])
  }

  /** Non-negative pixel counts stay non-negative and lose less than one pixel. */
  lemma RiskZoneCountsNonNegative(reply: HistogramReply)
    requires reply.Reply? && "Risk_Level" in reply.bands && reply.bands["Risk_Level"].Some?
    requires forall k :: k in reply.bands["Risk_Level"].value ==> reply.bands["Risk_Level"].value[k] >= 0.0
    ensures forall k :: k in RiskZones(reply) ==>
              0 <= RiskZones(reply)[k]
              && RiskZones(reply)[k] as real <= reply.bands["Risk_Level"].value[k]
              < RiskZones(reply)[k] as real + 1.0
  {
  }

  // ---------------------------------------------------------------------------
  // parse_time_series
  // ---------------------------------------------------------------------------

  /** The `properties` of one feature of the time-series collection. */
  datatype Properties = Properties(date: Option<string>, ndwi: Option<real>, ndci: Option<real>,
                                   ciGreen: Option<real>, turbidity: Option<real>, chlaApprox: Option<real>)

  /** A feature; `None` when it has no `properties` entry. */
  datatype Feature = Feature(properties: Option<Properties>)

  /** The time-series reply; `None` when it has no `features` entry. */
  datatype TimeSeriesData = TimeSeriesData(features: Option<seq<Feature>>)

  datatype TimeSeriesPoint = TimeSeriesPoint(date: string, ndwi: Option<real>, ndci: Option<real>,
                                             ciGreen: Option<real>, turbidity: Option<real>,
                                             chlaApprox: Option<real>)

  function DateOf(p: TimeSeriesPoint): string { p.date }

  /** One point per feature; a missing date becomes the empty string. */
  function PointOf(f: Feature): (p: TimeSeriesPoint)
    ensures f.properties.None? ==> p == TimeSeriesPoint("", None, None, None, None, None)
    ensures f.properties.Some? ==>
              var q := f.properties.value;
              p == TimeSeriesPoint(q.date.GetOr(""), q.ndwi, q.ndci, q.ciGreen, q.turbidity, q.chlaApprox)
  {
    var props := f.properties.GetOr(Properties(None, None, None, None, None, None));
    TimeSeriesPoint(props.date.GetOr(""), props.ndwi, props.ndci, props.ciGreen,
                    props.turbidity, props.chlaApprox)
  }

  /** The points in feature order, before sorting. */
  function PointsOf(features: seq<Feature>): seq<TimeSeriesPoint>
  {
    if |features| == 0 then [] else [PointOf(features[0])] + PointsOf(features[1..])
  }

  lemma {:induction false} PointsOfAt(features: seq<Feature>)
    ensures |PointsOf(features)| == |features|
    ensures forall j :: 0 <= j < |features| ==> PointsOf(features)[j] == PointOf(features[j])
    decreases |features|
  {
    if |features| > 0 { PointsOfAt(features[1..]); }
  }

  method ParseTimeSeries(tsData: TimeSeriesData) returns (points: seq<TimeSeriesPoint>)
    ensures var features := tsData.features.GetOr([]);
            |points| == |features| && multiset(points) == multiset(PointsOf(features))
    ensures SortedBy(points, DateOf)
    ensures forall d :: WithKey(points, DateOf, d) == WithKey(PointsOf(tsData.features.GetOr([])), DateOf, d)
  {
    var features := tsData.features.GetOr([]);
    var dataPoints: seq<TimeSeriesPoint> := [];
    var i := 0;
    while i < |features|
      invariant 0 <= i <= |features|
      invariant |dataPoints| == i
      invariant forall j :: 0 <= j < i ==> dataPoints[j] == PointOf(features[j])
    {
      dataPoints := dataPoints + [PointOf(features[i])];
      i := i + 1;
    }
    PointsOfAt(features);
    assert dataPoints == PointsOf(features);
    points := StableSort(dataPoints, DateOf);
    StableSortProps(dataPoints, DateOf);
  }

  /** A reply without a `features` entry gives no points. */
  lemma NoFeaturesNoPoints(tsData: TimeSeriesData, points: seq<TimeSeriesPoint>)
    requires tsData.features.None? || tsData.features == Some([])
    requires points == StableSort(PointsOf(tsData.features.GetOr([])), DateOf)
    ensures points == []
  {
  }

  // ---------------------------------------------------------------------------
  // organize_statistics
  // ---------------------------------------------------------------------------

  /** `sub` occurs in `s` starting at position `i`. */
  predicate OccursAt(s: string, sub: string, i: int)
  {
    0 <= i && i + |sub| <= |s| && s[i..i + |sub|] == sub
  }

  /** Python's `sub in s` on strings. */
  function Contains(s: string, sub: string): (r: bool)
    ensures r <==> exists i :: OccursAt(s, sub, i)
    decreases |s|
  {
    if |s| < |sub| then false
    else if s[..|sub|] == sub then
      assert OccursAt(s, sub, 0);
      true
    else
      var r := Contains(s[1..], sub);
      assert r ==> exists i :: OccursAt(s, sub, i) by {
        if r {
          var i :| OccursAt(s[1..], sub, i);
          assert s[1..][i..i + |sub|] == s[i + 1..i + 1 + |sub|];
          assert OccursAt(s, sub, i + 1);
        }
      }
      assert (exists i :: OccursAt(s, sub, i)) ==> r by {
        if exists i :: OccursAt(s, sub, i) {
          var i :| OccursAt(s, sub, i);
          assert i > 0;
          assert s[1..][i - 1..i - 1 + |sub|] == s[i..i + |sub|];
          assert OccursAt(s[1..], sub, i - 1);
        }
      }
      r
  }

  /** The bands whose percentiles are reported, in the source's order. */
  const Bands: seq<string> := ["NDWI", "NDCI", "CI_green", "Turbidity", "TSM", "Chla_approx"]

  /** `stats.get(key, 0)`. */
  function Get(stats: map<string, real>, key: string): real
  {
    if key in stats then stats[key] else 0.0
  }

  /** The three percentiles of one band, defaulting to 0. */
  function BandPercentiles(stats: map<string, real>, band: string): (r: map<string, real>)
    ensures r.Keys == {"p10", "p50", "p90"}
  {
    map["p10" := Get(stats, band + "_p10"), "p50" := Get(stats, band + "_p50"), "p90" := Get(stats, band + "_p90")]
  }

  datatype Organized = Organized(date: string, statistics: map<string, real>,
                                 percentiles: map<string, map<string, real>>)

  method OrganizeStatistics(stats: map<string, real>, date: string) returns (r: Organized)
    ensures r.date == date
    ensures forall k :: k in r.statistics <==> k in stats && Contains(k, "_mean")
    ensures forall k :: k in r.statistics ==> r.statistics[k] == stats[k]
    ensures r.percentiles.Keys == set b | b in Bands
    ensures forall b :: b in r.percentiles ==> r.percentiles[b].Keys == {"p10", "p50", "p90"}
    ensures forall b, p :: b in r.percentiles && p in r.percentiles[b] ==>
              r.percentiles[b][p] == (if b + "_" + p in stats then stats[b + "_" + p] else 0.0)
  {
    var means := map k | k in stats && Contains(k, "_mean") :: stats[k];
    var percentiles: map<string, map<string, real>> := map[];
    var i := 0;
    while i < |Bands|
      invariant 0 <= i <= |Bands|
      invariant percentiles.Keys == set b | b in Bands[..i]
      invariant forall b :: b in percentiles ==> percentiles[b] == BandPercentiles(stats, b)
    {
      percentiles := percentiles[Bands[i] := BandPercentiles(stats, Bands[i])];
      i := i + 1;
    }
    r := Organized(date, means, percentiles);
    assert Bands[..i] == Bands;
    forall b, p | b in r.percentiles && p in r.percentiles[b]
      ensures r.percentiles[b][p] == (if b + "_" + p in stats then stats[b + "_" + p] else 0.0)
    {
      assert p == "p10" || p == "p50" || p == "p90";
      assert b + "_p10" == b + "_" + "p10" && b + "_p50" == b + "_" + "p50" && b + "_p90" == b + "_" + "p90";
    }
  }

  /** "_mean" starts nowhere in "NDCI_p10": its only '_' is followed by 'p'. */
  lemma NotMeanAt(i: int)
    ensures !OccursAt("NDCI_p10", "_mean", i)
  {
    if 0 <= i && i + 5 <= 8 {
      assert "NDCI_p10"[i..i + 5][0] == "NDCI_p10"[i];
    }
  }

  /** A key such as "NDCI_mean" is kept in the means, "NDCI_p10" is not. */
  lemma MeanKeySelection()
    ensures Contains("NDCI_mean", "_mean") && !Contains("NDCI_p10", "_mean")
  {
    assert OccursAt("NDCI_mean", "_mean", 4);
    forall i | true
      ensures !OccursAt("NDCI_p10", "_mean", i)
    {
      NotMeanAt(i);
    }
  }
}
