/**
 * The per-pixel rules of the Sentinel-2 processing (gee/gee_processor.py):
 * the QA60 cloud mask, the chlorophyll-a approximation, the percentile risk
 * classification with its Risk_Level encoding, and the choice of the period
 * and the empty-collection error of `process_latest`. The remote service
 * evaluates these rules on every pixel; here they are stated for one pixel.
 */
module GeeProcessor {
  import opened Common

  // ---------------------------------------------------------------------------
  // mask_s2_clouds
  // ---------------------------------------------------------------------------

  /** QA60 bit 10 flags opaque clouds, bit 11 cirrus. */
  const CloudBitMask: bv16 := 1 << 10
  const CirrusBitMask: bv16 := 1 << 11

  /** A pixel is kept when neither the cloud bit nor the cirrus bit is set. */
  function CloudFree(qa: bv16): (r: bool)
    ensures r <==> (qa >> 10) & 3 == 0
  {
    qa & CloudBitMask == 0 && qa & CirrusBitMask == 0
  }

  /** The other fourteen bits of QA60 do not affect the mask. */
  lemma CloudFreeIgnoresOtherBits(qa: bv16, other: bv16)
    requires other & 0x0C00 == 0
    ensures CloudFree(qa | other) == CloudFree(qa)
    ensures CloudFree(qa) <==> qa & 0x0C00 == 0
  {
  }

  /** The bands of one Sentinel-2 pixel, as stored: QA60 and integer digital numbers. */
  datatype RawPixel = RawPixel(qa60: bv16, b3: int, b4: int, b5: int, b8: int)

  /** Surface reflectances of a kept pixel. */
  datatype Reflectance = Reflectance(green: real, red: real, redEdge1: real, nir: real)

  /** `updateMask(mask).divide(10000)` on one pixel: `None` is a masked pixel. */
  function MaskS2Clouds(p: RawPixel): (r: Option<Reflectance>)
    ensures r.Some? <==> CloudFree(p.qa60)
    ensures r.Some? ==> r.value.green * 10000.0 == p.b3 as real && r.value.red * 10000.0 == p.b4 as real
    ensures r.Some? ==> r.value.redEdge1 * 10000.0 == p.b5 as real && r.value.nir * 10000.0 == p.b8 as real
  {
    if CloudFree(p.qa60) then
      Some(Reflectance(p.b3 as real / 10000.0, p.b4 as real / 10000.0,
                       p.b5 as real / 10000.0, p.b8 as real / 10000.0))
    else None
  }

  // ---------------------------------------------------------------------------
  // Chla_approx in calculate_indices
  // ---------------------------------------------------------------------------

  function Clamp(x: real, lo: real, hi: real): (r: real)
    requires lo <= hi
    ensures lo <= r <= hi
    ensures lo <= x <= hi ==> r == x
    ensures x < lo ==> r == lo
    ensures x > hi ==> r == hi
  {
    if x < lo then lo else if x > hi then hi else x
  }

  /** Chlorophyll-a approximation in mg/m3: 50 * NDCI + 30, clamped to [0, 150]. */
  function ChlaApprox(ndci: real): (r: real)
    ensures 0.0 <= r <= 150.0
    ensures 0.0 < r < 150.0 ==> r == 50.0 * ndci + 30.0
    ensures r == 0.0 <==> ndci <= -0.6
    ensures r == 150.0 <==> ndci >= 2.4
  {
    Clamp(50.0 * ndci + 30.0, 0.0, 150.0)
  }

  /** The approximation never decreases as NDCI grows; over the NDCI range [-1, 1] it stays within [0, 80]. */
  lemma ChlaApproxMonotone(a: real, b: real)
    requires a <= b
    ensures ChlaApprox(a) <= ChlaApprox(b)
    ensures -1.0 <= b <= 1.0 ==> ChlaApprox(b) <= 80.0
  {
  }

  // ---------------------------------------------------------------------------
  // classify_risk
  // ---------------------------------------------------------------------------

  /** The 70th and 90th percentiles of NDCI and turbidity over the lake. */
  datatype Thresholds = Thresholds(ndciP70: real, ndciP90: real, turbP70: real, turbP90: real)

  /** The three masks of the classification, as the source computes them. */
  datatype RiskFlags = RiskFlags(low: bool, medium: bool, high: bool)

  function ClassifyRisk(ndci: real, turbidity: real, t: Thresholds): (r: RiskFlags)
    ensures r.high <==> ndci > t.ndciP90 || turbidity > t.turbP90
    ensures r.medium <==> !r.high && (ndci > t.ndciP70 || turbidity > t.turbP70)
    ensures r.low <==> !r.high && !r.medium
  {
    var high := ndci > t.ndciP90 || turbidity > t.turbP90;
    var medium := (ndci > t.ndciP70 || turbidity > t.turbP70) && !high;
    var low := !high && !medium;
    RiskFlags(low, medium, high)
  }

  function BoolToInt(b: bool): int { if b then 1 else 0 }

  /** `low * 1 + medium * 2 + high * 3`. */
  function RiskLevel(f: RiskFlags): (r: int)
    ensures 0 <= r <= 6
    ensures r == 0 <==> !f.low && !f.medium && !f.high
    ensures f.high ==> r >= 3
  {
    BoolToInt(f.low) * 1 + BoolToInt(f.medium) * 2 + BoolToInt(f.high) * 3
  }

  /** Exactly one class holds for every pixel, and Risk_Level names it: 1 low, 2 medium, 3 high. */
  lemma RiskLevelEncoding(ndci: real, turbidity: real, t: Thresholds)
    ensures var f := ClassifyRisk(ndci, turbidity, t);
            BoolToInt(f.low) + BoolToInt(f.medium) + BoolToInt(f.high) == 1
    ensures var f := ClassifyRisk(ndci, turbidity, t);
            (RiskLevel(f) == 1 <==> f.low) && (RiskLevel(f) == 2 <==> f.medium) && (RiskLevel(f) == 3 <==> f.high)
    ensures RiskLevel(ClassifyRisk(ndci, turbidity, t)) in {1, 2, 3}
  {
  }

  /** The comparisons are strict: a pixel exactly at both P90 values is not high risk. */
  lemma P90IsNotHigh(t: Thresholds)
    ensures !ClassifyRisk(t.ndciP90, t.turbP90, t).high
  {
  }

  /** A pixel with more chlorophyll or more turbidity never gets a lower Risk_Level. */
  lemma RiskLevelMonotone(ndci: real, turbidity: real, ndci': real, turbidity': real, t: Thresholds)
    requires ndci <= ndci' && turbidity <= turbidity'
    ensures RiskLevel(ClassifyRisk(ndci, turbidity, t)) <= RiskLevel(ClassifyRisk(ndci', turbidity', t))
  {
  }

  // ---------------------------------------------------------------------------
  // process_latest
  // ---------------------------------------------------------------------------

  /** Length of the look-back window: `days` when truthy, otherwise `months * 30`. */
  function PeriodDays(months: int, days: Option<int>): (r: int)
    ensures Truthy(days) ==> r == days.value
    ensures !Truthy(days) ==> r == months * 30
  {
    if Truthy(days) then days.value else months * 30
  }

  /**
   * A Sentinel-2 scene over the lake whose acquisition falls in the window:
   * its CLOUDY_PIXEL_PERCENTAGE and its system:time_start.
   */
  datatype Scene = Scene(cloudyPixelPercentage: real, timeStart: int)

  /** `filter(ee.Filter.lt('CLOUDY_PIXEL_PERCENTAGE', cloud_coverage))`. */
  function Qualifying(scenes: seq<Scene>, cloudCoverage: real): (r: seq<Scene>)
    ensures forall s :: s in r <==> s in scenes && s.cloudyPixelPercentage < cloudCoverage
    ensures |r| <= |scenes|
    ensures forall s :: multiset(r)[s] == if s.cloudyPixelPercentage < cloudCoverage then multiset(scenes)[s] else 0
  {
    if |scenes| == 0 then []
    else
      assert scenes == [scenes[0]] + scenes[1..];
      (if scenes[0].cloudyPixelPercentage < cloudCoverage then [scenes[0]] else [])
         + Qualifying(scenes[1..], cloudCoverage)
  }

  /** The acquisition time of the newest scene. */
  function LatestTimeStart(scenes: seq<Scene>): (r: int)
    requires |scenes| > 0
    ensures exists s :: s in scenes && s.timeStart == r
    ensures forall s :: s in scenes ==> s.timeStart <= r
  {
    if |scenes| == 1 then scenes[0].timeStart
    else
      var rest := LatestTimeStart(scenes[1..]);
      assert forall s :: s in scenes[1..] ==> s in scenes;
      if scenes[0].timeStart >= rest then scenes[0].timeStart else rest
  }

  /** What `process_latest` reports besides the remote images. */
  datatype Latest = Latest(periodDays: int, imageCount: nat, latestTimeStart: int)

  const NoImagesMessage: string :=
    "No images found for the specified period. Try increasing cloud_coverage or time period."

  /**
   * `scenes` are the scenes over the lake in the window of `PeriodDays(months, days)`
   * days ending now. Zero qualifying scenes raise ValueError before any compositing.
   */
  function ProcessLatest(months: int, cloudCoverage: real, days: Option<int>, scenes: seq<Scene>)
    : (r: Result<Latest, string>)
    ensures r.Err? <==> forall s :: s in scenes ==> s.cloudyPixelPercentage >= cloudCoverage
    ensures r.Err? ==> r.error == NoImagesMessage
    ensures r.Ok? ==> r.value.periodDays == PeriodDays(months, days)
    ensures r.Ok? ==> r.value.imageCount == |Qualifying(scenes, cloudCoverage)| > 0
    ensures r.Ok? ==> exists s :: s in scenes && s.cloudyPixelPercentage < cloudCoverage
                                 && s.timeStart == r.value.latestTimeStart
    ensures r.Ok? ==> forall s :: s in scenes && s.cloudyPixelPercentage < cloudCoverage
                                 ==> s.timeStart <= r.value.latestTimeStart
  {
    var periodDays := PeriodDays(months, days);
    var collection := Qualifying(scenes, cloudCoverage);
    if |collection| == 0 then
      Err(NoImagesMessage)
    else
      Ok(Latest(periodDays, |collection|, LatestTimeStart(collection)))
  }
}
