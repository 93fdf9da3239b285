/**
 * Formatting and validation helpers of the dashboard (frontend/utils/helpers.py):
 * reshaping of the backend's flat statistics, the threshold rules that turn an
 * index value into a status and a colour, and the lake bounding-box check.
 */
module FrontendHelpers {
  import opened Common

  // ---------------------------------------------------------------------------
  // Colour palette (frontend/utils/config.py, COLORS): the ten keys the status rules use.
  // ---------------------------------------------------------------------------

  datatype Color =
    | Success | Warning | Danger | RiskLow
    | ChlHigh | ChlMedium | ChlLow
    | WaterClean | WaterModerate | WaterTurbid

  /** The hexadecimal code the palette assigns to each key. */
  function Hex(c: Color): string
  {
    match c
    case Success => "#2ECC71"
    case Warning => "#F39C12"
    case Danger => "#E74C3C"
    case RiskLow => "#27AE60"
    case ChlHigh => "#E74C3C"
    case ChlMedium => "#2ECC71"
    case ChlLow => "#3498DB"
    case WaterClean => "#3498DB"
    case WaterModerate => "#1ABC9C"
    case WaterTurbid => "#95A5A6"
  }

  /**
   * Among the ten palette keys the status functions use, the palette reuses
   * codes: high chlorophyll shows in the danger red, medium chlorophyll in the
   * success green and low chlorophyll in the clear-water blue, so the NDCI and
   * turbidity statuses are told apart by text, not by colour.
   */
  lemma SharedCodes()
    ensures Hex(NdciStatus(0.5).1) == Hex(TurbidityStatus(2.0).1) == "#E74C3C"
    ensures Hex(ChlMedium) == Hex(Success) && Hex(ChlLow) == Hex(WaterClean)
    ensures forall c, d :: Hex(c) == Hex(d) && c != d ==>
              {c, d} == {ChlHigh, Danger} || {c, d} == {ChlMedium, Success} || {c, d} == {ChlLow, WaterClean}
  {
  }

  // ---------------------------------------------------------------------------
  // transform_statistics
  // ---------------------------------------------------------------------------

  /** The nested, frontend form: index name -> statistic name -> value. */
  type Nested = map<string, map<string, real>>

  /** The six frontend index names the result always carries. */
  const FrontendIndices: set<string> := {"ndci", "ndwi", "turbidity", "chlorophyll", "ci_green", "tsm"}

  /** The result before any statistic is placed: six empty inner maps. */
  function EmptyNested(): (r: Nested)
    ensures r.Keys == FrontendIndices
    ensures forall fi :: fi in r ==> r[fi] == map[]
  {
    map["ndci" := map[], "ndwi" := map[], "turbidity" := map[],
        "chlorophyll" := map[], "ci_green" := map[], "tsm" := map[]]
  }

  /** The six backend band names the reshaping knows. */
  const BackendBands: set<string> := {"NDCI", "NDWI", "Turbidity", "Chla_approx", "CI_green", "TSM"}

  /** Backend band name -> frontend index name; `None` for an unknown band. */
  function IndexMapping(band: string): (r: Option<string>)
    ensures r.Some? <==> band in BackendBands
    ensures r.Some? ==> r.value in FrontendIndices
    ensures r.Some? ==> (band, r.value) in {("NDCI", "ndci"), ("NDWI", "ndwi"), ("Turbidity", "turbidity"),
                                            ("Chla_approx", "chlorophyll"), ("CI_green", "ci_green"), ("TSM", "tsm")}
  {
    if band == "NDCI" then Some("ndci")
    else if band == "NDWI" then Some("ndwi")
    else if band == "Turbidity" then Some("turbidity")
    else if band == "Chla_approx" then Some("chlorophyll")
    else if band == "CI_green" then Some("ci_green")
    else if band == "TSM" then Some("tsm")
    else None
  }

  /** Statistic renaming; a name without an entry passes through unchanged. */
  function StatMapping(stat: string): (r: string)
    ensures r != stat <==> stat in {"p10", "p50", "p90", "stdDev"}
    ensures stat in {"mean", "p10", "p50", "p90", "stdDev"} ==> r in {"mean", "min", "median", "max", "std"}
    ensures (stat, r) in {("mean", "mean"), ("p10", "min"), ("p50", "median"), ("p90", "max"), ("stdDev", "std")}
            || (stat !in {"mean", "p10", "p50", "p90", "stdDev"} && r == stat)
  {
    if stat == "mean" then "mean"
    else if stat == "p10" then "min"
    else if stat == "p50" then "median"
    else if stat == "p90" then "max"
    else if stat == "stdDev" then "std"
    else stat
  }

  /** Distinct known bands go to distinct indices, and every index has a band. */
  lemma IndexMappingBijective(a: string, b: string, fi: string)
    requires a in BackendBands && b in BackendBands && a != b
    requires fi in FrontendIndices
    ensures IndexMapping(a) != IndexMapping(b)
    ensures exists band :: band in BackendBands && IndexMapping(band) == Some(fi)
  {
    if fi == "ndci" { assert IndexMapping("NDCI") == Some(fi); }
    else if fi == "ndwi" { assert IndexMapping("NDWI") == Some(fi); }
    else if fi == "turbidity" { assert IndexMapping("Turbidity") == Some(fi); }
    else if fi == "chlorophyll" { assert IndexMapping("Chla_approx") == Some(fi); }
    else if fi == "ci_green" { assert IndexMapping("CI_green") == Some(fi); }
    else { assert IndexMapping("TSM") == Some(fi); }
  }

  /**
   * Two different statistic names share a renamed name exactly when one is
   * renamed onto the other: p10/min, p50/median, p90/max or stdDev/std.
   */
  lemma StatMappingCollisions(a: string, b: string)
    requires a != b
    ensures StatMapping(a) == StatMapping(b) <==>
              RenamedOnto(a, b) || RenamedOnto(b, a)
  {
  }

  /** `stat` is a renamed statistic whose new name is `other`. */
  predicate RenamedOnto(stat: string, other: string)
  {
    (stat, other) in {("p10", "min"), ("p50", "median"), ("p90", "max"), ("stdDev", "std")}
  }

  /** Position of the last underscore of `s`, if any. */
  function LastUnderscore(s: string): (r: Option<nat>)
    ensures r.None? <==> '_' !in s
    ensures r.Some? ==> r.value < |s| && s[r.value] == '_'
    ensures r.Some? ==> forall j :: r.value < j < |s| ==> s[j] != '_'
  {
    if |s| == 0 then None
    else if s[|s| - 1] == '_' then Some(|s| - 1)
    else
      assert s == s[..|s| - 1] + [s[|s| - 1]];
      LastUnderscore(s[..|s| - 1])
  }

  /** Python's `key.rsplit('_', 1)` when it yields two parts; `None` when it yields one. */
  function SplitLast(key: string): (r: Option<(string, string)>)
    ensures r.None? <==> '_' !in key
    ensures r.Some? ==> key == r.value.0 + "_" + r.value.1 && '_' !in r.value.1
  {
    match LastUnderscore(key)
    case None => None
    case Some(i) =>
      assert key == key[..i] + "_" + key[i + 1..];
      Some((key[..i], key[i + 1..]))
  }

  /** Splitting at the last underscore undoes joining with an underscore-free suffix. */
  lemma SplitJoin(band: string, stat: string)
    requires '_' !in stat
    ensures SplitLast(band + "_" + stat) == Some((band, stat))
  {
    var key := band + "_" + stat;
    assert key[|band|] == '_';
    assert forall j :: |band| < j < |key| ==> key[j] == stat[j - |band| - 1];
    var i := LastUnderscore(key).value;
    assert key[..i] == band && key[i + 1..] == stat;
  }

  /** Where a backend key lands in the nested result: (index, statistic), or nowhere. */
  function Slot(key: string): Option<(string, string)>
  {
    match SplitLast(key)
    case None => None
    case Some((band, stat)) =>
      match IndexMapping(band)
      case None => None
      case Some(fi) => Some((fi, StatMapping(stat)))
  }

  /** One iteration of the loop: store `value` in `slot`, if there is one. */
  function Place(result: Nested, slot: Option<(string, string)>, value: real): Nested
  {
    match slot
    case None => result
    case Some((fi, fs)) =>
      if fi in result then result[fi := result[fi][fs := value]] else result
  }

  /** The result after every entry of `stats` has been placed, in order, in the slot `slotOf` gives its key. */
  function PlaceAll(stats: seq<(string, real)>, slotOf: string -> Option<(string, string)>): Nested
  {
    if |stats| == 0 then EmptyNested()
    else Place(PlaceAll(stats[..|stats| - 1], slotOf), slotOf(stats[|stats| - 1].0), stats[|stats| - 1].1)
  }

  /** The nested result of `transform_statistics`. */
  function Transformed(stats: seq<(string, real)>): Nested
  {
    PlaceAll(stats, Slot)
  }

  /**
   * The backend statistics arrive as a dictionary; `stats` lists its entries
   * in the dictionary's iteration order.
   */
  method TransformStatistics(stats: seq<(string, real)>) returns (result: Nested)
    ensures result == Transformed(stats)
    ensures result.Keys == FrontendIndices
  {
    result := EmptyNested();
    var i := 0;
    while i < |stats|
      invariant 0 <= i <= |stats|
      invariant result == Transformed(stats[..i])
    {
      var (key, value) := stats[i];
      var parts := SplitLast(key);
      if parts.Some? {
        var (band, stat) := parts.value;
        var frontendIndex := IndexMapping(band);
        var frontendStat := StatMapping(stat);
        if frontendIndex.Some? && frontendIndex.value in result {
          result := result[frontendIndex.value := result[frontendIndex.value][frontendStat := value]];
        }
      }
      assert stats[..i + 1][..i] == stats[..i];
      i := i + 1;
    }
    assert stats[..i] == stats;
    TransformedKeys(stats);
  }

  lemma {:induction false} PlaceAllKeys(stats: seq<(string, real)>, slotOf: string -> Option<(string, string)>)
    ensures PlaceAll(stats, slotOf).Keys == FrontendIndices
    decreases |stats|
  {
    if |stats| > 0 { PlaceAllKeys(stats[..|stats| - 1], slotOf); }
  }

  lemma {:induction false} PlaceAllHas(stats: seq<(string, real)>, slotOf: string -> Option<(string, string)>,
                                       fi: string, fs: string)
    requires fi in FrontendIndices
    ensures fi in PlaceAll(stats, slotOf)
    ensures fs in PlaceAll(stats, slotOf)[fi] <==>
              exists k :: 0 <= k < |stats| && slotOf(stats[k].0) == Some((fi, fs))
    decreases |stats|
  {
    PlaceAllKeys(stats, slotOf);
    if |stats| > 0 {
      var n := |stats| - 1;
      var init := stats[..n];
      PlaceAllHas(init, slotOf, fi, fs);
      PlaceAllKeys(init, slotOf);
      if fs in PlaceAll(stats, slotOf)[fi] && slotOf(stats[n].0) != Some((fi, fs)) {
        var k :| 0 <= k < n && slotOf(init[k].0) == Some((fi, fs));
        assert init[k] == stats[k];
      }
      if exists k :: 0 <= k < |stats| && slotOf(stats[k].0) == Some((fi, fs)) {
        var k :| 0 <= k < |stats| && slotOf(stats[k].0) == Some((fi, fs));
        if k < n { assert init[k] == stats[k]; }
      }
    }
  }

  lemma {:induction false} PlaceAllValue(stats: seq<(string, real)>, slotOf: string -> Option<(string, string)>,
                                         fi: string, fs: string)
    requires fi in PlaceAll(stats, slotOf) && fs in PlaceAll(stats, slotOf)[fi]
    ensures exists k :: 0 <= k < |stats| && slotOf(stats[k].0) == Some((fi, fs))
                     && PlaceAll(stats, slotOf)[fi][fs] == stats[k].1
                     && forall j :: k < j < |stats| ==> slotOf(stats[j].0) != Some((fi, fs))
    decreases |stats|
  {
    var n := |stats| - 1;
    var init := stats[..n];
    PlaceAllKeys(init, slotOf);
    PlaceAllKeys(stats, slotOf);
    if slotOf(stats[n].0) != Some((fi, fs)) {
      PlaceAllValue(init, slotOf, fi, fs);
      var k :| 0 <= k < n && slotOf(init[k].0) == Some((fi, fs))
               && PlaceAll(init, slotOf)[fi][fs] == init[k].1
               && forall j :: k < j < n ==> slotOf(init[j].0) != Some((fi, fs));
      assert init[k] == stats[k];
      assert forall j :: k < j < n ==> init[j] == stats[j];
    }
  }

  /** Whatever the input, the result has exactly the six frontend indices. */
  lemma TransformedKeys(stats: seq<(string, real)>)
    ensures Transformed(stats).Keys == FrontendIndices
  {
    PlaceAllKeys(stats, Slot);
  }

  /**
   * A statistic is present in the result exactly when some backend key lands
   * in that slot; its value is the one of the last such key.
   */
  lemma TransformedAt(stats: seq<(string, real)>, fi: string, fs: string)
    requires fi in FrontendIndices
    ensures fi in Transformed(stats)
    ensures fs in Transformed(stats)[fi] <==>
              exists k :: 0 <= k < |stats| && Slot(stats[k].0) == Some((fi, fs))
    ensures fs in Transformed(stats)[fi] ==>
              exists k :: 0 <= k < |stats| && Slot(stats[k].0) == Some((fi, fs))
                       && Transformed(stats)[fi][fs] == stats[k].1
                       && forall j :: k < j < |stats| ==> Slot(stats[j].0) != Some((fi, fs))
  {
    PlaceAllHas(stats, Slot, fi, fs);
    if fs in Transformed(stats)[fi] { PlaceAllValue(stats, Slot, fi, fs); }
  }

  /**
   * A key "<band>_<stat>" whose slot no later key shares puts its value at
   * result[IndexMapping(band)][StatMapping(stat)].
   */
  lemma LandsAt(stats: seq<(string, real)>, k: nat, band: string, stat: string)
    requires k < |stats| && stats[k].0 == band + "_" + stat && '_' !in stat
    requires IndexMapping(band).Some?
    requires forall j :: k < j < |stats| ==> Slot(stats[j].0) != Slot(stats[k].0)
    ensures IndexMapping(band).value in Transformed(stats)
    ensures StatMapping(stat) in Transformed(stats)[IndexMapping(band).value]
    ensures Transformed(stats)[IndexMapping(band).value][StatMapping(stat)] == stats[k].1
  {
    var fi, fs := IndexMapping(band).value, StatMapping(stat);
    SplitJoin(band, stat);
    assert fi in FrontendIndices;
    TransformedAt(stats, fi, fs);
    var k' :| 0 <= k' < |stats| && Slot(stats[k'].0) == Some((fi, fs))
              && Transformed(stats)[fi][fs] == stats[k'].1
              && forall j :: k' < j < |stats| ==> Slot(stats[j].0) != Some((fi, fs));
    assert k' == k;
  }

  /** "Chla_approx_mean" is split at its last underscore and lands in chlorophyll/mean. */
  lemma ChlaApproxMeanSlot()
    ensures SplitLast("Chla_approx_mean") == Some(("Chla_approx", "mean"))
    ensures Slot("Chla_approx_mean") == Some(("chlorophyll", "mean"))
  {
    assert "Chla_approx_mean" == "Chla_approx" + "_" + "mean";
    SplitJoin("Chla_approx", "mean");
  }

  /** Only keys with an underscore and a known band prefix land anywhere. */
  lemma SlotDropped(key: string)
    ensures Slot(key).None? <==> ('_' !in key || IndexMapping(SplitLast(key).value.0).None?)
  {
  }

  /**
   * The renaming is not injective on all names: "NDCI_p10" and "NDCI_min" land
   * in the same slot, so which value survives depends on the input's order.
   */
  lemma RenamedStatsCollide()
    ensures Slot("NDCI_p10") == Slot("NDCI_min") == Some(("ndci", "min"))
  {
    assert "NDCI_p10" == "NDCI" + "_" + "p10";
    assert "NDCI_min" == "NDCI" + "_" + "min";
    SplitJoin("NDCI", "p10");
    SplitJoin("NDCI", "min");
  }

  // ---------------------------------------------------------------------------
  // Threshold rules
  // ---------------------------------------------------------------------------

  /** The three classes of a threshold rule, ranked from low to high. */
  datatype Level = Low | Moderate | High {
    function Rank(): nat { match this case Low => 0 case Moderate => 1 case High => 2 }
  }

  /** Three-class rule with strict tests: above `upper`, above `lower`, else. */
  function Tier(v: real, upper: real, lower: real): (r: Level)
    ensures r == High <==> v > upper
    ensures r == Moderate <==> lower < v <= upper
    ensures r == Low <==> v <= lower && v <= upper
  {
    if v > upper then High else if v > lower then Moderate else Low
  }

  /** A larger value never falls into a lower class; a boundary value takes the lower class. */
  lemma TierMonotone(v: real, w: real, upper: real, lower: real)
    requires lower <= upper && v <= w
    ensures Tier(v, upper, lower).Rank() <= Tier(w, upper, lower).Rank()
    ensures Tier(upper, upper, lower) != High && Tier(lower, upper, lower) == Low
  {
  }

  function NdciStatus(ndci: real): (r: (string, Color))
    ensures r == ("Alta Concentración (Posible Eutrofización)", ChlHigh) <==> ndci > 0.2
    ensures r == ("Concentración Moderada", ChlMedium) <==> -0.2 < ndci <= 0.2
    ensures r == ("Baja Concentración", ChlLow) <==> ndci <= -0.2
  {
    match Tier(ndci, 0.2, -0.2)
    case High => ("Alta Concentración (Posible Eutrofización)", ChlHigh)
    case Moderate => ("Concentración Moderada", ChlMedium)
    case Low => ("Baja Concentración", ChlLow)
  }

  function NdwiStatus(ndwi: real): (r: (string, Color))
    ensures r == ("Agua Clara (Cuerpo de Agua Definido)", WaterClean) <==> ndwi > 0.3
    ensures r == ("Agua Turbia (Sedimentos Suspendidos)", WaterModerate) <==> 0.0 < ndwi <= 0.3
    ensures r == ("Tierra/Vegetación", WaterTurbid) <==> ndwi <= 0.0
  {
    match Tier(ndwi, 0.3, 0.0)
    case High => ("Agua Clara (Cuerpo de Agua Definido)", WaterClean)
    case Moderate => ("Agua Turbia (Sedimentos Suspendidos)", WaterModerate)
    case Low => ("Tierra/Vegetación", WaterTurbid)
  }

  function TurbidityStatus(turbidity: real): (r: (string, Color))
    ensures r == ("Alta Turbidez (Alta Carga de Sedimentos)", Danger) <==> turbidity > 1.5
    ensures r == ("Turbidez Moderada", Warning) <==> 0.5 < turbidity <= 1.5
    ensures r == ("Baja Turbidez (Buena Claridad)", Success) <==> turbidity <= 0.5
  {
    match Tier(turbidity, 1.5, 0.5)
    case High => ("Alta Turbidez (Alta Carga de Sedimentos)", Danger)
    case Moderate => ("Turbidez Moderada", Warning)
    case Low => ("Baja Turbidez (Buena Claridad)", Success)
  }

  function ChlorophyllStatus(chl: real): (r: (string, Color))
    ensures r == ("Alta Concentración", ChlHigh) <==> chl > 10.0
    ensures r == ("Concentración Moderada", ChlMedium) <==> 5.0 < chl <= 10.0
    ensures r == ("Baja Concentración", ChlLow) <==> chl <= 5.0
  {
    match Tier(chl, 10.0, 5.0)
    case High => ("Alta Concentración", ChlHigh)
    case Moderate => ("Concentración Moderada", ChlMedium)
    case Low => ("Baja Concentración", ChlLow)
  }

  /** Interpretation of the percentage of high-risk area. */
  function RiskInterpretation(percentage: real): (r: (string, Color))
    ensures r == ("Excellent", Success) <==> percentage < 15.0
    ensures r == ("Good", RiskLow) <==> 15.0 <= percentage < 30.0
    ensures r == ("Moderate", Warning) <==> 30.0 <= percentage < 50.0
    ensures r == ("Critical", Danger) <==> percentage >= 50.0
  {
    if percentage < 15.0 then ("Excellent", Success)
    else if percentage < 30.0 then ("Good", RiskLow)
    else if percentage < 50.0 then ("Moderate", Warning)
    else ("Critical", Danger)
  }

  /** Exchanges the two ends of the traffic-light scale. */
  function Swap(c: Color): Color
  {
    match c
    case Success => Danger
    case Danger => Success
    case other => other
  }

  /** Traffic-light colour by inclusive thresholds; `reverse` when higher is better. */
  function StatusColor(value: real, low: real, high: real, reverse: bool): (r: Color)
    ensures r in {Success, Warning, Danger}
    ensures r == Warning <==> low <= value < high
    ensures !reverse ==> (r == Danger <==> value >= high)
    ensures reverse ==> (r == Success <==> value >= high)
  {
    if reverse then
      if value >= high then Success else if value >= low then Warning else Danger
    else
      if value >= high then Danger else if value >= low then Warning else Success
  }

  /** `reverse` swaps danger and success and leaves warning where it is. */
  lemma ReverseSwaps(value: real, low: real, high: real)
    ensures StatusColor(value, low, high, true) == Swap(StatusColor(value, low, high, false))
    ensures StatusColor(value, low, high, false) == Swap(StatusColor(value, low, high, true))
  {
  }

  // ---------------------------------------------------------------------------
  // Lake bounds (frontend/utils/config.py, LAKE_BOUNDS)
  // ---------------------------------------------------------------------------

  const LatMin: real := -17.5
  const LatMax: real := -15.0
  const LonMin: real := -70.5
  const LonMax: real := -68.0

  function ValidateCoordinates(lat: real, lon: real): (r: bool)
    ensures r <==> LatMin <= lat <= LatMax && LonMin <= lon <= LonMax
  {
    LatMin <= lat <= LatMax && LonMin <= lon <= LonMax
  }
}
