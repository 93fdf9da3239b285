# Titicaca Sentinel — a Dafny model of its deterministic cores

Titicaca Sentinel watches water quality on Lake Titicaca using Sentinel-2 imagery. Earth Engine computes spectral indices (NDCI, NDWI, turbidity, chlorophyll-a) over the lake. A FastAPI backend shapes the results, and a Streamlit dashboard fetches them through a caching API client and colours them by threshold rules.

This project models the five deterministic cores of that system and proves what each one promises:

- **frontend_helpers.dfy** models `frontend/utils/helpers.py`:
  - the reshaping of flat backend statistics (`"NDCI_p90"`) into the dashboard's nested six-index map;
  - the NDCI, NDWI, turbidity and chlorophyll status rules;
  - the risk interpretation and the generic status colour;
  - the dashboard's lake bounding box.
- **backend_services.dfy** models `backend/services.py`:
  - the means and percentiles of `organize_statistics`;
  - `parse_time_series`, which builds the points and sorts them stably by date;
  - the normalisation and fallback of `calculate_risk_zones`;
  - the months default of `get_latest_image_data`.
- **api_client.dfy** models `frontend/utils/api_client.py`. It is a class `APIClient` whose session cache is a map field:
  - `MakeRequest` follows the cache-key, hit, fetch-and-store and error-classification paths;
  - `GetLatestData` and `GetRiskMap` build the request parameters;
  - `ClearCache` empties the cache.
- **gee_processor.dfy** models `gee/gee_processor.py`, one pixel at a time:
  - the QA60 cloud and cirrus mask, on 16-bit bit-vectors;
  - the chlorophyll-a clamp;
  - the P70/P90 three-level risk classification and its `Risk_Level` encoding;
  - the look-back period and the "no images" error of `process_latest`.
- **backend_utils.dfy** models `backend/utils.py`:
  - the backend's bounding box;
  - NaN-filtered count, mean, spread, min and max.

Two shared modules support them:

- **common.dfy** holds `Option`, `Result`, and Python truthiness on an optional integer (`x or d`).
- **string_order.dfy** holds Python string comparison, which is code-point lexicographic. It also holds a stable insertion sort with its properties: it is a permutation, it is sorted, and each group of equal keys keeps its order. The sort is unique. Both `list.sort(key=...)` in the services and `sorted(params.items())` in the client rely on it.

Python dictionaries whose iteration order matters are modelled as sequences of pairs in iteration order. Examples are the backend statistics fed to `transform_statistics` and the parameter dictionaries of the client.

Other outside inputs are parameters:

- Earth Engine results are plain input values: histogram replies, time-series features, scenes with their cloud percentage and time stamp.
- The HTTP fetch is a function parameter `fetch` that yields the data or one of three failure kinds.

The client also calls `/compare` and `/predict`, but `backend/main.py` defines no such routes, so there is no comparison or forecasting code to model.

## Model

| member | source | states |
|---|---|---|
| FrontendHelpers.EmptyNested | frontend/utils/helpers.py:19-26 | the initial result has exactly the six frontend indices, each with an empty inner map |
| FrontendHelpers.LastUnderscore | frontend/utils/helpers.py:49 | finds the last `_` of a key; none exactly when the key has no `_`; no `_` follows it |
| FrontendHelpers.SplitLast | frontend/utils/helpers.py:49-51 | `rsplit('_', 1)` yields two parts exactly when the key contains `_`; the key is band + "_" + stat with no `_` in stat |
| FrontendHelpers.SplitJoin | frontend/utils/helpers.py:49-51 | splitting band + "_" + stat, with no `_` in stat, gives back (band, stat) |
| FrontendHelpers.TransformStatistics | frontend/utils/helpers.py:7-60 | the loop computes `Transformed` of the entries in dictionary order, and the result has exactly the six index keys |
| FrontendHelpers.PlaceAllKeys | frontend/utils/helpers.py:47-58 | storing statistics never adds or removes an index key |
| FrontendHelpers.PlaceAllHas | frontend/utils/helpers.py:47-58 | a slot is filled iff some entry maps to it |
| FrontendHelpers.PlaceAllValue | frontend/utils/helpers.py:47-58 | a filled slot holds the value of the last entry that maps to it |
| FrontendHelpers.TransformedKeys | frontend/utils/helpers.py:19-26 | whatever the input, the result has exactly ndci, ndwi, turbidity, chlorophyll, ci_green and tsm |
| FrontendHelpers.TransformedAt | frontend/utils/helpers.py:47-58 | result[fi][fs] exists iff some key lands in (fi, fs); its value is that of the last such key |
| FrontendHelpers.LandsAt | frontend/utils/helpers.py:29-58 | "<band>_<stat>" with a known band puts its value at result[index(band)][renamed(stat)] unless a later key takes the slot |
| FrontendHelpers.ChlaApproxMeanSlot | frontend/utils/helpers.py:47-58 | "Chla_approx_mean" splits at the last underscore into Chla_approx / mean and lands in chlorophyll/mean |
| FrontendHelpers.SlotDropped | frontend/utils/helpers.py:50-57 | a key is dropped iff it has no `_` or its prefix is not one of the six mapped bands |
| FrontendHelpers.IndexMapping | frontend/utils/helpers.py:29-36 | a band is mapped iff it is one of the six backend bands; the pairs are NDCI→ndci, NDWI→ndwi, Turbidity→turbidity, Chla_approx→chlorophyll, CI_green→ci_green, TSM→tsm |
| FrontendHelpers.IndexMappingBijective | frontend/utils/helpers.py:29-36 | distinct bands go to distinct indices and every frontend index has a band |
| FrontendHelpers.StatMapping | frontend/utils/helpers.py:38-55 | the renaming table mean→mean, p10→min, p50→median, p90→max, stdDev→std; any other name passes through unchanged |
| FrontendHelpers.StatMappingCollisions | frontend/utils/helpers.py:38-55 | two different names share a renamed name iff one is renamed onto the other: p10/min, p50/median, p90/max, stdDev/std |
| FrontendHelpers.RenamedStatsCollide | frontend/utils/helpers.py:38-55 | p10 is renamed to min while an unknown "min" passes through, so "NDCI_p10" and "NDCI_min" share a slot |
| FrontendHelpers.Tier | frontend/utils/helpers.py:112-117 | the three-way split on strict `>` tests; values at a boundary fall in the lower class |
| FrontendHelpers.TierMonotone | frontend/utils/helpers.py:112-165 | a larger value never gets a lower class |
| FrontendHelpers.NdciStatus | frontend/utils/helpers.py:112-117 | the whole (text, colour) pair: "Alta Concentración (Posible Eutrofización)"/chl_high iff NDCI > 0.2; "Concentración Moderada"/chl_medium iff -0.2 < NDCI <= 0.2; "Baja Concentración"/chl_low iff NDCI <= -0.2 |
| FrontendHelpers.NdwiStatus | frontend/utils/helpers.py:128-133 | the whole pair: "Agua Clara ..."/water_clean iff NDWI > 0.3; "Agua Turbia ..."/water_moderate iff 0 < NDWI <= 0.3; "Tierra/Vegetación"/water_turbid iff NDWI <= 0 |
| FrontendHelpers.TurbidityStatus | frontend/utils/helpers.py:144-149 | the whole pair: "Alta Turbidez ..."/danger iff > 1.5; "Turbidez Moderada"/warning iff 0.5 < v <= 1.5; "Baja Turbidez ..."/success iff <= 0.5 |
| FrontendHelpers.ChlorophyllStatus | frontend/utils/helpers.py:160-165 | the whole pair: "Alta Concentración"/chl_high iff > 10; "Concentración Moderada"/chl_medium iff 5 < v <= 10; "Baja Concentración"/chl_low iff <= 5 |
| FrontendHelpers.SharedCodes | frontend/utils/config.py:40-64 | high chlorophyll and high turbidity show the same red; among the ten palette keys the status functions use, the only shared codes are chl_high/danger, chl_medium/success and chl_low/water_clean |
| FrontendHelpers.RiskInterpretation | frontend/utils/helpers.py:84-91 | Excellent iff < 15, Good iff 15 <= p < 30, Moderate iff 30 <= p < 50, Critical iff >= 50, each with its colour |
| FrontendHelpers.StatusColor | frontend/utils/helpers.py:182-195 | inclusive `>=` thresholds: danger / warning / success, with danger and success exchanged when `reverse` |
| FrontendHelpers.ReverseSwaps | frontend/utils/helpers.py:182-195 | the reversed colour is the normal colour with success and danger swapped; warning stays |
| FrontendHelpers.ValidateCoordinates | frontend/utils/helpers.py:98-101 | true iff -17.5 <= lat <= -15.0 and -70.5 <= lon <= -68.0, bounds included |
| GeeProcessor.CloudFree | gee/gee_processor.py:69-74 | a pixel is kept iff bits 10 and 11 of QA60 are both zero |
| GeeProcessor.CloudFreeIgnoresOtherBits | gee/gee_processor.py:70-74 | setting any of the other fourteen QA60 bits does not change the mask |
| GeeProcessor.MaskS2Clouds | gee/gee_processor.py:67-78 | a masked pixel has no value; a kept pixel's bands are the stored numbers divided by 10000 |
| GeeProcessor.Clamp | gee/gee_processor.py:103 | the clamp lies in [lo, hi], is the identity inside, and gives the nearer bound outside |
| GeeProcessor.ChlaApprox | gee/gee_processor.py:103 | Chla_approx lies in [0, 150]; it is 50·NDCI + 30 strictly inside; it is 0 iff NDCI <= -0.6 and 150 iff NDCI >= 2.4 |
| GeeProcessor.ChlaApproxMonotone | gee/gee_processor.py:103 | non-decreasing in NDCI; at most 80 over NDCI in [-1, 1] |
| GeeProcessor.ClassifyRisk | gee/gee_processor.py:139-142 | high iff NDCI > P90 or turbidity > P90; medium iff not high and NDCI > P70 or turbidity > P70; low iff neither |
| GeeProcessor.RiskLevel | gee/gee_processor.py:144-147 | the weighted sum low·1 + medium·2 + high·3 lies in [0, 6], is 0 iff no flag is set, and is at least 3 when high is set |
| GeeProcessor.RiskLevelEncoding | gee/gee_processor.py:139-147 | exactly one class holds for every pixel; Risk_Level is 1, 2 or 3 and names it |
| GeeProcessor.P90IsNotHigh | gee/gee_processor.py:139 | the comparisons are strict: a pixel exactly at both P90 values is not high risk |
| GeeProcessor.RiskLevelMonotone | gee/gee_processor.py:139-147 | more chlorophyll or more turbidity never lowers Risk_Level |
| GeeProcessor.PeriodDays | gee/gee_processor.py:159-164 | the period is `days` when truthy, else months·30 |
| GeeProcessor.Qualifying | gee/gee_processor.py:178 | exactly the scenes with cloud percentage strictly below the limit, each as often as in the input |
| GeeProcessor.LatestTimeStart | gee/gee_processor.py:191-192 | the newest acquisition time: attained by a scene and no scene is newer |
| GeeProcessor.ProcessLatest | gee/gee_processor.py:159-192 | fails with the "No images found" message iff no scene qualifies; otherwise reports the period, a positive image count and the newest qualifying time |
| BackendUtils.ValidateCoordinates | backend/utils.py:21-24 | true iff -17.3 <= lat <= -15.4 and -70.3 <= lon <= -68.4, bounds included |
| BackendUtils.BackendBoxInsideDashboardBox | backend/utils.py:21-24 | every point the backend accepts the dashboard accepts; (-17.4, -69.0) is accepted only by the dashboard |
| BackendUtils.Clean | backend/utils.py:36-37 | keeps exactly the non-NaN samples, each as often as in the input; their number is the input length minus the NaN count |
| BackendUtils.Min | backend/utils.py:51 | an element of the list no larger than any element |
| BackendUtils.Max | backend/utils.py:52 | an element of the list no smaller than any element |
| BackendUtils.SquaredDeviations | backend/utils.py:50 | the sum of squared deviations is never negative |
| BackendUtils.SumBounds | backend/utils.py:49 | with every element in [lo, hi], the sum lies in [n·lo, n·hi] |
| BackendUtils.MeanBetween | backend/utils.py:49 | the mean of a non-empty list lies between any lower and upper bound of its elements |
| BackendUtils.CalculateStatistics | backend/utils.py:27-54 | count is the number of non-NaN inputs; all None and count 0 iff none remain; otherwise min and max are inputs bounding every sample, min <= mean <= max, mean is the average, variance >= 0 |
| BackendServices.LatestImageArgs | backend/services.py:27-31 | months is passed on when truthy, else 6; cloud coverage and days are forwarded unchanged |
| BackendServices.LatestPeriod | backend/services.py:27-31 | the effective window is `days` when truthy, else (months or 6)·30; the `/latest` route's own months rule does not change it |
| BackendServices.TruncateToInt | backend/services.py:90 | `int()` truncates toward zero: the result is within one of the value, on the zero side |
| BackendServices.RiskZones | backend/services.py:89-93 | on success the histogram's keys with integer counts; a missing band gives an empty map; any failure gives exactly {'1':0,'2':0,'3':0} |
| BackendServices.RiskZoneCountsNonNegative | backend/services.py:90 | non-negative pixel counts stay non-negative and lose less than one pixel |
| BackendServices.PointOf | backend/services.py:114-122 | one point per feature: date (or "" when missing) and the NDWI, NDCI, CI_green, Turbidity and Chla_approx values copied from the properties; missing properties give an empty point |
| BackendServices.PointsOfAt | backend/services.py:113-122 | the unsorted list has one point per feature, in feature order |
| BackendServices.ParseTimeSeries | backend/services.py:110-125 | as many points as features (none without `features`), a permutation of them, sorted by date, with equal dates in feature order |
| BackendServices.NoFeaturesNoPoints | backend/services.py:113 | a reply without features gives no points |
| BackendServices.Contains | backend/services.py:151 | Python's substring test: true iff `sub` occurs at some position |
| BackendServices.MeanKeySelection | backend/services.py:151 | "NDCI_mean" is kept among the means and "NDCI_p10" is not |
| BackendServices.BandPercentiles | backend/services.py:157-161 | each band gets exactly p10, p50 and p90 |
| BackendServices.OrganizeStatistics | backend/services.py:145-167 | date unchanged; statistics are exactly the entries whose key contains "_mean", values unchanged; the six bands each get p10/p50/p90 from the input or 0 |
| StringOrder.LexLeTotal | backend/services.py:124 | string order is total |
| StringOrder.LexLeTrans | backend/services.py:124 | string order is transitive |
| StringOrder.LexLeAntisym | backend/services.py:124 | string order is antisymmetric |
| StringOrder.StableSort | backend/services.py:124 | the sort keeps the length and the multiset of elements |
| StringOrder.StableSortProps | backend/services.py:124 | the sort keeps length and multiset, is sorted by key, and keeps each group of equal keys in input order |
| StringOrder.SortedUnique | frontend/utils/api_client.py:21 | two sorted lists with the same groups of equal keys are equal, so the sorted order does not depend on the input order |
| ApiClient.MakeCacheKey | frontend/utils/api_client.py:21 | no parameters or an empty dictionary give (endpoint, None); otherwise the pairs sorted by name, as a permutation of the input |
| ApiClient.WithNameUnique | frontend/utils/api_client.py:21 | in a dictionary, exactly one pair carries a present name |
| ApiClient.CacheKeyIgnoresOrder | frontend/utils/api_client.py:21 | two calls whose parameters differ only in insertion order share a key |
| ApiClient.NoParamsKey | frontend/utils/api_client.py:21 | no parameters and an empty dictionary share the key (endpoint, None) |
| ApiClient.Outcome | frontend/utils/api_client.py:52-74 | success iff the fetch succeeded; a timeout raises "TIMEOUT: ..." with the timeout in seconds; HTTP errors raise "HTTP Error: ..."; anything else raises "Request Error: ..." |
| ApiClient.Request | frontend/utils/api_client.py:18-74 | one `_make_request`: it fetches iff the key is not cached; existing entries are never changed; at most the request's key is added; a success leaves its data stored under that key |
| ApiClient.HitDoesNotFetch | frontend/utils/api_client.py:34-36 | a hit returns the stored value, does not fetch and leaves the cache alone |
| ApiClient.MissFetchesAndStores | frontend/utils/api_client.py:39-74 | a miss fetches once; success stores the data under the key; failure raises and leaves the cache unchanged; no other entry changes |
| ApiClient.RepeatAfterSuccessHits | frontend/utils/api_client.py:34-64 | right after a successful fetch the identical call is a hit with the same data |
| ApiClient.ReorderedParamsHit | frontend/utils/api_client.py:21-36 | after a successful fetch, the same parameters in another order hit the stored entry |
| ApiClient.EmptyCacheMisses | frontend/utils/api_client.py:166-179 | on an empty cache every request fetches |
| ApiClient.PeriodParams | frontend/utils/api_client.py:80-85 | cloud_coverage always comes first; then days if given, else months if given, else nothing |
| ApiClient.APIClient.constructor | frontend/utils/api_client.py:14-16 | keeps the base URL, uses the configured 300 s timeout and starts with an empty cache |
| ApiClient.APIClient.MakeRequest | frontend/utils/api_client.py:18-74 | the result, whether it fetched, and the new cache are those of `Request` on the old cache |
| ApiClient.APIClient.GetLatestData | frontend/utils/api_client.py:78-86 | a `MakeRequest` of "/latest" with `PeriodParams` |
| ApiClient.APIClient.GetRiskMap | frontend/utils/api_client.py:90-98 | a `MakeRequest` of "/risk-map" with `PeriodParams` |
| ApiClient.APIClient.ClearCache | frontend/utils/api_client.py:166-179 | the cache is empty and every later request fetches |
| Common.OrElse | backend/services.py:28 | Python's `x or d` on an optional integer: `d` when x is None or 0, else x |

## Left out

- Streamlit rendering, FastAPI routing and startup, and configuration loading are not modelled.
- Earth Engine calls are not modelled: the ROI extraction, the reductions, the median composite, the tile URLs, `get_statistics`, `get_time_series` and `getInfo`. Their results are inputs.
- `calculate_indices`: the float band ratios (NDWI, NDCI, CI_green, turbidity, TSM) are left out because they are floating-point divisions. Only the chlorophyll-a clamp is modelled.
- `ClassifyRisk` works on one pixel with given thresholds. The percentile reductions that produce P70 and P90 are not modelled, nor is the masking of pixels where a band is missing.
- `ProcessLatest`: the window ending at `datetime.now()` is not modelled. The scenes that fall inside it are an input. The composite, the date formatting and the returned images are left out.
- `CalculateStatistics` reports the population variance rather than `np.std`, because the square root is not modelled. NaN is modelled as `None`.
- `format_number` is float-to-string formatting and is left out.
- `ApiClient.APIClient.MakeRequest` keeps one cache map. Only one of Streamlit's `session_state` cache and the client's `_local_cache` is used in a session, and the model keeps that one. The case where `clear_cache` pops the session cache while a `_local_cache` survives is not modelled.
- `ApiClient.APIClient.MakeRequest` returns the cached value, not the very object the source stores. Callers in `frontend/app.py` and `frontend/tabs/comparison_tab.py` replace `statistics` in the returned dictionary in place, so a later hit in the source returns the already-transformed entry. The model does not capture this aliasing.
- `ApiClient.APIClient.MakeRequest` compares parameter values structurally. Python's key equality also makes `20 == 20.0` and `True == 1` equal, but `IntParam(20)` and `RealParam(20.0)` are different keys here.
- Python floats are modelled as exact reals: no rounding, no infinities, no NaN except where it is `None`. The thresholds 0.2, 0.3, 1.5, -0.6 and the rest are exact. The program compares against the nearest doubles, so a value at a boundary can fall on the other side. For example, the double nearest 0.2 is "moderate" in Python but high in `NdciStatus`.
- The HTTP request is not modelled. It is a function parameter whose outcome is the data or a timeout, HTTP or other failure, and the debug output is dropped.
- `ApiClient.MakeCacheKey` sorts the parameters by name only. Python sorts the (name, value) pairs, and dictionary names are distinct, so the order is the same. That distinctness is the requirement of `MakeRequest`.
- The other client calls (`get_time_series`, `get_roi`, `get_comparison`, `get_prediction`, `health_check`) only pass their parameters to `_make_request` and are not modelled separately. No code behind `/compare` and `/predict` exists.
- `RiskZones`: histogram keys arrive as strings, so `str(k)` is the identity. A count that is not a number is not modelled.
- `OrganizeStatistics` takes statistics as real numbers. A `None` value in the dictionary is not modelled.
