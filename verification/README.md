# Device right-sizing engine, modelled in Dafny

This project models the core of a device right-sizing add-on. The add-on exists twice:

- a Python service: `app/scoring.py`, `app/storage.py` and `app/main.py`;
- a JavaScript serverless function: `src/scoring.js` and `netlify/functions/api.js`.

Both take telemetry batches from endpoint collectors and pool each tenant's records by device. For every device they summarise the records:

- nearest-rank 95th percentiles;
- VRAM as a share of 8192 MB;
- sums of paging, disk-busy and active minutes;
- a throttle count;
- a light-app share.

Each summary is turned into clamped pressure scores, `fit` and `overprov`. A three-way classifier then decides UNDERPOWERED/UPSIZE, OVERPROVISIONED/DOWNSIZE or RIGHT_SIZED/EXTEND_LIFE. The result is stored as a recommendation, with its confidence, savings, risk flags and status. Operators can list recommendations, approve them or override them.

Modules:

- `Common`: option and result types, the list filter used by the list endpoints and the numbering scheme for recommendation runs.
- `Quantile`: sorting and the 95th percentile, with a rank characterisation that does not depend on sorting.
- `Scoring` (`app/scoring.py`) and `ScoringJs` (`src/scoring.js`): the scoring model and classifier. The JavaScript twin is proved to agree with the Python one.
- `Telemetry`: records and batches, grouping by device (a loop with invariants) and the per-device aggregator.
- `Recommendations`: the recommendation record, its builder and the specification of a whole recommendation run (`Recommend`).
- `Storage`: `InMemoryStore` as the class `Store`. It holds the ingestion ledger, histories, policies and the ordered recommendation table. Its methods are proved against the functions above.
- `Service`: the FastAPI handlers of `app/main.py` over a `Store`. Not-found answers become `Err` results. Also the end-to-end flow of `tests/test_api.py`.
- `Api`: the serverless function. It has its own database class `JsDb` and a string deduplication key. It covers the recommendation run, the list filter and `getPathParts`, and proves that the JavaScript run builds the same recommendations as the Python run. Also the flow of `tests/api.test.js`.

Identifiers come from a counter in each store, in place of random UUIDs. Dates and clock readings are parameters.

## Model

| member | source | states |
|---|---|---|
| Common.Filter | app/main.py:79-85 | A comprehension filter keeps only elements of the list that satisfy the predicate, keeps every one that does, and never grows the list |
| Common.FilterIsSubsequence | app/main.py:79-86 | A filtered list is a subsequence of the original, in the original order |
| Common.RefineFilter | app/main.py:80-85 | Applying a further filter only when its parameter was given, to an already filtered list, is one filter by the conjunction of both conditions |
| Common.RefineAll | netlify/functions/api.js:159 | A filter applied only when its parameter was given equals one filter by "not given, or matches" |
| Common.FilterKeepsAll | netlify/functions/api.js:28 | When every element passes, the filter returns the list unchanged |
| Quantile.SortSorted | app/storage.py:81 | `sorted(...)` yields an ascending list that is a permutation of its input |
| Quantile.P95Index | app/storage.py:81 | `int(0.95 * (n - 1))` is the largest i with 100·i ≤ 95·(n−1), and it is a valid index |
| Quantile.Quantile95 | netlify/functions/api.js:19-24 | The percentile is 0 for an empty series; otherwise it is one of the values, and for a single value it is that value |
| Quantile.Quantile95HasRank | app/storage.py:81-89 | The percentile has nearest rank `int(0.95*(n-1))`: at most that many values lie below it and more than that many lie at or below it |
| Quantile.RankIsUnique | app/storage.py:81 | Two values with the same nearest rank in a series are equal |
| Quantile.Quantile95IsRankElement | app/storage.py:81-89 | Any value with the percentile's rank is the percentile, so sorting is not needed to characterise the result |
| Scoring.Norm | app/scoring.py:8-15 | The result is in [0,1]; it is 0 when ceiling ≤ floor or value ≤ floor, 1 at or above a ceiling that exceeds the floor, and strictly between 0 and 1 in between |
| Scoring.NormMonotone | app/scoring.py:11-15 | `norm` never decreases as the value grows |
| Scoring.Clamp | app/scoring.py:44 | `max(lo, min(hi, x))` lies in [lo,hi]: it is x inside the range, lo below it and hi above it |
| Scoring.ClampMonotone | app/scoring.py:44 | Clamping keeps order |
| Scoring.GpuPressure | app/scoring.py:34 | GPU pressure lies in [0,1], because its weights sum to 1 |
| Scoring.CpuPressure | app/scoring.py:35 | CPU pressure lies in [0,1] |
| Scoring.RamPressure | app/scoring.py:36 | RAM pressure lies in [0,1] |
| Scoring.DiskScore | app/scoring.py:37-41 | The disk score lies in [0,1] |
| Scoring.Stress | app/scoring.py:42-44 | The stress lies in [0,1], its weights summing to 1, so `100 - stress*100` lies in [0,100] before the clamp |
| Scoring.RawOverprovision | app/scoring.py:46-53 | Unclamped overprovision lies between 10·mix and 90 + 10·mix; with a mix in [0,1] it lies in [0,100], so the clamp changes nothing |
| Scoring.ComputeScores | app/scoring.py:33-61 | All four pressures lie in [0,1]; `fit` and `overprov` lie in [0,100] |
| Scoring.DemandRaisesPressures | app/scoring.py:34-41 | A summary with every reading at least as high never has a lower pressure |
| Scoring.DemandLowersFitAndOverprovision | app/scoring.py:42-60 | A more demanding summary (higher readings, at least as many active minutes, no lighter app mix) never has a higher `fit` or `overprov` |
| Scoring.Critical | app/scoring.py:65 | `critical` is the largest of the four pressures and equal to one of them |
| Scoring.ClassifyAndAction | app/scoring.py:64-70 | The decision is always one of the three fixed pairs. UNDERPOWERED holds iff fit < 45 or some pressure exceeds 0.90. OVERPROVISIONED holds iff the device is not underpowered and fit > 75 and overprov > 65 |
| Scoring.UnderpoweredTakesPriority | app/scoring.py:66-69 | There is a summary with fit > 75 and overprov > 65 whose CPU pressure exceeds 0.90; it is classified UNDERPOWERED, so the first check wins |
| Scoring.SaturatedCpuOnly | app/scoring.py:33-61 | Every summary idle on all readings but a CPU at or above its ceiling, with an all-light app mix, gets CPU pressure 1, fit 80 and overprov 75 |
| Scoring.IdleSummaryIsOverprovisioned | app/scoring.py:33-70 | Every summary whose readings are at or below all floors, with an all-light app mix, gets fit 100, overprov 100 and OVERPROVISIONED/DOWNSIZE |
| Scoring.SaturatedSummaryIsUnderpowered | tests/test_scoring.py:5-22 | The saturated test summary is UNDERPOWERED/UPSIZE |
| Scoring.LightSummaryIsOverprovisioned | tests/test_scoring.py:25-42 | The light test summary is OVERPROVISIONED/DOWNSIZE, with fit and overprov both 100 |
| Scoring.UnittestSummaryIsUnderpowered | tests/test_scoring_unittest.py:8-24 | The unittest summary is UNDERPOWERED/UPSIZE |
| ScoringJs.ComputeScoresJs | src/scoring.js:8-27 | The JavaScript pressures lie in [0,1]; `fit` and `overprov` lie in [0,100] |
| ScoringJs.ComputeScoresTwinsAgree | src/scoring.js:8-27 | The JavaScript scores equal the Python scores of the same summary, with a missing throttle count read as 0 |
| ScoringJs.MissingThermalIsZero | src/scoring.js:13 | A missing `thermal_throttle_events` scores exactly as 0 events |
| ScoringJs.ClassifyAndActionJs | src/scoring.js:29-38 | The same three string pairs, with the same two if-and-only-if conditions as the Python classifier |
| ScoringJs.ClassifyTwinsAgree | src/scoring.js:29-38 | On every score set the JavaScript decision is the Python decision, written as the enumerations' values |
| ScoringJs.SaturatedSignalsAreUnderpowered | tests/scoring.test.js:5-22 | The JavaScript saturated test signals are UNDERPOWERED/UPSIZE |
| ScoringJs.LightSignalsAreOverprovisioned | tests/scoring.test.js:24-41 | The JavaScript light test signals are OVERPROVISIONED/DOWNSIZE |
| Telemetry.PoolSnoc | app/storage.py:74-77 | Pooling one more batch appends exactly that batch's records, in order |
| Telemetry.Pool | app/storage.py:69-77 | A record is pooled iff it belongs to one of the tenant's batches |
| Telemetry.DeviceOrder | app/storage.py:73-80 | The device keys in order of first appearance have no repeats and are exactly the devices of the records |
| Telemetry.RecordsOf | app/storage.py:77 | A device's group holds only records of that device; it is non-empty iff the device occurs |
| Telemetry.DeviceOrderSnoc | app/storage.py:77 | A new record adds its device at the end of the order only when the device was unseen |
| Telemetry.RecordsOfSnoc | app/storage.py:77 | A new record extends exactly its own device's group |
| Telemetry.GroupedSnoc | netlify/functions/api.js:39-40 | One grouping step keeps the order and the map equal to the specification of the records seen so far |
| Telemetry.AddRecord | netlify/functions/api.js:39-40 | Adding one record to its device's group (`has`/`set`/`push` in JavaScript, a `defaultdict` append in Python) keeps the grouping invariant |
| Telemetry.GroupInto | app/storage.py:76-77 | The inner loop over a batch's records keeps the grouping invariant over all records seen so far |
| Telemetry.GroupByDevice | netlify/functions/api.js:37-41 | The `byDevice` loop yields the device keys in order of first appearance and, for each device, exactly its records in order |
| Telemetry.GroupBatches | app/storage.py:73-77 | The nested loop over batches and records groups the pooled history the same way |
| Telemetry.VramPct | app/storage.py:84 | VRAM share is at most 100, non-negative for non-negative usage, exactly 100 from 8192 MB up and below 100 under it |
| Telemetry.ThrottleCount | app/storage.py:90 | The throttle count never exceeds the number of records |
| Telemetry.HeavyWithinTotal | app/storage.py:93-96 | Heavy-app minutes lie between 0 and the total app minutes |
| Telemetry.Upper | app/storage.py:95 | Upper-casing keeps the length, turns each lower-case ASCII letter into its own capital (32 code points down), keeps every other character, and so leaves no lower-case ASCII letter |
| Telemetry.UpperIdempotent | app/storage.py:95 | Upper-casing twice is upper-casing once |
| Telemetry.HeavyIgnoresCase | app/storage.py:92-95 | `IsHeavy` tests whether the upper-cased name is one of CAD, ML, VIDEO, IDE and BI; whether a category is heavy does not depend on its case |
| Telemetry.LightAppMixFactor | app/storage.py:92-97 | The light-app mix lies in [0,1] |
| Telemetry.LightMixWithoutApps | app/storage.py:93-97 | With no app minutes the `or 1` guard makes the light-app mix exactly 1 |
| Telemetry.LightMixIsLightShare | app/storage.py:93-97 | Otherwise the mix times the total app minutes is the non-heavy minutes |
| Telemetry.Summarize | app/storage.py:81-111 | A device summary has at most one throttle event per record and a light-app mix in [0,1] |
| Telemetry.SummaryReadings | app/storage.py:81-89 | Each percentile field is one of the device's readings; VRAM is at most 100; with one record each percentile is that record's reading |
| Telemetry.SummaryInRange | app/storage.py:81-91 | For valid records, utilisations lie in [0,100], sums are non-negative and disk-busy minutes are at most 5 per record |
| Telemetry.BusyMinutesWithin | app/storage.py:88 | Disk-busy minutes of valid records lie between 0 and 5 per record |
| Telemetry.QuantileAtLeast | app/storage.py:81-89 | A percentile is at least any lower bound of the readings |
| Telemetry.QuantileAtMost | app/storage.py:81-89 | A percentile is at most any upper bound of the readings |
| Recommendations.Confidence | app/storage.py:114-118 | Confidence is 0.90 iff DOWNSIZE with overprov above 80, otherwise 0.70 iff RIGHT_SIZED, otherwise 0.85 |
| Recommendations.Build | app/storage.py:112-138 | A built recommendation carries the given identifier, tenant, device and run date; its other fields follow the rules of `BuildFollowsRules` |
| Recommendations.BuildFollowsRules | app/storage.py:112-138 | The decision is the classifier's; fit and overprov are the scores in [0,100]; confidence follows the rule above; savings are 1200 iff DOWNSIZE, else 0; THERMAL is flagged iff there are more than 3 throttle events; status is NO_ACTION iff EXTEND_LIFE, else PENDING; the three reasons are scores in [0,1] |
| Recommendations.Recommend | app/storage.py:79-140 | The specification of a run: the i-th recommendation is the i-th device's, built from that device's records under identifier firstId + i |
| Recommendations.RecommendOnePerDevice | app/storage.py:73-80 | A run numbers consecutively, carries the tenant and date, never recommends a device twice, and yields nothing for no records |
| Recommendations.RecommendCoversDevices | app/storage.py:73-80 | A run has a recommendation for a device iff the device occurs in the records |
| Storage.MergePatch | app/storage.py:57-66 | A patch never changes the identifier, tenant or validity dates |
| Storage.PatchItemsMerge | app/storage.py:61-64 | Writing the given fields one by one, in order, is the field-wise merge |
| Storage.MergePatchIdempotent | app/storage.py:57-66 | Applying the same patch twice is applying it once; an empty patch changes nothing |
| Storage.ApplyPatch | app/storage.py:61-64 | The loop over `model_dump(exclude_none=True)` computes the field-wise merge |
| Storage.LedgerMatchesHistory | app/storage.py:28-34 | Under the ledger invariant, a batch identity is in the ledger set iff a stored batch of its tenant carries it, so the set lookup answers what a scan of the history would |
| Storage.LedgerAppend | app/storage.py:28-34 | Recording a new key and appending its batch keeps the ledger invariant. The invariant: each stored batch lies under its own tenant, its key is recorded, no key is stored twice, and every recorded key has its batch stored |
| Storage.BuildGroupsIsRecommend | app/storage.py:79-140 | Building from the grouped map, group by group, yields the run specified by `Recommend` over the pooled records |
| Storage.Store.constructor | app/storage.py:21-26 | A new store is empty and valid |
| Storage.Store.Values | app/main.py:79 | The stored recommendations in insertion order |
| Storage.Store.IngestTelemetry | app/storage.py:28-34 | A replayed key gives (0, duplicate) and changes neither the ledger nor the histories, whatever the records. A new key gives (len(records), not duplicate), is recorded, and appends exactly this batch to its tenant's history |
| Storage.Store.IngestCapabilities | app/storage.py:36-38 | Always appends the batch to its tenant's capability history and returns the number of snapshots, with no deduplication |
| Storage.Store.CreatePolicy | app/storage.py:40-52 | Stores a policy under a fresh identifier, with the given fields, effective from `now` and with no end |
| Storage.Store.GetPolicy | app/storage.py:54-55 | Returns the policy iff its identifier is stored |
| Storage.Store.PatchPolicy | app/storage.py:57-66 | An unknown identifier returns nothing and leaves policies unchanged; otherwise it stores and returns the merged policy |
| Storage.Store.AddRecommendation | app/storage.py:139 | The new recommendation is stored under its identifier and listed after the existing ones |
| Storage.Store.RecommendDevice | app/storage.py:112-140 | One group's recommendation is built under the next identifier and stored last |
| Storage.Store.RecommendNextGroup | app/storage.py:80-140 | One loop iteration keeps the run invariant: the results so far are the first n recommendations of the run, stored after the old ones |
| Storage.Store.RecommendGroups | app/storage.py:79-141 | The loop over `by_device.items()` stores and returns one recommendation per group, in group order, and keeps every earlier one |
| Storage.Store.GenerateRecommendations | app/storage.py:68-141 | A tenant without history gets [] and the store is unchanged. Otherwise the result is `Recommend` over the pooled history, appended to the table after the existing recommendations, which are kept |
| Storage.Store.SetStatus | app/main.py:102-103 | Only the status of that one recommendation changes, whatever it was |
| Service.Ack | app/main.py:29-34 | The ack says "duplicate" iff deduplicated, "accepted" otherwise, and echoes the tenant and count |
| Service.IngestTelemetry | app/main.py:26-34 | The ledger behaviour of `ingest_telemetry`, plus the ack status: "duplicate" iff deduped; capabilities, policies and recommendations are kept |
| Service.IngestCapabilities | app/main.py:37-40 | Always "accepted", never deduplicated, counting the snapshots; only the capability history changes |
| Service.GetPolicy | app/main.py:48-53 | Not found iff the identifier is unknown; otherwise the stored policy |
| Service.PatchPolicy | app/main.py:56-61 | Not found, with policies unchanged, for an unknown identifier; otherwise the merged policy, stored; nothing but the policies changes |
| Service.Simulate | app/main.py:64-69 | An unknown policy is not found and nothing is generated or changed. Otherwise the result is the tenant's recommendation run, appended to the table; the ledger, histories and policies are kept |
| Service.ActionStep | app/main.py:80-81 | The action filter after the tenant filter is one filter by both |
| Service.ClassificationStep | app/main.py:82-83 | The classification filter after those is one filter by all three |
| Service.ConfidenceStep | app/main.py:84-85 | The confidence filter after those is one filter by the whole query |
| Service.List | app/main.py:79-86 | The comprehension chain keeps exactly the recommendations matching the tenant and every given filter (conjunctively), in store order, as a subsequence |
| Service.ListRecommendations | app/main.py:72-86 | The answer is `List` over the stored values in insertion order: exactly the stored recommendations of the tenant that match every given action, classification and minimum-confidence filter, in order; each listed item is stored |
| Service.GetRecommendation | app/main.py:89-94 | Not found iff the identifier is unknown; otherwise the stored recommendation |
| Service.SetStatus | app/main.py:99-104 | Not found with no change for an unknown identifier; otherwise the recommendation with only its status replaced, written back; nothing else in the store changes |
| Service.Approve | app/main.py:97-104 | Status becomes APPROVED, every other field and the rest of the store are unchanged; not found with no change for an unknown identifier |
| Service.Override | app/main.py:107-114 | Status becomes OVERRIDDEN unconditionally, every other field and the rest of the store are unchanged; not found with no change for an unknown identifier |
| Service.ApproveTwice | app/main.py:97-104 | A second approve answers as the first and leaves the same table |
| Service.ApproveThenOverride | app/main.py:97-114 | Approve does not lock a recommendation: a later override succeeds and sets OVERRIDDEN |
| Service.FlowHasOneDevice | tests/test_api.py:15-28 | The test's single record yields exactly one recommendation |
| Service.PostTwice | tests/test_api.py:31-39 | Posting the test batch twice to an empty store accepts 1 record, then answers duplicate with 0 |
| Service.SimulateAndApprove | tests/test_api.py:54-61 | Simulating over that history yields at least one item, and approving the first answers APPROVED |
| Service.IngestionFlow | tests/test_api.py:8-61 | The whole test flow against a fresh store: accepted, duplicate, at least one simulated item, approved |
| Api.JsKeyCollision | netlify/functions/api.js:108 | Two different batch identities can share one joined key, and so count as one batch, although the Python tuple keys differ |
| Api.JsKeyInjective | netlify/functions/api.js:108 | When tenant and source contain no `|`, equal keys mean equal identities |
| Api.JsKey | netlify/functions/api.js:108 | The key is the tenant, a `|`, the source, a `|` and the batch id, in that order and nothing else |
| Api.ConfidenceJs | netlify/functions/api.js:68 | Confidence is 0.9 iff DOWNSIZE with overprov above 80, otherwise 0.7 iff RIGHT_SIZED, otherwise 0.85 |
| Api.ConfidenceTwinsAgree | netlify/functions/api.js:68 | The nested conditional gives the confidence of the Python assignments |
| Api.BuildJs | netlify/functions/api.js:66-88 | A built recommendation carries the given identifier, tenant, device and run date; `BuildTwinsAgree` ties its other fields to the Python builder |
| Api.BuildTwinsAgree | netlify/functions/api.js:66-88 | From the same device summary the JavaScript recommendation is the Python one, field by field |
| Api.RecommendJs | netlify/functions/api.js:35-95 | A run has one recommendation per device |
| Api.RecommendTwinsAgree | netlify/functions/api.js:35-95 | Over the same records the JavaScript run equals the Python run, element by element |
| Api.BuildGroupsJsIsRecommendJs | netlify/functions/api.js:37-44 | Building from the `byDevice` map yields the specified run |
| Api.JsDb.constructor | netlify/functions/api.js:4-9 | A new database is empty and valid |
| Api.JsDb.Values | netlify/functions/api.js:158 | The stored recommendations in insertion order |
| Api.JsDb.EnsureTenant | netlify/functions/api.js:31-33 | A tenant gets an empty record list only when it has none; existing records are kept |
| Api.JsDb.IngestTelemetryBatch | netlify/functions/api.js:105-115 | A seen key answers duplicate with 0 records and changes nothing. A new key is recorded, and the tenant's list grows by exactly the incoming records, with a missing list read as empty |
| Api.JsDb.NewId | netlify/functions/api.js:71 | A fresh identifier, used by no policy or recommendation |
| Api.JsDb.CreatePolicy | netlify/functions/api.js:117-132 | Strict mode is true only when given as true; missing settings default to empty; effective from `now`, no end |
| Api.JsDb.GetPolicy | netlify/functions/api.js:134-139 | Not found iff the identifier is unknown |
| Api.JsDb.AddRecommendation | netlify/functions/api.js:90 | Stored under its identifier, listed last |
| Api.JsDb.RecommendDevice | netlify/functions/api.js:66-91 | One group's recommendation is built under a fresh identifier and stored last |
| Api.JsDb.RecommendNextGroup | netlify/functions/api.js:44-92 | One iteration keeps the run invariant |
| Api.JsDb.RecommendGroupsJs | netlify/functions/api.js:43-94 | One stored recommendation per group, in group order, earlier ones kept |
| Api.JsDb.CreateRecommendations | netlify/functions/api.js:35-95 | The result is the specified run over the tenant's records, or [] when there are none, appended after the existing recommendations |
| Api.JsDb.Simulate | netlify/functions/api.js:134-153 | An unknown policy is not found, with no change; otherwise the tenant's run |
| Api.JsDb.GetRecommendation | netlify/functions/api.js:167-172 | Not found iff the identifier is unknown |
| Api.JsDb.SetStatus | netlify/functions/api.js:167-182 | Not found with no change for an unknown identifier; otherwise only the status is replaced |
| Api.JsDb.Approve | netlify/functions/api.js:173-177 | Status becomes APPROVED, nothing else changes |
| Api.JsDb.Override | netlify/functions/api.js:178-182 | Status becomes OVERRIDDEN, nothing else changes |
| Api.TenantStepJs | netlify/functions/api.js:159 | The optional tenant filter is one filter by "no tenant given, or same tenant" |
| Api.ActionStepJs | netlify/functions/api.js:161 | Adding the action filter is one filter by both |
| Api.ClassificationStepJs | netlify/functions/api.js:163 | Adding the classification filter is one filter by the whole query |
| Api.ListJs | netlify/functions/api.js:156-164 | The items are exactly the stored recommendations matching every given filter, in insertion order. The tenant applies only when given, and there is no confidence filter |
| Api.ListJsWithoutFilters | netlify/functions/api.js:157-159 | Without parameters every recommendation of every tenant is listed |
| Api.Split | netlify/functions/api.js:28 | `split('/')` yields at least one piece and no piece contains a slash |
| Api.JoinSplit | netlify/functions/api.js:28 | Joining the pieces with slashes gives back the string |
| Api.SplitJoin | netlify/functions/api.js:28 | Splitting a join of slash-free pieces gives back the pieces |
| Api.DropSlash | netlify/functions/api.js:27 | Removes exactly the leading slash when there is one, and otherwise nothing |
| Api.StripFunctionPath | netlify/functions/api.js:27 | A path without the function prefix is kept whole; one with it loses the 23 prefix characters and at most one slash. The `.` matches one UTF-16 code unit other than a line terminator |
| Api.StripApi | netlify/functions/api.js:27 | A path not beginning with `api` is kept whole; one beginning with it loses those three characters and at most one slash |
| Api.StripsLeaveSuffixes | netlify/functions/api.js:27 | Each of the three replacements only removes a prefix: what is left is a suffix of its input |
| Api.GetPathParts | netlify/functions/api.js:26-29 | No segment is empty or contains a slash |
| Api.FunctionPathStripped | netlify/functions/api.js:27 | The function prefix is removed with any character the unescaped `.` matches in its place: a character of the Basic Multilingual Plane that is not a line terminator |
| Api.UnmatchedDotKeepsFunctionPath | netlify/functions/api.js:26-29 | With a line terminator or a character outside the Basic Multilingual Plane after the first slash, the prefix stays, and its three segments come back before the route's |
| Api.RouteParts | netlify/functions/api.js:26-29 | Under the function prefix, with a character the `.` matches after its first slash, a route of non-empty segments comes back as those segments, unless the first begins with `api` |
| Api.IngestionRouteParts | tests/api.test.js:25 | The test's ingestion path parses to v1 / ingestion / telemetry-batch |
| Api.ApiPrefixNeedsNoSlash | netlify/functions/api.js:27 | A path `/api/...` keeps `api` as its first segment, because the leading slash is removed only after the `api` prefix was tested |
| Api.FlowHasOneDevice | tests/api.test.js:10-22 | The test's single record yields exactly one recommendation |
| Api.PostTwice | tests/api.test.js:25-32 | Posting the test body twice accepts 1 record, then deduplicates |
| Api.SimulateAndApprove | tests/api.test.js:38-45 | Simulating yields at least one item, and approving the first answers APPROVED |
| Api.IngestionFlow | tests/api.test.js:9-46 | The whole test flow against a fresh database |

## Left out

- HTTP plumbing is not modelled: routing, status codes, JSON parsing and the 400 `invalid_json` answers, response bodies, and the `healthz` endpoint. A 404 answer is an `Err` result.
- `uuid4`, `crypto.randomUUID`, `date.today` and `datetime.now` are replaced. Identifiers come from a counter in each store; the run date and `now` are parameters.
- `round(..., 2)`, `toFixed(2)` and the text of `top_reasons` are not modelled. The record keeps the three unrounded scores, and all arithmetic is over exact reals rather than IEEE doubles.
- The validation models of `app/schemas.py` are not modelled. Their field bounds appear only as the validity predicate on records used by the range lemmas.
- The JavaScript policy patch `{...policy, ...patch}` is not modelled. It merges untyped JSON and can overwrite any key, including the identifier.
- Policy thresholds and auto-execute rules are kept as opaque string maps: they are stored and returned, and never read.
- Concurrency is not modelled. Neither store has locks; every operation runs to completion.
- Upper-casing of app categories is ASCII-only.
- Api.JsDb.CreateRecommendations: the JavaScript aggregator reads missing record fields as 0 (`|| 0`, `?.`). The model gives records every field, so it uses the Python aggregator; only the missing throttle count is modelled, in `ScoringJs`.
- Api.JsDb.IngestTelemetryBatch: an absent `tenant_id`, `source` or `batch_id` (rendered as "undefined" in the key) is not modelled. The body's identity fields are always strings.
- Fields that no computation reads are not modelled: the session, network and observed-at fields of records, and the publisher and process of apps.
- `by_device.update({})` in `generate_recommendations` does nothing and is not modelled.
- Telemetry.Summarize: it is total. The empty group it would treat specially never reaches it, because every group holds at least one record.
- Object aliasing is not modelled: the Python and JavaScript handlers mutate the stored recommendation object in place, while the model writes a new value back under the same identifier. The observable table is the same.
