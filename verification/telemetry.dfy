/** Telemetry records, per-device grouping and the signal aggregator
    (app/storage.py `generate_recommendations`, netlify/functions/api.js
    `createRecommendations`). */
module Telemetry {
  import opened Common
  import opened Quantile
  import Scoring

  datatype AppUsage = AppUsage(category: string, activeMinutes: int)

  /** One observation of one device. The session, network and timestamp
      readings are carried by the source but never read by the aggregator. */
  datatype TelemetryRecord = TelemetryRecord(
    deviceKey: string,
    gpuUtilPct: real,
    vramUsedMb: real,
    gpuActiveMinutes: int,
    cpuUtilPct: real,
    ramUsedPct: real,
    pagingPressure: int,
    diskLatencyMs: real,
    diskBusyPct: real,
    diskQueueLen: real,
    throttleEvent: bool,
    apps: seq<AppUsage>)

  datatype TelemetryBatch = TelemetryBatch(
    tenantId: string,
    source: string,
    batchId: string,
    sentAt: int,
    records: seq<TelemetryRecord>)

  predicate ValidApps(apps: seq<AppUsage>)
  {
    forall i :: 0 <= i < |apps| ==> apps[i].activeMinutes >= 0
  }

  /** The field bounds the request schema enforces before ingestion. */
  predicate ValidRecord(r: TelemetryRecord)
  {
    && 0.0 <= r.gpuUtilPct <= 100.0
    && 0.0 <= r.vramUsedMb
    && 0 <= r.gpuActiveMinutes
    && 0.0 <= r.cpuUtilPct <= 100.0
    && 0.0 <= r.ramUsedPct <= 100.0
    && 0 <= r.pagingPressure
    && 0.0 <= r.diskLatencyMs
    && 0.0 <= r.diskBusyPct <= 100.0
    && 0.0 <= r.diskQueueLen
    && ValidApps(r.apps)
  }

  predicate AllValid(recs: seq<TelemetryRecord>)
  {
    forall i :: 0 <= i < |recs| ==> ValidRecord(recs[i])
  }

  /** All records of a tenant's batches, batch by batch, in order: a record
      is pooled exactly when it belongs to one of the batches (`PoolSnoc`
      gives the order). */
  function Pool(batches: seq<TelemetryBatch>): (recs: seq<TelemetryRecord>)
    ensures forall r :: r in recs <==> exists b :: b in batches && r in b.records
  {
    if batches == [] then []
    else
      assert forall b :: b in batches <==> b == batches[0] || b in batches[1..];
      batches[0].records + Pool(batches[1..])
  }

  // ---------------------------------------------------------------------------
  // Grouping by device

  function DeviceKeys(recs: seq<TelemetryRecord>): set<string>
  {
    set r | r in recs :: r.deviceKey
  }

  /** Device keys in order of first appearance, each once. */
  function DeviceOrder(recs: seq<TelemetryRecord>): (keys: seq<string>)
    ensures Distinct(keys)
    ensures forall k :: k in keys <==> k in DeviceKeys(recs)
  {
    if recs == [] then []
    else
      var init := recs[..|recs| - 1];
      var prev := DeviceOrder(init);
      var k := recs[|recs| - 1].deviceKey;
      assert recs == init + [recs[|recs| - 1]];
      assert DeviceKeys(recs) == DeviceKeys(init) + {k};
      if k in prev then prev else prev + [k]
  }

  function HasDevice(k: string): TelemetryRecord -> bool
  {
    (r: TelemetryRecord) => r.deviceKey == k
  }

  /** The records of device `k`, in their original order; never empty for a
      device that occurs. */
  function RecordsOf(recs: seq<TelemetryRecord>, k: string): (group: seq<TelemetryRecord>)
    ensures forall i :: 0 <= i < |group| ==> group[i] in recs && group[i].deviceKey == k
    ensures k in DeviceKeys(recs) ==> |group| > 0
    ensures k !in DeviceKeys(recs) ==> group == []
  {
    var group := Filter(recs, HasDevice(k));
    assert group != [] ==> group[0] in recs && group[0].deviceKey == k;
    group
  }

  lemma DeviceKeysSnoc(recs: seq<TelemetryRecord>, r: TelemetryRecord)
    ensures DeviceKeys(recs + [r]) == DeviceKeys(recs) + {r.deviceKey}
  {
    assert forall x :: x in recs + [r] <==> x in recs || x == r;
  }

  lemma DeviceOrderSnoc(recs: seq<TelemetryRecord>, r: TelemetryRecord)
    ensures DeviceKeys(recs + [r]) == DeviceKeys(recs) + {r.deviceKey}
    ensures DeviceOrder(recs + [r])
         == if r.deviceKey in DeviceOrder(recs) then DeviceOrder(recs) else DeviceOrder(recs) + [r.deviceKey]
  {
    DeviceKeysSnoc(recs, r);
    assert (recs + [r])[..|recs|] == recs;
  }

  lemma RecordsOfSnoc(recs: seq<TelemetryRecord>, r: TelemetryRecord, k: string)
    ensures RecordsOf(recs + [r], k) == RecordsOf(recs, k) + (if r.deviceKey == k then [r] else [])
  {
    FilterAppend(recs, [r], HasDevice(k));
    assert Filter([r], HasDevice(k)) == (if r.deviceKey == k then [r] else []) by {
      assert [r][1..] == [];
    }
  }

  /** Appending one record to its device's group keeps the groups equal to
      the per-device filters of the records seen so far. */
  lemma GroupsStep(done: seq<TelemetryRecord>, r: TelemetryRecord, before: map<string, seq<TelemetryRecord>>)
    requires before.Keys == DeviceKeys(done)
    requires forall k :: k in before ==> before[k] == RecordsOf(done, k)
    ensures var after := before[r.deviceKey := (if r.deviceKey in before then before[r.deviceKey] else []) + [r]];
      && after.Keys == DeviceKeys(done + [r])
      && forall k :: k in after ==> after[k] == RecordsOf(done + [r], k)
  {
    DeviceKeysSnoc(done, r);
    var after := before[r.deviceKey := (if r.deviceKey in before then before[r.deviceKey] else []) + [r]];
    forall k | k in after
      ensures after[k] == RecordsOf(done + [r], k)
    {
      RecordsOfSnoc(done, r, k);
    }
  }

  /** `keys` and `groups` are the grouping of `done`: its devices in order of
      first appearance, and each device's records. */
  predicate Grouped(done: seq<TelemetryRecord>, keys: seq<string>, groups: map<string, seq<TelemetryRecord>>)
  {
    && keys == DeviceOrder(done)
    && groups.Keys == DeviceKeys(done)
    && forall k :: k in groups ==> groups[k] == RecordsOf(done, k)
  }

  /** Appending a record to its device's group (opening the group, and
      listing the device, at its first record) keeps the grouping exact. */
  lemma GroupedSnoc(done: seq<TelemetryRecord>, keys: seq<string>, groups: map<string, seq<TelemetryRecord>>, r: TelemetryRecord)
    requires Grouped(done, keys, groups)
    ensures Grouped(done + [r],
      if r.deviceKey in groups then keys else keys + [r.deviceKey],
      groups[r.deviceKey := (if r.deviceKey in groups then groups[r.deviceKey] else []) + [r]])
  {
    DeviceOrderSnoc(done, r);
    assert (r.deviceKey in groups) == (r.deviceKey in DeviceOrder(done));
    GroupsStep(done, r, groups);
  }

  /** One step of the grouping loop: open a group at a device's first record,
      then append the record to its device's group. */
  method AddRecord(keys: seq<string>, groups: map<string, seq<TelemetryRecord>>, r: TelemetryRecord, ghost done: seq<TelemetryRecord>)
    returns (keys': seq<string>, groups': map<string, seq<TelemetryRecord>>)
    requires Grouped(done, keys, groups)
    ensures Grouped(done + [r], keys', groups')
  {
    keys', groups' := keys, groups;
    if r.deviceKey !in groups' {
      groups' := groups'[r.deviceKey := []];
      keys' := keys' + [r.deviceKey];
    }
    groups' := groups'[r.deviceKey := groups'[r.deviceKey] + [r]];
    assert groups' == groups[r.deviceKey := (if r.deviceKey in groups then groups[r.deviceKey] else []) + [r]];
    GroupedSnoc(done, keys, groups, r);
  }

  /** The loop over a list of records: each record joins its device's group,
      extending the grouping of `done` to that of `done + recs`. */
  method GroupInto(keys: seq<string>, groups: map<string, seq<TelemetryRecord>>, recs: seq<TelemetryRecord>, ghost done: seq<TelemetryRecord>)
    returns (keys': seq<string>, groups': map<string, seq<TelemetryRecord>>)
    requires Grouped(done, keys, groups)
    ensures Grouped(done + recs, keys', groups')
  {
    keys', groups' := keys, groups;
    var i := 0;
    ghost var seen := done;
    assert done + recs[..0] == done;
    while i < |recs|
      invariant 0 <= i <= |recs|
      invariant seen == done + recs[..i]
      invariant Grouped(seen, keys', groups')
    {
      keys', groups' := AddRecord(keys', groups', recs[i], seen);
      PrefixSnoc(done, recs, i);
      seen := seen + [recs[i]];
      i := i + 1;
    }
    assert recs[..i] == recs;
  }

  /** The group of device `k`, empty when there is none. */
  function GroupOf(groups: map<string, seq<TelemetryRecord>>, k: string): seq<TelemetryRecord>
  {
    if k in groups then groups[k] else []
  }

  /** The `byDevice` map of `createRecommendations`, filled from the flat
      list of a tenant's records. */
  method GroupByDevice(recs: seq<TelemetryRecord>) returns (keys: seq<string>, groups: map<string, seq<TelemetryRecord>>)
    ensures keys == DeviceOrder(recs)
    ensures groups.Keys == DeviceKeys(recs)
    ensures forall k :: k in groups ==> groups[k] == RecordsOf(recs, k)
  {
    assert [] + recs == recs;
    assert DeviceKeys([]) == {};
    keys, groups := GroupInto([], map[], recs, []);
  }

  lemma {:induction false} PoolSnoc(batches: seq<TelemetryBatch>, b: TelemetryBatch)
    ensures Pool(batches + [b]) == Pool(batches) + b.records
  {
    if batches == [] {
      assert batches + [b] == [b];
    } else {
      assert (batches + [b])[1..] == batches[1..] + [b];
      PoolSnoc(batches[1..], b);
    }
  }

  lemma PoolPrefixSnoc(batches: seq<TelemetryBatch>, b: nat)
    requires b < |batches|
    ensures Pool(batches[..b + 1]) == Pool(batches[..b]) + batches[b].records
  {
    PoolSnoc(batches[..b], batches[b]);
    assert batches[..b + 1] == batches[..b] + [batches[b]];
  }

  /** The `by_device` loops of `generate_recommendations`: batch by batch,
      record by record, which groups the pooled records. */
  method GroupBatches(batches: seq<TelemetryBatch>) returns (keys: seq<string>, groups: map<string, seq<TelemetryRecord>>)
    ensures keys == DeviceOrder(Pool(batches))
    ensures groups.Keys == DeviceKeys(Pool(batches))
    ensures forall k :: k in groups ==> groups[k] == RecordsOf(Pool(batches), k)
  {
    keys := [];
    groups := map[];
    var b := 0;
    ghost var pooled := [];
    assert Pool(batches[..0]) == [];
    assert DeviceKeys([]) == {};
    while b < |batches|
      invariant 0 <= b <= |batches|
      invariant pooled == Pool(batches[..b])
      invariant Grouped(pooled, keys, groups)
    {
      keys, groups := GroupInto(keys, groups, batches[b].records, pooled);
      PoolPrefixSnoc(batches, b);
      pooled := pooled + batches[b].records;
      b := b + 1;
    }
    assert batches[..b] == batches;
  }

  // ---------------------------------------------------------------------------
  // Aggregation of one device's records

  /** `[f(x) for x in recs]` */
  function Readings(recs: seq<TelemetryRecord>, f: TelemetryRecord -> real): (xs: seq<real>)
    ensures |xs| == |recs|
    ensures forall i :: 0 <= i < |recs| ==> xs[i] == f(recs[i])
  {
    seq(|recs|, i requires 0 <= i < |recs| => f(recs[i]))
  }

  function SumOf(xs: seq<real>): real
  {
    if xs == [] then 0.0 else xs[0] + SumOf(xs[1..])
  }

  lemma {:induction false} SumBounds(xs: seq<real>, lo: real, hi: real)
    requires forall i :: 0 <= i < |xs| ==> lo <= xs[i] <= hi
    ensures lo * |xs| as real <= SumOf(xs) <= hi * |xs| as real
  {
    if xs != [] {
      SumBounds(xs[1..], lo, hi);
    }
  }

  /** Fixed reference capacity for VRAM percentages, in MB. */
  const VramReferenceMb: real := 8192.0

  /** `min(100.0, vram_used_mb / 8192.0 * 100.0)` */
  function VramPct(mb: real): (pct: real)
    ensures pct <= 100.0
    ensures mb >= 0.0 ==> pct >= 0.0
    ensures mb >= VramReferenceMb ==> pct == 100.0
    ensures mb < VramReferenceMb ==> pct < 100.0
  {
    var raw := mb / VramReferenceMb * 100.0;
    if raw < 100.0 then raw else 100.0
  }

  function GpuUtil(r: TelemetryRecord): real { r.gpuUtilPct }
  function VramUsedPct(r: TelemetryRecord): real { VramPct(r.vramUsedMb) }
  function CpuUtil(r: TelemetryRecord): real { r.cpuUtilPct }
  function RamUsed(r: TelemetryRecord): real { r.ramUsedPct }
  function Paging(r: TelemetryRecord): real { r.pagingPressure as real }
  function DiskLatency(r: TelemetryRecord): real { r.diskLatencyMs }
  /** Each record stands for a fixed 5-minute sampling interval. */
  function DiskBusyMinutes(r: TelemetryRecord): real { (r.diskBusyPct / 100.0) * 5.0 }
  function DiskQueue(r: TelemetryRecord): real { r.diskQueueLen }
  function GpuActiveMinutes(r: TelemetryRecord): real { r.gpuActiveMinutes as real }

  /** `sum(1 for x in recs if x.thermal.throttle_event)` */
  function ThrottleCount(recs: seq<TelemetryRecord>): (n: nat)
    ensures n <= |recs|
  {
    if recs == [] then 0 else (if recs[0].throttleEvent then 1 else 0) + ThrottleCount(recs[1..])
  }

  // Application mix

  /** ASCII upper-casing (`str.upper()` restricted to ASCII letters). */
  function UpperChar(c: char): char
  {
    if 'a' <= c <= 'z' then (c as int - 32) as char else c
  }

  /** Upper-cases every ASCII letter and keeps every other character. */
  function Upper(s: string): (u: string)
    ensures |u| == |s|
    ensures forall i :: 0 <= i < |u| ==> !('a' <= u[i] <= 'z')
    ensures forall i :: 0 <= i < |s| && !('a' <= s[i] <= 'z') ==> u[i] == s[i]
    ensures forall i :: 0 <= i < |s| && 'a' <= s[i] <= 'z' ==> u[i] as int == s[i] as int - 32
  {
    seq(|s|, i requires 0 <= i < |s| => UpperChar(s[i]))
  }

  const HeavyCategories: set<string> := {"CAD", "ML", "VIDEO", "IDE", "BI"}

  /** A category is heavy when its upper-cased name is one of the five;
      `HeavyIgnoresCase` states that its case does not matter. */
  predicate IsHeavy(category: string)
  {
    Upper(category) in HeavyCategories
  }

  /** Upper-casing twice is upper-casing once. */
  lemma UpperIdempotent(s: string)
    ensures Upper(Upper(s)) == Upper(s)
  {
    var u := Upper(s);
    assert forall i :: 0 <= i < |u| ==> Upper(u)[i] == u[i];
  }

  /** Whether a category is heavy does not depend on the case it is
      written in. */
  lemma HeavyIgnoresCase(category: string)
    ensures IsHeavy(Upper(category)) == IsHeavy(category)
  {
    UpperIdempotent(category);
  }

  function AppsMinutes(apps: seq<AppUsage>): int
  {
    if apps == [] then 0 else apps[0].activeMinutes + AppsMinutes(apps[1..])
  }

  function AppsHeavyMinutes(apps: seq<AppUsage>): int
  {
    if apps == [] then 0
    else (if IsHeavy(apps[0].category) then apps[0].activeMinutes else 0) + AppsHeavyMinutes(apps[1..])
  }

  /** `sum(a.active_minutes for x in recs for a in x.apps)` */
  function TotalAppMinutes(recs: seq<TelemetryRecord>): int
  {
    if recs == [] then 0 else AppsMinutes(recs[0].apps) + TotalAppMinutes(recs[1..])
  }

  /** The same sum restricted to heavy categories. */
  function HeavyAppMinutes(recs: seq<TelemetryRecord>): int
  {
    if recs == [] then 0 else AppsHeavyMinutes(recs[0].apps) + HeavyAppMinutes(recs[1..])
  }

  lemma {:induction false} AppsHeavyWithinTotal(apps: seq<AppUsage>)
    requires ValidApps(apps)
    ensures 0 <= AppsHeavyMinutes(apps) <= AppsMinutes(apps)
  {
    if apps != [] {
      AppsHeavyWithinTotal(apps[1..]);
    }
  }

  /** With non-negative minutes, heavy minutes are a part of all minutes. */
  lemma {:induction false} HeavyWithinTotal(recs: seq<TelemetryRecord>)
    requires AllValid(recs)
    ensures 0 <= HeavyAppMinutes(recs) <= TotalAppMinutes(recs)
  {
    if recs != [] {
      AppsHeavyWithinTotal(recs[0].apps);
      HeavyWithinTotal(recs[1..]);
    }
  }

  /** `max(0, min(1, 1 - heavy / (total or 1)))` */
  function LightAppMixFactor(recs: seq<TelemetryRecord>): (f: real)
    ensures 0.0 <= f <= 1.0
  {
    var total := TotalAppMinutes(recs);
    var denominator := if total == 0 then 1 else total;
    Scoring.Clamp(1.0 - HeavyAppMinutes(recs) as real / denominator as real, 0.0, 1.0)
  }

  /** No application minutes at all counts as a fully light mix. */
  lemma LightMixWithoutApps(recs: seq<TelemetryRecord>)
    requires AllValid(recs) && TotalAppMinutes(recs) == 0
    ensures LightAppMixFactor(recs) == 1.0
  {
    HeavyWithinTotal(recs);
  }

  /** Otherwise the factor is exactly the light share of the minutes: the
      clamp never bites on valid records. */
  lemma LightMixIsLightShare(recs: seq<TelemetryRecord>)
    requires AllValid(recs) && TotalAppMinutes(recs) != 0
    ensures LightAppMixFactor(recs) * TotalAppMinutes(recs) as real
         == (TotalAppMinutes(recs) - HeavyAppMinutes(recs)) as real
  {
    HeavyWithinTotal(recs);
    ShareInUnit(HeavyAppMinutes(recs) as real, TotalAppMinutes(recs) as real);
  }

  lemma ShareInUnit(h: real, t: real)
    requires 0.0 <= h <= t && t > 0.0
    ensures 0.0 <= h / t <= 1.0
    ensures (1.0 - h / t) * t == t - h
  {
    var q := h / t;
    assert q * t == h;
    if q > 1.0 {
      assert false;
    }
  }

  /** The signal summary of one device's records; `SummaryReadings` and
      `SummaryInRange` state where each figure comes from. Groups are never
      empty; on an empty series the percentiles read 0, as in `quantile95`. */
  function Summarize(recs: seq<TelemetryRecord>): (s: Scoring.SignalSummary)
    ensures 0 <= s.thermalThrottleEvents <= |recs|
    ensures 0.0 <= s.lightAppMixFactor <= 1.0
  {
    Scoring.SignalSummary(
      gpuUtilP95 := Quantile95(Readings(recs, GpuUtil)),
      vramUsedP95Pct := Quantile95(Readings(recs, VramUsedPct)),
      cpuUtilP95 := Quantile95(Readings(recs, CpuUtil)),
      ramUsedP95 := Quantile95(Readings(recs, RamUsed)),
      pagingPressureMinutes := SumOf(Readings(recs, Paging)),
      diskLatencyP95Ms := Quantile95(Readings(recs, DiskLatency)),
      diskBusyMinutes := SumOf(Readings(recs, DiskBusyMinutes)),
      diskQueueP95 := Quantile95(Readings(recs, DiskQueue)),
      thermalThrottleEvents := ThrottleCount(recs),
      activeMinutes := SumOf(Readings(recs, GpuActiveMinutes)),
      lightAppMixFactor := LightAppMixFactor(recs))
  }

  /** Each percentile of the summary is one of the device's own readings,
      and a device with one record reports that record's readings. */
  lemma SummaryReadings(recs: seq<TelemetryRecord>)
    requires |recs| > 0
    ensures var s := Summarize(recs);
      && s.gpuUtilP95 in Readings(recs, GpuUtil)
      && s.vramUsedP95Pct in Readings(recs, VramUsedPct)
      && s.cpuUtilP95 in Readings(recs, CpuUtil)
      && s.ramUsedP95 in Readings(recs, RamUsed)
      && s.diskLatencyP95Ms in Readings(recs, DiskLatency)
      && s.diskQueueP95 in Readings(recs, DiskQueue)
      && s.vramUsedP95Pct <= 100.0
    ensures |recs| == 1 ==> var s := Summarize(recs);
      && s.gpuUtilP95 == recs[0].gpuUtilPct
      && s.vramUsedP95Pct == VramPct(recs[0].vramUsedMb)
      && s.cpuUtilP95 == recs[0].cpuUtilPct
      && s.ramUsedP95 == recs[0].ramUsedPct
      && s.diskLatencyP95Ms == recs[0].diskLatencyMs
      && s.diskQueueP95 == recs[0].diskQueueLen
  {
    QuantileAtMost(recs, VramUsedPct, 100.0);
  }

  /** On valid records every summary figure stays in its physical range:
      percentages in [0, 100], busy minutes at most 5 per record, sums
      non-negative. */
  lemma SummaryInRange(recs: seq<TelemetryRecord>)
    requires |recs| > 0 && AllValid(recs)
    ensures var s := Summarize(recs);
      && 0.0 <= s.gpuUtilP95 <= 100.0
      && 0.0 <= s.vramUsedP95Pct <= 100.0
      && 0.0 <= s.cpuUtilP95 <= 100.0
      && 0.0 <= s.ramUsedP95 <= 100.0
      && 0.0 <= s.pagingPressureMinutes
      && 0.0 <= s.diskLatencyP95Ms
      && 0.0 <= s.diskBusyMinutes <= 5.0 * |recs| as real
      && 0.0 <= s.diskQueueP95
      && 0.0 <= s.activeMinutes
  {
    QuantileAtLeast(recs, GpuUtil, 0.0);
    QuantileAtMost(recs, GpuUtil, 100.0);
    QuantileAtLeast(recs, VramUsedPct, 0.0);
    QuantileAtLeast(recs, CpuUtil, 0.0);
    QuantileAtMost(recs, CpuUtil, 100.0);
    QuantileAtLeast(recs, RamUsed, 0.0);
    QuantileAtMost(recs, RamUsed, 100.0);
    QuantileAtLeast(recs, DiskLatency, 0.0);
    QuantileAtLeast(recs, DiskQueue, 0.0);
    SumNonNeg(Readings(recs, Paging));
    SumNonNeg(Readings(recs, GpuActiveMinutes));
    BusyMinutesWithin(recs);
  }

  /** Busy minutes add up to at most five per record. */
  lemma BusyMinutesWithin(recs: seq<TelemetryRecord>)
    requires AllValid(recs)
    ensures 0.0 <= SumOf(Readings(recs, DiskBusyMinutes)) <= 5.0 * |recs| as real
  {
    var busy := Readings(recs, DiskBusyMinutes);
    forall i | 0 <= i < |busy|
      ensures 0.0 <= busy[i] <= 5.0
    {
      assert ValidRecord(recs[i]);
    }
    SumBounds(busy, 0.0, 5.0);
  }

  /** A percentile of readings that are all at least `lo` is at least `lo`. */
  lemma QuantileAtLeast(recs: seq<TelemetryRecord>, f: TelemetryRecord -> real, lo: real)
    requires |recs| > 0
    requires forall i :: 0 <= i < |recs| ==> lo <= f(recs[i])
    ensures lo <= Quantile95(Readings(recs, f))
  {
    var xs := Readings(recs, f);
    var i :| 0 <= i < |xs| && xs[i] == Quantile95(xs);
  }

  /** A percentile of readings that are all at most `hi` is at most `hi`. */
  lemma QuantileAtMost(recs: seq<TelemetryRecord>, f: TelemetryRecord -> real, hi: real)
    requires |recs| > 0
    requires forall i :: 0 <= i < |recs| ==> f(recs[i]) <= hi
    ensures Quantile95(Readings(recs, f)) <= hi
  {
    var xs := Readings(recs, f);
    var i :| 0 <= i < |xs| && xs[i] == Quantile95(xs);
  }

  lemma {:induction false} SumNonNeg(xs: seq<real>)
    requires forall i :: 0 <= i < |xs| ==> xs[i] >= 0.0
    ensures SumOf(xs) >= 0.0
  {
    if xs != [] {
      SumNonNeg(xs[1..]);
    }
  }
}
