/** The in-memory store of the Python service (app/storage.py
    `InMemoryStore`): the ingestion ledger, per-tenant telemetry and
    capability histories, policies and recommendations. */
module Storage {
  import opened Common
  import opened Telemetry
  import opened Recommendations

  /** The identity a telemetry batch is deduplicated on. */
  datatype BatchKey = BatchKey(tenantId: string, source: string, batchId: string)

  function KeyOf(b: TelemetryBatch): BatchKey
  {
    BatchKey(b.tenantId, b.source, b.batchId)
  }

  datatype CapabilitySnapshot = CapabilitySnapshot(
    deviceKey: string,
    capturedAt: int,
    cpuModel: string,
    cpuCores: nat,
    ramGb: nat,
    storageType: string,
    storageTotalGb: nat,
    gpuVendor: string,
    gpuModel: string,
    gpuVramGb: nat,
    gpuDriver: string)

  datatype CapabilityBatch = CapabilityBatch(tenantId: string, source: string, snapshots: seq<CapabilitySnapshot>)

  // ---------------------------------------------------------------------------
  // Policies

  type PolicyId = nat

  /** Threshold and rule dictionaries are stored and returned as given; the
      recommendation engine never reads them. */
  type Settings = map<string, string>

  datatype PolicyProfile = PolicyProfile(
    policyId: PolicyId,
    tenantId: string,
    name: string,
    strictMode: bool,
    thresholds: Settings,
    autoExecuteRules: Settings,
    effectiveFrom: int,
    effectiveTo: Option<int>)

  datatype PolicyCreate = PolicyCreate(
    tenantId: string,
    name: string,
    strictMode: bool,
    thresholds: Settings,
    autoExecuteRules: Settings)

  /** A partial update: `None` means the field was not given. */
  datatype PolicyPatch = PolicyPatch(
    name: Option<string>,
    strictMode: Option<bool>,
    thresholds: Option<Settings>,
    autoExecuteRules: Option<Settings>)

  /** One `(field, value)` pair of `patch.model_dump(exclude_none=True)`. */
  datatype PatchItem =
    | NameItem(name: string)
    | StrictModeItem(strictMode: bool)
    | ThresholdsItem(thresholds: Settings)
    | RulesItem(rules: Settings)

  /** The fields the patch gives, in declaration order. */
  function PatchItems(p: PolicyPatch): seq<PatchItem>
  {
    (if p.name.Some? then [NameItem(p.name.value)] else [])
    + (if p.strictMode.Some? then [StrictModeItem(p.strictMode.value)] else [])
    + (if p.thresholds.Some? then [ThresholdsItem(p.thresholds.value)] else [])
    + (if p.autoExecuteRules.Some? then [RulesItem(p.autoExecuteRules.value)] else [])
  }

  /** `data[field] = value` */
  function ApplyItem(data: PolicyProfile, item: PatchItem): PolicyProfile
  {
    match item
    case NameItem(n) => data.(name := n)
    case StrictModeItem(m) => data.(strictMode := m)
    case ThresholdsItem(t) => data.(thresholds := t)
    case RulesItem(r) => data.(autoExecuteRules := r)
  }

  /** The items applied left to right. */
  function ApplyItems(data: PolicyProfile, items: seq<PatchItem>): PolicyProfile
  {
    if items == [] then data else ApplyItem(ApplyItems(data, items[..|items| - 1]), items[|items| - 1])
  }

  /** The intended merge, field by field: the patch's value where given,
      the stored value otherwise; identity and validity dates are never
      patchable. */
  function MergePatch(pol: PolicyProfile, p: PolicyPatch): (r: PolicyProfile)
    ensures r.policyId == pol.policyId && r.tenantId == pol.tenantId
    ensures r.effectiveFrom == pol.effectiveFrom && r.effectiveTo == pol.effectiveTo
  {
    PolicyProfile(
      pol.policyId,
      pol.tenantId,
      if p.name.Some? then p.name.value else pol.name,
      if p.strictMode.Some? then p.strictMode.value else pol.strictMode,
      if p.thresholds.Some? then p.thresholds.value else pol.thresholds,
      if p.autoExecuteRules.Some? then p.autoExecuteRules.value else pol.autoExecuteRules,
      pol.effectiveFrom,
      pol.effectiveTo)
  }

  lemma ApplyItemsSnoc(data: PolicyProfile, items: seq<PatchItem>, item: PatchItem)
    ensures ApplyItems(data, items + [item]) == ApplyItem(ApplyItems(data, items), item)
  {
    assert (items + [item])[..|items|] == items;
  }

  lemma ApplyItemsPrefix(data: PolicyProfile, items: seq<PatchItem>, i: nat)
    requires i < |items|
    ensures ApplyItems(data, items[..i + 1]) == ApplyItem(ApplyItems(data, items[..i]), items[i])
  {
    assert items[..i + 1][..i] == items[..i];
  }

  /** Applying at most one more item. */
  lemma ApplyOptional(data: PolicyProfile, items: seq<PatchItem>, extra: seq<PatchItem>)
    requires |extra| <= 1
    ensures ApplyItems(data, items + extra)
         == if extra == [] then ApplyItems(data, items) else ApplyItem(ApplyItems(data, items), extra[0])
  {
    if extra == [] {
      assert items + extra == items;
    } else {
      assert extra == [extra[0]];
      ApplyItemsSnoc(data, items, extra[0]);
    }
  }

  /** Writing the given fields one by one yields the field-wise merge. */
  lemma PatchItemsMerge(pol: PolicyProfile, p: PolicyPatch)
    ensures ApplyItems(pol, PatchItems(p)) == MergePatch(pol, p)
  {
    var a := if p.name.Some? then [NameItem(p.name.value)] else [];
    var b := if p.strictMode.Some? then [StrictModeItem(p.strictMode.value)] else [];
    var c := if p.thresholds.Some? then [ThresholdsItem(p.thresholds.value)] else [];
    var d := if p.autoExecuteRules.Some? then [RulesItem(p.autoExecuteRules.value)] else [];
    assert [] + a == a;
    ApplyOptional(pol, [], a);
    var p1 := if p.name.Some? then pol.(name := p.name.value) else pol;
    assert ApplyItems(pol, a) == p1;
    ApplyOptional(pol, a, b);
    var p2 := if p.strictMode.Some? then p1.(strictMode := p.strictMode.value) else p1;
    assert ApplyItems(pol, a + b) == p2;
    ApplyOptional(pol, a + b, c);
    var p3 := if p.thresholds.Some? then p2.(thresholds := p.thresholds.value) else p2;
    assert ApplyItems(pol, a + b + c) == p3;
    ApplyOptional(pol, a + b + c, d);
    var p4 := if p.autoExecuteRules.Some? then p3.(autoExecuteRules := p.autoExecuteRules.value) else p3;
    assert ApplyItems(pol, a + b + c + d) == p4;
  }

  /** Applying the same patch twice changes nothing more, and an empty patch
      changes nothing. */
  lemma MergePatchIdempotent(pol: PolicyProfile, p: PolicyPatch)
    ensures MergePatch(MergePatch(pol, p), p) == MergePatch(pol, p)
    ensures p == PolicyPatch(None, None, None, None) ==> MergePatch(pol, p) == pol
  {
  }

  /** `data = policy.model_dump()`, then `data[field] = value` for every
      field the patch gives, then `PolicyProfile(**data)`. */
  method ApplyPatch(policy: PolicyProfile, patch: PolicyPatch) returns (data: PolicyProfile)
    ensures data == MergePatch(policy, patch)
  {
    data := policy;
    var items := PatchItems(patch);
    var i := 0;
    while i < |items|
      invariant 0 <= i <= |items|
      invariant data == ApplyItems(policy, items[..i])
    {
      ApplyItemsPrefix(policy, items, i);
      data := ApplyItem(data, items[i]);
      i := i + 1;
    }
    assert items[..i] == items;
    PatchItemsMerge(policy, patch);
  }

  // ---------------------------------------------------------------------------
  // The ingestion ledger

  function HistoryIn(telemetry: map<string, seq<TelemetryBatch>>, tenant: string): seq<TelemetryBatch>
  {
    if tenant in telemetry then telemetry[tenant] else []
  }

  /** The ledger holds exactly the identities of the stored batches, each
      stored once, under its own tenant. */
  ghost predicate Ledger(ingested: set<BatchKey>, telemetry: map<string, seq<TelemetryBatch>>)
  {
    && (forall t, i :: t in telemetry && 0 <= i < |telemetry[t]| ==>
          telemetry[t][i].tenantId == t && KeyOf(telemetry[t][i]) in ingested)
    && (forall t, i, j :: t in telemetry && 0 <= i < j < |telemetry[t]| ==>
          KeyOf(telemetry[t][i]) != KeyOf(telemetry[t][j]))
    && (forall k :: k in ingested ==>
          k.tenantId in telemetry && exists i :: 0 <= i < |telemetry[k.tenantId]| && KeyOf(telemetry[k.tenantId][i]) == k)
  }

  /** Under the ledger, the set of identities answers what a scan of the
      tenant's stored batches would: an identity is recorded exactly when a
      stored batch carries it. */
  lemma LedgerMatchesHistory(ingested: set<BatchKey>, telemetry: map<string, seq<TelemetryBatch>>, batch: TelemetryBatch)
    requires Ledger(ingested, telemetry)
    ensures KeyOf(batch) in ingested <==>
      exists i :: 0 <= i < |HistoryIn(telemetry, batch.tenantId)| && KeyOf(HistoryIn(telemetry, batch.tenantId)[i]) == KeyOf(batch)
  {
    var h := HistoryIn(telemetry, batch.tenantId);
    if i :| 0 <= i < |h| && KeyOf(h[i]) == KeyOf(batch) {
      assert KeyOf(telemetry[batch.tenantId][i]) in ingested;
    }
  }

  /** Recording a new identity together with its batch keeps the ledger
      exact. */
  lemma LedgerAppend(ingested: set<BatchKey>, telemetry: map<string, seq<TelemetryBatch>>, batch: TelemetryBatch)
    requires Ledger(ingested, telemetry) && KeyOf(batch) !in ingested
    ensures Ledger(ingested + {KeyOf(batch)}, telemetry[batch.tenantId := HistoryIn(telemetry, batch.tenantId) + [batch]])
  {
    var key := KeyOf(batch);
    var ingested' := ingested + {key};
    var telemetry' := telemetry[batch.tenantId := HistoryIn(telemetry, batch.tenantId) + [batch]];
    forall k | k in ingested'
      ensures k.tenantId in telemetry'
      ensures exists i :: 0 <= i < |telemetry'[k.tenantId]| && KeyOf(telemetry'[k.tenantId][i]) == k
    {
      if k == key {
        var h := telemetry'[k.tenantId];
        assert KeyOf(h[|h| - 1]) == k;
      } else {
        var i :| 0 <= i < |telemetry[k.tenantId]| && KeyOf(telemetry[k.tenantId][i]) == k;
        assert KeyOf(telemetry'[k.tenantId][i]) == k;
      }
    }
  }

  /** The recommendations built from the first `n` groups, in the order of
      `keys`, numbered from `firstId`. */
  function BuildGroups(tenant: string, keys: seq<string>, groups: map<string, seq<TelemetryRecord>>,
                       firstId: RecId, runDate: Date, n: nat): (rs: seq<Recommendation>)
    requires n <= |keys|
    ensures |rs| == n
  {
    Numbered(GroupBuilder(tenant, groups, runDate), keys, firstId, n)
  }

  /** Builds the recommendation of device `k` under identifier `id`. */
  function GroupBuilder(tenant: string, groups: map<string, seq<TelemetryRecord>>, runDate: Date): (nat, string) -> Recommendation
  {
    (id: nat, k: string) => Build(id, tenant, k, runDate, Summarize(GroupOf(groups, k)))
  }

  lemma GroupBuilderApply(tenant: string, groups: map<string, seq<TelemetryRecord>>, runDate: Date, id: nat, k: string)
    requires k in groups
    ensures GroupBuilder(tenant, groups, runDate)(id, k) == Build(id, tenant, k, runDate, Summarize(groups[k]))
  {
  }

  /** A group of the pooled records yields the same recommendation as the
      device's records filtered from the pool. */
  lemma BuildersAgree(tenant: string, pooled: seq<TelemetryRecord>, keys: seq<string>,
                      groups: map<string, seq<TelemetryRecord>>, runDate: Date, id: nat, k: string)
    requires Grouped(pooled, keys, groups) && k in groups
    ensures GroupBuilder(tenant, groups, runDate)(id, k) == DeviceBuilder(tenant, pooled, runDate)(id, k)
  {
    assert GroupOf(groups, k) == RecordsOf(pooled, k);
  }

  /** Building from the groups of the pooled records gives exactly the run
      over the pooled records. */
  lemma BuildGroupsIsRecommend(tenant: string, pooled: seq<TelemetryRecord>, keys: seq<string>,
                               groups: map<string, seq<TelemetryRecord>>, firstId: RecId, runDate: Date)
    requires Grouped(pooled, keys, groups)
    ensures forall k :: k in keys ==> k in groups
    ensures BuildGroups(tenant, keys, groups, firstId, runDate, |keys|) == Recommend(tenant, pooled, firstId, runDate)
  {
    var f := GroupBuilder(tenant, groups, runDate);
    var g := DeviceBuilder(tenant, pooled, runDate);
    forall i | 0 <= i < |keys|
      ensures f(firstId + i, keys[i]) == g(firstId + i, keys[i])
    {
      BuildersAgree(tenant, pooled, keys, groups, runDate, firstId + i, keys[i]);
    }
    NumberedPointwise(f, g, keys, firstId, |keys|);
  }

  // ---------------------------------------------------------------------------
  // The store

  class Store {
    var ingestedBatches: set<BatchKey>
    var telemetry: map<string, seq<TelemetryBatch>>
    var capabilities: map<string, seq<CapabilityBatch>>
    var policies: map<PolicyId, PolicyProfile>
    /** `recommendations` in insertion order (a dict keeps its keys in the
        order they were first inserted). */
    var recOrder: seq<RecId>
    var recommendations: map<RecId, Recommendation>
    /** The next identifier to hand out, standing in for `uuid4()`. */
    var nextId: nat

    ghost predicate LedgerValid()
      reads this
    {
      Ledger(ingestedBatches, telemetry)
    }

    ghost predicate TableValid()
      reads this
    {
      && Distinct(recOrder)
      && (forall id :: id in recommendations <==> id in recOrder)
      && (forall id :: id in recommendations ==> recommendations[id].id == id && id < nextId)
    }

    ghost predicate Valid()
      reads this
    {
      && LedgerValid()
      && (forall t, i :: t in capabilities && 0 <= i < |capabilities[t]| ==> capabilities[t][i].tenantId == t)
      && (forall id :: id in policies ==> policies[id].policyId == id && id < nextId)
      && TableValid()
    }

    constructor()
      ensures Valid()
      ensures ingestedBatches == {} && telemetry == map[] && capabilities == map[]
      ensures policies == map[] && recOrder == [] && recommendations == map[]
    {
      ingestedBatches := {};
      telemetry := map[];
      capabilities := map[];
      policies := map[];
      recOrder := [];
      recommendations := map[];
      nextId := 0;
    }

    /** `self.telemetry.get(tenant_id, [])` */
    function History(tenant: string): seq<TelemetryBatch>
      reads this
    {
      HistoryIn(telemetry, tenant)
    }

    function CapabilityHistory(tenant: string): seq<CapabilityBatch>
      reads this
    {
      if tenant in capabilities then capabilities[tenant] else []
    }

    /** `store.recommendations.values()`, in insertion order. */
    function Values(): (vs: seq<Recommendation>)
      requires TableValid()
      reads this
      ensures |vs| == |recOrder|
      ensures forall i :: 0 <= i < |vs| ==> vs[i] == recommendations[recOrder[i]]
    {
      var order := recOrder;
      var table := recommendations;
      seq(|order|, i requires 0 <= i < |order| => table[order[i]])
    }

    /** A first-time batch is recorded in the ledger and appended to its
        tenant's history; a replayed identity is answered with (0, true) and
        changes nothing, whatever records it carries. */
    method IngestTelemetry(batch: TelemetryBatch) returns (accepted: nat, deduped: bool)
      requires Valid()
      modifies this
      ensures Valid()
      ensures deduped <==> KeyOf(batch) in old(ingestedBatches)
      ensures deduped ==> accepted == 0 && ingestedBatches == old(ingestedBatches) && telemetry == old(telemetry)
      ensures !deduped ==> accepted == |batch.records|
      ensures !deduped ==> ingestedBatches == old(ingestedBatches) + {KeyOf(batch)}
      ensures !deduped ==> telemetry == old(telemetry)[batch.tenantId := old(History(batch.tenantId)) + [batch]]
      ensures capabilities == old(capabilities) && policies == old(policies)
      ensures recOrder == old(recOrder) && recommendations == old(recommendations) && nextId == old(nextId)
    {
      var key := KeyOf(batch);
      if key in ingestedBatches {
        return 0, true;
      }
      LedgerAppend(ingestedBatches, telemetry, batch);
      ingestedBatches := ingestedBatches + {key};
      telemetry := telemetry[batch.tenantId := History(batch.tenantId) + [batch]];
      accepted, deduped := |batch.records|, false;
    }

    /** Capability snapshots are never deduplicated: the batch is always
        appended and all its snapshots are accepted. */
    method IngestCapabilities(batch: CapabilityBatch) returns (accepted: nat)
      requires Valid()
      modifies this
      ensures Valid()
      ensures accepted == |batch.snapshots|
      ensures capabilities == old(capabilities)[batch.tenantId := old(CapabilityHistory(batch.tenantId)) + [batch]]
      ensures ingestedBatches == old(ingestedBatches) && telemetry == old(telemetry) && policies == old(policies)
      ensures recOrder == old(recOrder) && recommendations == old(recommendations) && nextId == old(nextId)
    {
      capabilities := capabilities[batch.tenantId := CapabilityHistory(batch.tenantId) + [batch]];
      accepted := |batch.snapshots|;
    }

    /** A fresh identifier, never used before (`uuid4()`). */
    method NewId() returns (id: nat)
      requires Valid()
      modifies this
      ensures Valid()
      ensures id == old(nextId) && nextId == old(nextId) + 1
      ensures id !in policies && id !in recommendations
      ensures ingestedBatches == old(ingestedBatches) && telemetry == old(telemetry) && capabilities == old(capabilities)
      ensures policies == old(policies) && recOrder == old(recOrder) && recommendations == old(recommendations)
    {
      id := nextId;
      nextId := nextId + 1;
    }

    /** A new policy under a fresh identifier, effective from `now`, with no
        end date. */
    method CreatePolicy(input: PolicyCreate, now: int) returns (p: PolicyProfile)
      requires Valid()
      modifies this
      ensures Valid()
      ensures p.policyId !in old(policies) && p.policyId == old(nextId)
      ensures p == PolicyProfile(p.policyId, input.tenantId, input.name, input.strictMode,
                                 input.thresholds, input.autoExecuteRules, now, None)
      ensures policies == old(policies)[p.policyId := p]
      ensures ingestedBatches == old(ingestedBatches) && telemetry == old(telemetry) && capabilities == old(capabilities)
      ensures recOrder == old(recOrder) && recommendations == old(recommendations)
    {
      var id := NewId();
      p := PolicyProfile(id, input.tenantId, input.name, input.strictMode,
                         input.thresholds, input.autoExecuteRules, now, None);
      policies := policies[id := p];
    }

    /** `self.policies.get(policy_id)` */
    function GetPolicy(id: PolicyId): (r: Option<PolicyProfile>)
      requires Valid()
      reads this
      ensures r.Some? <==> id in policies
      ensures r.Some? ==> r.value.policyId == id && r.value == policies[id]
    {
      if id in policies then Some(policies[id]) else None
    }

    /** An unknown policy yields `None` and nothing changes; otherwise the
        given fields are written over a copy of the policy, field by field,
        which is then stored under the same identifier. */
    method PatchPolicy(id: PolicyId, patch: PolicyPatch) returns (r: Option<PolicyProfile>)
      requires Valid()
      modifies this
      ensures Valid()
      ensures id !in old(policies) ==> r == None && policies == old(policies)
      ensures id in old(policies) ==> r == Some(MergePatch(old(policies)[id], patch))
      ensures id in old(policies) ==> policies == old(policies)[id := r.value]
      ensures ingestedBatches == old(ingestedBatches) && telemetry == old(telemetry) && capabilities == old(capabilities)
      ensures recOrder == old(recOrder) && recommendations == old(recommendations) && nextId == old(nextId)
    {
      var policy := GetPolicy(id);
      if policy.None? {
        return None;
      }
      var data := ApplyPatch(policy.value, patch);
      policies := policies[id := data];
      r := Some(data);
    }

    /** Stores a recommendation under its fresh identifier, after all the
        others. */
    method AddRecommendation(rec: Recommendation)
      requires Valid()
      requires rec.id !in recommendations && rec.id < nextId
      modifies this
      ensures Valid()
      ensures recOrder == old(recOrder) + [rec.id]
      ensures recommendations == old(recommendations)[rec.id := rec]
      ensures Values() == old(Values()) + [rec]
      ensures ingestedBatches == old(ingestedBatches) && telemetry == old(telemetry) && capabilities == old(capabilities)
      ensures policies == old(policies) && nextId == old(nextId)
    {
      ghost var before := Values();
      recommendations := recommendations[rec.id := rec];
      recOrder := recOrder + [rec.id];
      assert Values() == before + [rec];
    }

    /** The body of the per-device loop: build the device's recommendation
        under a fresh identifier and store it. */
    method RecommendDevice(tenant: string, deviceKey: string, recs: seq<TelemetryRecord>, runDate: Date)
      returns (rec: Recommendation)
      requires Valid()
      modifies this
      ensures Valid()
      ensures rec == Build(old(nextId), tenant, deviceKey, runDate, Summarize(recs))
      ensures nextId == old(nextId) + 1
      ensures Values() == old(Values()) + [rec]
      ensures forall id :: id in old(recommendations) ==> id in recommendations && recommendations[id] == old(recommendations)[id]
      ensures ingestedBatches == old(ingestedBatches) && telemetry == old(telemetry) && capabilities == old(capabilities)
      ensures policies == old(policies)
    {
      var id := NewId();
      rec := Build(id, tenant, deviceKey, runDate, Summarize(recs));
      AddRecommendation(rec);
    }

    /** The state after the first `n` groups have been recommended, relative
        to the state the loop started from (`firstId`, `before`, `table`). */
    ghost predicate GroupsDone(tenant: string, keys: seq<string>, groups: map<string, seq<TelemetryRecord>>,
                               runDate: Date, n: nat, results: seq<Recommendation>, firstId: RecId,
                               before: seq<Recommendation>, table: map<RecId, Recommendation>)
      reads this
    {
      && n <= |keys| && (forall k :: k in keys ==> k in groups)
      && Valid()
      && nextId == firstId + n
      && results == BuildGroups(tenant, keys, groups, firstId, runDate, n)
      && Values() == before + results
      && (forall id :: id in table ==> id in recommendations && recommendations[id] == table[id])
    }

    /** One iteration of the loop over `by_device.items()`: the next group's
        recommendation is built under a fresh identifier and stored. */
    method RecommendNextGroup(tenant: string, keys: seq<string>, groups: map<string, seq<TelemetryRecord>>,
                              runDate: Date, n: nat, results: seq<Recommendation>, ghost firstId: RecId,
                              ghost before: seq<Recommendation>, ghost table: map<RecId, Recommendation>)
      returns (results': seq<Recommendation>)
      requires GroupsDone(tenant, keys, groups, runDate, n, results, firstId, before, table) && n < |keys|
      modifies this
      ensures GroupsDone(tenant, keys, groups, runDate, n + 1, results', firstId, before, table)
      ensures ingestedBatches == old(ingestedBatches) && telemetry == old(telemetry) && capabilities == old(capabilities)
      ensures policies == old(policies)
    {
      var deviceKey := keys[n];
      var rec := RecommendDevice(tenant, deviceKey, groups[deviceKey], runDate);
      GroupBuilderApply(tenant, groups, runDate, firstId + n, keys[n]);
      assert rec == GroupBuilder(tenant, groups, runDate)(firstId + n, keys[n]);
      NumberedSnoc(GroupBuilder(tenant, groups, runDate), keys, firstId, n);
      AppendAssoc(before, results, rec);
      results' := results + [rec];
    }

    /** The loop over `by_device.items()`: one stored recommendation per
        group, in group order. */
    method RecommendGroups(tenant: string, keys: seq<string>, groups: map<string, seq<TelemetryRecord>>, runDate: Date)
      returns (results: seq<Recommendation>)
      requires Valid() && forall k :: k in keys ==> k in groups
      modifies this
      ensures Valid()
      ensures results == BuildGroups(tenant, keys, groups, old(nextId), runDate, |keys|)
      ensures Values() == old(Values()) + results
      ensures nextId == old(nextId) + |results|
      ensures forall id :: id in old(recommendations) ==> id in recommendations && recommendations[id] == old(recommendations)[id]
      ensures ingestedBatches == old(ingestedBatches) && telemetry == old(telemetry) && capabilities == old(capabilities)
      ensures policies == old(policies)
    {
      results := [];
      var i := 0;
      assert old(Values()) + [] == old(Values());
      while i < |keys|
        invariant GroupsDone(tenant, keys, groups, runDate, i, results, old(nextId), old(Values()), old(recommendations))
        invariant ingestedBatches == old(ingestedBatches) && telemetry == old(telemetry) && capabilities == old(capabilities)
        invariant policies == old(policies)
      {
        results := RecommendNextGroup(tenant, keys, groups, runDate, i, results, old(nextId), old(Values()), old(recommendations));
        i := i + 1;
      }
    }

    /** `generate_recommendations`: nothing for a tenant without telemetry;
        otherwise one new recommendation per device of the tenant's pooled
        history, stored after the existing ones and returned in the same
        order. */
    method GenerateRecommendations(tenant: string, runDate: Date) returns (results: seq<Recommendation>)
      requires Valid()
      modifies this
      ensures Valid()
      ensures results == Recommend(tenant, Pool(old(History(tenant))), old(nextId), runDate)
      ensures old(History(tenant)) == [] ==> results == [] && unchanged(this)
      ensures Values() == old(Values()) + results
      ensures nextId == old(nextId) + |results|
      ensures forall id :: id in old(recommendations) ==> id in recommendations && recommendations[id] == old(recommendations)[id]
      ensures ingestedBatches == old(ingestedBatches) && telemetry == old(telemetry) && capabilities == old(capabilities)
      ensures policies == old(policies)
    {
      var batches := History(tenant);
      if batches == [] {
        return [];
      }
      var keys, groups := GroupBatches(batches);
      BuildGroupsIsRecommend(tenant, Pool(batches), keys, groups, nextId, runDate);
      results := RecommendGroups(tenant, keys, groups, runDate);
    }

    /** `rec.status = ...; self.recommendations[id] = rec`: the status is
        overwritten whatever it was, nothing else changes. */
    method SetStatus(id: RecId, status: Status) returns (rec: Recommendation)
      requires Valid() && id in recommendations
      modifies this
      ensures Valid()
      ensures rec == old(recommendations)[id].(status := status)
      ensures recommendations == old(recommendations)[id := rec]
      ensures recOrder == old(recOrder)
      ensures ingestedBatches == old(ingestedBatches) && telemetry == old(telemetry) && capabilities == old(capabilities)
      ensures policies == old(policies) && nextId == old(nextId)
    {
      rec := recommendations[id].(status := status);
      recommendations := recommendations[id := rec];
    }
  }
}
