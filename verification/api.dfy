/** The JavaScript serverless function (netlify/functions/api.js): its own
    in-memory database, the recommendation run of `createRecommendations`,
    the request branches that change state, the list filter and the path
    parser. Routing, JSON parsing and response bodies are not modelled: a
    branch that answers 404 returns `Err`. */
module Api {
  import opened Common
  import opened Scoring
  import opened ScoringJs
  import opened Telemetry
  import opened Recommendations
  import Storage

  // ---------------------------------------------------------------------------
  // The deduplication key

  /** `${tenant_id}|${source}|${batch_id}`: the three fields in order, each
      followed by a `|` but the last. */
  function JsKey(tenant: string, source: string, batchId: string): (k: string)
    ensures |k| == |tenant| + |source| + |batchId| + 2
    ensures k[..|tenant|] == tenant && k[|tenant|] == '|'
    ensures k[|tenant| + 1..|tenant| + 1 + |source|] == source && k[|tenant| + 1 + |source|] == '|'
    ensures k[|tenant| + |source| + 2..] == batchId
  {
    tenant + "|" + source + "|" + batchId
  }

  /** Unlike the Python tuple, the joined string can make two different
      batch identities one: a `|` inside a field moves the boundary. */
  lemma JsKeyCollision()
    ensures JsKey("a|b", "c", "d") == JsKey("a", "b|c", "d")
    ensures Storage.BatchKey("a|b", "c", "d") != Storage.BatchKey("a", "b|c", "d")
  {
    assert JsKey("a|b", "c", "d") == "a|b|c|d";
    assert JsKey("a", "b|c", "d") == "a|b|c|d";
  }

  /** The first `|` of `a + "|" + r` closes `a` when `a` has none. */
  lemma SplitAtBar(a: string, r: string, a': string, r': string)
    requires '|' !in a && '|' !in a'
    requires a + "|" + r == a' + "|" + r'
    ensures a == a' && r == r'
  {
    var s := a + "|" + r;
    assert s == a' + "|" + r';
    assert s[|a|] == '|' && s[|a'|] == '|';
    assert forall j :: 0 <= j < |a| ==> s[j] == a[j];
    assert forall j :: 0 <= j < |a'| ==> s[j] == a'[j];
    assert |a| == |a'|;
    assert a == s[..|a|] == a';
    assert r == s[|a| + 1..] == r';
  }

  /** When neither the tenant nor the source contains `|`, the key determines
      the identity, so deduplication then agrees with the Python tuple. */
  lemma JsKeyInjective(tenant: string, source: string, batchId: string, tenant': string, source': string, batchId': string)
    requires '|' !in tenant && '|' !in source && '|' !in tenant' && '|' !in source'
    requires JsKey(tenant, source, batchId) == JsKey(tenant', source', batchId')
    ensures tenant == tenant' && source == source' && batchId == batchId'
  {
    assert JsKey(tenant, source, batchId) == tenant + "|" + (source + "|" + batchId);
    assert JsKey(tenant', source', batchId') == tenant' + "|" + (source' + "|" + batchId');
    SplitAtBar(tenant, source + "|" + batchId, tenant', source' + "|" + batchId');
    SplitAtBar(source, batchId, source', batchId');
  }

  // ---------------------------------------------------------------------------
  // Recommendations as plain objects

  /** The JavaScript recommendation object: classification, action and
      status are strings. `topReasons` holds the three raw scores, as in the
      Python model. */
  datatype JsRecommendation = JsRecommendation(
    id: RecId,
    tenantId: string,
    deviceKey: string,
    runDate: Date,
    classification: string,
    action: string,
    confidence: real,
    workloadFitScore: real,
    overprovisionScore: real,
    expectedSavingsUsdAnnual: real,
    riskFlags: seq<string>,
    topReasons: seq<real>,
    status: string)

  /** The Python record with its enumerations written as their values. */
  function ToJs(r: Recommendation): JsRecommendation
  {
    JsRecommendation(
      r.id, r.tenantId, r.deviceKey, r.runDate,
      ClassificationName(r.classification), ActionName(r.action),
      r.confidence, r.workloadFitScore, r.overprovisionScore, r.expectedSavingsUsdAnnual,
      r.riskFlags, r.topReasons, StatusName(r.status))
  }

  /** The `signals` object built from a summary: the throttle count is
      always present. */
  function SignalsOf(s: SignalSummary): JsSignals
  {
    JsSignals(
      s.gpuUtilP95, s.vramUsedP95Pct, s.cpuUtilP95, s.ramUsedP95, s.pagingPressureMinutes,
      s.diskLatencyP95Ms, s.diskBusyMinutes, s.diskQueueP95, Some(s.thermalThrottleEvents),
      s.activeMinutes, s.lightAppMixFactor)
  }

  /** The nested conditional of the confidence: 0.9 exactly for a DOWNSIZE
      whose overprovision is above 80, otherwise 0.7 exactly for RIGHT_SIZED,
      and 0.85 for the rest. */
  function ConfidenceJs(classification: string, action: string, overprov: real): (c: real)
    ensures c == 0.90 <==> action == "DOWNSIZE" && overprov > 80.0
    ensures c == 0.70 <==> classification == "RIGHT_SIZED" && !(action == "DOWNSIZE" && overprov > 80.0)
    ensures c == 0.85 <==> classification != "RIGHT_SIZED" && !(action == "DOWNSIZE" && overprov > 80.0)
  {
    if action == "DOWNSIZE" && overprov > 80.0 then 0.90
    else if classification == "RIGHT_SIZED" then 0.70
    else 0.85
  }

  /** The nested conditional gives the confidence that the Python sequence of
      assignments gives. */
  lemma ConfidenceTwinsAgree(c: Classification, a: Action, overprov: real)
    ensures ConfidenceJs(ClassificationName(c), ActionName(a), overprov) == Confidence(c, a, overprov)
  {
    assert ActionName(a) == "DOWNSIZE" <==> a == Downsize;
    assert ClassificationName(c) == "RIGHT_SIZED" <==> c == RightSized;
  }

  /** One recommendation of `createRecommendations`. */
  function BuildJs(id: RecId, tenant: string, device: string, runDate: Date, s: SignalSummary): (r: JsRecommendation)
    ensures r.id == id && r.tenantId == tenant && r.deviceKey == device && r.runDate == runDate
  {
    var scores := ComputeScoresJs(SignalsOf(s));
    var (classification, action) := ClassifyAndActionJs(scores);
    JsRecommendation(
      id, tenant, device, runDate, classification, action,
      ConfidenceJs(classification, action, scores.overprov),
      scores.fit, scores.overprov,
      if action == "DOWNSIZE" then 1200.0 else 0.0,
      if s.thermalThrottleEvents > 3 then ["THERMAL"] else [],
      [scores.gpuPressure, scores.ramPressure, scores.diskScore],
      if action == "EXTEND_LIFE" then "NO_ACTION" else "PENDING")
  }

  /** From the same summary both services build the same recommendation:
      same scores, decision, confidence, savings, flags and status. */
  lemma BuildTwinsAgree(id: RecId, tenant: string, device: string, runDate: Date, s: SignalSummary)
    ensures BuildJs(id, tenant, device, runDate, s) == ToJs(Build(id, tenant, device, runDate, s))
  {
    assert AsSummary(SignalsOf(s)) == s;
    ComputeScoresTwinsAgree(SignalsOf(s));
    var sc := ComputeScores(s);
    ClassifyTwinsAgree(sc);
    var (c, a) := ClassifyAndAction(sc);
    ConfidenceTwinsAgree(c, a, sc.overprov);
    assert ActionName(a) == "DOWNSIZE" <==> a == Downsize;
    assert ActionName(a) == "EXTEND_LIFE" <==> a == ExtendLife;
  }

  /** Builds device `k`'s recommendation from the records `recs`. */
  function JsDeviceBuilder(tenant: string, recs: seq<TelemetryRecord>, runDate: Date): (nat, string) -> JsRecommendation
  {
    (id: nat, k: string) => BuildJs(id, tenant, k, runDate, Summarize(RecordsOf(recs, k)))
  }

  /** What `createRecommendations` yields for a tenant whose records are
      `recs`: one recommendation per device, in order of the device's first
      record, numbered from `firstId`. */
  function RecommendJs(tenant: string, recs: seq<TelemetryRecord>, firstId: RecId, runDate: Date): (rs: seq<JsRecommendation>)
    ensures |rs| == |DeviceOrder(recs)|
  {
    var keys := DeviceOrder(recs);
    Numbered(JsDeviceBuilder(tenant, recs, runDate), keys, firstId, |keys|)
  }

  /** Over the same records the JavaScript run yields the Python run's
      recommendations, element by element. */
  lemma RecommendTwinsAgree(tenant: string, recs: seq<TelemetryRecord>, firstId: RecId, runDate: Date)
    ensures |RecommendJs(tenant, recs, firstId, runDate)| == |Recommend(tenant, recs, firstId, runDate)|
    ensures forall i :: 0 <= i < |RecommendJs(tenant, recs, firstId, runDate)| ==>
      RecommendJs(tenant, recs, firstId, runDate)[i] == ToJs(Recommend(tenant, recs, firstId, runDate)[i])
  {
    var js := RecommendJs(tenant, recs, firstId, runDate);
    var py := Recommend(tenant, recs, firstId, runDate);
    forall i | 0 <= i < |js|
      ensures js[i] == ToJs(py[i])
    {
      RecommendTwinAt(tenant, recs, firstId, runDate, i);
    }
  }

  lemma RecommendTwinAt(tenant: string, recs: seq<TelemetryRecord>, firstId: RecId, runDate: Date, i: nat)
    requires i < |DeviceOrder(recs)|
    ensures RecommendJs(tenant, recs, firstId, runDate)[i] == ToJs(Recommend(tenant, recs, firstId, runDate)[i])
  {
    var keys := DeviceOrder(recs);
    NumberedAt(JsDeviceBuilder(tenant, recs, runDate), keys, firstId, |keys|, i);
    BuildTwinsAgree(firstId + i, tenant, keys[i], runDate, Summarize(RecordsOf(recs, keys[i])));
  }

  /** Builds group `k`'s recommendation from the `byDevice` map. */
  function JsGroupBuilder(tenant: string, groups: map<string, seq<TelemetryRecord>>, runDate: Date): (nat, string) -> JsRecommendation
  {
    (id: nat, k: string) => BuildJs(id, tenant, k, runDate, Summarize(GroupOf(groups, k)))
  }

  /** The recommendations of the first `n` groups, numbered from `firstId`. */
  function BuildGroupsJs(tenant: string, keys: seq<string>, groups: map<string, seq<TelemetryRecord>>,
                         firstId: RecId, runDate: Date, n: nat): (rs: seq<JsRecommendation>)
    requires n <= |keys|
    ensures |rs| == n
  {
    Numbered(JsGroupBuilder(tenant, groups, runDate), keys, firstId, n)
  }

  lemma JsGroupBuilderApply(tenant: string, groups: map<string, seq<TelemetryRecord>>, runDate: Date, id: nat, k: string)
    requires k in groups
    ensures JsGroupBuilder(tenant, groups, runDate)(id, k) == BuildJs(id, tenant, k, runDate, Summarize(groups[k]))
  {
  }

  /** Building from the groups of `recs` is building from `recs`. */
  lemma BuildGroupsJsIsRecommendJs(tenant: string, recs: seq<TelemetryRecord>, keys: seq<string>,
                                   groups: map<string, seq<TelemetryRecord>>, firstId: RecId, runDate: Date)
    requires Grouped(recs, keys, groups)
    ensures forall k :: k in keys ==> k in groups
    ensures BuildGroupsJs(tenant, keys, groups, firstId, runDate, |keys|) == RecommendJs(tenant, recs, firstId, runDate)
  {
    var f := JsGroupBuilder(tenant, groups, runDate);
    var g := JsDeviceBuilder(tenant, recs, runDate);
    forall i | 0 <= i < |keys|
      ensures f(firstId + i, keys[i]) == g(firstId + i, keys[i])
    {
      assert GroupOf(groups, keys[i]) == RecordsOf(recs, keys[i]);
    }
    NumberedPointwise(f, g, keys, firstId, |keys|);
  }

  // ---------------------------------------------------------------------------
  // Request bodies

  /** The telemetry body; a missing `records` list is `None`. */
  datatype JsBatch = JsBatch(tenantId: string, source: string, batchId: string, records: Option<seq<TelemetryRecord>>)

  /** `body.records || []` */
  function Incoming(body: JsBatch): seq<TelemetryRecord>
  {
    if body.records.Some? then body.records.value else []
  }

  /** The policy body; absent fields are `None`. */
  datatype JsPolicyBody = JsPolicyBody(
    tenantId: string,
    name: string,
    strictMode: Option<bool>,
    thresholds: Option<Storage.Settings>,
    autoExecuteRules: Option<Storage.Settings>)

  /** `x || {}` on a settings object (any object, even an empty one, is
      truthy). */
  function OrEmpty(x: Option<Storage.Settings>): Storage.Settings
  {
    if x.Some? then x.value else map[]
  }

  /** The list query; every parameter may be absent. */
  datatype JsQuery = JsQuery(tenant: Option<string>, action: Option<string>, classification: Option<string>)

  // ---------------------------------------------------------------------------
  // The database

  class JsDb {
    var ingested: set<string>
    var telemetry: map<string, seq<TelemetryRecord>>
    var policies: map<Storage.PolicyId, Storage.PolicyProfile>
    /** The keys of the `recommendations` Map in insertion order. */
    var recOrder: seq<RecId>
    var recommendations: map<RecId, JsRecommendation>
    /** The next identifier to hand out, standing in for `randomUUID()`. */
    var nextId: nat

    ghost predicate Valid()
      reads this
    {
      && Distinct(recOrder)
      && (forall id :: id in recommendations <==> id in recOrder)
      && (forall id :: id in recommendations ==> recommendations[id].id == id && id < nextId)
      && (forall id :: id in policies ==> policies[id].policyId == id && id < nextId)
    }

    constructor()
      ensures Valid()
      ensures ingested == {} && telemetry == map[] && policies == map[]
      ensures recOrder == [] && recommendations == map[]
    {
      ingested := {};
      telemetry := map[];
      policies := map[];
      recOrder := [];
      recommendations := map[];
      nextId := 0;
    }

    /** `db.telemetry.get(tenant) || []` */
    function Records(tenant: string): seq<TelemetryRecord>
      reads this
    {
      if tenant in telemetry then telemetry[tenant] else []
    }

    /** `[...db.recommendations.values()]` */
    function Values(): (vs: seq<JsRecommendation>)
      requires Valid()
      reads this
      ensures |vs| == |recOrder|
      ensures forall i :: 0 <= i < |vs| ==> vs[i] == recommendations[recOrder[i]]
    {
      var order := recOrder;
      var table := recommendations;
      seq(|order|, i requires 0 <= i < |order| => table[order[i]])
    }

    /** `ensureTenant`: an empty record list for a tenant not seen before. */
    method EnsureTenant(tenant: string)
      modifies this
      ensures telemetry == old(telemetry)[tenant := old(Records(tenant))]
      ensures ingested == old(ingested) && policies == old(policies)
      ensures recOrder == old(recOrder) && recommendations == old(recommendations) && nextId == old(nextId)
    {
      if tenant !in telemetry {
        telemetry := telemetry[tenant := []];
      }
    }

    /** The telemetry branch of `handler`: a key seen before answers
      "duplicate" with no records accepted and changes nothing; otherwise the
      key is recorded and the tenant's record list grows by exactly the
      incoming records. */
    method IngestTelemetryBatch(body: JsBatch) returns (ack: IngestionAck)
      requires Valid()
      modifies this
      ensures Valid()
      ensures ack.deduped <==> JsKey(body.tenantId, body.source, body.batchId) in old(ingested)
      ensures ack.deduped ==> ack == IngestionAck("duplicate", body.tenantId, 0, true) && unchanged(this)
      ensures !ack.deduped ==> ack == IngestionAck("accepted", body.tenantId, |Incoming(body)|, false)
      ensures !ack.deduped ==> ingested == old(ingested) + {JsKey(body.tenantId, body.source, body.batchId)}
      ensures !ack.deduped ==> telemetry == old(telemetry)[body.tenantId := old(Records(body.tenantId)) + Incoming(body)]
      ensures policies == old(policies) && recOrder == old(recOrder)
      ensures recommendations == old(recommendations) && nextId == old(nextId)
    {
      var key := JsKey(body.tenantId, body.source, body.batchId);
      if key in ingested {
        return IngestionAck("duplicate", body.tenantId, 0, true);
      }
      ingested := ingested + {key};
      EnsureTenant(body.tenantId);
      var incoming := Incoming(body);
      telemetry := telemetry[body.tenantId := telemetry[body.tenantId] + incoming];
      ack := IngestionAck("accepted", body.tenantId, |incoming|, false);
    }

    /** A fresh identifier (`crypto.randomUUID()`). */
    method NewId() returns (id: nat)
      requires Valid()
      modifies this
      ensures Valid()
      ensures id == old(nextId) && nextId == old(nextId) + 1
      ensures id !in policies && id !in recommendations
      ensures ingested == old(ingested) && telemetry == old(telemetry) && policies == old(policies)
      ensures recOrder == old(recOrder) && recommendations == old(recommendations)
    {
      id := nextId;
      nextId := nextId + 1;
    }

    /** The policy-creation branch: `!!body.strict_mode`, missing settings
      default to `{}`, effective from `now`, no end date. */
    method CreatePolicy(body: JsPolicyBody, now: int) returns (policy: Storage.PolicyProfile)
      requires Valid()
      modifies this
      ensures Valid()
      ensures policy.policyId == old(nextId) && policy.policyId !in old(policies)
      ensures policy == Storage.PolicyProfile(policy.policyId, body.tenantId, body.name, body.strictMode == Some(true),
                                              OrEmpty(body.thresholds), OrEmpty(body.autoExecuteRules), now, None)
      ensures policies == old(policies)[policy.policyId := policy]
      ensures ingested == old(ingested) && telemetry == old(telemetry)
      ensures recOrder == old(recOrder) && recommendations == old(recommendations)
    {
      var id := NewId();
      policy := Storage.PolicyProfile(id, body.tenantId, body.name, body.strictMode == Some(true),
                                      OrEmpty(body.thresholds), OrEmpty(body.autoExecuteRules), now, None);
      policies := policies[id := policy];
    }

    /** `db.policies.get(policyId)`, not found when absent. */
    function GetPolicy(id: Storage.PolicyId): (r: Result<Storage.PolicyProfile>)
      requires Valid()
      reads this
      ensures r.Err? <==> id !in policies
      ensures r.Err? ==> r.error == PolicyNotFound
      ensures r.Ok? ==> r.value == policies[id] && r.value.policyId == id
    {
      if id in policies then Ok(policies[id]) else Err(PolicyNotFound)
    }

    /** `db.recommendations.set(id, rec)` for a fresh identifier. */
    method AddRecommendation(rec: JsRecommendation)
      requires Valid()
      requires rec.id !in recommendations && rec.id < nextId
      modifies this
      ensures Valid()
      ensures recOrder == old(recOrder) + [rec.id]
      ensures recommendations == old(recommendations)[rec.id := rec]
      ensures Values() == old(Values()) + [rec]
      ensures ingested == old(ingested) && telemetry == old(telemetry) && policies == old(policies)
      ensures nextId == old(nextId)
    {
      ghost var before := Values();
      recommendations := recommendations[rec.id := rec];
      recOrder := recOrder + [rec.id];
      assert Values() == before + [rec];
    }

    /** The state after the first `n` groups, relative to the state the run
        started from (`firstId`, `before`, `table`). */
    ghost predicate RunDone(tenant: string, keys: seq<string>, groups: map<string, seq<TelemetryRecord>>,
                            runDate: Date, n: nat, results: seq<JsRecommendation>, firstId: RecId,
                            before: seq<JsRecommendation>, table: map<RecId, JsRecommendation>)
      reads this
    {
      && n <= |keys| && (forall k :: k in keys ==> k in groups)
      && Valid()
      && nextId == firstId + n
      && results == BuildGroupsJs(tenant, keys, groups, firstId, runDate, n)
      && Values() == before + results
      && (forall id :: id in table ==> id in recommendations && recommendations[id] == table[id])
    }

    /** One iteration over `byDevice.entries()`. */
    method RecommendNextGroup(tenant: string, keys: seq<string>, groups: map<string, seq<TelemetryRecord>>,
                              runDate: Date, n: nat, results: seq<JsRecommendation>, ghost firstId: RecId,
                              ghost before: seq<JsRecommendation>, ghost table: map<RecId, JsRecommendation>)
      returns (results': seq<JsRecommendation>)
      requires RunDone(tenant, keys, groups, runDate, n, results, firstId, before, table) && n < |keys|
      modifies this
      ensures RunDone(tenant, keys, groups, runDate, n + 1, results', firstId, before, table)
      ensures ingested == old(ingested) && telemetry == old(telemetry) && policies == old(policies)
    {
      var deviceKey := keys[n];
      var rec := RecommendDevice(tenant, deviceKey, groups[deviceKey], runDate);
      JsGroupBuilderApply(tenant, groups, runDate, firstId + n, keys[n]);
      assert rec == JsGroupBuilder(tenant, groups, runDate)(firstId + n, keys[n]);
      NumberedSnoc(JsGroupBuilder(tenant, groups, runDate), keys, firstId, n);
      AppendAssoc(before, results, rec);
      results' := results + [rec];
    }

    /** One group: its recommendation, built under a fresh identifier and
        stored. */
    method RecommendDevice(tenant: string, deviceKey: string, recs: seq<TelemetryRecord>, runDate: Date)
      returns (rec: JsRecommendation)
      requires Valid()
      modifies this
      ensures Valid()
      ensures rec == BuildJs(old(nextId), tenant, deviceKey, runDate, Summarize(recs))
      ensures nextId == old(nextId) + 1
      ensures recommendations == old(recommendations)[rec.id := rec] && rec.id !in old(recommendations)
      ensures Values() == old(Values()) + [rec]
      ensures ingested == old(ingested) && telemetry == old(telemetry) && policies == old(policies)
    {
      var id := NewId();
      rec := BuildJs(id, tenant, deviceKey, runDate, Summarize(recs));
      AddRecommendation(rec);
    }

    /** The loop over `byDevice.entries()`: one stored recommendation per
        group, in group order. */
    method RecommendGroupsJs(tenant: string, keys: seq<string>, groups: map<string, seq<TelemetryRecord>>, runDate: Date)
      returns (results: seq<JsRecommendation>)
      requires Valid() && forall k :: k in keys ==> k in groups
      modifies this
      ensures Valid()
      ensures results == BuildGroupsJs(tenant, keys, groups, old(nextId), runDate, |keys|)
      ensures Values() == old(Values()) + results
      ensures nextId == old(nextId) + |results|
      ensures forall id :: id in old(recommendations) ==> id in recommendations && recommendations[id] == old(recommendations)[id]
      ensures ingested == old(ingested) && telemetry == old(telemetry) && policies == old(policies)
    {
      results := [];
      var i := 0;
      assert old(Values()) + [] == old(Values());
      while i < |keys|
        invariant RunDone(tenant, keys, groups, runDate, i, results, old(nextId), old(Values()), old(recommendations))
        invariant ingested == old(ingested) && telemetry == old(telemetry) && policies == old(policies)
      {
        results := RecommendNextGroup(tenant, keys, groups, runDate, i, results, old(nextId), old(Values()), old(recommendations));
        i := i + 1;
      }
    }

    /** `createRecommendations`: the tenant's records grouped by device in
        order of first appearance, one stored recommendation per group,
        stored after the existing ones and returned in the same order; no
        records, no recommendations. */
    method CreateRecommendations(tenant: string, runDate: Date) returns (results: seq<JsRecommendation>)
      requires Valid()
      modifies this
      ensures Valid()
      ensures results == RecommendJs(tenant, old(Records(tenant)), old(nextId), runDate)
      ensures old(Records(tenant)) == [] ==> results == []
      ensures Values() == old(Values()) + results
      ensures nextId == old(nextId) + |results|
      ensures forall id :: id in old(recommendations) ==> id in recommendations && recommendations[id] == old(recommendations)[id]
      ensures ingested == old(ingested) && telemetry == old(telemetry) && policies == old(policies)
    {
      var records := Records(tenant);
      var keys, groups := GroupByDevice(records);
      BuildGroupsJsIsRecommendJs(tenant, records, keys, groups, nextId, runDate);
      results := RecommendGroupsJs(tenant, keys, groups, runDate);
    }

    /** The simulate branch: an unknown policy is rejected with nothing
        generated; otherwise the requested tenant's recommendations. */
    method Simulate(policyId: Storage.PolicyId, tenant: string, runDate: Date) returns (r: Result<seq<JsRecommendation>>)
      requires Valid()
      modifies this
      ensures Valid()
      ensures policyId !in old(policies) ==> r == Err(PolicyNotFound) && unchanged(this)
      ensures policyId in old(policies) ==> r == Ok(RecommendJs(tenant, old(Records(tenant)), old(nextId), runDate))
      ensures r.Ok? ==> Values() == old(Values()) + r.value
      ensures ingested == old(ingested) && telemetry == old(telemetry) && policies == old(policies)
    {
      var policy := GetPolicy(policyId);
      if policy.Err? {
        return Err(PolicyNotFound);
      }
      var items := CreateRecommendations(tenant, runDate);
      r := Ok(items);
    }

    /** `db.recommendations.get(id)`, not found when absent. */
    function GetRecommendation(id: RecId): (r: Result<JsRecommendation>)
      requires Valid()
      reads this
      ensures r.Err? <==> id !in recommendations
      ensures r.Err? ==> r.error == RecommendationNotFound
      ensures r.Ok? ==> r.value == recommendations[id] && r.value.id == id
    {
      if id in recommendations then Ok(recommendations[id]) else Err(RecommendationNotFound)
    }

    /** The approve and override branches: the status is overwritten,
        whatever it was; an unknown identifier changes nothing. */
    method SetStatus(id: RecId, status: string) returns (r: Result<JsRecommendation>)
      requires Valid()
      modifies this
      ensures Valid()
      ensures id !in old(recommendations) ==> r == Err(RecommendationNotFound) && unchanged(this)
      ensures id in old(recommendations) ==> r == Ok(old(recommendations)[id].(status := status))
      ensures id in old(recommendations) ==> recommendations == old(recommendations)[id := r.value]
      ensures recOrder == old(recOrder) && nextId == old(nextId)
      ensures ingested == old(ingested) && telemetry == old(telemetry) && policies == old(policies)
    {
      var found := GetRecommendation(id);
      if found.Err? {
        return Err(RecommendationNotFound);
      }
      var rec := found.value.(status := status);
      recommendations := recommendations[id := rec];
      r := Ok(rec);
    }

    method Approve(id: RecId) returns (r: Result<JsRecommendation>)
      requires Valid()
      modifies this
      ensures Valid()
      ensures id !in old(recommendations) ==> r == Err(RecommendationNotFound) && unchanged(this)
      ensures id in old(recommendations) ==> r == Ok(old(recommendations)[id].(status := "APPROVED"))
      ensures id in old(recommendations) ==> recommendations == old(recommendations)[id := r.value]
      ensures recOrder == old(recOrder) && nextId == old(nextId)
      ensures ingested == old(ingested) && telemetry == old(telemetry) && policies == old(policies)
    {
      r := SetStatus(id, "APPROVED");
    }

    method Override(id: RecId) returns (r: Result<JsRecommendation>)
      requires Valid()
      modifies this
      ensures Valid()
      ensures id !in old(recommendations) ==> r == Err(RecommendationNotFound) && unchanged(this)
      ensures id in old(recommendations) ==> r == Ok(old(recommendations)[id].(status := "OVERRIDDEN"))
      ensures id in old(recommendations) ==> recommendations == old(recommendations)[id := r.value]
      ensures recOrder == old(recOrder) && nextId == old(nextId)
      ensures ingested == old(ingested) && telemetry == old(telemetry) && policies == old(policies)
    {
      r := SetStatus(id, "OVERRIDDEN");
    }
  }

  // ---------------------------------------------------------------------------
  // Listing

  /** What an item must satisfy: each filter only when it was given; the
      tenant is optional here, and there is no confidence filter. */
  predicate MatchesJs(q: JsQuery, x: JsRecommendation)
  {
    && (Given(q.tenant) ==> x.tenantId == q.tenant.value)
    && (Given(q.action) ==> x.action == q.action.value)
    && (Given(q.classification) ==> x.classification == q.classification.value)
  }

  function MatchesJsQuery(q: JsQuery): JsRecommendation -> bool
  {
    (x: JsRecommendation) => MatchesJs(q, x)
  }

  function TenantIs(t: string): JsRecommendation -> bool
  {
    (x: JsRecommendation) => x.tenantId == t
  }

  function JsActionIs(a: string): JsRecommendation -> bool
  {
    (x: JsRecommendation) => x.action == a
  }

  function JsClassificationIs(c: string): JsRecommendation -> bool
  {
    (x: JsRecommendation) => x.classification == c
  }

  function TenantGiven(q: JsQuery): JsRecommendation -> bool
  {
    (x: JsRecommendation) => Given(q.tenant) ==> x.tenantId == q.tenant.value
  }

  function TenantActionGiven(q: JsQuery): JsRecommendation -> bool
  {
    (x: JsRecommendation) => (Given(q.tenant) ==> x.tenantId == q.tenant.value) && (Given(q.action) ==> x.action == q.action.value)
  }

  lemma TenantStepJs(values: seq<JsRecommendation>, q: JsQuery)
    ensures Refine(values, Given(q.tenant), TenantIs(Text(q.tenant))) == Filter(values, TenantGiven(q))
  {
    RefineAll(values, Given(q.tenant), TenantIs(Text(q.tenant)), TenantGiven(q));
  }

  lemma ActionStepJs(values: seq<JsRecommendation>, q: JsQuery)
    ensures Refine(Filter(values, TenantGiven(q)), Given(q.action), JsActionIs(Text(q.action)))
         == Filter(values, TenantActionGiven(q))
  {
    RefineFilter(values, TenantGiven(q), Given(q.action), JsActionIs(Text(q.action)), TenantActionGiven(q));
  }

  lemma ClassificationStepJs(values: seq<JsRecommendation>, q: JsQuery)
    ensures Refine(Filter(values, TenantActionGiven(q)), Given(q.classification), JsClassificationIs(Text(q.classification)))
         == Filter(values, MatchesJsQuery(q))
  {
    RefineFilter(values, TenantActionGiven(q), Given(q.classification), JsClassificationIs(Text(q.classification)), MatchesJsQuery(q));
  }

  /** The list branch: the given filters in turn, over the stored
      recommendations in insertion order; the result is exactly the matching
      items, in order. */
  function ListJs(values: seq<JsRecommendation>, q: JsQuery): (items: seq<JsRecommendation>)
    ensures items == Filter(values, MatchesJsQuery(q))
    ensures IsSubsequence(items, values)
    ensures forall i :: 0 <= i < |items| ==> MatchesJs(q, items[i])
    ensures forall i :: 0 <= i < |values| && MatchesJs(q, values[i]) ==> values[i] in items
  {
    var items := Refine(values, Given(q.tenant), TenantIs(Text(q.tenant)));
    TenantStepJs(values, q);
    var items1 := Refine(items, Given(q.action), JsActionIs(Text(q.action)));
    ActionStepJs(values, q);
    var items2 := Refine(items1, Given(q.classification), JsClassificationIs(Text(q.classification)));
    ClassificationStepJs(values, q);
    FilterIsSubsequence(values, MatchesJsQuery(q));
    items2
  }

  /** With no parameters every stored recommendation is listed, whatever its
      tenant. */
  lemma ListJsWithoutFilters(values: seq<JsRecommendation>)
    ensures ListJs(values, JsQuery(None, None, None)) == values
  {
    FilterKeepsAll(values, MatchesJsQuery(JsQuery(None, None, None)));
  }

  // ---------------------------------------------------------------------------
  // Path parsing

  /** Index of the first `c` in `s`. */
  function IndexOf(s: string, c: char): (i: nat)
    requires c in s
    ensures i < |s| && s[i] == c && c !in s[..i]
  {
    if s[0] == c then 0
    else
      var j := IndexOf(s[1..], c);
      assert s[..j + 1] == [s[0]] + s[1..][..j];
      j + 1
  }

  /** `s.split('/')`: the pieces between slashes, empty ones included. */
  function Split(s: string): (parts: seq<string>)
    ensures |parts| >= 1
    ensures forall i :: 0 <= i < |parts| ==> '/' !in parts[i]
    decreases |s|
  {
    if '/' !in s then [s]
    else
      var i := IndexOf(s, '/');
      [s[..i]] + Split(s[i + 1..])
  }

  /** `parts.join('/')` */
  function Join(parts: seq<string>): string
  {
    if parts == [] then "" else if |parts| == 1 then parts[0] else parts[0] + "/" + Join(parts[1..])
  }

  /** Splitting and joining again gives back the string. */
  lemma {:induction false} JoinSplit(s: string)
    ensures Join(Split(s)) == s
    decreases |s|
  {
    if '/' in s {
      var i := IndexOf(s, '/');
      var rest := Split(s[i + 1..]);
      assert Split(s) == [s[..i]] + rest;
      JoinSplit(s[i + 1..]);
      JoinCons(s[..i], rest);
      assert s == s[..i] + "/" + s[i + 1..];
    }
  }

  /** Joining slash-free pieces and splitting again gives back the pieces. */
  lemma {:induction false} SplitJoin(parts: seq<string>)
    requires |parts| >= 1
    requires forall i :: 0 <= i < |parts| ==> '/' !in parts[i]
    ensures Split(Join(parts)) == parts
  {
    if |parts| > 1 {
      var s := Join(parts);
      SplitJoin(parts[1..]);
      assert s == parts[0] + "/" + Join(parts[1..]);
      assert s[|parts[0]|] == '/';
      assert s[..|parts[0]|] == parts[0];
      assert IndexOf(s, '/') == |parts[0]|;
      assert s[|parts[0]| + 1..] == Join(parts[1..]);
    }
  }

  /** `\/?` and `^\/`: removes the leading slash when there is one, and
      nothing else. */
  function DropSlash(p: string): (r: string)
    ensures p == r || p == "/" + r
    ensures |p| > 0 && p[0] == '/' <==> |r| == |p| - 1
  {
    if |p| > 0 && p[0] == '/' then p[1..] else p
  }

  const FunctionTail := "netlify/functions/api"

  /** The path under which the function is deployed. */
  const FunctionRoot := "/.netlify/functions/api/"

  /** The characters that the `.` of a JavaScript regular expression without
      the `s` and `u` flags matches: one UTF-16 code unit that is not a line
      terminator. A character outside the Basic Multilingual Plane is two
      code units, of which the `.` takes only the first, so the rest of the
      pattern then fails. */
  predicate RegexDot(c: char)
  {
    c != '\n' && c != '\r' && c != '\U{2028}' && c != '\U{2029}' && c < '\U{10000}'
  }

  /** The path begins with what `^\/.netlify\/functions\/api` matches: a
      slash, any character the unescaped `.` matches, then the rest of the
      function path. */
  predicate HasFunctionPrefix(p: string)
  {
    |p| >= 23 && p[0] == '/' && RegexDot(p[1]) && p[2..23] == FunctionTail
  }

  /** `replace(/^\/.netlify\/functions\/api\/?/, '')`: a path without the
      prefix is kept whole, and one with it loses the 23 characters of the
      prefix and at most one slash. */
  function StripFunctionPath(p: string): (r: string)
    ensures |r| <= |p|
    ensures !HasFunctionPrefix(p) ==> r == p
    ensures HasFunctionPrefix(p) ==> |p| - 24 <= |r| <= |p| - 23
  {
    if HasFunctionPrefix(p) then DropSlash(p[23..]) else p
  }

  /** `replace(/^api\/?/, '')`: a path that does not begin with `api` is
      kept whole, and one that does loses those three characters and at most
      one slash. */
  function StripApi(p: string): (r: string)
    ensures |r| <= |p|
    ensures !(|p| >= 3 && p[..3] == "api") ==> r == p
    ensures |p| >= 3 && p[..3] == "api" ==> |p| - 4 <= |r| <= |p| - 3
  {
    if |p| >= 3 && p[..3] == "api" then DropSlash(p[3..]) else p
  }

  /** Each replacement only removes a prefix: what is left is a suffix of
      what it was given. */
  lemma StripsLeaveSuffixes(p: string)
    ensures StripFunctionPath(p) == p[|p| - |StripFunctionPath(p)|..]
    ensures StripApi(p) == p[|p| - |StripApi(p)|..]
    ensures DropSlash(p) == p[|p| - |DropSlash(p)|..]
  {
  }

  function NonEmpty(): string -> bool
  {
    (s: string) => s != ""
  }

  /** `getPathParts`: the path with the function prefix, an `api` prefix and
      a leading slash removed, in that order, split at slashes, empty
      segments dropped. */
  function GetPathParts(path: string): (parts: seq<string>)
    ensures forall i :: 0 <= i < |parts| ==> parts[i] != "" && '/' !in parts[i]
  {
    var normalized := DropSlash(StripApi(StripFunctionPath(path)));
    var parts := Filter(Split(normalized), NonEmpty());
    assert forall i :: 0 <= i < |parts| ==> parts[i] in Split(normalized);
    parts
  }

  /** `IndexOf` is the one index before which there is no `c`. */
  lemma IndexOfAt(s: string, c: char, i: nat)
    requires i < |s| && s[i] == c && c !in s[..i]
    ensures IndexOf(s, c) == i
  {
  }

  /** How a joined route begins: with its first segment, followed by a
      slash when there are more. */
  lemma JoinHead(parts: seq<string>)
    requires |parts| > 0
    ensures |parts| == 1 ==> Join(parts) == parts[0]
    ensures |parts| > 1 ==> Join(parts) == parts[0] + "/" + Join(parts[1..])
    ensures |Join(parts)| >= |parts[0]| && Join(parts)[..|parts[0]|] == parts[0]
  {
  }

  /** The function path, with any character the `.` matches after its
      first slash, is removed together with the slash that follows it. */
  lemma FunctionPathStripped(c: char, route: string)
    requires RegexDot(c)
    ensures StripFunctionPath("/" + [c] + FunctionTail + "/" + route) == route
  {
    var path := "/" + [c] + FunctionTail + "/" + route;
    assert path == ("/" + [c]) + (FunctionTail + ("/" + route));
    assert path[1] == c;
    assert path[2..] == FunctionTail + ("/" + route);
    assert path[2..][..21] == FunctionTail;
    assert HasFunctionPrefix(path);
    assert path[23..] == "/" + route;
  }

  /** A route under the function path comes back as its segments, provided
      the first one does not begin with `api`; the character after the
      first slash may be any that the `.` matches. */
  lemma RouteParts(c: char, parts: seq<string>)
    requires RegexDot(c)
    requires forall i :: 0 <= i < |parts| ==> parts[i] != "" && '/' !in parts[i]
    requires |parts| > 0 && |parts[0]| >= 3 ==> parts[0][..3] != "api"
    ensures GetPathParts("/" + [c] + FunctionTail + "/" + Join(parts)) == parts
  {
    var route := Join(parts);
    var path := "/" + [c] + FunctionTail + "/" + route;
    FunctionPathStripped(c, route);
    if parts == [] {
      assert Split("") == [""];
    } else {
      JoinHead(parts);
      if |route| >= 3 {
        if |parts[0]| >= 3 {
          assert route[..3] == parts[0][..3];
        } else {
          assert |parts| > 1;
          assert route[..3][|parts[0]|] == '/';
        }
      }
      assert StripApi(route) == route;
      assert route[0] == parts[0][0] != '/';
      PartsOfRoute(path, parts);
    }
  }

  /** When the character after the first slash is one the `.` does not match
      (a line terminator, or a character outside the Basic Multilingual
      Plane), the function path stays, and its three segments come back
      first, the first of them with that character in front. */
  lemma UnmatchedDotKeepsFunctionPath(c: char, parts: seq<string>)
    requires !RegexDot(c)
    requires |parts| > 0 && forall i :: 0 <= i < |parts| ==> parts[i] != "" && '/' !in parts[i]
    ensures StripFunctionPath("/" + [c] + FunctionTail + "/" + Join(parts)) == "/" + [c] + FunctionTail + "/" + Join(parts)
    ensures GetPathParts("/" + [c] + FunctionTail + "/" + Join(parts)) == [[c] + "netlify", "functions", "api"] + parts
  {
    var path := "/" + [c] + FunctionTail + "/" + Join(parts);
    var all := [[c] + "netlify", "functions", "api"] + parts;
    UnmatchedDotNormalized(c, Join(parts));
    FunctionSegmentsJoin(c, parts);
    FunctionSegmentsSlashFree(c, parts);
    PartsOfRoute(path, all);
  }

  /** Such a path is not stripped, and normalising it only drops its
      leading slash. */
  lemma UnmatchedDotNormalized(c: char, route: string)
    requires !RegexDot(c)
    ensures StripFunctionPath("/" + [c] + FunctionTail + "/" + route) == "/" + [c] + FunctionTail + "/" + route
    ensures DropSlash(StripApi(StripFunctionPath("/" + [c] + FunctionTail + "/" + route))) == [c] + FunctionTail + "/" + route
  {
    var path := "/" + [c] + FunctionTail + "/" + route;
    assert path == "/" + ([c] + FunctionTail + "/" + route);
    assert path[1] == c;
    assert path[..3][0] == '/';
  }

  lemma FunctionSegmentsJoin(c: char, parts: seq<string>)
    requires |parts| > 0
    ensures [c] + FunctionTail + "/" + Join(parts) == Join([[c] + "netlify", "functions", "api"] + parts)
  {
    var route := Join(parts);
    FunctionTailJoin(c, route);
    JoinCons("api", parts);
    JoinCons("functions", ["api"] + parts);
    JoinCons([c] + "netlify", ["functions", "api"] + parts);
    assert [[c] + "netlify"] + (["functions"] + (["api"] + parts)) == [[c] + "netlify", "functions", "api"] + parts;
  }

  lemma FunctionTailJoin(c: char, route: string)
    ensures [c] + FunctionTail + "/" + route == [c] + "netlify" + "/" + ("functions" + "/" + ("api" + "/" + route))
  {
    assert FunctionTail == "netlify" + "/" + "functions" + "/" + "api";
  }

  lemma FunctionSegmentsSlashFree(c: char, parts: seq<string>)
    requires !RegexDot(c)
    requires forall i :: 0 <= i < |parts| ==> parts[i] != "" && '/' !in parts[i]
    ensures var all := [[c] + "netlify", "functions", "api"] + parts;
      forall i :: 0 <= i < |all| ==> all[i] != "" && '/' !in all[i]
  {
    var all := [[c] + "netlify", "functions", "api"] + parts;
    assert '/' !in [c] + "netlify" && '/' !in "functions" && '/' !in "api";
    assert forall i :: 3 <= i < |all| ==> all[i] == parts[i - 3];
  }

  /** The test's ingestion route. */
  lemma IngestionRouteParts()
    ensures GetPathParts(FunctionRoot + "v1/ingestion/telemetry-batch") == ["v1", "ingestion", "telemetry-batch"]
  {
    var parts := ["v1", "ingestion", "telemetry-batch"];
    IngestionRouteJoin();
    FunctionRootMatches();
    RouteParts('.', parts);
  }

  lemma IngestionRouteJoin()
    ensures Join(["v1", "ingestion", "telemetry-batch"]) == "v1/ingestion/telemetry-batch"
  {
    JoinCons("ingestion", ["telemetry-batch"]);
    JoinCons("v1", ["ingestion", "telemetry-batch"]);
    assert ["v1"] + ["ingestion", "telemetry-batch"] == ["v1", "ingestion", "telemetry-batch"];
  }

  /** The deployed root is one of the paths the function prefix matches. */
  lemma FunctionRootMatches()
    ensures FunctionRoot == "/" + ['.'] + FunctionTail + "/"
  {
  }

  lemma JoinCons(head: string, parts: seq<string>)
    requires |parts| > 0
    ensures Join([head] + parts) == head + "/" + Join(parts)
  {
    assert ([head] + parts)[1..] == parts;
  }

  /** A path whose normalised form joins slash-free, nonempty segments
      yields those segments. */
  lemma PartsOfRoute(path: string, parts: seq<string>)
    requires |parts| >= 1 && forall i :: 0 <= i < |parts| ==> parts[i] != "" && '/' !in parts[i]
    requires DropSlash(StripApi(StripFunctionPath(path))) == Join(parts)
    ensures GetPathParts(path) == parts
  {
    SplitJoin(parts);
    FilterKeepsAll(parts, NonEmpty());
  }

  /** A path whose third character does not begin the function path and
      that does not begin with `api` only loses its leading slash. */
  lemma NoPrefixes(p: string)
    requires |p| >= 3 && p[0] == '/' && p[2] != FunctionTail[0]
    ensures DropSlash(StripApi(StripFunctionPath(p))) == p[1..]
  {
    if |p| >= 23 {
      assert p[2..23][0] == p[2];
    }
    assert p[..3][0] == '/';
  }

  /** The leading slash is removed only after the `api` prefix was looked
      for, so a path `/api/...` keeps `api` as its first segment. */
  lemma ApiPrefixNeedsNoSlash(parts: seq<string>)
    requires |parts| > 0 && forall i :: 0 <= i < |parts| ==> parts[i] != "" && '/' !in parts[i]
    ensures GetPathParts("/api/" + Join(parts)) == ["api"] + parts
  {
    var route := Join(parts);
    ApiRouteNormalized(route);
    JoinCons("api", parts);
    assert '/' !in "api";
    PartsOfRoute("/api/" + route, ["api"] + parts);
  }

  lemma ApiRouteNormalized(route: string)
    ensures DropSlash(StripApi(StripFunctionPath("/api/" + route))) == "api" + "/" + route
  {
    var p := "/api/" + route;
    assert "/api/" == "/" + ("api" + "/");
    assert p == "/" + (("api" + "/") + route);
    assert p[1..] == ("api" + "/") + route;
    assert p[2] == 'p';
    NoPrefixes(p);
  }

  // ---------------------------------------------------------------------------
  // The flow of tests/api.test.js

  const FlowRecord: TelemetryRecord :=
    TelemetryRecord(
      deviceKey := "WIN-123", gpuUtilPct := 10.0, vramUsedMb := 350.0, gpuActiveMinutes := 2,
      cpuUtilPct := 20.0, ramUsedPct := 35.0, pagingPressure := 0, diskLatencyMs := 2.0,
      diskBusyPct := 8.0, diskQueueLen := 0.2, throttleEvent := false,
      apps := [AppUsage("BROWSER_HEAVY", 3)])

  const FlowBody: JsBatch := JsBatch("tenant-a", "windows_collector", "batch-1", Some([FlowRecord]))

  lemma FlowHasOneDevice(firstId: RecId, runDate: Date)
    ensures |RecommendJs("tenant-a", [FlowRecord], firstId, runDate)| == 1
  {
    assert DeviceOrder([FlowRecord]) == ["WIN-123"] by {
      assert [FlowRecord][..0] == [];
    }
  }

  /** The first two posts of the flow's body to an empty database. */
  method PostTwice(db: JsDb) returns (first: IngestionAck, second: IngestionAck)
    requires db.Valid() && db.ingested == {} && db.telemetry == map[]
    modifies db
    ensures db.Valid()
    ensures first.acceptedRecords == 1 && !first.deduped
    ensures second.acceptedRecords == 0 && second.deduped
    ensures db.telemetry == map["tenant-a" := [FlowRecord]]
  {
    assert FlowBody.tenantId == "tenant-a" && Incoming(FlowBody) == [FlowRecord];
    assert db.Records("tenant-a") == [];
    first := db.IngestTelemetryBatch(FlowBody);
    assert [] + [FlowRecord] == [FlowRecord];
    assert db.telemetry == map["tenant-a" := [FlowRecord]];
    second := db.IngestTelemetryBatch(FlowBody);
  }

  /** Simulating over the flow's records and approving the first result. */
  method SimulateAndApprove(db: JsDb, policyId: Storage.PolicyId, runDate: Date)
    returns (sim: Result<seq<JsRecommendation>>, approve: Result<JsRecommendation>)
    requires db.Valid() && db.telemetry == map["tenant-a" := [FlowRecord]] && policyId in db.policies
    modifies db
    ensures sim.Ok? && |sim.value| >= 1
    ensures approve.Ok? && approve.value.status == "APPROVED" && approve.value.id == sim.value[0].id
  {
    FlowHasOneDevice(db.nextId, runDate);
    assert db.Records("tenant-a") == [FlowRecord];
    ghost var before := db.Values();
    sim := db.Simulate(policyId, "tenant-a", runDate);
    var id := sim.value[0].id;
    assert db.Values()[|before|] == sim.value[0];
    assert db.recOrder[|before|] == id;
    approve := db.Approve(id);
  }

  /** Against a fresh database: the first post accepts one record, the
      replay is deduplicated, the new policy's simulation yields at least one
      recommendation, and approving its first answers APPROVED. */
  method IngestionFlow(runDate: Date, now: int)
    returns (first: IngestionAck, second: IngestionAck, sim: Result<seq<JsRecommendation>>, approve: Result<JsRecommendation>)
    ensures first.acceptedRecords == 1 && second.deduped
    ensures sim.Ok? && |sim.value| >= 1
    ensures approve.Ok? && approve.value.status == "APPROVED" && approve.value.id == sim.value[0].id
  {
    var db := new JsDb();
    first, second := PostTwice(db);
    var policy := db.CreatePolicy(JsPolicyBody("tenant-a", "default", None, None, None), now);
    sim, approve := SimulateAndApprove(db, policy.policyId, runDate);
  }
}
