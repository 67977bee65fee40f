/** The request handlers of the Python service (app/main.py) over one
    in-memory store. HTTP routing, JSON bodies and status codes are not
    modelled: a handler that answers 404 returns `Err`. */
module Service {
  import opened Common
  import opened Scoring
  import opened Telemetry
  import opened Recommendations
  import opened Storage

  /** The acknowledgement of a telemetry batch: "duplicate" exactly when the
      store deduplicated it, "accepted" otherwise. */
  function Ack(tenant: string, accepted: nat, deduped: bool): (a: IngestionAck)
    ensures a.status == "duplicate" <==> deduped
    ensures a.status == "accepted" <==> !deduped
    ensures a.tenantId == tenant && a.acceptedRecords == accepted && a.deduped == deduped
  {
    IngestionAck(if !deduped then "accepted" else "duplicate", tenant, accepted, deduped)
  }

  /** `POST /api/v1/ingestion/telemetry-batch` */
  method IngestTelemetry(store: Store, payload: TelemetryBatch) returns (ack: IngestionAck)
    requires store.Valid()
    modifies store
    ensures store.Valid()
    ensures ack.tenantId == payload.tenantId
    ensures ack.deduped <==> KeyOf(payload) in old(store.ingestedBatches)
    ensures ack.status == "duplicate" <==> ack.deduped
    ensures ack.status == "accepted" <==> !ack.deduped
    ensures ack.deduped ==> ack.acceptedRecords == 0
    ensures ack.deduped ==> store.ingestedBatches == old(store.ingestedBatches) && store.telemetry == old(store.telemetry)
    ensures !ack.deduped ==> ack.acceptedRecords == |payload.records|
    ensures !ack.deduped ==> store.ingestedBatches == old(store.ingestedBatches) + {KeyOf(payload)}
    ensures !ack.deduped ==> store.telemetry == old(store.telemetry)[payload.tenantId := old(store.History(payload.tenantId)) + [payload]]
    ensures store.recOrder == old(store.recOrder) && store.recommendations == old(store.recommendations)
    ensures store.policies == old(store.policies) && store.nextId == old(store.nextId)
    ensures store.capabilities == old(store.capabilities)
  {
    var accepted, deduped := store.IngestTelemetry(payload);
    ack := Ack(payload.tenantId, accepted, deduped);
  }

  /** `POST /api/v1/ingestion/capability-snapshots`: always "accepted",
      never deduplicated. */
  method IngestCapabilities(store: Store, payload: CapabilityBatch) returns (ack: IngestionAck)
    requires store.Valid()
    modifies store
    ensures store.Valid()
    ensures ack == IngestionAck("accepted", payload.tenantId, |payload.snapshots|, false)
    ensures store.capabilities == old(store.capabilities)[payload.tenantId := old(store.CapabilityHistory(payload.tenantId)) + [payload]]
    ensures store.ingestedBatches == old(store.ingestedBatches) && store.telemetry == old(store.telemetry)
    ensures store.recOrder == old(store.recOrder) && store.recommendations == old(store.recommendations)
    ensures store.policies == old(store.policies) && store.nextId == old(store.nextId)
  {
    var accepted := store.IngestCapabilities(payload);
    ack := IngestionAck("accepted", payload.tenantId, accepted, false);
  }

  /** `GET /api/v1/admin/policies/{policy_id}`: not found exactly when no
      policy has that identifier. */
  function GetPolicy(store: Store, id: PolicyId): (r: Result<PolicyProfile>)
    requires store.Valid()
    reads store
    ensures r.Err? <==> id !in store.policies
    ensures r.Err? ==> r.error == PolicyNotFound
    ensures r.Ok? ==> r.value == store.policies[id] && r.value.policyId == id
  {
    var policy := store.GetPolicy(id);
    if policy.None? then Err(PolicyNotFound) else Ok(policy.value)
  }

  /** `PATCH /api/v1/admin/policies/{policy_id}` */
  method PatchPolicy(store: Store, id: PolicyId, patch: PolicyPatch) returns (r: Result<PolicyProfile>)
    requires store.Valid()
    modifies store
    ensures store.Valid()
    ensures id !in old(store.policies) ==> r == Err(PolicyNotFound) && store.policies == old(store.policies)
    ensures id in old(store.policies) ==> r == Ok(MergePatch(old(store.policies)[id], patch))
    ensures id in old(store.policies) ==> store.policies == old(store.policies)[id := r.value]
    ensures store.recOrder == old(store.recOrder) && store.recommendations == old(store.recommendations)
    ensures store.telemetry == old(store.telemetry) && store.nextId == old(store.nextId)
    ensures store.ingestedBatches == old(store.ingestedBatches) && store.capabilities == old(store.capabilities)
  {
    var updated := store.PatchPolicy(id, patch);
    if updated.None? {
      return Err(PolicyNotFound);
    }
    r := Ok(updated.value);
  }

  /** `POST /api/v1/admin/policies/{policy_id}/simulate`: an unknown policy
      is rejected before anything is generated; a known one only has to
      exist -- the recommendations are those of the requested tenant, whatever
      the policy's own tenant and settings. */
  method Simulate(store: Store, id: PolicyId, tenant: string, runDate: Date) returns (r: Result<seq<Recommendation>>)
    requires store.Valid()
    modifies store
    ensures store.Valid()
    ensures id !in old(store.policies) ==> r == Err(PolicyNotFound) && unchanged(store)
    ensures id in old(store.policies) ==>
      r == Ok(Recommend(tenant, Pool(old(store.History(tenant))), old(store.nextId), runDate))
    ensures r.Ok? ==> store.Values() == old(store.Values()) + r.value
    ensures store.policies == old(store.policies) && store.telemetry == old(store.telemetry)
    ensures store.ingestedBatches == old(store.ingestedBatches) && store.capabilities == old(store.capabilities)
  {
    var policy := GetPolicy(store, id);
    if policy.Err? {
      return Err(PolicyNotFound);
    }
    var items := store.GenerateRecommendations(tenant, runDate);
    r := Ok(items);
  }

  // ---------------------------------------------------------------------------
  // Listing

  /** The query of `GET /api/v1/recommendations`; absent parameters are
      `None`. */
  datatype Query = Query(tenant: string, action: Option<string>, classification: Option<string>, minConfidence: Option<real>)

  /** What a recommendation must satisfy to be listed: the tenant always,
      each other filter only when it was given. */
  predicate Matches(q: Query, x: Recommendation)
  {
    && x.tenantId == q.tenant
    && (Given(q.action) ==> ActionName(x.action) == q.action.value)
    && (Given(q.classification) ==> ClassificationName(x.classification) == q.classification.value)
    && (q.minConfidence.Some? ==> x.confidence >= q.minConfidence.value)
  }

  function OfTenant(tenant: string): Recommendation -> bool
  {
    (x: Recommendation) => x.tenantId == tenant
  }

  function ActionIs(a: string): Recommendation -> bool
  {
    (x: Recommendation) => ActionName(x.action) == a
  }

  function ClassificationIs(c: string): Recommendation -> bool
  {
    (x: Recommendation) => ClassificationName(x.classification) == c
  }

  function AtLeast(q: Option<real>): Recommendation -> bool
  {
    (x: Recommendation) => q.Some? ==> x.confidence >= q.value
  }

  /** The filters that have been applied after the tenant and action steps. */
  function TenantAction(q: Query): Recommendation -> bool
  {
    (x: Recommendation) => x.tenantId == q.tenant && (Given(q.action) ==> ActionName(x.action) == q.action.value)
  }

  function TenantActionClass(q: Query): Recommendation -> bool
  {
    (x: Recommendation) => x.tenantId == q.tenant && (Given(q.action) ==> ActionName(x.action) == q.action.value)
      && (Given(q.classification) ==> ClassificationName(x.classification) == q.classification.value)
  }

  function MatchesQuery(q: Query): Recommendation -> bool
  {
    (x: Recommendation) => Matches(q, x)
  }

  lemma ActionStep(values: seq<Recommendation>, q: Query)
    ensures Refine(Filter(values, OfTenant(q.tenant)), Given(q.action), ActionIs(Text(q.action)))
         == Filter(values, TenantAction(q))
  {
    RefineFilter(values, OfTenant(q.tenant), Given(q.action), ActionIs(Text(q.action)), TenantAction(q));
  }

  lemma ClassificationStep(values: seq<Recommendation>, q: Query)
    ensures Refine(Filter(values, TenantAction(q)), Given(q.classification), ClassificationIs(Text(q.classification)))
         == Filter(values, TenantActionClass(q))
  {
    RefineFilter(values, TenantAction(q), Given(q.classification), ClassificationIs(Text(q.classification)), TenantActionClass(q));
  }

  lemma ConfidenceStep(values: seq<Recommendation>, q: Query)
    ensures Refine(Filter(values, TenantActionClass(q)), q.minConfidence.Some?, AtLeast(q.minConfidence))
         == Filter(values, MatchesQuery(q))
  {
    forall x: Recommendation
      ensures MatchesQuery(q)(x) == (TenantActionClass(q)(x) && (q.minConfidence.Some? ==> AtLeast(q.minConfidence)(x)))
    {
    }
    RefineFilter(values, TenantActionClass(q), q.minConfidence.Some?, AtLeast(q.minConfidence), MatchesQuery(q));
  }

  /** The chain of comprehensions of `list_recommendations`, filter by
      filter; it keeps exactly the matching recommendations, in store order,
      as one pass with all filters conjoined would. */
  function List(values: seq<Recommendation>, q: Query): (items: seq<Recommendation>)
    ensures items == Filter(values, MatchesQuery(q))
    ensures IsSubsequence(items, values)
    ensures forall i :: 0 <= i < |items| ==> Matches(q, items[i])
    ensures forall i :: 0 <= i < |values| && Matches(q, values[i]) ==> values[i] in items
  {
    var recs := Filter(values, OfTenant(q.tenant));
    var recs1 := Refine(recs, Given(q.action), ActionIs(Text(q.action)));
    ActionStep(values, q);
    var recs2 := Refine(recs1, Given(q.classification), ClassificationIs(Text(q.classification)));
    ClassificationStep(values, q);
    var recs3 := Refine(recs2, q.minConfidence.Some?, AtLeast(q.minConfidence));
    ConfidenceStep(values, q);
    FilterIsSubsequence(values, MatchesQuery(q));
    recs3
  }

  /** `GET /api/v1/recommendations` over the store's recommendations in
      insertion order. */
  function ListRecommendations(store: Store, q: Query): (items: seq<Recommendation>)
    requires store.Valid()
    reads store
    ensures items == List(store.Values(), q)
    ensures IsSubsequence(items, store.Values())
    ensures forall i :: 0 <= i < |items| ==> items[i].tenantId == q.tenant && items[i].id in store.recommendations
  {
    var values := store.Values();
    StoredValues(store);
    List(values, q)
  }

  /** Every stored value is filed under its own identifier. */
  lemma StoredValues(store: Store)
    requires store.Valid()
    ensures forall v :: v in store.Values() ==> v.id in store.recommendations
  {
    var values := store.Values();
    forall v | v in values
      ensures v.id in store.recommendations
    {
      var j :| 0 <= j < |values| && values[j] == v;
      assert store.recOrder[j] in store.recommendations;
    }
  }

  // ---------------------------------------------------------------------------
  // One recommendation

  /** `GET /api/v1/recommendations/{recommendation_id}` */
  function GetRecommendation(store: Store, id: RecId): (r: Result<Recommendation>)
    requires store.Valid()
    reads store
    ensures r.Err? <==> id !in store.recommendations
    ensures r.Err? ==> r.error == RecommendationNotFound
    ensures r.Ok? ==> r.value == store.recommendations[id] && r.value.id == id
  {
    if id in store.recommendations then Ok(store.recommendations[id]) else Err(RecommendationNotFound)
  }

  /** `approve` and `override`: an unknown identifier changes nothing;
      otherwise the status is overwritten, whatever it was, and every other
      field and every other recommendation is kept, in the same order. */
  method SetStatus(store: Store, id: RecId, status: Status) returns (r: Result<Recommendation>)
    requires store.Valid()
    modifies store
    ensures store.Valid()
    ensures id !in old(store.recommendations) ==> r == Err(RecommendationNotFound) && unchanged(store)
    ensures id in old(store.recommendations) ==> r == Ok(old(store.recommendations)[id].(status := status))
    ensures id in old(store.recommendations) ==> store.recommendations == old(store.recommendations)[id := r.value]
    ensures store.recOrder == old(store.recOrder) && store.nextId == old(store.nextId)
    ensures store.policies == old(store.policies) && store.telemetry == old(store.telemetry)
    ensures store.ingestedBatches == old(store.ingestedBatches) && store.capabilities == old(store.capabilities)
  {
    var found := GetRecommendation(store, id);
    if found.Err? {
      return Err(RecommendationNotFound);
    }
    var rec := store.SetStatus(id, status);
    r := Ok(rec);
  }

  /** `POST /api/v1/recommendations/{recommendation_id}/approve` */
  method Approve(store: Store, id: RecId) returns (r: Result<Recommendation>)
    requires store.Valid()
    modifies store
    ensures store.Valid()
    ensures id !in old(store.recommendations) ==> r == Err(RecommendationNotFound) && unchanged(store)
    ensures id in old(store.recommendations) ==> r == Ok(old(store.recommendations)[id].(status := Approved))
    ensures id in old(store.recommendations) ==> store.recommendations == old(store.recommendations)[id := r.value]
    ensures store.recOrder == old(store.recOrder) && store.nextId == old(store.nextId)
    ensures store.policies == old(store.policies) && store.telemetry == old(store.telemetry)
    ensures store.ingestedBatches == old(store.ingestedBatches) && store.capabilities == old(store.capabilities)
  {
    r := SetStatus(store, id, Approved);
  }

  /** `POST /api/v1/recommendations/{recommendation_id}/override` */
  method Override(store: Store, id: RecId) returns (r: Result<Recommendation>)
    requires store.Valid()
    modifies store
    ensures store.Valid()
    ensures id !in old(store.recommendations) ==> r == Err(RecommendationNotFound) && unchanged(store)
    ensures id in old(store.recommendations) ==> r == Ok(old(store.recommendations)[id].(status := Overridden))
    ensures id in old(store.recommendations) ==> store.recommendations == old(store.recommendations)[id := r.value]
    ensures store.recOrder == old(store.recOrder) && store.nextId == old(store.nextId)
    ensures store.policies == old(store.policies) && store.telemetry == old(store.telemetry)
    ensures store.ingestedBatches == old(store.ingestedBatches) && store.capabilities == old(store.capabilities)
  {
    r := SetStatus(store, id, Overridden);
  }

  /** Approving twice answers the same as approving once and leaves the same
      table. */
  method ApproveTwice(store: Store, id: RecId) returns (first: Result<Recommendation>, second: Result<Recommendation>)
    requires store.Valid()
    modifies store
    ensures first == second
    ensures id in old(store.recommendations) ==> first.Ok? && store.recommendations == old(store.recommendations)[id := first.value]
    ensures id !in old(store.recommendations) ==> unchanged(store)
  {
    first := Approve(store, id);
    ghost var afterFirst := store.recommendations;
    second := Approve(store, id);
    assert store.recommendations == afterFirst;
  }

  /** Overriding after approving leaves the recommendation OVERRIDDEN: the
      handlers do not treat APPROVED as final. */
  method ApproveThenOverride(store: Store, id: RecId) returns (r: Result<Recommendation>)
    requires store.Valid() && id in store.recommendations
    modifies store
    ensures r.Ok? && r.value.status == Overridden
    ensures r.value == old(store.recommendations)[id].(status := Overridden)
  {
    var approved := Approve(store, id);
    r := Override(store, id);
  }

  // ---------------------------------------------------------------------------
  // The flow of tests/test_api.py

  const FlowRecord: TelemetryRecord :=
    TelemetryRecord(
      deviceKey := "WIN-123", gpuUtilPct := 10.0, vramUsedMb := 400.0, gpuActiveMinutes := 2,
      cpuUtilPct := 22.0, ramUsedPct := 35.0, pagingPressure := 0, diskLatencyMs := 2.0,
      diskBusyPct := 8.0, diskQueueLen := 0.2, throttleEvent := false,
      apps := [AppUsage("BROWSER_HEAVY", 3)])

  const FlowBatch: TelemetryBatch :=
    TelemetryBatch("tenant-a", "windows_collector", "batch-1", 0, [FlowRecord])

  /** The flow's tenant has one device, so a run over its history yields
      one recommendation. */
  lemma FlowHasOneDevice(firstId: RecId, runDate: Date)
    ensures |Recommend("tenant-a", Pool([FlowBatch]), firstId, runDate)| == 1
  {
    assert Pool([FlowBatch]) == [FlowRecord];
    assert DeviceOrder([FlowRecord]) == ["WIN-123"] by {
      assert [FlowRecord][..0] == [];
    }
  }

  /** The first two posts of the flow's batch to a store that has never
      seen it: accepted once, then a duplicate. */
  method PostTwice(store: Store) returns (first: IngestionAck, second: IngestionAck)
    requires store.Valid() && store.ingestedBatches == {} && store.telemetry == map[]
    modifies store
    ensures store.Valid()
    ensures first.acceptedRecords == 1 && !first.deduped && first.status == "accepted"
    ensures second.acceptedRecords == 0 && second.deduped && second.status == "duplicate"
    ensures store.telemetry == map["tenant-a" := [FlowBatch]]
  {
    assert FlowBatch.tenantId == "tenant-a" && |FlowBatch.records| == 1;
    assert store.History("tenant-a") == [];
    first := IngestTelemetry(store, FlowBatch);
    assert [] + [FlowBatch] == [FlowBatch];
    assert store.telemetry == map["tenant-a" := [FlowBatch]];
    assert KeyOf(FlowBatch) in store.ingestedBatches;
    second := IngestTelemetry(store, FlowBatch);
  }

  /** Simulating over the flow's history and approving the first result. */
  method SimulateAndApprove(store: Store, policyId: PolicyId, runDate: Date)
    returns (sim: Result<seq<Recommendation>>, approve: Result<Recommendation>)
    requires store.Valid() && store.telemetry == map["tenant-a" := [FlowBatch]] && policyId in store.policies
    modifies store
    ensures sim.Ok? && |sim.value| >= 1
    ensures approve.Ok? && approve.value.status == Approved && approve.value.id == sim.value[0].id
  {
    FlowHasOneDevice(store.nextId, runDate);
    ghost var before := store.Values();
    sim := Simulate(store, policyId, "tenant-a", runDate);
    var id := sim.value[0].id;
    assert store.Values()[|before|] == sim.value[0];
    assert store.recOrder[|before|] == id;
    approve := Approve(store, id);
  }

  /** Against a fresh store: the first post of the batch accepts its one
      record, the replay is a duplicate accepting none, a simulation under
      the new policy yields at least one recommendation, and approving the
      first of them answers APPROVED. The policy is created with no
      auto-execute rules: settings are opaque string maps here, so the
      test's nested `DOWNSIZE` rule is dropped; the outcome does not depend
      on it. */
  method IngestionFlow(runDate: Date, now: int)
    returns (first: IngestionAck, second: IngestionAck, sim: Result<seq<Recommendation>>, approve: Result<Recommendation>)
    ensures first.acceptedRecords == 1 && !first.deduped && first.status == "accepted"
    ensures second.acceptedRecords == 0 && second.deduped && second.status == "duplicate"
    ensures sim.Ok? && |sim.value| >= 1
    ensures approve.Ok? && approve.value.status == Approved && approve.value.id == sim.value[0].id
  {
    var store := new Store();
    first, second := PostTwice(store);
    var policy := store.CreatePolicy(PolicyCreate("tenant-a", "default", true, map["gpu_util_high" := "85"], map[]), now);
    sim, approve := SimulateAndApprove(store, policy.policyId, runDate);
  }
}
