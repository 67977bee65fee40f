/** The recommendation record and the rules that fill it in from a device's
    signal summary (app/storage.py `generate_recommendations`, second half). */
module Recommendations {
  import opened Common
  import opened Scoring
  import opened Telemetry

  /** Identifiers come from a counter that stands in for random UUIDs. */
  type RecId = nat

  /** A calendar day, supplied by the caller in place of `date.today()`. */
  type Date = nat

  datatype Status = Pending | NoAction | Approved | Overridden

  function StatusName(s: Status): string
  {
    match s
    case Pending => "PENDING"
    case NoAction => "NO_ACTION"
    case Approved => "APPROVED"
    case Overridden => "OVERRIDDEN"
  }

  /** `top_reasons` holds the GPU, RAM and disk scores; their two-decimal
      text rendering is not modelled. */
  datatype Recommendation = Recommendation(
    id: RecId,
    tenantId: string,
    deviceKey: string,
    runDate: Date,
    classification: Classification,
    action: Action,
    confidence: real,
    workloadFitScore: real,
    overprovisionScore: real,
    expectedSavingsUsdAnnual: real,
    riskFlags: seq<string>,
    topReasons: seq<real>,
    status: Status)

  /** Confidence starts at 0.85, drops to 0.70 for RIGHT_SIZED and is then
      raised to 0.90 for a DOWNSIZE with overprovision above 80; the later
      assignment wins. */
  function Confidence(classification: Classification, action: Action, overprov: real): (c: real)
    ensures c == 0.90 <==> action == Downsize && overprov > 80.0
    ensures c == 0.70 <==> classification == RightSized && !(action == Downsize && overprov > 80.0)
    ensures c == 0.85 <==> classification != RightSized && !(action == Downsize && overprov > 80.0)
  {
    var confidence := 0.85;
    var confidence' := if classification == RightSized then 0.70 else confidence;
    if action == Downsize && overprov > 80.0 then 0.90 else confidence'
  }

  /** One recommendation for one device; `BuildFollowsRules` states how
      its fields follow from the scores. */
  function Build(id: RecId, tenant: string, device: string, runDate: Date, s: SignalSummary): (r: Recommendation)
    ensures r.id == id && r.tenantId == tenant && r.deviceKey == device && r.runDate == runDate
  {
    var scores := ComputeScores(s);
    var (classification, action) := ClassifyAndAction(scores);
    Recommendation(
      id := id,
      tenantId := tenant,
      deviceKey := device,
      runDate := runDate,
      classification := classification,
      action := action,
      confidence := Confidence(classification, action, scores.overprov),
      workloadFitScore := scores.fit,
      overprovisionScore := scores.overprov,
      expectedSavingsUsdAnnual := if action == Downsize then 1200.0 else 0.0,
      riskFlags := if s.thermalThrottleEvents > 3 then ["THERMAL"] else [],
      topReasons := [scores.gpuPressure, scores.ramPressure, scores.diskScore],
      status := if action != ExtendLife then Pending else NoAction)
  }

  /** The builder's rules: the decision is the classifier's; confidence is
      0.90 exactly for a DOWNSIZE with overprovision above 80, 0.70 exactly
      for RIGHT_SIZED and 0.85 otherwise; savings are 1200 exactly for
      DOWNSIZE; the THERMAL flag is raised exactly above three throttle
      events; status is NO_ACTION exactly for EXTEND_LIFE, else PENDING. */
  lemma BuildFollowsRules(id: RecId, tenant: string, device: string, runDate: Date, s: SignalSummary)
    ensures var r := Build(id, tenant, device, runDate, s);
      && (r.classification, r.action) == ClassifyAndAction(ComputeScores(s))
      && r.workloadFitScore == ComputeScores(s).fit && r.overprovisionScore == ComputeScores(s).overprov
      && 0.0 <= r.workloadFitScore <= 100.0 && 0.0 <= r.overprovisionScore <= 100.0
      && (r.confidence == 0.90 <==> r.action == Downsize && r.overprovisionScore > 80.0)
      && (r.confidence == 0.70 <==> r.classification == RightSized)
      && (r.confidence == 0.85 <==> r.classification == Underpowered || (r.action == Downsize && r.overprovisionScore <= 80.0))
      && (r.action == Downsize ==> r.expectedSavingsUsdAnnual == 1200.0)
      && (r.action != Downsize ==> r.expectedSavingsUsdAnnual == 0.0)
      && ("THERMAL" in r.riskFlags <==> s.thermalThrottleEvents > 3)
      && (r.riskFlags == [] || r.riskFlags == ["THERMAL"])
      && (r.status == NoAction <==> r.action == ExtendLife)
      && (r.status == Pending <==> r.action != ExtendLife)
      && |r.topReasons| == 3 && (forall i :: 0 <= i < 3 ==> InUnit(r.topReasons[i]))
  {
  }

  /** The recommendation for device `k` of `recs`, built from the summary of
      that device's records. */
  function DeviceRecommendation(tenant: string, recs: seq<TelemetryRecord>, k: string, id: RecId, runDate: Date): (r: Recommendation)
    ensures r.id == id && r.tenantId == tenant && r.deviceKey == k && r.runDate == runDate
  {
    Build(id, tenant, k, runDate, Summarize(RecordsOf(recs, k)))
  }

  /** Builds the recommendation of device `k` of `recs` under identifier
      `id`. */
  function DeviceBuilder(tenant: string, recs: seq<TelemetryRecord>, runDate: Date): (nat, string) -> Recommendation
  {
    (id: nat, k: string) => DeviceRecommendation(tenant, recs, k, id, runDate)
  }

  /** What a recommendation run over `recs` yields: one recommendation for
      each device, in order of the device's first record, numbered from
      `firstId`. */
  function Recommend(tenant: string, recs: seq<TelemetryRecord>, firstId: RecId, runDate: Date): (rs: seq<Recommendation>)
    ensures |rs| == |DeviceOrder(recs)|
    ensures forall i :: 0 <= i < |rs| ==> rs[i] == DeviceRecommendation(tenant, recs, DeviceOrder(recs)[i], firstId + i, runDate)
  {
    var keys := DeviceOrder(recs);
    var rs := Numbered(DeviceBuilder(tenant, recs, runDate), keys, firstId, |keys|);
    assert forall i :: 0 <= i < |keys| ==> rs[i] == DeviceRecommendation(tenant, recs, keys[i], firstId + i, runDate) by {
      forall i | 0 <= i < |keys|
        ensures rs[i] == DeviceRecommendation(tenant, recs, keys[i], firstId + i, runDate)
      {
        NumberedAt(DeviceBuilder(tenant, recs, runDate), keys, firstId, |keys|, i);
      }
    }
    rs
  }

  /** A run numbers its recommendations consecutively from `firstId` and
      gives the `i`-th one the `i`-th device in order of first appearance,
      so no device is recommended twice; no records, no recommendations. */
  lemma RecommendOnePerDevice(tenant: string, recs: seq<TelemetryRecord>, firstId: RecId, runDate: Date)
    ensures var rs := Recommend(tenant, recs, firstId, runDate);
      && (forall i :: 0 <= i < |rs| ==>
            rs[i].id == firstId + i && rs[i].tenantId == tenant && rs[i].runDate == runDate
            && rs[i].deviceKey == DeviceOrder(recs)[i])
      && (forall i, j :: 0 <= i < j < |rs| ==> rs[i].deviceKey != rs[j].deviceKey)
      && (recs == [] ==> rs == [])
  {
  }

  /** Every device of the records gets a recommendation, and only those. */
  lemma RecommendCoversDevices(tenant: string, recs: seq<TelemetryRecord>, firstId: RecId, runDate: Date)
    ensures var rs := Recommend(tenant, recs, firstId, runDate);
      forall k :: k in DeviceKeys(recs) <==> exists i :: 0 <= i < |rs| && rs[i].deviceKey == k
  {
    var rs := Recommend(tenant, recs, firstId, runDate);
    var keys := DeviceOrder(recs);
    forall k | k in DeviceKeys(recs)
      ensures exists i :: 0 <= i < |rs| && rs[i].deviceKey == k
    {
      var i :| 0 <= i < |keys| && keys[i] == k;
      assert rs[i].deviceKey == k;
    }
  }
}
