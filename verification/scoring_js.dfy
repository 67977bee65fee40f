/** The JavaScript twin of the scoring model (src/scoring.js). It applies the
    same arithmetic to a plain object whose `thermal_throttle_events` may be
    absent, and labels its decisions with strings. */
module ScoringJs {
  import opened Common
  import opened Scoring

  /** The object `computeScores` reads; a missing throttle count is `None`. */
  datatype JsSignals = JsSignals(
    gpuUtilP95: real,
    vramUsedP95Pct: real,
    cpuUtilP95: real,
    ramUsedP95: real,
    pagingPressureMinutes: real,
    diskLatencyP95Ms: real,
    diskBusyMinutes: real,
    diskQueueP95: real,
    thermalThrottleEvents: Option<int>,
    activeMinutes: real,
    lightAppMixFactor: real)

  /** `x || 0` on a count: an absent value reads as 0. */
  function OrZero(x: Option<int>): int
  {
    if x.Some? then x.value else 0
  }

  /** `computeScores`: the four pressures in [0, 1], fit and overprovision
      clamped to [0, 100] by `Math.max(0, Math.min(100, ...))`. */
  function ComputeScoresJs(s: JsSignals): (r: Scores)
    ensures InUnit(r.gpuPressure) && InUnit(r.cpuPressure) && InUnit(r.ramPressure) && InUnit(r.diskScore)
    ensures 0.0 <= r.fit <= 100.0
    ensures 0.0 <= r.overprov <= 100.0
  {
    var gpuPressure := 0.6 * Norm(s.gpuUtilP95, 40.0, 95.0) + 0.4 * Norm(s.vramUsedP95Pct, 50.0, 98.0);
    var cpuPressure := Norm(s.cpuUtilP95, 40.0, 95.0);
    var ramPressure := 0.7 * Norm(s.ramUsedP95, 60.0, 98.0) + 0.3 * Norm(s.pagingPressureMinutes, 0.0, 180.0);
    var diskScore := 0.5 * Norm(s.diskLatencyP95Ms, 10.0, 80.0) + 0.3 * Norm(s.diskBusyMinutes, 30.0, 360.0)
      + 0.2 * Norm(s.diskQueueP95, 1.0, 5.0);
    var thermalPenalty := Norm(OrZero(s.thermalThrottleEvents) as real, 0.0, 15.0);
    var stress := 0.3 * gpuPressure + 0.25 * ramPressure + 0.2 * diskScore + 0.2 * cpuPressure + 0.05 * thermalPenalty;
    var fit := Clamp(100.0 - stress * 100.0, 0.0, 100.0);
    var lowActiveMinutesFactor := 1.0 - Norm(s.activeMinutes, 60.0, 480.0);
    var overprov := 100.0 * (
      0.35 * (1.0 - gpuPressure)
      + 0.25 * (1.0 - cpuPressure)
      + 0.2 * (1.0 - ramPressure)
      + 0.1 * lowActiveMinutesFactor
      + 0.1 * s.lightAppMixFactor);
    Scores(gpuPressure, cpuPressure, ramPressure, diskScore, fit, Clamp(overprov, 0.0, 100.0))
  }

  /** The Python summary that the JavaScript object stands for. */
  function AsSummary(s: JsSignals): SignalSummary
  {
    SignalSummary(
      s.gpuUtilP95, s.vramUsedP95Pct, s.cpuUtilP95, s.ramUsedP95, s.pagingPressureMinutes,
      s.diskLatencyP95Ms, s.diskBusyMinutes, s.diskQueueP95, OrZero(s.thermalThrottleEvents),
      s.activeMinutes, s.lightAppMixFactor)
  }

  /** The two implementations compute the same scores. */
  lemma ComputeScoresTwinsAgree(s: JsSignals)
    ensures ComputeScoresJs(s) == ComputeScores(AsSummary(s))
  {
  }

  /** A missing throttle count scores exactly like a count of zero. */
  lemma MissingThermalIsZero(s: JsSignals)
    requires s.thermalThrottleEvents.None?
    ensures ComputeScoresJs(s) == ComputeScoresJs(s.(thermalThrottleEvents := Some(0)))
  {
  }

  /** `classifyAndAction`: total, one of three labelled pairs, with the
      underpowered test made first. */
  function ClassifyAndActionJs(sc: Scores): (r: (string, string))
    ensures r == ("UNDERPOWERED", "UPSIZE") || r == ("OVERPROVISIONED", "DOWNSIZE") || r == ("RIGHT_SIZED", "EXTEND_LIFE")
    ensures r.0 == "UNDERPOWERED" <==>
      sc.fit < 45.0 || sc.gpuPressure > 0.9 || sc.cpuPressure > 0.9 || sc.ramPressure > 0.9 || sc.diskScore > 0.9
    ensures r.0 == "OVERPROVISIONED" <==> r.0 != "UNDERPOWERED" && sc.fit > 75.0 && sc.overprov > 65.0
  {
    var critical := Critical(sc);
    if sc.fit < 45.0 || critical > 0.9 then ("UNDERPOWERED", "UPSIZE")
    else if sc.fit > 75.0 && sc.overprov > 65.0 then ("OVERPROVISIONED", "DOWNSIZE")
    else ("RIGHT_SIZED", "EXTEND_LIFE")
  }

  /** The labels are the string values of the Python decision. */
  lemma ClassifyTwinsAgree(sc: Scores)
    ensures var (c, a) := ClassifyAndAction(sc);
      ClassifyAndActionJs(sc) == (ClassificationName(c), ActionName(a))
  {
  }

  // ---------------------------------------------------------------------------
  // The scenarios of tests/scoring.test.js

  lemma SaturatedSignalsAreUnderpowered()
    ensures ClassifyAndActionJs(ComputeScoresJs(JsSignals(
      gpuUtilP95 := 96.0, vramUsedP95Pct := 98.0, cpuUtilP95 := 92.0, ramUsedP95 := 96.0,
      pagingPressureMinutes := 200.0, diskLatencyP95Ms := 120.0, diskBusyMinutes := 420.0,
      diskQueueP95 := 6.0, thermalThrottleEvents := Some(8), activeMinutes := 600.0,
      lightAppMixFactor := 0.1))) == ("UNDERPOWERED", "UPSIZE")
  {
  }

  const LightSignals: JsSignals :=
    JsSignals(
      gpuUtilP95 := 15.0, vramUsedP95Pct := 10.0, cpuUtilP95 := 20.0, ramUsedP95 := 35.0,
      pagingPressureMinutes := 0.0, diskLatencyP95Ms := 3.0, diskBusyMinutes := 12.0,
      diskQueueP95 := 0.2, thermalThrottleEvents := Some(0), activeMinutes := 30.0,
      lightAppMixFactor := 1.0)

  lemma LightSignalsAreOverprovisioned()
    ensures ClassifyAndActionJs(ComputeScoresJs(LightSignals)) == ("OVERPROVISIONED", "DOWNSIZE")
  {
    ComputeScoresTwinsAgree(LightSignals);
    IdleSummaryIsOverprovisioned(AsSummary(LightSignals));
    ClassifyTwinsAgree(ComputeScoresJs(LightSignals));
  }
}
