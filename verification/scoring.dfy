/** The scoring model and the classifier of app/scoring.py: a device's signal
    summary is turned into four pressures, a workload-fit score and an
    overprovision score, and those into a (classification, action) pair.
    All arithmetic is over `real`. */
module Scoring {

  /** Min-max normalisation onto [0, 1]: 0 at or below `floor`, 1 at or above
      `ceiling`, linear in between; a degenerate range yields 0. */
  function Norm(value: real, floor: real, ceiling: real): (r: real)
    ensures 0.0 <= r <= 1.0
    ensures ceiling <= floor ==> r == 0.0
    ensures value <= floor ==> r == 0.0
    ensures floor < ceiling <= value ==> r == 1.0
    ensures floor < value < ceiling ==> 0.0 < r < 1.0
  {
    if ceiling <= floor then 0.0
    else if value <= floor then 0.0
    else if value >= ceiling then 1.0
    else
      RatioBelowOne(value - floor, ceiling - floor);
      (value - floor) / (ceiling - floor)
  }

  lemma RatioBelowOne(n: real, d: real)
    requires 0.0 < n < d
    ensures 0.0 < n / d < 1.0
  {
    var q := n / d;
    assert q * d == n;
    if q >= 1.0 {
      assert false;
    }
  }

  lemma NormMonotone(v1: real, v2: real, floor: real, ceiling: real)
    requires v1 <= v2
    ensures Norm(v1, floor, ceiling) <= Norm(v2, floor, ceiling)
  {
    if floor < v1 && v2 < ceiling {
      var d := ceiling - floor;
      assert (v2 - floor) / d - (v1 - floor) / d == (v2 - v1) / d;
      assert ((v2 - v1) / d) * d == v2 - v1;
    }
  }

  /** `max(lo, min(hi, x))` */
  function Clamp(x: real, lo: real, hi: real): (r: real)
    requires lo <= hi
    ensures lo <= r <= hi
    ensures lo <= x <= hi ==> r == x
    ensures x < lo ==> r == lo
    ensures hi < x ==> r == hi
  {
    var m := if hi < x then hi else x;
    if m < lo then lo else m
  }

  lemma ClampMonotone(x: real, y: real, lo: real, hi: real)
    requires lo <= hi && x <= y
    ensures Clamp(x, lo, hi) <= Clamp(y, lo, hi)
  {
  }

  /** Aggregate of one device's telemetry history. */
  datatype SignalSummary = SignalSummary(
    gpuUtilP95: real,
    vramUsedP95Pct: real,
    cpuUtilP95: real,
    ramUsedP95: real,
    pagingPressureMinutes: real,
    diskLatencyP95Ms: real,
    diskBusyMinutes: real,
    diskQueueP95: real,
    thermalThrottleEvents: int,
    activeMinutes: real,
    lightAppMixFactor: real)

  datatype Scores = Scores(
    gpuPressure: real,
    cpuPressure: real,
    ramPressure: real,
    diskScore: real,
    fit: real,
    overprov: real)

  predicate InUnit(x: real)
  {
    0.0 <= x <= 1.0
  }

  function GpuPressure(s: SignalSummary): (p: real)
    ensures InUnit(p)
  {
    0.6 * Norm(s.gpuUtilP95, 40.0, 95.0) + 0.4 * Norm(s.vramUsedP95Pct, 50.0, 98.0)
  }

  function CpuPressure(s: SignalSummary): (p: real)
    ensures InUnit(p)
  {
    Norm(s.cpuUtilP95, 40.0, 95.0)
  }

  function RamPressure(s: SignalSummary): (p: real)
    ensures InUnit(p)
  {
    0.7 * Norm(s.ramUsedP95, 60.0, 98.0) + 0.3 * Norm(s.pagingPressureMinutes, 0.0, 180.0)
  }

  function DiskScore(s: SignalSummary): (p: real)
    ensures InUnit(p)
  {
    0.5 * Norm(s.diskLatencyP95Ms, 10.0, 80.0)
    + 0.3 * Norm(s.diskBusyMinutes, 30.0, 360.0)
    + 0.2 * Norm(s.diskQueueP95, 1.0, 5.0)
  }

  /** The four pressures in [0, 1] (each a weighted sum whose weights add up
      to 1), fit and overprovision clamped to [0, 100]. */
  function ComputeScores(s: SignalSummary): (r: Scores)
    ensures InUnit(r.gpuPressure) && InUnit(r.cpuPressure) && InUnit(r.ramPressure) && InUnit(r.diskScore)
    ensures 0.0 <= r.fit <= 100.0
    ensures 0.0 <= r.overprov <= 100.0
  {
    Scores(GpuPressure(s), CpuPressure(s), RamPressure(s), DiskScore(s),
           Clamp(100.0 - Stress(s) * 100.0, 0.0, 100.0),
           Clamp(RawOverprovision(s), 0.0, 100.0))
  }

  /** The weighted stress: pressures plus a thermal penalty. Its weights add
      up to 1, so it stays in [0, 1] and `100 - stress * 100` in [0, 100]
      before any clamp. */
  function Stress(s: SignalSummary): (r: real)
    ensures InUnit(r)
  {
    var thermalPenalty := Norm(s.thermalThrottleEvents as real, 0.0, 15.0);
    0.30 * GpuPressure(s) + 0.25 * RamPressure(s) + 0.20 * DiskScore(s) + 0.20 * CpuPressure(s) + 0.05 * thermalPenalty
  }

  /** Overprovision before clamping: idle headroom, low activity and a
      light application mix. The headroom terms give at most 90 points and
      the mix factor its tenth; with a mix factor in [0, 1] the clamp changes
      nothing. */
  function RawOverprovision(s: SignalSummary): (r: real)
    ensures 10.0 * s.lightAppMixFactor <= r <= 90.0 + 10.0 * s.lightAppMixFactor
    ensures InUnit(s.lightAppMixFactor) ==> 0.0 <= r <= 100.0
  {
    var lowActiveMinutesFactor := 1.0 - Norm(s.activeMinutes, 60.0, 480.0);
    100.0 * (
      0.35 * (1.0 - GpuPressure(s))
      + 0.25 * (1.0 - CpuPressure(s))
      + 0.20 * (1.0 - RamPressure(s))
      + 0.10 * lowActiveMinutesFactor
      + 0.10 * s.lightAppMixFactor)
  }

  /** `t` shows at least as much demand as `s` on every reading: higher or
      equal utilisation, latency, queue, paging, throttling and activity, and
      a heavier (or equal) application mix. */
  predicate MoreDemanding(t: SignalSummary, s: SignalSummary)
  {
    && t.gpuUtilP95 >= s.gpuUtilP95
    && t.vramUsedP95Pct >= s.vramUsedP95Pct
    && t.cpuUtilP95 >= s.cpuUtilP95
    && t.ramUsedP95 >= s.ramUsedP95
    && t.pagingPressureMinutes >= s.pagingPressureMinutes
    && t.diskLatencyP95Ms >= s.diskLatencyP95Ms
    && t.diskBusyMinutes >= s.diskBusyMinutes
    && t.diskQueueP95 >= s.diskQueueP95
    && t.thermalThrottleEvents >= s.thermalThrottleEvents
    && t.activeMinutes >= s.activeMinutes
    && t.lightAppMixFactor <= s.lightAppMixFactor
  }

  /** More demand never lowers a pressure. */
  lemma DemandRaisesPressures(t: SignalSummary, s: SignalSummary)
    requires MoreDemanding(t, s)
    ensures GpuPressure(t) >= GpuPressure(s)
    ensures CpuPressure(t) >= CpuPressure(s)
    ensures RamPressure(t) >= RamPressure(s)
    ensures DiskScore(t) >= DiskScore(s)
  {
    NormMonotone(s.gpuUtilP95, t.gpuUtilP95, 40.0, 95.0);
    NormMonotone(s.vramUsedP95Pct, t.vramUsedP95Pct, 50.0, 98.0);
    NormMonotone(s.cpuUtilP95, t.cpuUtilP95, 40.0, 95.0);
    NormMonotone(s.ramUsedP95, t.ramUsedP95, 60.0, 98.0);
    NormMonotone(s.pagingPressureMinutes, t.pagingPressureMinutes, 0.0, 180.0);
    NormMonotone(s.diskLatencyP95Ms, t.diskLatencyP95Ms, 10.0, 80.0);
    NormMonotone(s.diskBusyMinutes, t.diskBusyMinutes, 30.0, 360.0);
    NormMonotone(s.diskQueueP95, t.diskQueueP95, 1.0, 5.0);
  }

  /** More demand never means more headroom nor more waste: every pressure
      rises (or stays), while fit and overprovision fall (or stay). */
  lemma DemandLowersFitAndOverprovision(t: SignalSummary, s: SignalSummary)
    requires MoreDemanding(t, s)
    ensures ComputeScores(t).gpuPressure >= ComputeScores(s).gpuPressure
    ensures ComputeScores(t).cpuPressure >= ComputeScores(s).cpuPressure
    ensures ComputeScores(t).ramPressure >= ComputeScores(s).ramPressure
    ensures ComputeScores(t).diskScore >= ComputeScores(s).diskScore
    ensures ComputeScores(t).fit <= ComputeScores(s).fit
    ensures ComputeScores(t).overprov <= ComputeScores(s).overprov
  {
    DemandRaisesPressures(t, s);
    NormMonotone(s.thermalThrottleEvents as real, t.thermalThrottleEvents as real, 0.0, 15.0);
    NormMonotone(s.activeMinutes, t.activeMinutes, 60.0, 480.0);
    assert Stress(t) >= Stress(s);
    assert RawOverprovision(t) <= RawOverprovision(s);
    ClampMonotone(100.0 - Stress(t) * 100.0, 100.0 - Stress(s) * 100.0, 0.0, 100.0);
    ClampMonotone(RawOverprovision(t), RawOverprovision(s), 0.0, 100.0);
  }

  // ---------------------------------------------------------------------------
  // Classifier

  datatype Classification = Overprovisioned | RightSized | Underpowered

  datatype Action = Downsize | Upsize | Reallocate | ExtendLife | Refresh | Investigate

  /** The string value of each enumeration member, which is what responses
      carry and what query parameters are compared with. */
  function ClassificationName(c: Classification): string
  {
    match c
    case Overprovisioned => "OVERPROVISIONED"
    case RightSized => "RIGHT_SIZED"
    case Underpowered => "UNDERPOWERED"
  }

  function ActionName(a: Action): string
  {
    match a
    case Downsize => "DOWNSIZE"
    case Upsize => "UPSIZE"
    case Reallocate => "REALLOCATE"
    case ExtendLife => "EXTEND_LIFE"
    case Refresh => "REFRESH"
    case Investigate => "INVESTIGATE"
  }

  /** `max(gpu_pressure, cpu_pressure, ram_pressure, disk_score)` */
  function Critical(sc: Scores): (m: real)
    ensures m >= sc.gpuPressure && m >= sc.cpuPressure && m >= sc.ramPressure && m >= sc.diskScore
    ensures m == sc.gpuPressure || m == sc.cpuPressure || m == sc.ramPressure || m == sc.diskScore
  {
    var a := if sc.gpuPressure >= sc.cpuPressure then sc.gpuPressure else sc.cpuPressure;
    var b := if a >= sc.ramPressure then a else sc.ramPressure;
    if b >= sc.diskScore then b else sc.diskScore
  }

  /** Total: one of exactly three pairs. UNDERPOWERED is decided first, by a
      low fit or any single pressure above 0.90; only then may high fit with
      high overprovision yield OVERPROVISIONED. */
  function ClassifyAndAction(sc: Scores): (r: (Classification, Action))
    ensures r == (Underpowered, Upsize) || r == (Overprovisioned, Downsize) || r == (RightSized, ExtendLife)
    ensures r.0 == Underpowered <==>
      sc.fit < 45.0 || sc.gpuPressure > 0.90 || sc.cpuPressure > 0.90 || sc.ramPressure > 0.90 || sc.diskScore > 0.90
    ensures r.0 == Overprovisioned <==> r.0 != Underpowered && sc.fit > 75.0 && sc.overprov > 65.0
  {
    var critical := Critical(sc);
    if sc.fit < 45.0 || critical > 0.90 then (Underpowered, Upsize)
    else if sc.fit > 75.0 && sc.overprov > 65.0 then (Overprovisioned, Downsize)
    else (RightSized, ExtendLife)
  }

  /** A summary produced by the scoring model for which both the
      underpowered test (CPU pressure 1) and the overprovisioned test
      (fit 80, overprovision 75) hold: the order of the two tests decides. */
  const PriorityWitness: SignalSummary :=
    SignalSummary(
      gpuUtilP95 := 0.0, vramUsedP95Pct := 0.0, cpuUtilP95 := 95.0, ramUsedP95 := 0.0,
      pagingPressureMinutes := 0.0, diskLatencyP95Ms := 0.0, diskBusyMinutes := 0.0,
      diskQueueP95 := 0.0, thermalThrottleEvents := 0, activeMinutes := 0.0,
      lightAppMixFactor := 1.0)

  lemma UnderpoweredTakesPriority()
    ensures var sc := ComputeScores(PriorityWitness);
      && sc.cpuPressure > 0.90
      && sc.fit > 75.0 && sc.overprov > 65.0
      && ClassifyAndAction(sc) == (Underpowered, Upsize)
  {
    SaturatedCpuOnly(PriorityWitness);
  }

  /** A summary idle everywhere but for a CPU at its ceiling. */
  lemma SaturatedCpuOnly(s: SignalSummary)
    requires s.gpuUtilP95 <= 40.0 && s.vramUsedP95Pct <= 50.0 && s.cpuUtilP95 >= 95.0
    requires s.ramUsedP95 <= 60.0 && s.pagingPressureMinutes <= 0.0
    requires s.diskLatencyP95Ms <= 10.0 && s.diskBusyMinutes <= 30.0 && s.diskQueueP95 <= 1.0
    requires s.thermalThrottleEvents <= 0 && s.activeMinutes <= 60.0 && s.lightAppMixFactor == 1.0
    ensures var sc := ComputeScores(s);
      sc.cpuPressure == 1.0 && sc.fit == 80.0 && sc.overprov == 75.0
  {
    assert GpuPressure(s) == 0.0 && RamPressure(s) == 0.0 && DiskScore(s) == 0.0;
    assert CpuPressure(s) == 1.0;
    assert Stress(s) == 0.2;
    assert RawOverprovision(s) == 75.0;
  }

  /** Readings all at or below their floors and an entirely light
      application mix give full fit and full overprovision, hence
      OVERPROVISIONED / DOWNSIZE. */
  lemma IdleSummaryIsOverprovisioned(s: SignalSummary)
    requires s.gpuUtilP95 <= 40.0 && s.vramUsedP95Pct <= 50.0 && s.cpuUtilP95 <= 40.0
    requires s.ramUsedP95 <= 60.0 && s.pagingPressureMinutes <= 0.0
    requires s.diskLatencyP95Ms <= 10.0 && s.diskBusyMinutes <= 30.0 && s.diskQueueP95 <= 1.0
    requires s.thermalThrottleEvents <= 0 && s.activeMinutes <= 60.0 && s.lightAppMixFactor == 1.0
    ensures var sc := ComputeScores(s);
      ClassifyAndAction(sc) == (Overprovisioned, Downsize) && sc.fit == 100.0 && sc.overprov == 100.0
  {
    var sc := ComputeScores(s);
    assert sc.gpuPressure == 0.0 by { assert GpuPressure(s) == 0.0; }
    assert sc.cpuPressure == 0.0 by { assert CpuPressure(s) == 0.0; }
    assert sc.ramPressure == 0.0 by { assert RamPressure(s) == 0.0; }
    assert sc.diskScore == 0.0 by { assert DiskScore(s) == 0.0; }
    assert sc.fit == 100.0 by {
      assert GpuPressure(s) == 0.0 && CpuPressure(s) == 0.0 && RamPressure(s) == 0.0 && DiskScore(s) == 0.0;
      assert Norm(s.thermalThrottleEvents as real, 0.0, 15.0) == 0.0;
    }
    assert sc.overprov == 100.0 by {
      assert GpuPressure(s) == 0.0 && CpuPressure(s) == 0.0 && RamPressure(s) == 0.0;
      assert Norm(s.activeMinutes, 60.0, 480.0) == 0.0;
    }
  }

  // ---------------------------------------------------------------------------
  // The scenarios of tests/test_scoring.py and tests/test_scoring_unittest.py

  lemma SaturatedSummaryIsUnderpowered()
    ensures ClassifyAndAction(ComputeScores(SignalSummary(
      gpuUtilP95 := 95.0, vramUsedP95Pct := 99.0, cpuUtilP95 := 92.0, ramUsedP95 := 97.0,
      pagingPressureMinutes := 240.0, diskLatencyP95Ms := 120.0, diskBusyMinutes := 420.0,
      diskQueueP95 := 7.0, thermalThrottleEvents := 8, activeMinutes := 600.0,
      lightAppMixFactor := 0.1))) == (Underpowered, Upsize)
  {
  }

  const LightSummary: SignalSummary :=
    SignalSummary(
      gpuUtilP95 := 15.0, vramUsedP95Pct := 10.0, cpuUtilP95 := 20.0, ramUsedP95 := 35.0,
      pagingPressureMinutes := 0.0, diskLatencyP95Ms := 3.0, diskBusyMinutes := 10.0,
      diskQueueP95 := 0.3, thermalThrottleEvents := 0, activeMinutes := 35.0,
      lightAppMixFactor := 1.0)

  lemma LightSummaryIsOverprovisioned()
    ensures var sc := ComputeScores(LightSummary);
      ClassifyAndAction(sc) == (Overprovisioned, Downsize) && sc.fit == 100.0 && sc.overprov == 100.0
  {
    IdleSummaryIsOverprovisioned(LightSummary);
  }

  lemma UnittestSummaryIsUnderpowered()
    ensures ClassifyAndAction(ComputeScores(SignalSummary(
      gpuUtilP95 := 98.0, vramUsedP95Pct := 99.0, cpuUtilP95 := 95.0, ramUsedP95 := 97.0,
      pagingPressureMinutes := 200.0, diskLatencyP95Ms := 100.0, diskBusyMinutes := 400.0,
      diskQueueP95 := 5.0, thermalThrottleEvents := 10, activeMinutes := 600.0,
      lightAppMixFactor := 0.1))) == (Underpowered, Upsize)
  {
  }
}
