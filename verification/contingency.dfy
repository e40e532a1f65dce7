/**
 * The N-1 contingency heuristic: when one line fails, every other line
 * that touches either of its buses takes a share of its flow in inverse
 * proportion to its reactance (floored at 0.01); each such line is then
 * re-rated against its static rating, classified four ways, counted, and
 * the results are sorted most-affected first.
 */
module Contingency {
  import opened Wrappers
  import opened RealMath
  import opened Ieee738
  import opened LoadModel
  import opened WeatherService
  import Grid
  import WeatherApi

  // ---------------------------------------------------------------------
  // Pre-outage state

  /** Load factor of the current hour; an hour missing from the profile
      counts as 1.0 here (not the predictor's 0.8). */
  function ContingencyLoadFactor(hour: int): (f: real)
    ensures 0 <= hour < 24 ==> f == HourlyFactors[hour]
    ensures !(0 <= hour < 24) ==> f == 1.0
    ensures 0.9 <= f <= 1.1
  {
    if 0 <= hour < 24 then
      HourFactorFromTable(hour, 1.0);
      HourFactor(hour, 1.0)
    else
      HourFactor(hour, 1.0)
  }

  /** Reactance assumed for a line the table gives none for. */
  const DefaultReactance: real := 1.0

  /** A line's pre-outage flow: its solved flow (0 when missing) scaled by
      the load factor. */
  function NominalFlow(line: Grid.GridLine, loadFactor: real): real {
    line.p0Nominal.GetOr(0.0) * loadFactor
  }

  /** One line before the outage. */
  datatype BaselineState = BaselineState(line: Grid.GridLine, baselineFlowMw: real, impedance: real)

  function BaselineStates(lines: seq<Grid.GridLine>, loadFactor: real): (states: seq<BaselineState>)
    ensures |states| == |lines|
    ensures forall i :: 0 <= i < |lines| ==> states[i].line == lines[i]
    ensures forall i :: 0 <= i < |lines| ==> states[i].baselineFlowMw == NominalFlow(lines[i], loadFactor)
    ensures forall i :: 0 <= i < |lines| ==> states[i].impedance == lines[i].reactance.GetOr(DefaultReactance)
  {
    seq(|lines|, i requires 0 <= i < |lines| =>
      BaselineState(lines[i], NominalFlow(lines[i], loadFactor), lines[i].reactance.GetOr(DefaultReactance)))
  }

  // ---------------------------------------------------------------------
  // Affected lines

  /** The line has an end at either end of the failed line. */
  predicate SharesBus(s: BaselineState, failed: Grid.GridLine) {
    || s.line.bus0 == failed.bus0 || s.line.bus0 == failed.bus1
    || s.line.bus1 == failed.bus0 || s.line.bus1 == failed.bus1
  }

  /** Lines other than the failed one (by name) sharing a bus with it, in
      table order. */
  function AffectedLines(states: seq<BaselineState>, failed: Grid.GridLine): (affected: seq<BaselineState>)
    ensures forall s :: s in affected <==> s in states && s.line.name != failed.name && SharesBus(s, failed)
    ensures |affected| <= |states|
  {
    if |states| == 0 then []
    else
      var rest := AffectedLines(states[1..], failed);
      if states[0].line.name != failed.name && SharesBus(states[0], failed) then [states[0]] + rest else rest
  }

  // ---------------------------------------------------------------------
  // Redistribution

  /** Reactances below this are treated as this. */
  const MinImpedance: real := 0.01
  /** Baselines below this are treated as this when computing the relative
      flow increase. */
  const MinBaselineForPct: real := 0.1

  function Conductance(s: BaselineState): (g: real)
    ensures 0.0 < g <= 100.0
  {
    var x := Max(s.impedance, MinImpedance);
    assert 1.0 / x <= 1.0 / MinImpedance;
    1.0 / x
  }

  function TotalConductance(xs: seq<BaselineState>): (total: real)
    ensures total >= 0.0
    ensures |xs| > 0 ==> total > 0.0
  {
    if |xs| == 0 then 0.0 else Conductance(xs[0]) + TotalConductance(xs[1..])
  }

  /** One affected line with its share of the failed flow added. */
  datatype Redistributed = Redistributed(
    state: BaselineState,
    contingencyFlowMw: real,
    flowIncreaseMw: real,
    flowIncreasePct: real
  )

  /** The share of `failedFlow` a line takes: its conductance over the
      total. */
  function Share(s: BaselineState, total: real, failedFlow: real): real
    requires total > 0.0
  {
    failedFlow * (Conductance(s) / total)
  }

  function RedistributeOne(s: BaselineState, total: real, failedFlow: real): (r: Redistributed)
    requires total > 0.0
    ensures r.state == s && r.flowIncreaseMw == Share(s, total, failedFlow)
    ensures r.contingencyFlowMw == s.baselineFlowMw + r.flowIncreaseMw
    ensures r.flowIncreasePct * Max(s.baselineFlowMw, MinBaselineForPct) == r.flowIncreaseMw * 100.0
  {
    var add := Share(s, total, failedFlow);
    Redistributed(s, s.baselineFlowMw + add, add, add / Max(s.baselineFlowMw, MinBaselineForPct) * 100.0)
  }

  function RedistributeWith(xs: seq<BaselineState>, total: real, failedFlow: real): (rs: seq<Redistributed>)
    requires total > 0.0
    ensures |rs| == |xs|
    ensures forall i :: 0 <= i < |xs| ==> rs[i] == RedistributeOne(xs[i], total, failedFlow)
  {
    if |xs| == 0 then [] else [RedistributeOne(xs[0], total, failedFlow)] + RedistributeWith(xs[1..], total, failedFlow)
  }

  /** Splits the failed flow over the affected lines; nothing to split
      over, nothing redistributed. */
  function Redistribute(affected: seq<BaselineState>, failedFlow: real): (rs: seq<Redistributed>)
    ensures |rs| == |affected|
    ensures forall i :: 0 <= i < |rs| ==> rs[i].state == affected[i]
    ensures forall i :: 0 <= i < |rs| ==> rs[i].contingencyFlowMw == affected[i].baselineFlowMw + rs[i].flowIncreaseMw
  {
    if |affected| == 0 then [] else RedistributeWith(affected, TotalConductance(affected), failedFlow)
  }

  function TotalIncrease(rs: seq<Redistributed>): real {
    if |rs| == 0 then 0.0 else rs[0].flowIncreaseMw + TotalIncrease(rs[1..])
  }

  /** The added flows sum to the failed flow times the lines' part of the
      total conductance. */
  lemma SharesAddUp(xs: seq<BaselineState>, total: real, failedFlow: real)
    requires total > 0.0
    ensures TotalIncrease(RedistributeWith(xs, total, failedFlow)) == failedFlow * (TotalConductance(xs) / total)
  {
    IncreasesAreShares(xs, total, failedFlow);
    ShareSumIsPortion(xs, total, failedFlow);
  }

  /** The sum of the lines' shares. */
  function ShareSum(xs: seq<BaselineState>, total: real, failedFlow: real): real
    requires total > 0.0
  {
    if |xs| == 0 then 0.0 else Share(xs[0], total, failedFlow) + ShareSum(xs[1..], total, failedFlow)
  }

  lemma {:induction false} IncreasesAreShares(xs: seq<BaselineState>, total: real, failedFlow: real)
    requires total > 0.0
    ensures TotalIncrease(RedistributeWith(xs, total, failedFlow)) == ShareSum(xs, total, failedFlow)
    decreases |xs|
  {
    if |xs| > 0 {
      RedistributeWithCons(xs, total, failedFlow);
      IncreasesAreShares(xs[1..], total, failedFlow);
    }
  }

  lemma {:induction false} ShareSumIsPortion(xs: seq<BaselineState>, total: real, failedFlow: real)
    requires total > 0.0
    ensures ShareSum(xs, total, failedFlow) == failedFlow * (TotalConductance(xs) / total)
    decreases |xs|
  {
    if |xs| > 0 {
      ShareSumIsPortion(xs[1..], total, failedFlow);
      ShareStep(ShareSum(xs, total, failedFlow), Share(xs[0], total, failedFlow),
                ShareSum(xs[1..], total, failedFlow), failedFlow,
                Conductance(xs[0]), TotalConductance(xs[1..]), TotalConductance(xs), total);
    } else {
      assert TotalConductance(xs) == 0.0;
    }
  }

  /** The first line's share plus the shares of the rest. */
  lemma RedistributeWithCons(xs: seq<BaselineState>, total: real, failedFlow: real)
    requires |xs| > 0 && total > 0.0
    ensures TotalIncrease(RedistributeWith(xs, total, failedFlow))
         == Share(xs[0], total, failedFlow) + TotalIncrease(RedistributeWith(xs[1..], total, failedFlow))
  {
    TotalIncreaseCons(RedistributeOne(xs[0], total, failedFlow), RedistributeWith(xs[1..], total, failedFlow));
  }

  lemma TotalIncreaseCons(r: Redistributed, rs: seq<Redistributed>)
    ensures TotalIncrease([r] + rs) == r.flowIncreaseMw + TotalIncrease(rs)
  {
    assert ([r] + rs)[1..] == rs;
  }

  /** One induction step of SharesAddUp, over plain numbers: the first
      share plus the shares of the rest is the share of their sum. */
  lemma ShareStep(sum: real, first: real, rest: real, f: real, a: real, b: real, ab: real, total: real)
    requires total != 0.0 && sum == first + rest && ab == a + b
    requires first == f * (a / total) && rest == f * (b / total)
    ensures sum == f * (ab / total)
  {
    DistributeShare(f, a, b, ab, total);
  }

  lemma DistributeShare(f: real, a: real, b: real, sum: real, total: real)
    requires sum == a + b && total != 0.0
    ensures f * (a / total) + f * (b / total) == f * (sum / total)
  {
    assert a / total + b / total == sum / total;
  }

  /** Conservation: over a non-empty affected set the added flows sum to
      exactly the failed flow. */
  lemma RedistributionConservesFlow(affected: seq<BaselineState>, failedFlow: real)
    requires |affected| > 0
    ensures TotalIncrease(Redistribute(affected, failedFlow)) == failedFlow
  {
    var total := TotalConductance(affected);
    SharesAddUp(affected, total, failedFlow);
    assert total / total == 1.0;
  }

  /** Each line's redistribution factor is positive and at most one, and the
      factors sum to one (the flows redistributed from a 1 MW outage). */
  lemma RedistributionFactors(affected: seq<BaselineState>, i: int)
    requires 0 <= i < |affected|
    ensures 0.0 < Conductance(affected[i]) / TotalConductance(affected) <= 1.0
    ensures TotalIncrease(Redistribute(affected, 1.0)) == 1.0
  {
    ConductanceWithinTotal(affected, i);
    QuotientWithinUnit(Conductance(affected[i]), TotalConductance(affected));
    RedistributionConservesFlow(affected, 1.0);
  }

  lemma QuotientWithinUnit(a: real, b: real)
    requires 0.0 < a <= b
    ensures 0.0 < a / b <= 1.0
  {
    QuotientPositive(a, b);
    ScaleMonotone(a, b, 1.0 / b);
    assert b * (1.0 / b) == 1.0;
  }

  lemma {:induction false} ConductanceWithinTotal(xs: seq<BaselineState>, i: int)
    requires 0 <= i < |xs|
    ensures Conductance(xs[i]) <= TotalConductance(xs)
    decreases |xs|
  {
    if i > 0 {
      assert xs[1..][i - 1] == xs[i];
      ConductanceWithinTotal(xs[1..], i - 1);
    }
  }

  /** A non-negative failed flow never lowers any affected line's flow. */
  lemma RedistributionAddsFlow(affected: seq<BaselineState>, failedFlow: real, i: int)
    requires 0.0 <= failedFlow && 0 <= i < |affected|
    ensures Redistribute(affected, failedFlow)[i].contingencyFlowMw >= affected[i].baselineFlowMw
  {
    var total := TotalConductance(affected);
    QuotientPositive(Conductance(affected[i]), total);
    ProductNonNegative(failedFlow, Conductance(affected[i]) / total);
  }

  // ---------------------------------------------------------------------
  // Classification

  /** Contingency severity: the three statuses plus Overload at 100 %. */
  datatype Severity = Normal | Warning | Critical | Overload

  function Classify(utilizationPct: real): (s: Severity)
    ensures s == Overload <==> utilizationPct >= 100.0
    ensures s == Critical <==> 95.0 <= utilizationPct < 100.0
    ensures s == Warning <==> 80.0 <= utilizationPct < 95.0
    ensures s == Normal <==> utilizationPct < 80.0
  {
    if utilizationPct >= 100.0 then Overload
    else if utilizationPct >= 95.0 then Critical
    else if utilizationPct >= 80.0 then Warning
    else Normal
  }

  /** Below 100 % the contingency classification is the service's ordinary
      status; from 100 % the ordinary Critical is split off as Overload. */
  lemma ClassifyRefinesStatus(utilizationPct: real)
    ensures utilizationPct < 100.0 ==>
              (Classify(utilizationPct) == Normal <==> WeatherApi.DetermineStatus(utilizationPct) == Grid.Normal)
              && (Classify(utilizationPct) == Warning <==> WeatherApi.DetermineStatus(utilizationPct) == Grid.Warning)
              && (Classify(utilizationPct) == Critical <==> WeatherApi.DetermineStatus(utilizationPct) == Grid.Critical)
    ensures utilizationPct >= 100.0 ==>
              Classify(utilizationPct) == Overload && WeatherApi.DetermineStatus(utilizationPct) == Grid.Critical
  {
  }

  // ---------------------------------------------------------------------
  // Per-line evaluation

  /** The fixed conditions the contingency rating assumes besides the
      weather's temperature and wind. */
  const ContingencySolarAltitude: real := 45.0
  const ContingencyWindAngleDeg: real := 90.0
  const ContingencyEmissivity: real := 0.5
  const ContingencyAbsorptivity: real := 0.5

  /** One row of the contingency table. */
  datatype LineResult = LineResult(
    lineId: string,
    lineName: string,
    conductor: string,
    baselineFlowMw: real,
    contingencyFlowMw: real,
    flowIncreaseMw: real,
    flowIncreasePct: real,
    staticRatingMva: real,
    ampacityMva: real,
    baselineUtilizationPct: real,
    contingencyUtilizationPct: real,
    utilizationIncreasePct: real,
    severity: Severity
  )

  /** The line's thermal rating can be computed: the film temperature at its
      maximum operating temperature is above absolute zero. */
  predicate Ratable(r: Redistributed, weather: WeatherData) {
    FilmTemperatureK(r.state.line.maxOperatingTempC, weather.temperatureC) > 0.0
  }

  /** The line's dynamic ampacity, amperes, under the contingency
      conditions. */
  function ContingencyAmpacityA(line: Grid.GridLine, weather: WeatherData, t: Transcendentals): real
    requires Valid(t) && FilmTemperatureK(line.maxOperatingTempC, weather.temperatureC) > 0.0
  {
    var c := WeatherApi.LineCalculator(line, ContingencyEmissivity, ContingencyAbsorptivity);
    CalculateAmpacityDetailed(c, weather.temperatureC, weather.windSpeedMs, line.maxOperatingTempC,
                              ContingencySolarAltitude, ContingencyWindAngleDeg, t).ampacity
  }

  /** An ampacity in MVA, with the factors in the order the contingency
      analysis writes them. */
  function ContingencyMva(ampacityA: real, voltageKv: real, sqrt3: real): real {
    (ampacityA * voltageKv * sqrt3) / 1000.0
  }

  /** The contingency ampacity is the conductor's usual ampacity at 45 degree
      sun and perpendicular wind. */
  lemma ContingencyAmpacityIsUsualAmpacity(line: Grid.GridLine, weather: WeatherData, t: Transcendentals)
    requires Valid(t) && FilmTemperatureK(line.maxOperatingTempC, weather.temperatureC) > 0.0
    ensures var c := WeatherApi.LineCalculator(line, ContingencyEmissivity, ContingencyAbsorptivity);
            ContingencyAmpacityA(line, weather, t)
            == CalculateAmpacity(c, weather.temperatureC, weather.windSpeedMs, line.maxOperatingTempC,
                                 ContingencySolarAltitude, ContingencyWindAngleDeg, t)
  {
    var c := WeatherApi.LineCalculator(line, ContingencyEmissivity, ContingencyAbsorptivity);
    DetailedAgreesWithAmpacity(c, weather.temperatureC, weather.windSpeedMs, line.maxOperatingTempC,
                               ContingencySolarAltitude, ContingencyWindAngleDeg, t);
  }

  /** For a line whose maximum operating temperature is 75 degC, under
      weather with 45 degree sun and perpendicular wind, the outage study
      rates the line exactly as the default rating request does. */
  lemma ContingencyAgreesWithDefaultRating(line: Grid.GridLine, weather: WeatherData, hour: int,
                                           predictor: LoadPredictor, t: Transcendentals)
    requires Valid(t) && FilmTemperatureK(75.0, weather.temperatureC) > 0.0
    requires line.maxOperatingTempC == 75.0
    requires weather.solarAltitude == 45.0 && weather.windAngleDeg == 90.0
    ensures ContingencyAmpacityA(line, weather, t)
         == WeatherApi.RateLineWithDefaults(line, weather, hour, predictor, t).ampacityA
  {
    ContingencyAmpacityIsUsualAmpacity(line, weather, t);
  }

  /** The contingency's factor order gives the service's usual
      current-to-MVA conversion. */
  lemma ContingencyMvaIsUsualConversion(ampacityA: real, voltageKv: real, t: Transcendentals)
    requires Valid(t)
    ensures ContingencyMva(ampacityA, voltageKv, t.sqrt3) == WeatherApi.CalculateMvaFromCurrent(ampacityA, voltageKv, t)
  {
    assert ampacityA * voltageKv * t.sqrt3 == t.sqrt3 * voltageKv * ampacityA;
  }

  /** The table row of a redistributed line, given its dynamic rating. */
  function LineResultOf(r: Redistributed, ampacityMva: real): (res: LineResult)
    ensures res.lineId == r.state.line.name && res.ampacityMva == ampacityMva
    ensures res.baselineFlowMw == r.state.baselineFlowMw
    ensures res.contingencyFlowMw == r.contingencyFlowMw
    ensures res.flowIncreaseMw == r.flowIncreaseMw
    ensures res.staticRatingMva == r.state.line.sNom
    ensures res.baselineUtilizationPct == WeatherApi.StaticUtilization(r.state.baselineFlowMw, r.state.line.sNom)
    ensures res.contingencyUtilizationPct == WeatherApi.StaticUtilization(r.contingencyFlowMw, r.state.line.sNom)
    ensures res.utilizationIncreasePct == res.contingencyUtilizationPct - res.baselineUtilizationPct
    ensures res.severity == Classify(res.contingencyUtilizationPct)
  {
    var line := r.state.line;
    var baseU := WeatherApi.StaticUtilization(r.state.baselineFlowMw, line.sNom);
    var contU := WeatherApi.StaticUtilization(r.contingencyFlowMw, line.sNom);
    LineResult(line.name, line.branchName, line.conductor, r.state.baselineFlowMw, r.contingencyFlowMw,
               r.flowIncreaseMw, r.flowIncreasePct, line.sNom, ampacityMva, baseU, contU,
               contU - baseU, Classify(contU))
  }

  /** Against a positive static rating, the rise in utilization is the
      added flow as a percentage of the rating. */
  lemma UtilizationIncreaseIsAddedFlow(r: Redistributed, ampacityMva: real)
    requires r.state.line.sNom > 0.0
    requires r.contingencyFlowMw == r.state.baselineFlowMw + r.flowIncreaseMw
    ensures LineResultOf(r, ampacityMva).utilizationIncreasePct * r.state.line.sNom == r.flowIncreaseMw * 100.0
  {
    var res := LineResultOf(r, ampacityMva);
    DifferenceOfShares(res.baselineUtilizationPct, res.contingencyUtilizationPct, r.state.line.sNom,
                       r.state.baselineFlowMw, r.flowIncreaseMw);
  }

  lemma DifferenceOfShares(u1: real, u2: real, s: real, base: real, add: real)
    requires u1 * s == base * 100.0 && u2 * s == (base + add) * 100.0
    ensures (u2 - u1) * s == add * 100.0
  {
    assert (u2 - u1) * s == u2 * s - u1 * s;
  }

  /** Re-rates one affected line; `None` when the film temperature at its
      MOT is not above absolute zero, in which case the line is left out of
      the results. */
  function EvaluateLine(r: Redistributed, weather: WeatherData, t: Transcendentals): (res: Option<LineResult>)
    requires Valid(t)
    ensures res.None? <==> !Ratable(r, weather)
    ensures res.Some? ==> res.value == LineResultOf(r, ContingencyMva(ContingencyAmpacityA(r.state.line, weather, t), r.state.line.voltageKv, t.sqrt3))
  {
    if !Ratable(r, weather) then None
    else Some(LineResultOf(r, ContingencyMva(ContingencyAmpacityA(r.state.line, weather, t), r.state.line.voltageKv, t.sqrt3)))
  }

  /** The outcome of re-rating each line, position by position. */
  function Evaluations(rs: seq<Redistributed>, weather: WeatherData, t: Transcendentals): (es: seq<Option<LineResult>>)
    requires Valid(t)
    ensures |es| == |rs|
    ensures forall i :: 0 <= i < |rs| ==> es[i] == EvaluateLine(rs[i], weather, t)
  {
    seq(|rs|, i requires 0 <= i < |rs| => EvaluateLine(rs[i], weather, t))
  }

  /** Evaluates the lines in order, leaving out those that cannot be rated:
      the results are exactly the rows of the ratable lines. */
  function EvaluateAll(rs: seq<Redistributed>, weather: WeatherData, t: Transcendentals): (results: seq<LineResult>)
    requires Valid(t)
    ensures |results| <= |rs|
    ensures (forall i :: 0 <= i < |rs| ==> Ratable(rs[i], weather)) ==> |results| == |rs|
    ensures forall res :: res in results <==> exists i :: 0 <= i < |rs| && EvaluateLine(rs[i], weather, t) == Some(res)
    ensures forall k :: 0 <= k < |results| ==> results[k].severity == Classify(results[k].contingencyUtilizationPct)
  {
    var es := Evaluations(rs, weather, t);
    AllRatableAllRated(rs, weather, t);
    SomesMembers(es);
    RowsClassified(rs, weather, t, Somes(es));
    Somes(es)
  }

  /** When every line can be rated, every evaluation yields a row. */
  lemma AllRatableAllRated(rs: seq<Redistributed>, weather: WeatherData, t: Transcendentals)
    requires Valid(t)
    ensures (forall i :: 0 <= i < |rs| ==> Ratable(rs[i], weather))
            ==> forall i :: 0 <= i < |rs| ==> Evaluations(rs, weather, t)[i].Some?
  {
  }

  /** Rows drawn from ratable lines carry the severity of their
      contingency utilization. */
  lemma RowsClassified(rs: seq<Redistributed>, weather: WeatherData, t: Transcendentals, results: seq<LineResult>)
    requires Valid(t)
    requires forall res :: res in results ==> exists i :: 0 <= i < |rs| && EvaluateLine(rs[i], weather, t) == Some(res)
    ensures forall k :: 0 <= k < |results| ==> results[k].severity == Classify(results[k].contingencyUtilizationPct)
  {
    forall k | 0 <= k < |results|
      ensures results[k].severity == Classify(results[k].contingencyUtilizationPct)
    {
      assert results[k] in results;
      var i :| 0 <= i < |rs| && EvaluateLine(rs[i], weather, t) == Some(results[k]);
    }
  }

  // ---------------------------------------------------------------------
  // Counting

  function CountSeverity(results: seq<LineResult>, s: Severity): (n: nat)
    ensures n <= |results|
    decreases |results|
  {
    if |results| == 0 then 0
    else CountSeverity(results[..|results| - 1], s) + (if results[|results| - 1].severity == s then 1 else 0)
  }

  /** Every result is counted under exactly one severity. */
  lemma {:induction false} SeveritiesPartition(results: seq<LineResult>)
    ensures CountSeverity(results, Overload) + CountSeverity(results, Critical)
            + CountSeverity(results, Warning) + CountSeverity(results, Normal) == |results|
    decreases |results|
  {
    if |results| > 0 {
      SeveritiesPartition(results[..|results| - 1]);
    }
  }

  lemma {:induction false} CountSeverityAppend(a: seq<LineResult>, b: seq<LineResult>, s: Severity)
    ensures CountSeverity(a + b, s) == CountSeverity(a, s) + CountSeverity(b, s)
    decreases |b|
  {
    if |b| == 0 {
      assert a + b == a;
    } else {
      assert (a + b)[..|a + b| - 1] == a + b[..|b| - 1];
      CountSeverityAppend(a, b[..|b| - 1], s);
    }
  }

  lemma CountSeverityStep(results: seq<LineResult>, res: LineResult, s: Severity)
    ensures CountSeverity(results + [res], s) == CountSeverity(results, s) + (if res.severity == s then 1 else 0)
  {
    assert (results + [res])[..|results|] == results;
  }

  /** Tallies the overloaded, critical and warning results in one pass,
      as the analysis does while it evaluates the lines. */
  method CountSeverities(results: seq<LineResult>) returns (overloaded: nat, critical: nat, warning: nat)
    ensures overloaded == CountSeverity(results, Overload)
    ensures critical == CountSeverity(results, Critical)
    ensures warning == CountSeverity(results, Warning)
    ensures overloaded + critical + warning + CountSeverity(results, Normal) == |results|
  {
    overloaded, critical, warning := 0, 0, 0;
    var i := 0;
    while i < |results|
      invariant 0 <= i <= |results|
      invariant overloaded == CountSeverity(results[..i], Overload)
      invariant critical == CountSeverity(results[..i], Critical)
      invariant warning == CountSeverity(results[..i], Warning)
    {
      var res := results[i];
      assert results[..i + 1] == results[..i] + [res];
      CountSeverityStep(results[..i], res, Overload);
      CountSeverityStep(results[..i], res, Critical);
      CountSeverityStep(results[..i], res, Warning);
      if res.severity == Overload {
        overloaded := overloaded + 1;
      } else if res.severity == Critical {
        critical := critical + 1;
      } else if res.severity == Warning {
        warning := warning + 1;
      }
      i := i + 1;
    }
    assert results[..|results|] == results;
    SeveritiesPartition(results);
  }

  // ---------------------------------------------------------------------
  // Sorting

  /** Non-increasing in the rise of utilization. */
  predicate SortedByIncrease(xs: seq<LineResult>) {
    forall i, j :: 0 <= i < j < |xs| ==> xs[i].utilizationIncreasePct >= xs[j].utilizationIncreasePct
  }

  /** Inserts `x` before the first entry whose rise does not exceed its
      own, so that among equal rises the earlier entry stays first. */
  function InsertByIncrease(x: LineResult, xs: seq<LineResult>): (r: seq<LineResult>)
    ensures multiset(r) == multiset(xs) + multiset{x}
    ensures |r| == |xs| + 1
    decreases |xs|
  {
    if |xs| == 0 then [x]
    else if xs[0].utilizationIncreasePct <= x.utilizationIncreasePct then [x] + xs
    else
      assert xs == [xs[0]] + xs[1..];
      [xs[0]] + InsertByIncrease(x, xs[1..])
  }

  /** Inserting into a sorted list keeps it sorted. */
  lemma {:induction false} InsertKeepsSorted(x: LineResult, xs: seq<LineResult>)
    requires SortedByIncrease(xs)
    ensures SortedByIncrease(InsertByIncrease(x, xs))
    decreases |xs|
  {
    if |xs| > 0 && xs[0].utilizationIncreasePct > x.utilizationIncreasePct {
      var rest := InsertByIncrease(x, xs[1..]);
      InsertKeepsSorted(x, xs[1..]);
      forall k | 0 <= k < |rest| ensures xs[0].utilizationIncreasePct >= rest[k].utilizationIncreasePct {
        assert rest[k] in multiset(rest);
        assert rest[k] in multiset(xs[1..]) + multiset{x};
        if rest[k] != x {
          assert rest[k] in xs[1..];
        }
      }
    }
  }

  /** Results most-affected first. */
  function SortByIncrease(xs: seq<LineResult>): (r: seq<LineResult>)
    ensures SortedByIncrease(r)
    ensures multiset(r) == multiset(xs)
    ensures |r| == |xs|
    decreases |xs|
  {
    if |xs| == 0 then []
    else
      assert xs == [xs[0]] + xs[1..];
      InsertKeepsSorted(xs[0], SortByIncrease(xs[1..]));
      InsertByIncrease(xs[0], SortByIncrease(xs[1..]))
  }

  /** The results whose rise is exactly `v`, in their order in `xs`. */
  function WithIncrease(xs: seq<LineResult>, v: real): (r: seq<LineResult>)
    ensures |r| <= |xs|
    decreases |xs|
  {
    if |xs| == 0 then []
    else (if xs[0].utilizationIncreasePct == v then [xs[0]] else []) + WithIncrease(xs[1..], v)
  }

  lemma WithIncreaseCons(a: LineResult, ys: seq<LineResult>, v: real)
    ensures WithIncrease([a] + ys, v) == (if a.utilizationIncreasePct == v then [a] else []) + WithIncrease(ys, v)
  {
    assert ([a] + ys)[1..] == ys;
  }

  /** Inserting `x` puts it in front of every result with its own rise. */
  lemma {:induction false} InsertKeepsTies(x: LineResult, ys: seq<LineResult>, v: real)
    ensures WithIncrease(InsertByIncrease(x, ys), v)
         == (if x.utilizationIncreasePct == v then [x] else []) + WithIncrease(ys, v)
    decreases |ys|
  {
    if |ys| == 0 {
      WithIncreaseCons(x, [], v);
    } else if ys[0].utilizationIncreasePct <= x.utilizationIncreasePct {
      WithIncreaseCons(x, ys, v);
    } else {
      var rest := InsertByIncrease(x, ys[1..]);
      assert InsertByIncrease(x, ys) == [ys[0]] + rest;
      InsertKeepsTies(x, ys[1..], v);
      WithIncreaseCons(ys[0], rest, v);
      assert ys == [ys[0]] + ys[1..];
      WithIncreaseCons(ys[0], ys[1..], v);
      // ys[0] rises more than x, so at most one of them has rise v.
      if x.utilizationIncreasePct == v {
        assert WithIncrease(ys, v) == WithIncrease(ys[1..], v);
      } else {
        assert WithIncrease(rest, v) == WithIncrease(ys[1..], v);
      }
    }
  }

  /** The sort is stable, as Python's is: results with the same rise keep
      the order they had in the table. */
  lemma {:induction false} SortIsStable(xs: seq<LineResult>, v: real)
    ensures WithIncrease(SortByIncrease(xs), v) == WithIncrease(xs, v)
    decreases |xs|
  {
    if |xs| > 0 {
      SortIsStable(xs[1..], v);
      InsertKeepsTies(xs[0], SortByIncrease(xs[1..]), v);
      WithIncreaseCons(xs[0], xs[1..], v);
      assert xs == [xs[0]] + xs[1..];
    }
  }

  lemma {:induction false} InsertKeepsCounts(x: LineResult, xs: seq<LineResult>, s: Severity)
    ensures CountSeverity(InsertByIncrease(x, xs), s) == CountSeverity(xs, s) + CountSeverity([x], s)
    decreases |xs|
  {
    if |xs| == 0 {
    } else if xs[0].utilizationIncreasePct <= x.utilizationIncreasePct {
      CountSeverityAppend([x], xs, s);
    } else {
      InsertKeepsCounts(x, xs[1..], s);
      CountSeverityAppend([xs[0]], InsertByIncrease(x, xs[1..]), s);
      CountSeverityAppend([xs[0]], xs[1..], s);
      assert xs == [xs[0]] + xs[1..];
    }
  }

  /** Sorting does not change how many results have each severity. */
  lemma {:induction false} SortKeepsCounts(xs: seq<LineResult>, s: Severity)
    ensures CountSeverity(SortByIncrease(xs), s) == CountSeverity(xs, s)
    decreases |xs|
  {
    if |xs| > 0 {
      SortKeepsCounts(xs[1..], s);
      InsertKeepsCounts(xs[0], SortByIncrease(xs[1..]), s);
      CountSeverityAppend([xs[0]], xs[1..], s);
      assert xs == [xs[0]] + xs[1..];
    }
  }

  // ---------------------------------------------------------------------
  // The analysis

  datatype FailedLine = FailedLine(lineId: string, lineName: string, flowMw: real, bus0: int, bus1: int)

  datatype Summary = Summary(
    totalAffectedLines: nat,
    overloadedLines: nat,
    criticalLines: nat,
    warningLines: nat,
    redistributedPowerMw: real
  )

  datatype Report = Report(
    failedLine: FailedLine,
    temperatureC: real,
    windSpeedMs: real,
    weatherSource: string,
    summary: Summary,
    affectedLines: seq<LineResult>
  )

  /** The affected lines of the outage of `failed` at the given hour, with
      the failed line's flow shared out among them. */
  function OutageRedistribution(lines: seq<Grid.GridLine>, failed: Grid.GridLine, hour: int): (rs: seq<Redistributed>)
    ensures |rs| == |AffectedLines(BaselineStates(lines, ContingencyLoadFactor(hour)), failed)|
  {
    var loadFactor := ContingencyLoadFactor(hour);
    Redistribute(AffectedLines(BaselineStates(lines, loadFactor), failed), NominalFlow(failed, loadFactor))
  }

  /** The evaluated (unsorted) results for the outage of `failed` at the
      given hour: one row for each affected line that can be rated, and no
      other rows. */
  function OutageResults(lines: seq<Grid.GridLine>, failed: Grid.GridLine, hour: int,
                         weather: WeatherData, t: Transcendentals): (results: seq<LineResult>)
    requires Valid(t)
    ensures |results| <= |AffectedLines(BaselineStates(lines, ContingencyLoadFactor(hour)), failed)|
    ensures var rs := OutageRedistribution(lines, failed, hour);
            forall res :: res in results <==> exists i :: 0 <= i < |rs| && EvaluateLine(rs[i], weather, t) == Some(res)
    ensures forall k :: 0 <= k < |results| ==> results[k].severity == Classify(results[k].contingencyUtilizationPct)
  {
    EvaluateAll(OutageRedistribution(lines, failed, hour), weather, t)
  }

  /** Simulates the outage of the line named `failedLineId` at hour of day
      `hour` under `weather`. */
  method N1ContingencyAnalysis(lines: seq<Grid.GridLine>, failedLineId: string, hour: int,
                               weather: WeatherData, t: Transcendentals) returns (r: Result<Report>)
    requires Valid(t)
    ensures r.Failure? <==> Grid.FindLine(lines, failedLineId).None?
    ensures r.Failure? ==> r.error == "Line " + failedLineId + " not found"
    ensures r.Success? ==>
              var failed := Grid.FindLine(lines, failedLineId).value;
              var rep := r.value;
              var results := OutageResults(lines, failed, hour, weather, t);
              && rep.affectedLines == SortByIncrease(results)
              && SortedByIncrease(rep.affectedLines)
              && multiset(rep.affectedLines) == multiset(results)
              && (forall v :: WithIncrease(rep.affectedLines, v) == WithIncrease(results, v))
              && rep.summary.totalAffectedLines == |rep.affectedLines|
              && rep.summary.overloadedLines == CountSeverity(rep.affectedLines, Overload)
              && rep.summary.criticalLines == CountSeverity(rep.affectedLines, Critical)
              && rep.summary.warningLines == CountSeverity(rep.affectedLines, Warning)
              && rep.summary.overloadedLines + rep.summary.criticalLines + rep.summary.warningLines
                 + CountSeverity(rep.affectedLines, Normal) == rep.summary.totalAffectedLines
              && rep.failedLine.flowMw == NominalFlow(failed, ContingencyLoadFactor(hour))
              && rep.summary.redistributedPowerMw == rep.failedLine.flowMw
              && rep.failedLine.lineId == failedLineId
              && rep.failedLine.lineName == failed.branchName
              && rep.failedLine.bus0 == failed.bus0 && rep.failedLine.bus1 == failed.bus1
              && rep.temperatureC == weather.temperatureC && rep.windSpeedMs == weather.windSpeedMs
              && rep.weatherSource == weather.source
    ensures r.Success? ==>
              var rs := OutageRedistribution(lines, Grid.FindLine(lines, failedLineId).value, hour);
              forall res :: res in r.value.affectedLines
                            <==> exists i :: 0 <= i < |rs| && EvaluateLine(rs[i], weather, t) == Some(res)
    ensures r.Success? ==>
              var failed := Grid.FindLine(lines, failedLineId).value;
              |AffectedLines(BaselineStates(lines, ContingencyLoadFactor(hour)), failed)| == 0 ==>
                r.value.affectedLines == [] && r.value.summary.totalAffectedLines == 0
                && r.value.summary.overloadedLines == 0 && r.value.summary.criticalLines == 0
                && r.value.summary.warningLines == 0
  {
    var found := Grid.FindLine(lines, failedLineId);
    if found.None? {
      return Failure("Line " + failedLineId + " not found");
    }
    var failed := found.value;
    var loadFactor := ContingencyLoadFactor(hour);
    var failedFlow := NominalFlow(failed, loadFactor);
    var results := EvaluateAll(OutageRedistribution(lines, failed, hour), weather, t);
    var overloaded, critical, warning := CountSeverities(results);
    var sorted := SortByIncrease(results);
    SortKeepsCounts(results, Overload);
    SortKeepsCounts(results, Critical);
    SortKeepsCounts(results, Warning);
    SortKeepsCounts(results, Normal);
    SeveritiesPartition(sorted);
    SameMembers(sorted, results);
    forall v ensures WithIncrease(sorted, v) == WithIncrease(results, v) {
      SortIsStable(results, v);
    }
    var summary := Summary(|sorted|, overloaded, critical, warning, failedFlow);
    r := Success(Report(FailedLine(failedLineId, failed.branchName, failedFlow, failed.bus0, failed.bus1),
                        weather.temperatureC, weather.windSpeedMs, weather.source, summary, sorted));
  }

  /** Two lists that are permutations of each other hold the same rows. */
  lemma SameMembers(a: seq<LineResult>, b: seq<LineResult>)
    requires multiset(a) == multiset(b)
    ensures forall x :: x in a <==> x in b
  {
    forall x ensures x in a <==> x in b {
      assert x in a <==> x in multiset(a);
      assert x in b <==> x in multiset(b);
    }
  }
}
