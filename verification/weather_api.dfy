/**
 * The pure arithmetic of the weather-enabled rating service: status
 * thresholds, the current-to-MVA conversion, the utilization figures with
 * their divide-by-zero guards, the rating of one line under given weather,
 * the baseline each line is loaded with, and the hour-by-hour solar
 * altitude of the 24-hour timelapse.
 */
module WeatherApi {
  import opened Wrappers
  import opened RealMath
  import opened Ieee738
  import opened LoadModel
  import opened WeatherService
  import opened Grid

  // ---------------------------------------------------------------------
  // Status and unit conversion

  /** Critical from 95 %, Warning from 80 %, Normal below. */
  function DetermineStatus(utilizationPct: real): (s: Status)
    ensures s == Critical <==> utilizationPct >= 95.0
    ensures s == Warning <==> 80.0 <= utilizationPct < 95.0
    ensures s == Normal <==> utilizationPct < 80.0
  {
    if utilizationPct >= 95.0 then Critical
    else if utilizationPct >= 80.0 then Warning
    else Normal
  }

  /** A higher utilization never gets a milder status. */
  lemma StatusMonotone(u1: real, u2: real)
    requires u1 <= u2
    ensures DetermineStatus(u1).Rank() <= DetermineStatus(u2).Rank()
  {
  }

  /** Three-phase apparent power (MVA) carried by `currentA` amperes at
      `voltageKv` kilovolts: sqrt 3 V I / 1000. */
  function CalculateMvaFromCurrent(currentA: real, voltageKv: real, t: Transcendentals): (mva: real)
    requires Valid(t)
    ensures currentA == 0.0 || voltageKv == 0.0 ==> mva == 0.0
    ensures 0.0 <= currentA && 0.0 <= voltageKv ==> 0.0 <= mva
    ensures mva * 1000.0 == t.sqrt3 * voltageKv * currentA
  {
    ProductNonNegativeIf(t.sqrt3 * voltageKv, currentA);
    (t.sqrt3 * voltageKv * currentA) / 1000.0
  }

  lemma ProductNonNegativeIf(a: real, b: real)
    ensures 0.0 <= a && 0.0 <= b ==> 0.0 <= a * b
  {
    if 0.0 <= a && 0.0 <= b {
      ProductNonNegative(a, b);
    }
  }

  /** The conversion is linear in the current and, at a positive voltage,
      strictly increasing in it. */
  lemma MvaLinearInCurrent(i1: real, i2: real, k: real, voltageKv: real, t: Transcendentals)
    requires Valid(t)
    ensures CalculateMvaFromCurrent(i1 + i2, voltageKv, t)
         == CalculateMvaFromCurrent(i1, voltageKv, t) + CalculateMvaFromCurrent(i2, voltageKv, t)
    ensures CalculateMvaFromCurrent(k * i1, voltageKv, t) == k * CalculateMvaFromCurrent(i1, voltageKv, t)
  {
    var a := t.sqrt3 * voltageKv;
    assert a * (i1 + i2) == a * i1 + a * i2;
    assert a * (k * i1) == k * (a * i1);
  }

  lemma MvaStrictlyIncreasingInCurrent(i1: real, i2: real, voltageKv: real, t: Transcendentals)
    requires Valid(t) && 0.0 < voltageKv && i1 < i2
    ensures CalculateMvaFromCurrent(i1, voltageKv, t) < CalculateMvaFromCurrent(i2, voltageKv, t)
  {
    var a := t.sqrt3 * voltageKv;
    ProductPositive(t.sqrt3, voltageKv);
    ProductPositive(a, i2 - i1);
    assert a * i2 - a * i1 == a * (i2 - i1);
  }

  /** Converting a predicted load to amperes and back to MVA gives the
      load's apparent power P / pf. */
  lemma MvaInvertsLineCurrent(powerMw: real, voltageKv: real, powerFactor: real, t: Transcendentals)
    requires Valid(t) && powerFactor != 0.0 && 0.0 < voltageKv
    ensures CalculateMvaFromCurrent(CalculateLineCurrent(powerMw, voltageKv, powerFactor, t), voltageKv, t)
         == powerMw / powerFactor
  {
    var i := CalculateLineCurrent(powerMw, voltageKv, powerFactor, t);
    var a := t.sqrt3 * voltageKv;
    ProductPositive(t.sqrt3, voltageKv);
    assert i * (a * 1000.0 * powerFactor) == powerMw * 1000000.0;
    CancelScaledCurrent(i, a, powerFactor, powerMw);
  }

  lemma CancelScaledCurrent(i: real, a: real, pf: real, p: real)
    requires a != 0.0 && pf != 0.0
    requires i * (a * 1000.0 * pf) == p * 1000000.0
    ensures (a * i) / 1000.0 == p / pf
  {
    assert (a * i) * pf * 1000.0 == p * 1000000.0;
    assert (a * i) * pf == p * 1000.0;
    assert (a * i) == p * 1000.0 / pf;
  }

  /** The predicted current of a line, converted back to MVA, is the
      predicted load's apparent power (load over power factor). */
  lemma PredictedCurrentGivesApparentPower(p: LoadPredictor, lineId: string, voltageKv: real, hour: int,
                                           powerFactor: real, w: Conditions, t: Transcendentals)
    requires Valid(t) && powerFactor != 0.0 && 0.0 < voltageKv
    ensures CalculateMvaFromCurrent(PredictLineCurrent(p, lineId, voltageKv, hour, powerFactor, w, t).predictedCurrentA,
                                    voltageKv, t)
         == PredictLoad(p, lineId, hour, w) / powerFactor
  {
    MvaInvertsLineCurrent(PredictLoad(p, lineId, hour, w), voltageKv, powerFactor, t);
  }

  // ---------------------------------------------------------------------
  // Utilization

  /** Predicted load as a percentage of the static rating; 0 without a
      positive rating. */
  function StaticUtilization(predictedLoadMw: real, staticRatingMva: real): (u: real)
    ensures staticRatingMva <= 0.0 ==> u == 0.0
    ensures staticRatingMva > 0.0 ==> u * staticRatingMva == predictedLoadMw * 100.0
  {
    if staticRatingMva > 0.0 then predictedLoadMw / staticRatingMva * 100.0 else 0.0
  }

  /** Predicted current as a percentage of the dynamic ampacity; 0 without
      a positive ampacity. */
  function DynamicUtilization(predictedCurrentA: real, ampacityA: real): (u: real)
    ensures ampacityA <= 0.0 ==> u == 0.0
    ensures ampacityA > 0.0 ==> u * ampacityA == predictedCurrentA * 100.0
  {
    if ampacityA > 0.0 then predictedCurrentA / ampacityA * 100.0 else 0.0
  }

  /** Head-room the dynamic rating gives over the static one, in percent of
      the static rating; 0 without a positive static rating. */
  function CapacityIncrease(ampacityMva: real, staticRatingMva: real): (pct: real)
    ensures staticRatingMva <= 0.0 ==> pct == 0.0
    ensures staticRatingMva > 0.0 ==> pct * staticRatingMva == (ampacityMva - staticRatingMva) * 100.0
  {
    if staticRatingMva > 0.0 then (ampacityMva - staticRatingMva) / staticRatingMva * 100.0 else 0.0
  }

  /** The increase is positive exactly when the dynamic rating beats a
      positive static rating. */
  lemma CapacityIncreaseSign(ampacityMva: real, staticRatingMva: real)
    requires staticRatingMva > 0.0
    ensures CapacityIncrease(ampacityMva, staticRatingMva) > 0.0 <==> ampacityMva > staticRatingMva
  {
    var d := ampacityMva - staticRatingMva;
    if d > 0.0 {
      QuotientPositive(d, staticRatingMva);
    } else if d < 0.0 {
      QuotientPositive(-d, staticRatingMva);
      assert d / staticRatingMva == -((-d) / staticRatingMva);
    }
  }

  /** Against a positive rating, the status depends only on the load's
      share of the rating: Critical from 95 % of it, Warning from 80 %. */
  lemma StatusByShareOfRating(predictedLoadMw: real, staticRatingMva: real)
    requires staticRatingMva > 0.0
    ensures DetermineStatus(StaticUtilization(predictedLoadMw, staticRatingMva)) == Critical
            <==> predictedLoadMw >= 0.95 * staticRatingMva
    ensures DetermineStatus(StaticUtilization(predictedLoadMw, staticRatingMva)) == Warning
            <==> 0.80 * staticRatingMva <= predictedLoadMw < 0.95 * staticRatingMva
  {
    var u := StaticUtilization(predictedLoadMw, staticRatingMva);
    ShareThreshold(u, staticRatingMva, predictedLoadMw, 95.0);
    ShareThreshold(u, staticRatingMva, predictedLoadMw, 80.0);
  }

  /** u r = 100 m with r > 0 puts u above a threshold exactly when m is
      above the same fraction of r. */
  lemma ShareThreshold(u: real, r: real, m: real, threshold: real)
    requires r > 0.0 && u * r == m * 100.0
    ensures u >= threshold <==> m >= threshold / 100.0 * r
  {
    if u >= threshold {
      ScaleMonotone(threshold, u, r);
    } else {
      ScaleStrictlyMonotone(u, threshold, r);
    }
  }

  /** No positive ampacity means no dynamic utilization, whatever the
      current. */
  lemma ZeroAmpacityHasZeroDynamicUtilization(predictedCurrentA: real, ampacityA: real)
    requires ampacityA <= 0.0
    ensures DetermineStatus(DynamicUtilization(predictedCurrentA, ampacityA)) == Normal
  {
  }

  // ---------------------------------------------------------------------
  // Rating one line under weather

  /** Everything the service reports about one line. */
  datatype LineRating = LineRating(
    lineId: string,
    lineName: string,
    conductor: string,
    voltageKv: real,
    weather: WeatherData,
    ampacityA: real,
    ampacityMva: real,
    staticRatingMva: real,
    predictedLoadMw: real,
    predictedCurrentA: real,
    utilizationPct: real,
    dynamicUtilizationPct: real,
    capacityIncreasePct: real,
    status: Status,
    balance: HeatBalance
  )

  /** Default maximum conductor temperature, emissivity and absorptivity of
      a weather rating request. */
  const DefaultMaxConductorTempC: real := 75.0
  const DefaultEmissivity: real := 0.5
  const DefaultAbsorptivity: real := 0.5

  /** The calculator for a line's conductor under the given surface
      coefficients. */
  function LineCalculator(line: GridLine, emissivity: real, absorptivity: real): (c: Conductor)
    ensures c.diameterM > 0.0
  {
    CalculatorFor(GetConductorParams(line.conductor), emissivity, absorptivity)
  }

  /** The load predictor's view of the weather: all four readings known. */
  function ConditionsOf(w: WeatherData): (c: Conditions)
    ensures c.temperatureC == Some(w.temperatureC) && c.windSpeedMs == Some(w.windSpeedMs)
    ensures c.solarAltitude == Some(w.solarAltitude) && c.humidityPct == Some(w.humidityPct)
  {
    Conditions(Some(w.temperatureC), Some(w.windSpeedMs), Some(w.solarAltitude), Some(w.humidityPct))
  }

  /** Rates `line` under `weather` at hour of day `hour`: the dynamic
      ampacity of its conductor, the weather-sensitive predicted load at
      the default power factor, and the utilization figures. The status
      follows the load's share of the static rating. */
  function RateLineWithWeather(line: GridLine, weather: WeatherData, hour: int, predictor: LoadPredictor,
                               tempConductorMaxC: real, emissivity: real, absorptivity: real,
                               t: Transcendentals): (r: LineRating)
    requires Valid(t)
    requires FilmTemperatureK(tempConductorMaxC, weather.temperatureC) > 0.0
    ensures var c := LineCalculator(line, emissivity, absorptivity);
            r.ampacityA == CalculateAmpacity(c, weather.temperatureC, weather.windSpeedMs, tempConductorMaxC,
                                             weather.solarAltitude, weather.windAngleDeg, t)
    ensures r.ampacityA >= 0.0 && r.predictedLoadMw >= 0.0 && r.predictedCurrentA >= 0.0
    ensures line.voltageKv >= 0.0 ==> r.ampacityMva >= 0.0
    ensures r.predictedLoadMw == PredictLoad(predictor, line.name, hour, ConditionsOf(weather))
    ensures r.staticRatingMva == line.sNom
    ensures r.predictedCurrentA == CalculateLineCurrent(r.predictedLoadMw, line.voltageKv, DefaultPowerFactor, t)
    ensures r.ampacityMva == CalculateMvaFromCurrent(r.ampacityA, line.voltageKv, t)
    ensures r.utilizationPct == StaticUtilization(r.predictedLoadMw, line.sNom)
    ensures r.dynamicUtilizationPct == DynamicUtilization(r.predictedCurrentA, r.ampacityA)
    ensures r.capacityIncreasePct == CapacityIncrease(r.ampacityMva, line.sNom)
    ensures r.status == DetermineStatus(r.utilizationPct)
    ensures line.sNom > 0.0 ==> (r.status == Critical <==> r.predictedLoadMw >= 0.95 * line.sNom)
    ensures line.sNom > 0.0 ==> (r.status == Warning <==> 0.80 * line.sNom <= r.predictedLoadMw < 0.95 * line.sNom)
    ensures line.sNom <= 0.0 ==> r.utilizationPct == 0.0 && r.status == Normal && r.capacityIncreasePct == 0.0
    ensures r.ampacityA <= 0.0 ==> r.dynamicUtilizationPct == 0.0
    ensures r.lineId == line.name && r.lineName == line.branchName && r.conductor == line.conductor
  {
    var c := LineCalculator(line, emissivity, absorptivity);
    var balance := CalculateAmpacityDetailed(c, weather.temperatureC, weather.windSpeedMs, tempConductorMaxC,
                                             weather.solarAltitude, weather.windAngleDeg, t);
    DetailedAgreesWithAmpacity(c, weather.temperatureC, weather.windSpeedMs, tempConductorMaxC,
                               weather.solarAltitude, weather.windAngleDeg, t);
    var ampacityMva := CalculateMvaFromCurrent(balance.ampacity, line.voltageKv, t);
    var predicted := PredictLineCurrent(predictor, line.name, line.voltageKv, hour, DefaultPowerFactor,
                                        ConditionsOf(weather), t);
    var utilization := StaticUtilization(predicted.predictedLoadMw, line.sNom);
    assert line.sNom > 0.0 ==>
             && (DetermineStatus(utilization) == Critical <==> predicted.predictedLoadMw >= 0.95 * line.sNom)
             && (DetermineStatus(utilization) == Warning
                 <==> 0.80 * line.sNom <= predicted.predictedLoadMw < 0.95 * line.sNom) by {
      if line.sNom > 0.0 { StatusByShareOfRating(predicted.predictedLoadMw, line.sNom); }
    }
    LineRating(line.name, line.branchName, line.conductor, line.voltageKv, weather,
               balance.ampacity, ampacityMva, line.sNom, predicted.predictedLoadMw, predicted.predictedCurrentA,
               utilization, DynamicUtilization(predicted.predictedCurrentA, balance.ampacity),
               CapacityIncrease(ampacityMva, line.sNom), DetermineStatus(utilization), balance)
  }

  /** A line rated the way the batch endpoints call the rating: 75 degC
      maximum conductor temperature and surface coefficients 0.5. */
  function RateLineWithDefaults(line: GridLine, weather: WeatherData, hour: int, predictor: LoadPredictor,
                                t: Transcendentals): (r: LineRating)
    requires Valid(t)
    requires FilmTemperatureK(75.0, weather.temperatureC) > 0.0
    ensures r.ampacityA == CalculateAmpacity(LineCalculator(line, 0.5, 0.5), weather.temperatureC,
                                             weather.windSpeedMs, 75.0, weather.solarAltitude,
                                             weather.windAngleDeg, t)
    ensures r.predictedLoadMw == PredictLoad(predictor, line.name, hour, ConditionsOf(weather))
    ensures r.status == DetermineStatus(StaticUtilization(r.predictedLoadMw, line.sNom))
  {
    RateLineWithWeather(line, weather, hour, predictor, DefaultMaxConductorTempC, DefaultEmissivity,
                        DefaultAbsorptivity, t)
  }

  // ---------------------------------------------------------------------
  // Baselines

  /** A line's baseline: its solved power flow when the table has one,
      otherwise 70 % of its static rating. */
  function WeatherBaseline(line: GridLine): (mw: real)
    ensures line.p0Nominal.Some? ==> mw == line.p0Nominal.value
    ensures line.p0Nominal.None? ==> mw == 0.7 * line.sNom
  {
    match line.p0Nominal
    case Some(p0) => p0
    case None => line.sNom * 0.7
  }

  /** The predictor the weather service starts with. */
  function LoadWeatherBaselines(lines: seq<GridLine>): (p: LoadPredictor)
    ensures p.baselineLoads.Keys == NamesOf(lines)
  {
    ApplyBaselines(LoadPredictor(map[]), lines, WeatherBaseline)
  }

  /** Each line's baseline is its solved flow, or 70 % of its rating when
      the flow is missing; names not in the table use the predictor's
      50 MW default. */
  lemma WeatherBaselinesLoaded(lines: seq<GridLine>, i: int, id: string)
    requires 0 <= i < |lines| && LastWithName(lines, i)
    ensures LoadWeatherBaselines(lines).Baseline(lines[i].name) == WeatherBaseline(lines[i])
    ensures (forall j :: 0 <= j < |lines| ==> lines[j].name != id)
            ==> LoadWeatherBaselines(lines).Baseline(id) == DefaultBaselineMw
  {
    ApplyBaselinesLastWins(LoadPredictor(map[]), lines, WeatherBaseline, i);
    if forall j :: 0 <= j < |lines| ==> lines[j].name != id {
      ApplyBaselinesUntouched(LoadPredictor(map[]), lines, WeatherBaseline, id);
    }
  }

  // ---------------------------------------------------------------------
  // Timelapse

  /** Solar altitude assumed for hour `hour` of the 24-hour timelapse:
      night before 06:00 and after 18:00, 75 degrees at noon, 10 degrees
      less per hour away from noon. */
  function TimelapseSolarAltitude(hour: int): (alt: real)
    ensures 0.0 <= alt <= 75.0
    ensures hour < 6 || hour > 18 ==> alt == 0.0
    ensures alt == 75.0 <==> hour == 12
  {
    if hour < 6 || hour > 18 then 0.0
    else if hour == 12 then 75.0
    else
      var hoursFromNoon := if 12 - hour < 0 then hour - 12 else 12 - hour;
      Max(0.0, 75.0 - (hoursFromNoon * 10) as real)
  }

  /** Daytime altitude falls linearly away from noon, symmetric about it,
      and the clamp at zero never engages within 06:00..18:00. */
  lemma TimelapseShape(hour: int)
    requires 6 <= hour <= 18
    ensures TimelapseSolarAltitude(hour) == 75.0 - 10.0 * (if hour < 12 then 12 - hour else hour - 12) as real
    ensures TimelapseSolarAltitude(hour) == TimelapseSolarAltitude(24 - hour)
    ensures TimelapseSolarAltitude(hour) >= 15.0
  {
  }

  /** Morning altitudes rise towards noon. */
  lemma TimelapseRisesUntilNoon(h1: int, h2: int)
    requires 6 <= h1 <= h2 <= 12
    ensures TimelapseSolarAltitude(h1) <= TimelapseSolarAltitude(h2)
  {
    TimelapseShape(h1);
    TimelapseShape(h2);
  }
}
