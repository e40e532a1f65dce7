/**
 * The rule-based load predictor: a per-line baseline (MW) scaled by a
 * fixed 24-hour load curve and by a multiplicative weather factor, the
 * three-phase MW-to-ampere conversion, and the even simpler seasonal
 * forecaster that returns a fixed fraction of a line's static rating.
 * Random variability is not part of the model (it is only ever switched
 * off by the callers modelled here).
 */
module LoadModel {
  import opened Wrappers
  import opened RealMath

  // ---------------------------------------------------------------------
  // Daily load curve

  /** Hour 0..23 -> load factor: 1 - 0.1 sin(2 pi h/24) rounded to three
      places, with its low of 0.9 at 06:00, 1.0 at midnight and noon, and
      its peak of 1.1 at 18:00. */
  const HourlyFactors: seq<real> := [
    1.0, 0.974, 0.95, 0.929, 0.913, 0.903,
    0.9, 0.903, 0.913, 0.929, 0.95, 0.974,
    1.0, 1.026, 1.05, 1.071, 1.087, 1.097,
    1.1, 1.097, 1.087, 1.071, 1.05, 1.026
  ]

  /** The profile as the predictor stores it: a map keyed by hour. */
  function DailyProfile(): (profile: map<int, real>)
    ensures forall h :: h in profile <==> 0 <= h < 24
    ensures forall h :: 0 <= h < 24 ==> 0.9 <= profile[h] <= 1.1
    ensures profile[6] == 0.9 && profile[18] == 1.1
    ensures forall h :: 0 <= h < 24 && h != 6 ==> profile[h] > 0.9
    ensures forall h :: 0 <= h < 24 && h != 18 ==> profile[h] < 1.1
  {
    HourlyFactorsRange();
    map h | 0 <= h < 24 :: HourlyFactors[h]
  }

  lemma HourlyFactorsRange()
    ensures |HourlyFactors| == 24
    ensures forall h :: 0 <= h < 24 ==> 0.9 <= HourlyFactors[h] <= 1.1
    ensures forall h :: 0 <= h < 24 && h != 6 ==> HourlyFactors[h] > 0.9
    ensures forall h :: 0 <= h < 24 && h != 18 ==> HourlyFactors[h] < 1.1
  {
  }

  /** The table keeps the documented sine shape: opposite hours of the day
      average to nominal, and the curve is mirror-symmetric about its
      morning low and its evening peak. */
  lemma ProfileFollowsSine(h: int)
    requires 0 <= h < 12
    ensures DailyProfile()[h] + DailyProfile()[h + 12] == 2.0
    ensures h <= 6 ==> DailyProfile()[6 - h] == DailyProfile()[6 + h]
    ensures h <= 5 ==> DailyProfile()[18 - h] == DailyProfile()[18 + h]
  {
  }

  /** `dict.get(hour, default)` on the profile. */
  function ProfileFactor(profile: map<int, real>, hour: int, default: real): real {
    if hour in profile then profile[hour] else default
  }

  /** The profile's factor for `hour`, or `default` for an hour it lacks. */
  function HourFactor(hour: int, default: real): (f: real)
    ensures 0 <= hour < 24 ==> 0.9 <= f <= 1.1
    ensures !(0 <= hour < 24) ==> f == default
  {
    ProfileFactor(DailyProfile(), hour, default)
  }

  /** Within the day the factor is the table's entry for the hour. */
  lemma HourFactorFromTable(hour: int, default: real)
    requires 0 <= hour < 24
    ensures HourFactor(hour, default) == HourlyFactors[hour]
  {
  }

  // ---------------------------------------------------------------------
  // Weather multiplier

  /** The optional weather readings the predictor is given. */
  datatype Conditions = Conditions(
    temperatureC: Option<real>,
    windSpeedMs: Option<real>,
    solarAltitude: Option<real>,
    humidityPct: Option<real>
  )

  const NoWeather: Conditions := Conditions(None, None, None, None)

  /** Comfort temperature above which cooling demand rises, degC. */
  const ComfortTemperatureC: real := 22.0
  /** Temperature below which heating demand rises, degC. */
  const HeatingThresholdC: real := 15.0
  /** Temperature below which wind adds heating demand, degC. */
  const WindChillThresholdC: real := 10.0

  /** 2.5 %/degC above 22 degC, 3.5 %/degC once more than 15 degC above it. */
  function CoolingFactor(temperatureC: real): real {
    var diff := temperatureC - ComfortTemperatureC;
    if diff > 15.0 then 1.0 + diff * 0.035 else 1.0 + diff * 0.025
  }

  /** 0.2 % per humidity point above 60 %. */
  function HumidityFactor(humidityPct: Option<real>): (f: real)
    ensures f >= 1.0
  {
    if humidityPct.Some? && humidityPct.value > 60.0 then 1.0 + (humidityPct.value - 60.0) * 0.002 else 1.0
  }

  /** Up to 10 % more at a solar altitude of 90 degrees (altitude / 180 * 0.1). */
  function SolarFactor(solarAltitude: Option<real>): (f: real)
    ensures f >= 1.0
  {
    if solarAltitude.Some? && solarAltitude.value > 0.0 then 1.0 + (solarAltitude.value / 180.0 * 0.10) else 1.0
  }

  /** 1.8 % per degree below 15 degC. */
  function HeatingFactor(temperatureC: real): real {
    1.0 + (HeatingThresholdC - temperatureC) * 0.018
  }

  /** 1 % per m/s of wind above 2 m/s when colder than 10 degC. */
  function WindChillFactor(windSpeedMs: Option<real>, temperatureC: real): (f: real)
    ensures f >= 1.0
  {
    if windSpeedMs.Some? && temperatureC < WindChillThresholdC && windSpeedMs.value > 2.0
    then 1.0 + windSpeedMs.value * 0.01
    else 1.0
  }

  /** Cooling demand, raised further by humidity and sunshine. */
  function HotWeatherFactor(temp: real, w: Conditions): (f: real)
    requires temp > ComfortTemperatureC
    ensures f > 1.0
  {
    ProductAtLeastOne(CoolingFactor(temp), HumidityFactor(w.humidityPct));
    ProductAtLeastOne(CoolingFactor(temp) * HumidityFactor(w.humidityPct), SolarFactor(w.solarAltitude));
    CoolingFactor(temp) * HumidityFactor(w.humidityPct) * SolarFactor(w.solarAltitude)
  }

  /** The multiplicative weather adjustment of the predicted load. The
      wind-chill term can only apply below 10 degC, so it is folded into
      the cold branch (see WeatherFactorMatchesSequential). */
  function WeatherFactor(w: Conditions): (f: real)
    ensures f >= 1.0
    ensures w.temperatureC.None? ==> f == 1.0
  {
    match w.temperatureC
    case None => 1.0
    case Some(temp) =>
      if temp > ComfortTemperatureC then HotWeatherFactor(temp, w)
      else if temp < HeatingThresholdC then
        ProductAtLeastOne(HeatingFactor(temp), WindChillFactor(w.windSpeedMs, temp));
        HeatingFactor(temp) * WindChillFactor(w.windSpeedMs, temp)
      else 1.0
  }

  /** Reference definition: the factor accumulated step by step the way the
      predictor multiplies it up, the wind-chill step applying after either
      seasonal branch. */
  function SequentialWeatherFactor(w: Conditions): real {
    if w.temperatureC.None? then 1.0
    else
      var temp := w.temperatureC.value;
      var f0 := 1.0;
      var f1 := if temp > ComfortTemperatureC then f0 * CoolingFactor(temp) else f0;
      var f2 := if temp > ComfortTemperatureC && w.humidityPct.Some? && w.humidityPct.value > 60.0
                then f1 * (1.0 + (w.humidityPct.value - 60.0) * 0.002) else f1;
      var f3 := if temp > ComfortTemperatureC && w.solarAltitude.Some? && w.solarAltitude.value > 0.0
                then f2 * (1.0 + w.solarAltitude.value / 180.0 * 0.10) else f2;
      var f4 := if !(temp > ComfortTemperatureC) && temp < HeatingThresholdC then f3 * HeatingFactor(temp) else f3;
      if w.windSpeedMs.Some? && temp < WindChillThresholdC && w.windSpeedMs.value > 2.0
      then f4 * (1.0 + w.windSpeedMs.value * 0.01)
      else f4
  }

  lemma WeatherFactorMatchesSequential(w: Conditions)
    ensures WeatherFactor(w) == SequentialWeatherFactor(w)
  {
  }

  /** The weather never lowers the load: the factor is at least one for
      every reading. */
  lemma WeatherFactorAtLeastOne(w: Conditions)
    ensures WeatherFactor(w) >= 1.0
  {
    WeatherFactorNeutralBand(w);
  }

  /** The factor is exactly one precisely when there is no temperature or
      it lies in the neutral band [15, 22] degC, and above one otherwise. */
  lemma WeatherFactorNeutralBand(w: Conditions)
    ensures WeatherFactor(w) == 1.0
            <==> w.temperatureC.None? || HeatingThresholdC <= w.temperatureC.value <= ComfortTemperatureC
    ensures WeatherFactor(w) != 1.0 ==> WeatherFactor(w) > 1.0
  {
    if w.temperatureC.Some? {
      var temp := w.temperatureC.value;
      if temp < HeatingThresholdC {
        ProductAtLeastOne(HeatingFactor(temp), WindChillFactor(w.windSpeedMs, temp));
      }
    }
  }

  /** The cooling rate steps up past 37 degC: at 37 degC the factor is
      1.375, and just above it already exceeds 1.525. */
  lemma CoolingHandOverAt37()
    ensures CoolingFactor(37.0) == 1.375
    ensures forall temp :: temp > 37.0 ==> CoolingFactor(temp) > 1.525
  {
  }

  /** Above the comfort point the cooling factor never decreases. */
  lemma CoolingFactorMonotone(t1: real, t2: real)
    requires ComfortTemperatureC < t1 <= t2
    ensures CoolingFactor(t1) <= CoolingFactor(t2)
  {
  }

  /** With humidity, solar altitude and wind fixed, the weather factor is
      non-decreasing in temperature above 22 degC. */
  lemma WeatherFactorMonotoneAboveComfort(w: Conditions, t1: real, t2: real)
    requires ComfortTemperatureC < t1 <= t2
    ensures WeatherFactor(w.(temperatureC := Some(t1))) <= WeatherFactor(w.(temperatureC := Some(t2)))
  {
    CoolingFactorMonotone(t1, t2);
    ThreeFactorMonotone(CoolingFactor(t1), CoolingFactor(t2), HumidityFactor(w.humidityPct), SolarFactor(w.solarAltitude));
    assert HotWeatherFactor(t1, w) <= HotWeatherFactor(t2, w);
  }

  lemma ThreeFactorMonotone(c1: real, c2: real, h: real, s: real)
    requires c1 <= c2 && 1.0 <= h && 1.0 <= s
    ensures c1 * h * s <= c2 * h * s
  {
    ProductAtLeastOne(h, s);
    ScaleMonotone(c1, c2, h * s);
    assert c1 * h * s == c1 * (h * s);
    assert c2 * h * s == c2 * (h * s);
  }

  // ---------------------------------------------------------------------
  // Load prediction

  /** Baseline used for a line the predictor has no baseline for, MW. */
  const DefaultBaselineMw: real := 50.0
  /** Load factor used for an hour missing from the profile. */
  const MissingHourFactor: real := 0.8

  /** The predictor's state: line id -> baseline load (MW). */
  datatype LoadPredictor = LoadPredictor(baselineLoads: map<string, real>) {

    function SetBaselineLoad(lineId: string, loadMw: real): (p: LoadPredictor)
      ensures p.baselineLoads.Keys == baselineLoads.Keys + {lineId}
      ensures p.Baseline(lineId) == loadMw
      ensures forall other :: other != lineId ==> p.Baseline(other) == Baseline(other)
    {
      LoadPredictor(baselineLoads[lineId := loadMw])
    }

    function Baseline(lineId: string): real {
      if lineId in baselineLoads then baselineLoads[lineId] else DefaultBaselineMw
    }
  }

  /** Predicted load of a line in MW for the hour of day `hour` (the
      timestamp's hour), with variability switched off; clamped at zero. */
  function PredictLoad(p: LoadPredictor, lineId: string, hour: int, w: Conditions): (mw: real)
    ensures mw >= 0.0
  {
    ClampedLoad(UnweatheredLoad(p, lineId, hour), WeatherFactor(w))
  }

  /** A load scaled by a factor, clamped at zero. */
  function ClampedLoad(load: real, factor: real): (mw: real)
    ensures mw >= 0.0
    ensures load >= 0.0 && factor >= 0.0 ==> mw == load * factor
  {
    if load * factor >= 0.0 then load * factor else 0.0
  }

  /** A line without a baseline is predicted exactly as if its baseline
      were 50 MW. */
  lemma UnknownLineUsesDefaultBaseline(p: LoadPredictor, lineId: string, hour: int, w: Conditions)
    requires lineId !in p.baselineLoads
    ensures PredictLoad(p, lineId, hour, w) == PredictLoad(p.SetBaselineLoad(lineId, DefaultBaselineMw), lineId, hour, w)
  {
  }

  /** Without weather the prediction is the baseline times the hour's
      factor (0.8 for an hour the profile lacks), for a non-negative
      baseline; so it stays within 90 %..110 % of the baseline. */
  lemma PredictLoadWithoutWeather(p: LoadPredictor, lineId: string, hour: int)
    requires p.Baseline(lineId) >= 0.0
    ensures 0 <= hour < 24 ==> PredictLoad(p, lineId, hour, NoWeather) == p.Baseline(lineId) * HourlyFactors[hour]
    ensures !(0 <= hour < 24) ==> PredictLoad(p, lineId, hour, NoWeather) == p.Baseline(lineId) * MissingHourFactor
    ensures 0 <= hour < 24 ==>
              0.9 * p.Baseline(lineId) <= PredictLoad(p, lineId, hour, NoWeather) <= 1.1 * p.Baseline(lineId)
  {
    var b := p.Baseline(lineId);
    var f := HourFactor(hour, MissingHourFactor);
    assert WeatherFactor(NoWeather) == 1.0;
    if 0 <= hour < 24 {
      HourFactorFromTable(hour, MissingHourFactor);
      ProductNonNegative(b, f);
      ScaleMonotone(0.9, f, b);
      ScaleMonotone(f, 1.1, b);
    }
  }

  /** The unclamped load before weather. */
  function UnweatheredLoad(p: LoadPredictor, lineId: string, hour: int): real {
    p.Baseline(lineId) * HourFactor(hour, MissingHourFactor)
  }

  /** Clamping at zero a load scaled by a factor of at least one is
      monotone in the factor, whatever the sign of the load. */
  lemma ClampedScaleMonotone(base: real, f1: real, f2: real)
    requires 1.0 <= f1 <= f2
    ensures ClampedLoad(base, f1) <= ClampedLoad(base, f2)
  {
    if base >= 0.0 {
      ScaleMonotone(f1, f2, base);
      assert f1 * base == base * f1 && f2 * base == base * f2;
    } else {
      ProductNonNegative(-base, f1);
      ProductNonNegative(-base, f2);
      assert base * f1 == -(-base * f1);
      assert base * f2 == -(-base * f2);
    }
  }

  /** Weather only ever adds load to a line with a non-negative baseline. */
  lemma WeatherNeverReducesLoad(p: LoadPredictor, lineId: string, hour: int, w: Conditions)
    ensures PredictLoad(p, lineId, hour, w) >= PredictLoad(p, lineId, hour, NoWeather)
  {
    var u := UnweatheredLoad(p, lineId, hour);
    WeatherFactorAtLeastOne(w);
    ClampedScaleMonotone(u, 1.0, WeatherFactor(w));
    assert WeatherFactor(NoWeather) == 1.0;
  }

  /** With everything else fixed, the predicted load is non-decreasing in
      temperature above the comfort point, whatever the baseline's sign. */
  lemma PredictLoadMonotoneInTemperature(p: LoadPredictor, lineId: string, hour: int, w: Conditions, t1: real, t2: real)
    requires ComfortTemperatureC < t1 <= t2
    ensures PredictLoad(p, lineId, hour, w.(temperatureC := Some(t1)))
         <= PredictLoad(p, lineId, hour, w.(temperatureC := Some(t2)))
  {
    var w1 := w.(temperatureC := Some(t1));
    var w2 := w.(temperatureC := Some(t2));
    WeatherFactorMonotoneAboveComfort(w, t1, t2);
    WeatherFactorAtLeastOne(w1);
    ClampedScaleMonotone(UnweatheredLoad(p, lineId, hour), WeatherFactor(w1), WeatherFactor(w2));
  }

  // ---------------------------------------------------------------------
  // Load series

  /** A naive timestamp, counted in whole hours from a midnight; adding whole
      hours leaves minutes and seconds alone, so they are not carried. */
  datatype Stamp = Stamp(hourIndex: int) {
    function Hour(): (h: int)
      ensures 0 <= h < 24
    {
      hourIndex % 24
    }

    function PlusHours(n: int): Stamp {
      Stamp(hourIndex + n)
    }
  }

  datatype SeriesRow = SeriesRow(timestamp: Stamp, predictedLoadMw: real, hour: int)

  /** The row the series holds `offset` hours after `start`. */
  function SeriesRowAt(p: LoadPredictor, lineId: string, start: Stamp, offset: int): SeriesRow {
    var ts := start.PlusHours(offset);
    SeriesRow(ts, PredictLoad(p, lineId, ts.Hour(), NoWeather), ts.Hour())
  }

  /** One row per hour for `hours` hours (none when `hours` <= 0), each
      predicted without weather and without variability. */
  method PredictLoadSeries(p: LoadPredictor, lineId: string, start: Stamp, hours: int) returns (rows: seq<SeriesRow>)
    ensures |rows| == if hours > 0 then hours else 0
    ensures forall i :: 0 <= i < |rows| ==> rows[i].timestamp == start.PlusHours(i)
    ensures forall i :: 0 <= i < |rows| ==> rows[i].hour == start.PlusHours(i).Hour()
    ensures forall i :: 0 <= i < |rows| ==> rows[i].predictedLoadMw == PredictLoad(p, lineId, rows[i].hour, NoWeather)
  {
    rows := [];
    var h := 0;
    while h < hours
      invariant 0 <= h <= (if hours > 0 then hours else 0)
      invariant |rows| == h
      invariant forall i :: 0 <= i < h ==> rows[i] == SeriesRowAt(p, lineId, start, i)
    {
      rows := rows + [SeriesRowAt(p, lineId, start, h)];
      h := h + 1;
    }
  }

  /** Without weather the series repeats every 24 hours. */
  lemma SeriesRepeatsDaily(p: LoadPredictor, lineId: string, start: Stamp, offset: int)
    ensures SeriesRowAt(p, lineId, start, offset + 24).predictedLoadMw
         == SeriesRowAt(p, lineId, start, offset).predictedLoadMw
  {
    assert (start.hourIndex + offset + 24) % 24 == (start.hourIndex + offset) % 24;
  }

  // ---------------------------------------------------------------------
  // MW -> A

  /** Power factor the predictor assumes unless told otherwise. */
  const DefaultPowerFactor: real := 0.95

  /** Three-phase current I = P / (sqrt 3 V pf), P in MW and V in kV;
      zero for a non-positive voltage. */
  function CalculateLineCurrent(powerMw: real, voltageKv: real, powerFactor: real, t: Transcendentals): (amps: real)
    requires Valid(t) && powerFactor != 0.0
    ensures voltageKv <= 0.0 ==> amps == 0.0
    ensures voltageKv > 0.0 ==> amps * (t.sqrt3 * voltageKv * 1000.0 * powerFactor) == powerMw * 1000000.0
  {
    if voltageKv <= 0.0 then 0.0
    else
      ProductNonZero(t.sqrt3 * voltageKv, 1000.0 * powerFactor);
      assert t.sqrt3 * voltageKv * 1000.0 * powerFactor == (t.sqrt3 * voltageKv) * (1000.0 * powerFactor);
      powerMw * 1000000.0 / (t.sqrt3 * voltageKv * 1000.0 * powerFactor)
  }

  /** The conversion is additive in the power, hence linear. */
  lemma LineCurrentLinear(p1: real, p2: real, voltageKv: real, powerFactor: real, t: Transcendentals)
    requires Valid(t) && powerFactor != 0.0
    ensures CalculateLineCurrent(p1 + p2, voltageKv, powerFactor, t)
         == CalculateLineCurrent(p1, voltageKv, powerFactor, t) + CalculateLineCurrent(p2, voltageKv, powerFactor, t)
  {
    if voltageKv > 0.0 {
      var d := t.sqrt3 * voltageKv * 1000.0 * powerFactor;
      ProductNonZero(t.sqrt3 * voltageKv, 1000.0 * powerFactor);
      assert d == (t.sqrt3 * voltageKv) * (1000.0 * powerFactor);
      assert (p1 + p2) * 1000000.0 / d == p1 * 1000000.0 / d + p2 * 1000000.0 / d;
    }
  }

  /** A non-negative power at a positive power factor draws a non-negative
      current. */
  lemma LineCurrentNonNegative(powerMw: real, voltageKv: real, powerFactor: real, t: Transcendentals)
    requires Valid(t) && powerFactor != 0.0
    ensures 0.0 < powerFactor && 0.0 <= powerMw ==> CalculateLineCurrent(powerMw, voltageKv, powerFactor, t) >= 0.0
  {
    if voltageKv > 0.0 && 0.0 < powerFactor && 0.0 <= powerMw {
      ProductPositive(t.sqrt3, voltageKv);
      ProductPositive(t.sqrt3 * voltageKv, 1000.0 * powerFactor);
      assert t.sqrt3 * voltageKv * 1000.0 * powerFactor == (t.sqrt3 * voltageKv) * (1000.0 * powerFactor);
      ProductNonNegative(powerMw, 1000000.0);
      if powerMw > 0.0 {
        QuotientPositive(powerMw * 1000000.0, t.sqrt3 * voltageKv * 1000.0 * powerFactor);
      }
    }
  }

  datatype LineCurrent = LineCurrent(predictedLoadMw: real, predictedCurrentA: real, voltageKv: real, powerFactor: real)

  /** Predicted load of a line and the current it implies. */
  function PredictLineCurrent(p: LoadPredictor, lineId: string, voltageKv: real, hour: int,
                              powerFactor: real, w: Conditions, t: Transcendentals): (r: LineCurrent)
    requires Valid(t) && powerFactor != 0.0
    ensures r.predictedLoadMw == PredictLoad(p, lineId, hour, w) && r.predictedLoadMw >= 0.0
    ensures 0.0 < powerFactor ==> r.predictedCurrentA >= 0.0
    ensures r.predictedCurrentA == CalculateLineCurrent(r.predictedLoadMw, voltageKv, powerFactor, t)
    ensures r.voltageKv == voltageKv && r.powerFactor == powerFactor
  {
    LineCurrentOf(PredictLoad(p, lineId, hour, w), voltageKv, powerFactor, t)
  }

  /** A load and the current it implies at the given voltage and power
      factor. */
  function LineCurrentOf(loadMw: real, voltageKv: real, powerFactor: real, t: Transcendentals): (r: LineCurrent)
    requires Valid(t) && powerFactor != 0.0
    ensures r.predictedLoadMw == loadMw
    ensures 0.0 < powerFactor && 0.0 <= loadMw ==> r.predictedCurrentA >= 0.0
    ensures r.predictedCurrentA == CalculateLineCurrent(loadMw, voltageKv, powerFactor, t)
    ensures r.voltageKv == voltageKv && r.powerFactor == powerFactor
  {
    LineCurrentNonNegative(loadMw, voltageKv, powerFactor, t);
    LineCurrent(loadMw, CalculateLineCurrent(loadMw, voltageKv, powerFactor, t), voltageKv, powerFactor)
  }

  // ---------------------------------------------------------------------
  // Seasonal forecaster

  /** Fraction of the static rating expected at `hour` in `season`; every
      season other than "summer" uses the winter table. */
  function SeasonalLoadFraction(hour: int, season: string): (pct: real)
    ensures 0.65 <= pct <= 0.90
    ensures season == "summer" ==> (pct == 0.90 <==> 10 <= hour <= 17)
    ensures season != "summer" && 10 <= hour <= 17 ==> pct == 0.75
    ensures season != "summer" && (6 <= hour <= 9 || 18 <= hour <= 21) ==> pct >= 0.80
  {
    if season == "summer" then
      if 6 <= hour <= 9 then 0.75
      else if 10 <= hour <= 17 then 0.90
      else if 18 <= hour <= 21 then 0.85
      else 0.65
    else
      if 6 <= hour <= 9 then 0.80
      else if 10 <= hour <= 17 then 0.75
      else if 18 <= hour <= 21 then 0.85
      else 0.70
  }

  /** Forecast load (MVA) as a fixed fraction of the static rating. */
  function ForecastLoadPercentage(staticRatingMva: real, hour: int, season: string): (mva: real)
    ensures mva == staticRatingMva * SeasonalLoadFraction(hour, season)
    ensures staticRatingMva >= 0.0 ==> 0.65 * staticRatingMva <= mva <= 0.90 * staticRatingMva
    ensures staticRatingMva == 0.0 ==> mva == 0.0
  {
    var pct := SeasonalLoadFraction(hour, season);
    ScaleMonotoneOnRating(staticRatingMva, pct);
    staticRatingMva * pct
  }

  /** The seasons peak where the comments in the code say they do: summer
      afternoons (10-17) carry the highest load of a summer day, and winter
      mornings (6-9) and evenings (18-21) carry more than winter middays. */
  lemma SeasonalPeaks(season: string, peak: int, other: int)
    ensures season == "summer" && 10 <= peak <= 17 && !(10 <= other <= 17)
            ==> SeasonalLoadFraction(other, season) < SeasonalLoadFraction(peak, season)
    ensures season != "summer" && (6 <= peak <= 9 || 18 <= peak <= 21) && 10 <= other <= 17
            ==> SeasonalLoadFraction(other, season) < SeasonalLoadFraction(peak, season)
  {
  }

  /** The forecaster called without a season, which defaults to summer. */
  function ForecastWithDefaultSeason(staticRatingMva: real, hour: int, season: Option<string>): (mva: real)
    ensures season.None? ==> mva == staticRatingMva * SeasonalLoadFraction(hour, "summer")
    ensures season.Some? ==> mva == staticRatingMva * SeasonalLoadFraction(hour, season.value)
  {
    ForecastLoadPercentage(staticRatingMva, hour, season.GetOr("summer"))
  }

  lemma ScaleMonotoneOnRating(rating: real, pct: real)
    requires 0.65 <= pct <= 0.90
    ensures rating >= 0.0 ==> 0.65 * rating <= rating * pct <= 0.90 * rating
  {
    if rating >= 0.0 {
      ScaleMonotone(0.65, pct, rating);
      ScaleMonotone(pct, 0.90, rating);
    }
  }

  /** Any season name other than "summer" forecasts exactly as "winter". */
  lemma NonSummerIsWinter(staticRatingMva: real, hour: int, season: string)
    requires season != "summer"
    ensures ForecastLoadPercentage(staticRatingMva, hour, season) == ForecastLoadPercentage(staticRatingMva, hour, "winter")
  {
  }
}
