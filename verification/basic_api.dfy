/**
 * The pure arithmetic of the basic (weather-free) rating service. It keeps
 * its own copies of the status thresholds and the MVA conversion; they are
 * modelled as written and shown to agree with the weather-enabled ones.
 * Its utilization is current over ampacity, and every line's baseline is
 * 70 % of its static rating.
 */
module BasicApi {
  import opened RealMath
  import opened LoadModel
  import opened Grid
  import WeatherApi

  /** Critical from 95 %, Warning from 80 %, Normal below. */
  function DetermineStatus(utilizationPct: real): (s: Status)
    ensures s == Critical <==> utilizationPct >= 95.0
    ensures s == Warning <==> 80.0 <= utilizationPct < 95.0
    ensures s == Normal <==> utilizationPct < 80.0
  {
    if utilizationPct >= 95.0 then Critical
    else if utilizationPct >= 80.0 then Warning
    else Normal
  }

  /** Both services classify every utilization the same way. */
  lemma StatusAgreesWithWeatherService(utilizationPct: real)
    ensures DetermineStatus(utilizationPct) == WeatherApi.DetermineStatus(utilizationPct)
  {
  }

  /** sqrt 3 V I / 1000, MVA from amperes and kilovolts. */
  function CalculateMvaFromCurrent(currentA: real, voltageKv: real, t: Transcendentals): (mva: real)
    requires Valid(t)
    ensures currentA == 0.0 ==> mva == 0.0
    ensures mva * 1000.0 == t.sqrt3 * voltageKv * currentA
  {
    (t.sqrt3 * voltageKv * currentA) / 1000.0
  }

  /** Same conversion as the weather-enabled service, and increasing in the
      current at a positive voltage. */
  lemma MvaAgreesWithWeatherService(currentA: real, voltageKv: real, t: Transcendentals)
    requires Valid(t)
    ensures CalculateMvaFromCurrent(currentA, voltageKv, t) == WeatherApi.CalculateMvaFromCurrent(currentA, voltageKv, t)
  {
  }

  lemma MvaMonotoneInCurrent(i1: real, i2: real, voltageKv: real, t: Transcendentals)
    requires Valid(t) && 0.0 < voltageKv && i1 <= i2
    ensures CalculateMvaFromCurrent(i1, voltageKv, t) <= CalculateMvaFromCurrent(i2, voltageKv, t)
  {
    MvaAgreesWithWeatherService(i1, voltageKv, t);
    MvaAgreesWithWeatherService(i2, voltageKv, t);
    if i1 < i2 {
      WeatherApi.MvaStrictlyIncreasingInCurrent(i1, i2, voltageKv, t);
    }
  }

  /** Predicted current as a percentage of the ampacity; 0 without a
      positive ampacity. */
  function Utilization(predictedCurrentA: real, ampacityA: real): (u: real)
    ensures ampacityA <= 0.0 ==> u == 0.0
    ensures ampacityA > 0.0 ==> u * ampacityA == predictedCurrentA * 100.0
  {
    if ampacityA > 0.0 then predictedCurrentA / ampacityA * 100.0 else 0.0
  }

  /** A line with no ampacity is reported Normal, whatever its current. */
  lemma ZeroAmpacityIsNormal(predictedCurrentA: real, ampacityA: real)
    requires ampacityA <= 0.0
    ensures DetermineStatus(Utilization(predictedCurrentA, ampacityA)) == Normal
  {
  }

  /** With a positive ampacity the line is Critical exactly when its current
      reaches 95 % of the ampacity, and Warning from 80 % up to that. */
  lemma StatusByShareOfAmpacity(predictedCurrentA: real, ampacityA: real)
    requires ampacityA > 0.0
    ensures DetermineStatus(Utilization(predictedCurrentA, ampacityA)) == Critical
            <==> predictedCurrentA >= 0.95 * ampacityA
    ensures DetermineStatus(Utilization(predictedCurrentA, ampacityA)) == Warning
            <==> 0.80 * ampacityA <= predictedCurrentA < 0.95 * ampacityA
  {
    var u := Utilization(predictedCurrentA, ampacityA);
    WeatherApi.ShareThreshold(u, ampacityA, predictedCurrentA, 95.0);
    WeatherApi.ShareThreshold(u, ampacityA, predictedCurrentA, 80.0);
  }

  /** 70 % of the static rating. */
  function BasicBaseline(line: GridLine): (mw: real)
    ensures line.sNom >= 0.0 ==> 0.0 <= mw <= line.sNom
  {
    line.sNom * 0.7
  }

  /** The predictor the basic service starts with. */
  function LoadBasicBaselines(lines: seq<GridLine>): (p: LoadPredictor)
    ensures p.baselineLoads.Keys == NamesOf(lines)
  {
    ApplyBaselines(LoadPredictor(map[]), lines, BasicBaseline)
  }

  /** Every line of the table gets a baseline, it is 70 % of the line's
      static rating, and no other name gets one. */
  lemma BasicBaselinesLoaded(lines: seq<GridLine>, i: int, id: string)
    requires 0 <= i < |lines| && LastWithName(lines, i)
    ensures LoadBasicBaselines(lines).Baseline(lines[i].name) == 0.7 * lines[i].sNom
    ensures id in LoadBasicBaselines(lines).baselineLoads <==> exists j :: 0 <= j < |lines| && lines[j].name == id
  {
    ApplyBaselinesLastWins(LoadPredictor(map[]), lines, BasicBaseline, i);
    ApplyBaselinesKeys(LoadPredictor(map[]), lines, BasicBaseline, id);
  }
}
