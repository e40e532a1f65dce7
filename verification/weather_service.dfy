/**
 * Weather input shaping: the demo scenario catalogue and its lookup,
 * manual pass-through, the record built from a live observation (the
 * request itself is not modelled; the decoded observation is a
 * parameter), the folding of a compass wind direction into an angle
 * against an east-west conductor, and the approximate solar altitude.
 * Clock reads become parameters: the timestamp text, the day of the year
 * and the UTC hour.
 */
module WeatherService {
  import opened Wrappers
  import opened RealMath

  /** One set of ambient conditions, tagged with where it came from. */
  datatype WeatherData = WeatherData(
    temperatureC: real,
    windSpeedMs: real,
    solarAltitude: real,
    windAngleDeg: real,
    humidityPct: real,
    timestamp: string,
    source: string,
    location: Option<string>,
    description: Option<string>
  )

  // ---------------------------------------------------------------------
  // Scenario catalogue

  /** A named demo scenario. */
  datatype Scenario = Scenario(
    key: string,
    name: string,
    description: string,
    temperatureC: real,
    windSpeedMs: real,
    solarAltitude: real,
    windAngleDeg: real,
    humidityPct: real
  )

  /** The catalogue, in its declaration order. */
  const Scenarios: seq<Scenario> := [
    Scenario("extreme_heat", "Extreme Heat - Critical Conditions",
             "Hot summer day, no wind - Expect critical overloads", 42.0, 0.5, 75.0, 90.0, 65.0),
    Scenario("hot_day", "Hot Day - Warning Conditions",
             "Typical hot summer afternoon with light breeze", 35.0, 1.5, 60.0, 90.0, 70.0),
    Scenario("normal_summer", "Normal Summer - Moderate Conditions",
             "Warm day with steady wind", 30.0, 2.5, 45.0, 90.0, 75.0),
    Scenario("optimal", "Optimal Conditions",
             "Cool temperature with good wind - Maximum ampacity", 20.0, 4.0, 30.0, 90.0, 60.0),
    Scenario("night_peak", "Night Peak Load",
             "Evening peak hours, cooling down", 25.0, 2.0, 0.0, 90.0, 80.0),
    Scenario("windy_day", "Windy Day - High Cooling",
             "Strong trade winds - Great for ampacity", 28.0, 5.5, 50.0, 90.0, 65.0),
    Scenario("cloudy_cool", "Cloudy & Cool",
             "Overcast day with reduced solar heating", 22.0, 3.0, 20.0, 90.0, 85.0)
  ]

  /** The first entry of `catalog` whose key is `key`. */
  function FindScenario(catalog: seq<Scenario>, key: string): (r: Option<Scenario>)
    ensures r.None? <==> forall i :: 0 <= i < |catalog| ==> catalog[i].key != key
    ensures r.Some? ==> r.value in catalog && r.value.key == key
  {
    FindBy(catalog, (s: Scenario) => s.key, key)
  }

  function ScenarioKeys(catalog: seq<Scenario>): (keys: seq<string>)
    ensures |keys| == |catalog|
    ensures forall i :: 0 <= i < |catalog| ==> keys[i] == catalog[i].key
  {
    if |catalog| == 0 then [] else [catalog[0].key] + ScenarioKeys(catalog[1..])
  }

  /** `", ".join(names)`. */
  function JoinComma(names: seq<string>): string {
    if |names| == 0 then ""
    else if |names| == 1 then names[0]
    else names[0] + ", " + JoinComma(names[1..])
  }

  /** Keys are distinct, every entry describes daylight or night (altitude
      in [0, 90]), calm-or-windy weather (speed >= 0) and wind square to
      the line (angle 90). */
  predicate CatalogueWellFormed(catalog: seq<Scenario>) {
    && (forall i, j :: 0 <= i < j < |catalog| ==> catalog[i].key != catalog[j].key)
    && (forall i :: 0 <= i < |catalog| ==>
          0.0 <= catalog[i].solarAltitude <= 90.0
          && catalog[i].windSpeedMs >= 0.0
          && catalog[i].windAngleDeg == 90.0)
  }

  lemma ScenariosWellFormed()
    ensures CatalogueWellFormed(Scenarios)
  {
    ScenarioKeysDistinct();
    ScenarioRanges();
  }

  /** Every entry's altitude, wind speed and wind angle are in range. */
  lemma ScenarioRanges()
    ensures forall i :: 0 <= i < |Scenarios| ==>
              0.0 <= Scenarios[i].solarAltitude <= 90.0
              && Scenarios[i].windSpeedMs >= 0.0
              && Scenarios[i].windAngleDeg == 90.0
  {
  }

  /** Two keys of the catalogue already differ in their first two letters. */
  lemma ScenarioKeysDistinct()
    ensures forall i, j :: 0 <= i < j < |Scenarios| ==> Scenarios[i].key != Scenarios[j].key
  {
    forall i, j | 0 <= i < j < |Scenarios| ensures Scenarios[i].key != Scenarios[j].key {
      assert Scenarios[i].key[0] != Scenarios[j].key[0] || Scenarios[i].key[1] != Scenarios[j].key[1];
    }
  }

  const UnknownScenarioPrefix: string := "Unknown scenario: "

  /** Weather of the named scenario, or the error naming every known key. */
  function GetWeatherScenario(scenarioName: string, now: string): (r: Result<WeatherData>)
    ensures r.Success? <==> exists i :: 0 <= i < |Scenarios| && Scenarios[i].key == scenarioName
    ensures r.Failure? ==>
              r.error == UnknownScenarioPrefix + scenarioName + ". Available scenarios: "
                         + JoinComma(ScenarioKeys(Scenarios))
    ensures r.Success? ==>
              && r.value.source == "scenario:" + scenarioName
              && r.value.location == Some("Demo Scenario")
              && r.value.timestamp == now
              && exists s :: s in Scenarios && s.key == scenarioName && r.value == WeatherOf(s, now)
  {
    WeatherFromCatalogue(Scenarios, scenarioName, now)
  }

  /** The weather a catalogue entry describes, stamped `now`. */
  function WeatherOf(s: Scenario, now: string): (wd: WeatherData)
    ensures wd.temperatureC == s.temperatureC && wd.windSpeedMs == s.windSpeedMs
    ensures wd.solarAltitude == s.solarAltitude && wd.windAngleDeg == s.windAngleDeg
    ensures wd.humidityPct == s.humidityPct && wd.description == Some(s.description)
    ensures wd.source == "scenario:" + s.key && wd.location == Some("Demo Scenario") && wd.timestamp == now
  {
    WeatherData(s.temperatureC, s.windSpeedMs, s.solarAltitude, s.windAngleDeg, s.humidityPct,
                now, "scenario:" + s.key, Some("Demo Scenario"), Some(s.description))
  }

  /** The scenario lookup over any catalogue. */
  function WeatherFromCatalogue(catalog: seq<Scenario>, scenarioName: string, now: string): (r: Result<WeatherData>)
    ensures r.Success? <==> exists i :: 0 <= i < |catalog| && catalog[i].key == scenarioName
    ensures r.Failure? ==>
              r.error == UnknownScenarioPrefix + scenarioName + ". Available scenarios: "
                         + JoinComma(ScenarioKeys(catalog))
    ensures r.Success? ==>
              && r.value.source == "scenario:" + scenarioName
              && r.value.location == Some("Demo Scenario")
              && r.value.timestamp == now
              && exists s :: s in catalog && s.key == scenarioName && r.value == WeatherOf(s, now)
  {
    match FindScenario(catalog, scenarioName)
    case None =>
      Failure(UnknownScenarioPrefix + scenarioName + ". Available scenarios: " + JoinComma(ScenarioKeys(catalog)))
    case Some(s) => Success(WeatherOf(s, now))
  }

  /** Every scenario the lookup returns satisfies the catalogue's physical
      ranges. */
  lemma ScenarioWeatherInRange(scenarioName: string, now: string)
    requires GetWeatherScenario(scenarioName, now).Success?
    ensures var wd := GetWeatherScenario(scenarioName, now).value;
            0.0 <= wd.solarAltitude <= 90.0 && wd.windSpeedMs >= 0.0 && wd.windAngleDeg == 90.0
  {
    ScenariosWellFormed();
    var wd := GetWeatherScenario(scenarioName, now).value;
    var s :| s in Scenarios && s.key == scenarioName
             && wd.solarAltitude == s.solarAltitude && wd.windSpeedMs == s.windSpeedMs
             && wd.windAngleDeg == s.windAngleDeg;
    var i :| 0 <= i < |Scenarios| && Scenarios[i] == s;
  }

  /** A short listing entry of a scenario. */
  datatype ScenarioSummary = ScenarioSummary(key: string, name: string, description: string,
                                             temperatureC: real, windSpeedMs: real)

  /** One summary per catalogue entry, in catalogue order. */
  function ListScenarios(catalog: seq<Scenario>): (r: seq<ScenarioSummary>)
    ensures |r| == |catalog|
    ensures forall i :: 0 <= i < |catalog| ==>
              r[i] == ScenarioSummary(catalog[i].key, catalog[i].name, catalog[i].description,
                                      catalog[i].temperatureC, catalog[i].windSpeedMs)
  {
    if |catalog| == 0 then []
    else [ScenarioSummary(catalog[0].key, catalog[0].name, catalog[0].description,
                          catalog[0].temperatureC, catalog[0].windSpeedMs)]
         + ListScenarios(catalog[1..])
  }

  /** The listing has exactly the keys the lookup accepts. */
  lemma ListingMatchesLookup(catalog: seq<Scenario>, key: string)
    ensures (forall i :: 0 <= i < |ListScenarios(catalog)| ==> ListScenarios(catalog)[i].key != key)
        <==> FindScenario(catalog, key).None?
  {
    var listing := ListScenarios(catalog);
    var found := FindScenario(catalog, key);
    if found.None? {
      forall i | 0 <= i < |listing| ensures listing[i].key != key {
        assert listing[i].key == catalog[i].key;
      }
    } else {
      var i :| 0 <= i < |catalog| && catalog[i].key == key;
      assert ListScenarios(catalog)[i].key == key;
      assert i < |ListScenarios(catalog)|;
    }
  }

  // ---------------------------------------------------------------------
  // Manual input

  /** Default solar altitude, wind angle and humidity of a manual request. */
  const ManualDefaultSolarAltitude: real := 45.0
  const ManualDefaultWindAngleDeg: real := 90.0
  const ManualDefaultHumidityPct: real := 70.0

  /** Manual weather copies its five readings unchanged. */
  function GetWeatherManual(temperatureC: real, windSpeedMs: real, solarAltitude: real,
                            windAngleDeg: real, humidityPct: real, now: string): (wd: WeatherData)
    ensures wd.temperatureC == temperatureC && wd.windSpeedMs == windSpeedMs
    ensures wd.solarAltitude == solarAltitude && wd.windAngleDeg == windAngleDeg
    ensures wd.humidityPct == humidityPct && wd.timestamp == now
    ensures wd.source == "manual"
    ensures wd.location == Some("Manual Input") && wd.description == Some("User-specified conditions")
  {
    WeatherData(temperatureC, windSpeedMs, solarAltitude, windAngleDeg, humidityPct, now,
                "manual", Some("Manual Input"), Some("User-specified conditions"))
  }

  /** A manual request that may leave out the solar altitude, wind angle or
      humidity: each missing reading takes its default (45 degrees, 90
      degrees, 70 %). */
  function GetWeatherManualWithDefaults(temperatureC: real, windSpeedMs: real, solarAltitude: Option<real>,
                                        windAngleDeg: Option<real>, humidityPct: Option<real>,
                                        now: string): (wd: WeatherData)
    ensures wd.temperatureC == temperatureC && wd.windSpeedMs == windSpeedMs
    ensures solarAltitude.None? ==> wd.solarAltitude == 45.0
    ensures windAngleDeg.None? ==> wd.windAngleDeg == 90.0
    ensures humidityPct.None? ==> wd.humidityPct == 70.0
    ensures solarAltitude.Some? ==> wd.solarAltitude == solarAltitude.value
    ensures windAngleDeg.Some? ==> wd.windAngleDeg == windAngleDeg.value
    ensures humidityPct.Some? ==> wd.humidityPct == humidityPct.value
    ensures wd.source == "manual"
  {
    GetWeatherManual(temperatureC, windSpeedMs, solarAltitude.GetOr(ManualDefaultSolarAltitude),
                     windAngleDeg.GetOr(ManualDefaultWindAngleDeg), humidityPct.GetOr(ManualDefaultHumidityPct), now)
  }

  /** Leaving out the altitude and angle is the same as passing 45 and 90
      explicitly, as the outage analysis does. */
  lemma ManualDefaultsAreExplicitValues(temperatureC: real, windSpeedMs: real, humidityPct: real, now: string)
    ensures GetWeatherManualWithDefaults(temperatureC, windSpeedMs, None, None, Some(humidityPct), now)
         == GetWeatherManual(temperatureC, windSpeedMs, 45.0, 90.0, humidityPct, now)
  {
  }

  /** Feeding a scenario's readings back in by hand gives the same
      numbers; only the provenance fields differ. */
  lemma ManualReproducesScenario(scenarioName: string, now: string)
    requires GetWeatherScenario(scenarioName, now).Success?
    ensures var s := GetWeatherScenario(scenarioName, now).value;
            var m := GetWeatherManual(s.temperatureC, s.windSpeedMs, s.solarAltitude, s.windAngleDeg, s.humidityPct, now);
            m == s.(source := "manual", location := Some("Manual Input"), description := Some("User-specified conditions"))
  {
  }

  // ---------------------------------------------------------------------
  // Live observation

  /** The angle between the wind and an east-west line, in [0, 90] degrees,
      where 90 means the wind blows across the line: the compass
      direction's distance from the line's own directions, due east (90)
      or due west (270), capped at 90. */
  function FoldWindAngle(windDeg: real): (angle: real)
    ensures 0.0 <= angle <= 90.0
    ensures 0.0 <= windDeg <= 360.0 ==> angle == (if windDeg <= 180.0 then Abs(windDeg - 90.0) else Abs(windDeg - 270.0))
  {
    var raw := if windDeg <= 180.0 then Abs(windDeg - 90.0) else Abs(windDeg - 270.0);
    Min(raw, 90.0)
  }

  /** The fold does not depend on which way the wind blows along its
      axis: a direction and its reverse give the same angle. Wind from
      north or south (0, 180 or 360 degrees) blows across the east-west
      line and gives 90; wind from east or west blows along it and gives 0. */
  lemma FoldWindAngleSymmetric(d: real)
    requires 0.0 <= d <= 180.0
    ensures FoldWindAngle(d) == FoldWindAngle(d + 180.0)
    ensures FoldWindAngle(0.0) == 90.0 && FoldWindAngle(180.0) == 90.0 && FoldWindAngle(360.0) == 90.0
    ensures FoldWindAngle(90.0) == 0.0 && FoldWindAngle(270.0) == 0.0
  {
  }

  /** The decoded fields of a live weather response. */
  datatype Observation = Observation(
    temperatureC: real,
    windSpeedMs: real,
    humidityPct: real,
    windDeg: Option<real>,
    placeName: Option<string>,
    conditionDescriptions: seq<string>
  )

  /** The weather record built from a live observation; the solar altitude
      is computed separately and passed in. */
  function WeatherFromObservation(obs: Observation, solarAltitude: real, now: string): (wd: WeatherData)
    ensures wd.temperatureC == obs.temperatureC && wd.windSpeedMs == obs.windSpeedMs
    ensures wd.humidityPct == obs.humidityPct && wd.solarAltitude == solarAltitude
    ensures 0.0 <= wd.windAngleDeg <= 90.0
    ensures obs.windDeg.None? ==> wd.windAngleDeg == 90.0
    ensures wd.source == "openweather"
    ensures obs.placeName.None? ==> wd.location == Some("Hawaii")
    ensures obs.placeName.Some? ==> wd.location == obs.placeName
    ensures wd.description.Some? <==> |obs.conditionDescriptions| > 0
    ensures wd.description.Some? ==> wd.description.value == obs.conditionDescriptions[0]
  {
    WeatherData(obs.temperatureC, obs.windSpeedMs, solarAltitude, FoldWindAngle(obs.windDeg.GetOr(0.0)),
                obs.humidityPct, now, "openweather", Some(obs.placeName.GetOr("Hawaii")),
                if |obs.conditionDescriptions| > 0 then Some(obs.conditionDescriptions[0]) else None)
  }

  // ---------------------------------------------------------------------
  // Solar altitude

  /** Clamp to [-1, 1], the domain of asin. */
  function ClampUnit(x: real): (c: real)
    ensures -1.0 <= c <= 1.0
    ensures -1.0 <= x <= 1.0 ==> c == x
    ensures x > 1.0 ==> c == 1.0
    ensures x < -1.0 ==> c == -1.0
  {
    Max(-1.0, Min(1.0, x))
  }

  /** Sine of the approximate solar altitude at latitude/longitude `lat`,
      `lon` on day `dayOfYear` at `utcHour` (hours, minutes as a fraction):
      a 23.45-degree declination wave and a 15 degrees/hour hour angle
      around a solar noon at 12 - lon/15 UTC. */
  function SineOfSolarAltitude(lat: real, lon: real, dayOfYear: int, utcHour: real, t: Transcendentals): real {
    var declination := 23.45 * t.sinDeg((360.0 / 365.0) * ((dayOfYear - 81) as real));
    var solarNoon := 12.0 - lon / 15.0;
    var hourAngle := 15.0 * (utcHour - solarNoon);
    t.sinDeg(lat) * t.sinDeg(declination) + t.cosDeg(lat) * t.cosDeg(declination) * t.cosDeg(hourAngle)
  }

  /** The altitude in degrees: asin of the sine clamped into asin's domain,
      with altitudes below the horizon reported as 0. */
  function SolarAltitude(lat: real, lon: real, dayOfYear: int, utcHour: real, t: Transcendentals): (alt: real)
    requires Valid(t)
    ensures 0.0 <= alt <= 90.0
  {
    Max(0.0, t.asinDeg(ClampUnit(SineOfSolarAltitude(lat, lon, dayOfYear, utcHour, t))))
  }

  /** With the sun at or below the horizon the altitude is 0, and above it
      the altitude is asin of the (clamped) sine. */
  lemma SolarAltitudeNightIsZero(lat: real, lon: real, dayOfYear: int, utcHour: real, t: Transcendentals)
    requires Valid(t)
    ensures SineOfSolarAltitude(lat, lon, dayOfYear, utcHour, t) <= 0.0 ==> SolarAltitude(lat, lon, dayOfYear, utcHour, t) == 0.0
    ensures var a := t.asinDeg(ClampUnit(SineOfSolarAltitude(lat, lon, dayOfYear, utcHour, t)));
            a > 0.0 ==> SolarAltitude(lat, lon, dayOfYear, utcHour, t) == a
  {
  }
}
