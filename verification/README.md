# Dynamic line rating backend — a Dafny model

This project models the computational core of a dynamic line rating (DLR)
backend for a 40-bus Hawaiian transmission grid. The backend has five parts:

- It rates each line's conductor with a simplified IEEE Std 738 steady-state
  heat balance (`ieee738.py`).
- It predicts each line's load from an hourly profile and a weather
  multiplier (`load_model.py`).
- It shapes weather input from scenarios, manual values or a live
  observation (`weather_service.py`).
- It classifies lines by utilization, in two services: `main.py` without
  weather and `main_weather.py` with weather.
- It simulates an N-1 outage by redistributing the failed line's flow over
  its neighbours (`main_weather.py`).

Python floats are modelled as Dafny `real`. Transcendental functions and
irrational constants are fields of a `Transcendentals` value:

- the square root;
- sine, cosine and arcsine in degrees;
- `x**1.5`;
- pi, sqrt 3, and the cube root of the Prandtl number 0.7.

The ghost predicate `RealMath.Valid` lists the few axioms the proofs use.
Every member that needs a transcendental takes `t: Transcendentals` and
requires `Valid(t)`. The clock, the HTTP layer and the random variability
become parameters or are left out (see below).

Modules and files:

| module | file | what it models |
|---|---|---|
| `Wrappers` | wrappers.dfy | `Option`, `Result` and the first-match lookup by key |
| `RealMath` | real_math.dfy | abstract transcendentals and small real-arithmetic lemmas |
| `Ieee738` | ieee738.dfy | `IEEE738Calculator`, `get_conductor_params` |
| `LoadModel` | load_model.dfy | `LoadPredictor`, `SimpleLoadForecaster` |
| `WeatherService` | weather_service.dfy | scenario catalogue, manual and live weather, solar altitude |
| `Grid` | grid.dfy | the line table, the three-way status, baseline loading |
| `WeatherApi` | weather_api.dfy | the weather-enabled service's arithmetic and timelapse rule |
| `BasicApi` | basic_api.dfy | the basic service's arithmetic and baselines |
| `Contingency` | contingency.dfy | the N-1 contingency analysis |

Where the code and its own documentation disagree, the model follows the
code:

- Resistance is linear in temperature, R25·(1 + α(T − 25)).
- The Stefan–Boltzmann constant is the literal 5.67e-8.
- The default power factor is 0.95 (`load_model.py:212`).
- The contingency analysis splits the failed flow by inverse reactance,
  with reactance floored at 0.01. It does not use line-outage distribution
  factors.
- The contingency summary reports the failed line's own flow as the
  redistributed power, even when no line is affected.
- The overloaded, critical and warning counters never overlap.
- The profile's docstring gives the formula 0.1·sin(2πh/24 + π/2) + 1 (`load_model.py:48`), which peaks at midnight. The table is 1 − 0.1·sin(2πh/24) rounded to three places, with its low at 06:00 and its peak at 18:00. The model uses the table.
- An hour missing from the profile counts as 1.0 in the contingency
  analysis but as 0.8 in the load predictor. Both are modelled.

## Model

| member | source | states |
|---|---|---|
| Wrappers.FindBy | backend/main_weather.py:716-720 | the lookup fails exactly when no element has the key, and otherwise returns the first element with that key; the line, conductor (ieee738.py:279) and scenario (weather_service.py:197-204) lookups are this one |
| Ieee738.Resistance | backend/ieee738.py:50-61 | at 25 °C the resistance is exactly the catalogue's R25 |
| Ieee738.ResistanceStrictlyIncreasing | backend/ieee738.py:50-61 | with positive R25 and α the resistance strictly increases with temperature |
| Ieee738.SolarHeatGain | backend/ieee738.py:63-86 | the solar gain is exactly 0 when the sun is at or below the horizon, whatever the absorptivity and diameter |
| Ieee738.SolarHeatGainNonNegative | backend/ieee738.py:78-86 | for altitude in (0, 90] and non-negative absorptivity and diameter the gain is non-negative, and positive when both are positive |
| Ieee738.RadiativeHeatLoss | backend/ieee738.py:88-111 | no radiative loss when conductor and ambient temperatures are equal |
| Ieee738.RadiativeLossPositiveWhenHotter | backend/ieee738.py:102-111 | with positive diameter and emissivity and ambient above absolute zero, a hotter conductor loses heat by radiation |
| Ieee738.RadiativeLossAntisymmetric | backend/ieee738.py:102-111 | swapping conductor and ambient temperature negates the radiative term |
| Ieee738.AirConductivity | backend/ieee738.py:134-135 | the air's conductivity is 0.024 W/(m K) at a film temperature of 0 °C and at least that above it |
| Ieee738.KinematicViscosity | backend/ieee738.py:137-138 | above absolute zero the air's viscosity is positive, so the Reynolds number is defined |
| Ieee738.EffectiveWindSpeed | backend/ieee738.py:144-145 | the wind speed used is at least 0.5 m/s and at least the perpendicular component of the wind |
| Ieee738.EffectiveWindMonotone | backend/ieee738.py:144-145 | more wind never lowers the effective wind speed |
| Ieee738.ReynoldsNumber | backend/ieee738.py:147-148 | with a positive diameter the Reynolds number is positive |
| Ieee738.Nusselt | backend/ieee738.py:151-156 | below Reynolds number 1 the Nusselt number is the fixed 0.4 |
| Ieee738.NusseltAtLeastThreeTenths | backend/ieee738.py:151-156 | the Nusselt number never drops below 0.3 |
| Ieee738.NusseltMonotone | backend/ieee738.py:151-156 | the Nusselt number does not decrease as the Reynolds number grows |
| Ieee738.ConvectiveHeatLoss | backend/ieee738.py:113-163 | convective loss is never negative (the clamp at 0) |
| Ieee738.ConvectiveLossPositiveIffHotter | backend/ieee738.py:157-163 | convective loss is positive exactly when the conductor is hotter than the air |
| Ieee738.ReynoldsNonDecreasingInWind | backend/ieee738.py:144-149 | more wind never lowers the Reynolds number |
| Ieee738.ConvectiveNonDecreasingInWind | backend/ieee738.py:113-163 | more wind never lowers the convective loss |
| Ieee738.CalculateAmpacity | backend/ieee738.py:165-209 | the ampacity is never negative; it is 0 when Qc + Qr − Qs ≤ 0 or R(Tmax) ≤ 0, and otherwise I²·R(Tmax) = Qc + Qr − Qs |
| Ieee738.AmpacityFromBalance | backend/ieee738.py:197-207 | the current from a heat balance is never negative, is 0 without net cooling or without positive resistance, and otherwise I²·R equals the net cooling |
| Ieee738.ClampedAmpacityAgrees | backend/ieee738.py:203-207 | the detailed report's guarded √max(Q/R, 0) equals the plain calculation's early-return form for every net cooling and resistance |
| Ieee738.CalculateAmpacityDetailed | backend/ieee738.py:211-252 | the report's Q_net is Qc + Qr − Qs, the convective term and ampacity are non-negative, solar gain is 0 at night, and the resistance is R(Tmax) |
| Ieee738.DetailedAgreesWithAmpacity | backend/ieee738.py:203-207 | the detailed report's ampacity and net cooling equal those of the plain calculation, for every input |
| Ieee738.AmpacityNonDecreasingInWind | backend/ieee738.py:165-209 | more wind never lowers the ampacity |
| Ieee738.CatalogueIsValid | backend/ieee738.py:266-277 | the six catalogue entries have positive parameters and distinct names, are listed by increasing diameter and decreasing resistance, all use the coefficient 0.00404, and the fallback values are the DRAKE entry's |
| Ieee738.GetConductorParams | backend/ieee738.py:255-284 | resistance per metre is resistance per km over 1000; a known name gives its catalogue values, an unknown name the DRAKE defaults; diameter, resistance and coefficient are positive |
| Ieee738.UnknownConductorIsDrake | backend/ieee738.py:277-282 | any name missing from the catalogue gets exactly the parameters of 795 ACSR 26/7 DRAKE |
| Ieee738.CalculatorFor | backend/main_weather.py:183-189 | the calculator takes diameter, R25 and coefficient from the parameters and the surface coefficients from the request |
| LoadModel.DailyProfile | backend/load_model.py:52-80 | the profile has exactly the hours 0–23, every factor lies in [0.9, 1.1], the unique minimum 0.9 is at 06:00 and the unique maximum 1.1 at 18:00 |
| LoadModel.HourFactorFromTable | backend/load_model.py:122 | a day hour's load factor is the table's entry for that hour |
| LoadModel.HourFactor | backend/load_model.py:122 | a day hour's factor lies in [0.9, 1.1]; an hour outside the profile gets the caller's default |
| LoadModel.ProfileFollowsSine | backend/load_model.py:48-77 | factor(h) + factor(h + 12) = 2 for h in 0..11, and the table is mirror-symmetric about 06:00 and 18:00, as a sine about 1.0 is |
| LoadModel.WeatherFactorMatchesSequential | backend/load_model.py:126-167 | the branch-by-branch weather multiplier equals the step-by-step product the code builds |
| LoadModel.WeatherFactor | backend/load_model.py:126-167 | the weather multiplier is never below 1, and exactly 1 without a temperature |
| LoadModel.WeatherFactorAtLeastOne | backend/load_model.py:126-167 | the weather multiplier is never below 1 |
| LoadModel.WeatherFactorNeutralBand | backend/load_model.py:126-167 | the multiplier is exactly 1 when the temperature is unknown or lies in [15, 22], and otherwise above 1 |
| LoadModel.CoolingHandOverAt37 | backend/load_model.py:139-142 | the cooling factor is 1.375 at 37 °C and jumps above 1.525 past it, so the steep branch takes over upwards |
| LoadModel.CoolingFactorMonotone | backend/load_model.py:133-142 | above 22 °C the cooling factor does not decrease with temperature |
| LoadModel.WeatherFactorMonotoneAboveComfort | backend/load_model.py:128-154 | with humidity, sun and wind fixed, the multiplier does not decrease with temperature above 22 °C |
| LoadModel.HotWeatherFactor | backend/load_model.py:133-154 | above 22 °C the multiplier is strictly above 1 |
| LoadModel.LoadPredictor.SetBaselineLoad | backend/load_model.py:83-85 | the line gets the new baseline, the known names grow by that line, and no other line's baseline changes |
| LoadModel.PredictLoad | backend/load_model.py:87-177 | the predicted load is never negative |
| LoadModel.ClampedLoad | backend/load_model.py:123-177 | the clamped scaled load is never negative and equals load·factor when both are non-negative |
| LoadModel.UnknownLineUsesDefaultBaseline | backend/load_model.py:116 | an unknown line is predicted as if its baseline were 50 MW |
| LoadModel.PredictLoadWithoutWeather | backend/load_model.py:116-123 | without weather the load is the baseline times the hour's factor, or times 0.8 for an hour outside the profile, and so lies within 90 %–110 % of the baseline |
| LoadModel.WeatherNeverReducesLoad | backend/load_model.py:126-177 | any weather predicts at least the weather-free load |
| LoadModel.PredictLoadMonotoneInTemperature | backend/load_model.py:128-177 | above 22 °C a hotter day never predicts a smaller load |
| LoadModel.Stamp.Hour | backend/load_model.py:119 | the hour of a time stamp lies in 0..23 |
| LoadModel.PredictLoadSeries | backend/load_model.py:179-206 | the series has exactly `hours` rows (none for a non-positive count); row i is at start + i hours and carries that hour and the weather-free prediction for it |
| LoadModel.SeriesRepeatsDaily | backend/load_model.py:196-206 | a row 24 hours later predicts the same load |
| LoadModel.CalculateLineCurrent | backend/load_model.py:208-236 | 0 A at a non-positive voltage; otherwise I·(√3·V·1000·pf) = P·10⁶ |
| LoadModel.LineCurrentLinear | backend/load_model.py:227-236 | the current is additive and homogeneous in the power |
| LoadModel.LineCurrentNonNegative | backend/load_model.py:227-236 | a non-negative power at a positive power factor gives a non-negative current |
| LoadModel.PredictLineCurrent | backend/load_model.py:238-282 | the reported load is exactly the load predictor's forecast for the line, hour and weather, and non-negative; the current converts that load at the given voltage and power factor; voltage and power factor are echoed |
| LoadModel.SeasonalLoadFraction | backend/load_model.py:310-327 | the fraction lies in [0.65, 0.90]; in summer it is 0.90 exactly for hours 10–17; in any other season it is 0.75 at hours 10–17 and at least 0.80 at hours 6–9 and 18–21 |
| LoadModel.SeasonalPeaks | backend/load_model.py:306-327 | summer hours 10–17 carry more load than any other summer hour; in every other season hours 6–9 and 18–21 carry more than hours 10–17 |
| LoadModel.ForecastLoadPercentage | backend/load_model.py:292-329 | the forecast is the rating times the season's fraction for the hour, so for a non-negative rating it lies between 65 % and 90 % of it |
| LoadModel.ForecastWithDefaultSeason | backend/load_model.py:293-297 | a call without a season forecasts with the summer table; a given season is used as it is |
| LoadModel.NonSummerIsWinter | backend/load_model.py:310-319 | any season other than "summer" gets the winter table |
| WeatherService.FindScenario | backend/weather_service.py:196-203 | the lookup fails exactly when no catalogue entry has the key, and otherwise returns an entry with that key |
| WeatherService.ScenarioKeys | backend/weather_service.py:198 | the keys listed in the error message are the catalogue's, in catalogue order |
| WeatherService.GetWeatherScenario | backend/weather_service.py:187-216 | an unknown name fails with the message naming the available scenarios; a known name yields its five numeric values, source "scenario:<name>", location "Demo Scenario" and the scenario's description |
| WeatherService.WeatherOf | backend/weather_service.py:205-215 | a scenario's weather copies its five numeric values and its description, with source "scenario:<key>", location "Demo Scenario" and the given time stamp |
| WeatherService.ScenarioWeatherInRange | backend/weather_service.py:45-109 | every scenario's weather has solar altitude in [0, 90], non-negative wind and a wind angle of 90° |
| WeatherService.ScenariosWellFormed | backend/weather_service.py:45-109 | the scenario catalogue has distinct keys, solar altitudes in [0, 90], non-negative wind and wind angle 90° |
| WeatherService.ListScenarios | backend/weather_service.py:292-307 | one summary per catalogue entry, copying key, name, description, temperature and wind speed |
| WeatherService.ListingMatchesLookup | backend/weather_service.py:292-307 | a key is missing from the listing exactly when the scenario lookup fails for it |
| WeatherService.GetWeatherManual | backend/weather_service.py:218-249 | the five numeric inputs are copied unchanged, with source "manual", location "Manual Input" and description "User-specified conditions" |
| WeatherService.GetWeatherManualWithDefaults | backend/weather_service.py:218-249 | an omitted solar altitude, wind angle or humidity becomes 45°, 90° or 70 %; given values and the temperature and wind are copied; the source is "manual" |
| WeatherService.ManualDefaultsAreExplicitValues | backend/main_weather.py:729-731 | passing 45 and 90 explicitly, as the contingency endpoint does, gives the same weather as leaving altitude and angle to their defaults |
| WeatherService.ManualReproducesScenario | backend/weather_service.py:206-249 | entering a scenario's numbers manually reproduces its weather values |
| WeatherService.FoldWindAngle | backend/weather_service.py:170-176 | the folded angle always lies in [0, 90]; for a compass direction it is the angle between the wind and an east-west line (its distance from due east or due west), so 90 means the wind blows across the line |
| WeatherService.FoldWindAngleSymmetric | backend/weather_service.py:170 | opposite directions fold to the same angle; north and south wind (across the line) give 90°, east and west wind (along it) give 0° |
| WeatherService.WeatherFromObservation | backend/weather_service.py:160-182 | an observation's temperature, wind and humidity are copied; the angle is folded (90° without a direction); location defaults to "Hawaii"; description is the first condition when there is one |
| WeatherService.ClampUnit | backend/weather_service.py:287 | the arcsine argument is clamped to [−1, 1] and left unchanged inside it |
| WeatherService.SolarAltitude | backend/weather_service.py:251-290 | the computed altitude is never negative and at most 90° |
| WeatherService.SolarAltitudeNightIsZero | backend/weather_service.py:282-290 | when the sine of the altitude is not positive the sun counts as set (altitude 0); when the arcsine of the clamped sine is positive, the altitude is that arcsine |
| Grid.ApplyBaselines | backend/main_weather.py:140-145 | after the loop exactly the names known before and the names of the table's rows have a baseline |
| Grid.ApplyBaselinesKeys | backend/main_weather.py:140-145 | exactly the table's names (and those already known) receive a baseline |
| Grid.ApplyBaselinesLastWins | backend/main_weather.py:141-145 | a row that no later row renames ends up with its own baseline |
| Grid.ApplyBaselinesUntouched | backend/main_weather.py:141-145 | a name no row carries keeps the baseline it had |
| WeatherApi.DetermineStatus | backend/main_weather.py:154-161 | Critical exactly from 95 %, Warning exactly on [80, 95), Normal exactly below 80 |
| WeatherApi.StatusMonotone | backend/main_weather.py:154-161 | a higher utilization never gets a milder status |
| WeatherApi.CalculateMvaFromCurrent | backend/main_weather.py:164-166 | MVA·1000 = √3·V·I; zero at zero current or voltage; non-negative for non-negative inputs |
| WeatherApi.MvaLinearInCurrent | backend/main_weather.py:164-166 | the conversion is additive and homogeneous in the current |
| WeatherApi.MvaStrictlyIncreasingInCurrent | backend/main_weather.py:164-166 | at a positive voltage more current means more MVA |
| WeatherApi.MvaInvertsLineCurrent | backend/main_weather.py:164-166 | converting a load to amperes and back gives its apparent power P/pf |
| WeatherApi.PredictedCurrentGivesApparentPower | backend/load_model.py:265-282 | converting the predicted current back to MVA at the same voltage gives the predicted load over the power factor |
| WeatherApi.StaticUtilization | backend/main_weather.py:228 | 0 without a positive rating; otherwise u·rating = 100·load |
| WeatherApi.DynamicUtilization | backend/main_weather.py:232 | 0 without a positive ampacity; otherwise u·ampacity = 100·current |
| WeatherApi.CapacityIncrease | backend/main_weather.py:233 | 0 without a positive rating; otherwise pct·rating = 100·(dynamic − static) |
| WeatherApi.CapacityIncreaseSign | backend/main_weather.py:233 | the increase is positive exactly when the dynamic rating beats a positive static rating |
| WeatherApi.StatusByShareOfRating | backend/main_weather.py:228-229 | against a positive rating a line is Critical exactly from 95 % of the rating and Warning exactly from 80 % up to that |
| WeatherApi.ZeroAmpacityHasZeroDynamicUtilization | backend/main_weather.py:232 | without a positive ampacity the dynamic utilization is 0 and classifies as Normal |
| WeatherApi.LineCalculator | backend/main_weather.py:179-189 | every line's calculator has a positive conductor diameter |
| WeatherApi.ConditionsOf | backend/main_weather.py:210-218 | the load predictor sees all four weather readings |
| WeatherApi.RateLineWithWeather | backend/main_weather.py:169-267 | the ampacity is the conductor's ampacity under the weather; loads, current and ampacity are non-negative; the current converts the predicted load at power factor 0.95, the MVA rating converts the ampacity, the static and dynamic utilizations and the capacity increase are the guarded percentages of those values; the status is Critical exactly from 95 % and Warning exactly from 80 % up to 95 % of a positive static rating |
| WeatherApi.RateLineWithDefaults | backend/main_weather.py:169-174 | without explicit settings a line is rated at a 75 °C maximum conductor temperature with emissivity and absorptivity 0.5, its load is the predictor's forecast under the weather, and its status follows that load's share of the static rating |
| WeatherApi.WeatherBaseline | backend/main_weather.py:144 | the solved flow when the table has one, otherwise 70 % of the static rating |
| WeatherApi.LoadWeatherBaselines | backend/main_weather.py:140-145 | the weather service's predictor has a baseline for exactly the table's line names |
| WeatherApi.WeatherBaselinesLoaded | backend/main_weather.py:140-145 | each line's baseline is its own rule's value; names not in the table keep the 50 MW default |
| WeatherApi.TimelapseSolarAltitude | backend/main_weather.py:581-587 | the altitude lies in [0, 75], is 0 before 06:00 and after 18:00, and reaches 75 only at noon |
| WeatherApi.TimelapseShape | backend/main_weather.py:581-587 | in daytime the altitude is 75 − 10·\|12 − h\|, symmetric about noon and at least 15 |
| WeatherApi.TimelapseRisesUntilNoon | backend/main_weather.py:581-587 | morning altitudes rise towards noon |
| BasicApi.DetermineStatus | backend/main.py:137-144 | Critical exactly from 95 %, Warning exactly on [80, 95), Normal exactly below 80 |
| BasicApi.StatusAgreesWithWeatherService | backend/main.py:137-144 | the two services classify every utilization the same way |
| BasicApi.CalculateMvaFromCurrent | backend/main.py:147-149 | MVA·1000 = √3·V·I, and zero at zero current |
| BasicApi.MvaAgreesWithWeatherService | backend/main.py:147-149 | both services convert current to MVA identically |
| BasicApi.MvaMonotoneInCurrent | backend/main.py:147-149 | at a positive voltage the conversion is monotone in the current |
| BasicApi.Utilization | backend/main.py:248 | 0 without a positive ampacity; otherwise u·ampacity = 100·current |
| BasicApi.ZeroAmpacityIsNormal | backend/main.py:335-338 | a line with no positive ampacity is Normal whatever its current |
| BasicApi.StatusByShareOfAmpacity | backend/main.py:248-251 | with a positive ampacity a line is Critical exactly from 95 % of it and Warning exactly from 80 % up to that |
| BasicApi.BasicBaseline | backend/main.py:130 | for a non-negative rating the baseline lies between 0 and the rating |
| BasicApi.LoadBasicBaselines | backend/main.py:128-131 | the basic service's predictor has a baseline for exactly the table's line names |
| BasicApi.BasicBaselinesLoaded | backend/main.py:128-131 | every line's baseline is 0.7·s_nom, and exactly the table's names get one |
| Contingency.ContingencyLoadFactor | backend/main_weather.py:736-737 | the hour's profile factor, 1.0 for an hour outside the profile, always within [0.9, 1.1] |
| Contingency.BaselineStates | backend/main_weather.py:740-752 | one state per line, carrying the line, its solved flow times the load factor, and its reactance (1.0 when missing) |
| Contingency.AffectedLines | backend/main_weather.py:756-772 | a line is affected exactly when it is not the failed line and one of its buses is one of the failed line's buses |
| Contingency.Conductance | backend/main_weather.py:777-780 | with reactance floored at 0.01 every conductance lies in (0, 100] |
| Contingency.TotalConductance | backend/main_weather.py:777 | the total conductance is never negative and is positive over a non-empty set of lines |
| Contingency.ConductanceWithinTotal | backend/main_weather.py:777-781 | each line's conductance is at most the total, so its factor is at most 1 |
| Contingency.RedistributeOne | backend/main_weather.py:779-785 | the added flow is the line's share, the new flow is baseline plus share, and the relative increase is taken against the baseline floored at 0.1 |
| Contingency.Redistribute | backend/main_weather.py:776-785 | one entry per affected line, in order, each with flow = baseline + its share |
| Contingency.SharesAddUp | backend/main_weather.py:777-782 | the shares of any prefix of lines add up to the failed flow times their part of the total conductance |
| Contingency.IncreasesAreShares | backend/main_weather.py:779-783 | the added flows over a list of lines sum to the sum of their individual shares |
| Contingency.ShareSumIsPortion | backend/main_weather.py:777-782 | the shares of a list of lines sum to the failed flow times their conductance over the total |
| Contingency.RedistributionConservesFlow | backend/main_weather.py:776-784 | over a non-empty affected set the added flows sum to exactly the failed flow |
| Contingency.RedistributionFactors | backend/main_weather.py:777-781 | every redistribution factor is positive and at most 1, and the factors sum to 1 |
| Contingency.RedistributionAddsFlow | backend/main_weather.py:782-783 | a non-negative failed flow never lowers an affected line's flow |
| Contingency.Classify | backend/main_weather.py:827-837 | Overload exactly from 100 %, Critical on [95, 100), Warning on [80, 95), Normal below 80 |
| Contingency.ClassifyRefinesStatus | backend/main_weather.py:827-837 | below 100 % the classification is the ordinary status; from 100 % the ordinary Critical becomes Overload |
| Contingency.ContingencyAmpacityIsUsualAmpacity | backend/main_weather.py:797-814 | the ampacity rated for a line in the outage study is the conductor's usual ampacity with surface coefficients 0.5, 45° sun and perpendicular wind at the line's MOT |
| Contingency.ContingencyAgreesWithDefaultRating | backend/main_weather.py:797-814 | for a line with a 75 °C MOT under 45° sun and perpendicular wind, the outage study's ampacity is the one the service's default rating computes |
| Contingency.ContingencyMvaIsUsualConversion | backend/main_weather.py:816 | the study's MVA rating, ampacity·V·√3/1000, equals the service's current-to-MVA conversion |
| Contingency.LineResultOf | backend/main_weather.py:820-853 | the row copies the flows and rating, computes both utilizations with the divide-by-zero guard, and classifies the contingency utilization |
| Contingency.UtilizationIncreaseIsAddedFlow | backend/main_weather.py:823-851 | against a positive rating the rise in utilization is the added flow as a percentage of the rating |
| Contingency.EvaluateLine | backend/main_weather.py:793-856 | a line gives no result exactly when the film temperature at its MOT is not above absolute zero (where the code reports a NaN or infinite rating); otherwise its row is built from the contingency ampacity at 0.5/0.5, 45° sun and perpendicular wind |
| Contingency.EvaluateAll | backend/main_weather.py:793-856 | the results are exactly the rows of the lines whose film temperature is above absolute zero: every result is such a line's row, every such line's row is among the results, there are never more results than lines and there is one per line when all lines can be rated; each row is classified by its own contingency utilization |
| Contingency.OutageResults | backend/main_weather.py:734-856 | the outage results are exactly the rows of the lines sharing a bus with the failed line, after the failed flow is shared out, that can be rated: no other row appears and none of those lines is missing; each row is classified by its own contingency utilization |
| Wrappers.SomesSound | backend/main_weather.py:793-856 | every value kept by the loop that appends only the rows it could compute comes from one of its inputs |
| Wrappers.SomesComplete | backend/main_weather.py:793-856 | every input that yields a row has that row kept by the appending loop |
| Wrappers.SomesMembers | backend/main_weather.py:793-856 | a value is among the rows the appending loop keeps exactly when some input yields it |
| Contingency.SeveritiesPartition | backend/main_weather.py:827-837 | the four severity counts add up to the number of results |
| Contingency.CountSeverity | backend/main_weather.py:827-837 | a severity's count never exceeds the number of results |
| Contingency.CountSeverityAppend | backend/main_weather.py:827-837 | counts over a concatenation are the sums of the counts |
| Contingency.CountSeverities | backend/main_weather.py:788-837 | the three counters equal the numbers of Overload, Critical and Warning results, and with the Normal ones they partition the list |
| Contingency.InsertByIncrease | backend/main_weather.py:859 | inserting adds exactly the one element |
| Contingency.InsertKeepsSorted | backend/main_weather.py:859 | inserting into a list sorted by decreasing rise keeps it sorted |
| Contingency.SortByIncrease | backend/main_weather.py:859 | the sorted list is non-increasing in the rise of utilization and a permutation of the input |
| Contingency.InsertKeepsTies | backend/main_weather.py:859 | inserting one result keeps the relative order of the results that share any given rise, placing the new one first among them |
| Contingency.SortIsStable | backend/main_weather.py:859 | the sort is stable: results with equal rises keep their input order, as Python's `list.sort` does |
| Contingency.SortKeepsCounts | backend/main_weather.py:859-878 | sorting keeps every severity count |
| Contingency.N1ContingencyAnalysis | backend/main_weather.py:694-882 | an unknown line fails with "Line <id> not found"; otherwise the reported lines are exactly the rows of the ratable affected lines, sorted stably by decreasing rise (equal rises keep their evaluation order), the counters partition them, the redistributed power reported is the failed flow, the failed line's id, name and buses and the weather's temperature, wind and source are copied into the report; with no affected lines everything is empty and zero |

## Left out

- HTTP endpoints, request validation, status codes, CORS and startup hooks are left out. Only the pure expressions inside the endpoints are modelled.
- CSV loading and the pandas merges are left out; they are file I/O. The line table is a `seq<GridLine>` parameter.
- A value the table lacks (NaN after a merge) is modelled as `None`. NaN arithmetic is not modelled: a missing solved flow counts as 0 MW in the contingency analysis, and a missing reactance counts as 1.0.
- The OpenWeatherMap request and its errors are left out; they are network I/O. `WeatherFromObservation` models the shaping of a decoded response, and the 21.31 N, 157.86 W default location is not modelled.
- The clock is a parameter. Hour of day, time stamps and UTC day and hour are arguments wherever the code reads `datetime.now()` or `utcnow()`.
- The random ±5 % variability of `predict_load` is left out. Only predictions with variability off are modelled.
- The choice of weather source inside the endpoints (live, scenario or manual) is left out. The analyses take the chosen `WeatherData` as a parameter.
- Numeric values of sine, arcsine, square root, fractional powers, pi and sqrt 3 are left out. They are uninterpreted, with the axioms in `RealMath.Valid`, so no specific ampacity figure is derived.
- The `round(...)` calls in responses are left out. Results carry exact values and are sorted by the exact rise in utilization rather than the rounded one, so ties between values that round equal are not modelled.
- LoadModel.CalculateLineCurrent: requires a non-zero power factor, because numpy gives inf or NaN for zero.
- Ieee738.ConvectiveHeatLoss: requires a positive film temperature. The code's 0**1.5 or negative**1.5 then fails, so this is a precondition here.
- Ieee738.ConvectiveHeatLoss: also requires a non-zero diameter, because the code divides by it. Every catalogue diameter is positive.
- WeatherApi.RateLineWithWeather: requires a positive film temperature, for the same reason. Its MOT is a plain Python number, so the code raises there.
- Contingency.EvaluateLine: leaves out a line whose film temperature at its MOT is not above absolute zero. The code does not raise there: the MOT comes from a table row as a numpy scalar, so numpy only warns, and the line stays in the results with a NaN or infinite ampacity. Real numbers have no NaN or infinity, so the model skips such a line instead.
- Contingency.BaselineStates: the code's try/except around each baseline row is not modelled. With the typed row nothing in it can raise.
- Contingency.N1ContingencyAnalysis: assumes line names are unique. The evaluation uses the affected state's own row, where the code looks the name up again and takes its first match.
- Contingency.N1ContingencyAnalysis: the weather section of the report keeps temperature, wind and source only, as the code's does.
- WeatherService.SolarAltitude: the declination and hour-angle formula is kept, but only its bounds and the night case are proved. Its values depend on the sine and arcsine.
- The per-hour status counts of the timelapse snapshots (backend/main_weather.py:665-679) and the `/lines/summary` endpoint of backend/main.py are left out. They are tallies over endpoint responses; the contingency analysis's own counters are modelled by `Contingency.CountSeverities`.
- The `__main__` demo blocks, `test_api.py` and `wsgi.py` are left out. They are demos, live-server tests and deployment glue.
