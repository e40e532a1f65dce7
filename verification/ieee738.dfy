/**
 * The simplified steady-state heat balance of the rating calculator:
 * at the maximum conductor temperature Tc the Joule heating I^2 R(Tc)
 * equals convective loss plus radiative loss minus solar gain,
 * I^2 R(Tc) = Qc + Qr - Qs, all per metre of conductor.
 * This is the structure of the IEEE Std 738 balance, not a conformant
 * implementation of the standard's correlations.
 */
module Ieee738 {
  import opened Wrappers
  import opened RealMath

  const KelvinOffset: real := 273.15
  /** Stefan-Boltzmann constant, W/(m^2 K^4), as the calculator writes it. */
  const StefanBoltzmann: real := 0.0000000567
  /** Clear-sky irradiance with the sun at the zenith, W/m^2. */
  const ClearSkyIrradiance: real := 1000.0
  /** Floor on the perpendicular wind component, m/s. */
  const MinEffectiveWind: real := 0.5

  /** The physical parameters one calculator instance is built with. */
  datatype Conductor = Conductor(
    diameterM: real,
    emissivity: real,
    absorptivity: real,
    r25: real,        // AC resistance at 25 degC, ohm/m
    alpha: real       // temperature coefficient of resistance, 1/degC
  )

  // ---------------------------------------------------------------------
  // Resistance

  /** Linear resistance model R(T) = R25 (1 + alpha (T - 25)). */
  function Resistance(c: Conductor, tempC: real): (r: real)
    ensures tempC == 25.0 ==> r == c.r25
  {
    c.r25 * (1.0 + c.alpha * (tempC - 25.0))
  }

  /** With a positive reference resistance and coefficient, a hotter
      conductor has strictly higher resistance. */
  lemma ResistanceStrictlyIncreasing(c: Conductor, t1: real, t2: real)
    requires 0.0 < c.r25 && 0.0 < c.alpha && t1 < t2
    ensures Resistance(c, t1) < Resistance(c, t2)
  {
    ProductPositive(c.alpha, t2 - t1);
    ProductPositive(c.r25, c.alpha * (t2 - t1));
    assert Resistance(c, t2) - Resistance(c, t1) == c.r25 * (c.alpha * (t2 - t1));
  }

  // ---------------------------------------------------------------------
  // Solar heat gain

  /** Qs = absorptivity * 1000 sin(altitude) * D, and nothing at night. */
  function SolarHeatGain(c: Conductor, solarAltitude: real, t: Transcendentals): (qs: real)
    ensures solarAltitude <= 0.0 ==> qs == 0.0
  {
    if solarAltitude <= 0.0 then 0.0
    else c.absorptivity * (ClearSkyIrradiance * t.sinDeg(solarAltitude)) * c.diameterM
  }

  /** With the sun above the horizon the gain is non-negative for any
      non-negative absorptivity and diameter, and positive when both are
      positive. */
  lemma SolarHeatGainNonNegative(c: Conductor, solarAltitude: real, t: Transcendentals)
    requires Valid(t)
    requires 0.0 < solarAltitude <= 90.0
    requires 0.0 <= c.absorptivity && 0.0 <= c.diameterM
    ensures SolarHeatGain(c, solarAltitude, t) >= 0.0
    ensures 0.0 < c.absorptivity && 0.0 < c.diameterM ==> SolarHeatGain(c, solarAltitude, t) > 0.0
  {
    var irradiance := ClearSkyIrradiance * t.sinDeg(solarAltitude);
    assert irradiance > 0.0;
    ProductNonNegative(c.absorptivity, irradiance);
    ProductNonNegative(c.absorptivity * irradiance, c.diameterM);
    if 0.0 < c.absorptivity && 0.0 < c.diameterM {
      ProductPositive(c.absorptivity, irradiance);
      ProductPositive(c.absorptivity * irradiance, c.diameterM);
    }
    assert SolarHeatGain(c, solarAltitude, t) == (c.absorptivity * irradiance) * c.diameterM;
  }

  // ---------------------------------------------------------------------
  // Radiative heat loss

  function Pow4(x: real): real {
    (x * x) * (x * x)
  }

  lemma Pow4StrictlyMonotone(x: real, y: real)
    requires 0.0 <= x < y
    ensures Pow4(x) < Pow4(y)
  {
    SquareStrictlyMonotone(x, y);
    ProductNonNegative(x, x);
    SquareStrictlyMonotone(x * x, y * y);
  }

  /** Qr = pi D epsilon sigma (Tc^4 - Ta^4), temperatures in kelvin. */
  function RadiativeHeatLoss(c: Conductor, tempConductorC: real, tempAmbientC: real, t: Transcendentals): (qr: real)
    ensures tempConductorC == tempAmbientC ==> qr == 0.0
  {
    t.pi * c.diameterM * c.emissivity * StefanBoltzmann
      * (Pow4(tempConductorC + KelvinOffset) - Pow4(tempAmbientC + KelvinOffset))
  }

  /** A conductor hotter than the air radiates heat away. */
  lemma RadiativeLossPositiveWhenHotter(c: Conductor, tempConductorC: real, tempAmbientC: real, t: Transcendentals)
    requires Valid(t)
    requires 0.0 < c.diameterM && 0.0 < c.emissivity
    requires -KelvinOffset < tempAmbientC < tempConductorC
    ensures RadiativeHeatLoss(c, tempConductorC, tempAmbientC, t) > 0.0
  {
    Pow4StrictlyMonotone(tempAmbientC + KelvinOffset, tempConductorC + KelvinOffset);
    var k := t.pi * c.diameterM * c.emissivity * StefanBoltzmann;
    ProductPositive(t.pi, c.diameterM);
    ProductPositive(t.pi * c.diameterM, c.emissivity);
    ProductPositive(t.pi * c.diameterM * c.emissivity, StefanBoltzmann);
    ProductPositive(k, Pow4(tempConductorC + KelvinOffset) - Pow4(tempAmbientC + KelvinOffset));
  }

  /** Exchanging the two temperatures reverses the radiative flow. */
  lemma RadiativeLossAntisymmetric(c: Conductor, ta: real, tb: real, t: Transcendentals)
    ensures RadiativeHeatLoss(c, ta, tb, t) == -RadiativeHeatLoss(c, tb, ta, t)
  {
    var k := t.pi * c.diameterM * c.emissivity * StefanBoltzmann;
    var d := Pow4(ta + KelvinOffset) - Pow4(tb + KelvinOffset);
    assert k * d == -(k * -d);
  }

  // ---------------------------------------------------------------------
  // Convective heat loss

  /** Mean film temperature, kelvin. */
  function FilmTemperatureK(tempConductorC: real, tempAmbientC: real): real {
    (tempConductorC + tempAmbientC) / 2.0 + KelvinOffset
  }

  /** Thermal conductivity of air at the film temperature, W/(m K). */
  function AirConductivity(filmK: real): (k: real)
    ensures filmK == KelvinOffset ==> k == 0.024
    ensures filmK >= KelvinOffset ==> k >= 0.024
  {
    0.024 + 0.00007 * (filmK - KelvinOffset)
  }

  /** Kinematic viscosity of air at the film temperature, m^2/s. */
  function KinematicViscosity(filmK: real, t: Transcendentals): (nu: real)
    ensures Valid(t) && filmK > 0.0 ==> nu > 0.0
  {
    0.000015 * t.pow15(filmK / 300.0)
  }

  /** Perpendicular wind component, floored at 0.5 m/s. */
  function EffectiveWindSpeed(windSpeedMs: real, windAngleDeg: real, t: Transcendentals): (v: real)
    ensures v >= MinEffectiveWind
    ensures v >= windSpeedMs * Abs(t.sinDeg(windAngleDeg))
  {
    Max(windSpeedMs * Abs(t.sinDeg(windAngleDeg)), MinEffectiveWind)
  }

  /** Simplified Churchill-Bernstein correlation with Pr = 0.7. */
  function Nusselt(re: real, t: Transcendentals): (nu: real)
    ensures re < 1.0 ==> nu == 0.4
  {
    if re < 1.0 then 0.4 else 0.3 + 0.62 * t.sqrt(re) * t.cbrtPrandtl
  }

  /** The calculator raises unless the diameter is non-zero (it divides by
      it) and the film temperature is above absolute zero (otherwise the
      viscosity is zero or the power 1.5 of a negative number is complex). */
  predicate ConvectionDefined(c: Conductor, tempConductorC: real, tempAmbientC: real) {
    c.diameterM != 0.0 && FilmTemperatureK(tempConductorC, tempAmbientC) > 0.0
  }

  function ReynoldsNumber(c: Conductor, tempConductorC: real, tempAmbientC: real,
                          windSpeedMs: real, windAngleDeg: real, t: Transcendentals): (re: real)
    requires Valid(t) && ConvectionDefined(c, tempConductorC, tempAmbientC)
    ensures c.diameterM > 0.0 ==> re > 0.0
  {
    var nu := KinematicViscosity(FilmTemperatureK(tempConductorC, tempAmbientC), t);
    var v := EffectiveWindSpeed(windSpeedMs, windAngleDeg, t);
    PositiveQuotient(v, c.diameterM, nu);
    v * c.diameterM / nu
  }

  lemma PositiveQuotient(a: real, b: real, c: real)
    requires 0.0 < a && 0.0 < c
    ensures 0.0 < b ==> a * b / c > 0.0
  {
  }

  /** Convective loss before the clamp at zero: pi D h (Tc - Ta). */
  function RawConvection(c: Conductor, tempConductorC: real, tempAmbientC: real,
                         windSpeedMs: real, windAngleDeg: real, t: Transcendentals): real
    requires Valid(t) && ConvectionDefined(c, tempConductorC, tempAmbientC)
  {
    var k := AirConductivity(FilmTemperatureK(tempConductorC, tempAmbientC));
    var re := ReynoldsNumber(c, tempConductorC, tempAmbientC, windSpeedMs, windAngleDeg, t);
    var h := Nusselt(re, t) * k / c.diameterM;
    t.pi * c.diameterM * h * (tempConductorC - tempAmbientC)
  }

  /** Qc, clamped so that it is never negative. */
  function ConvectiveHeatLoss(c: Conductor, tempConductorC: real, tempAmbientC: real,
                              windSpeedMs: real, windAngleDeg: real, t: Transcendentals): (qc: real)
    requires Valid(t) && ConvectionDefined(c, tempConductorC, tempAmbientC)
    ensures qc >= 0.0
  {
    Max(RawConvection(c, tempConductorC, tempAmbientC, windSpeedMs, windAngleDeg, t), 0.0)
  }

  lemma NusseltAtLeastThreeTenths(re: real, t: Transcendentals)
    requires Valid(t)
    ensures Nusselt(re, t) >= 0.3
  {
    if re >= 1.0 {
      ProductNonNegative(0.62 * t.sqrt(re), t.cbrtPrandtl);
    }
  }

  lemma AirConductivityPositive(tempConductorC: real, tempAmbientC: real)
    requires FilmTemperatureK(tempConductorC, tempAmbientC) > 0.0
    ensures AirConductivity(FilmTemperatureK(tempConductorC, tempAmbientC)) > 0.0
  {
  }

  /** The diameter cancels out of pi D h: the raw loss is pi Nu k (Tc - Ta). */
  lemma RawConvectionFactored(c: Conductor, tempConductorC: real, tempAmbientC: real,
                              windSpeedMs: real, windAngleDeg: real, t: Transcendentals)
    requires Valid(t) && ConvectionDefined(c, tempConductorC, tempAmbientC)
    ensures RawConvection(c, tempConductorC, tempAmbientC, windSpeedMs, windAngleDeg, t)
         == t.pi * (Nusselt(ReynoldsNumber(c, tempConductorC, tempAmbientC, windSpeedMs, windAngleDeg, t), t)
                    * AirConductivity(FilmTemperatureK(tempConductorC, tempAmbientC)))
            * (tempConductorC - tempAmbientC)
  {
    var k := AirConductivity(FilmTemperatureK(tempConductorC, tempAmbientC));
    var nus := Nusselt(ReynoldsNumber(c, tempConductorC, tempAmbientC, windSpeedMs, windAngleDeg, t), t);
    var d := c.diameterM;
    assert d * (nus * k / d) == nus * k;
    assert t.pi * d * (nus * k / d) == t.pi * (d * (nus * k / d));
  }

  /** Convection removes heat exactly when the conductor is hotter than the air. */
  lemma ConvectiveLossPositiveIffHotter(c: Conductor, tempConductorC: real, tempAmbientC: real,
                                        windSpeedMs: real, windAngleDeg: real, t: Transcendentals)
    requires Valid(t) && ConvectionDefined(c, tempConductorC, tempAmbientC)
    ensures ConvectiveHeatLoss(c, tempConductorC, tempAmbientC, windSpeedMs, windAngleDeg, t) > 0.0
            <==> tempConductorC > tempAmbientC
  {
    ConvectionAsClampedLoss(c, tempConductorC, tempAmbientC, windSpeedMs, windAngleDeg, t);
    var re := ReynoldsNumber(c, tempConductorC, tempAmbientC, windSpeedMs, windAngleDeg, t);
    NusseltAtLeastThreeTenths(re, t);
    AirConductivityPositive(tempConductorC, tempAmbientC);
    ClampedLossSign(t.pi, Nusselt(re, t), AirConductivity(FilmTemperatureK(tempConductorC, tempAmbientC)),
                    tempConductorC - tempAmbientC);
  }

  /** With positive factors the clamped loss is positive exactly when dT is. */
  lemma ClampedLossSign(pi: real, nu: real, k: real, dt: real)
    requires 0.0 < pi && 0.0 < nu && 0.0 < k
    ensures ClampedLoss(pi, nu, k, dt) > 0.0 <==> dt > 0.0
  {
    ProductPositive(nu, k);
    ProductPositive(pi, nu * k);
    if dt > 0.0 {
      ProductPositive(pi * (nu * k), dt);
    } else {
      ProductNonPositive(pi * (nu * k), dt);
    }
  }

  /** The arithmetic behind Nusselt monotonicity: with s the square root of
      the Reynolds number and c the Prandtl factor, 0.3 + 0.62 s c grows with
      s and is above 0.4 once s >= 1. */
  lemma CorrelationMonotone(s1: real, s2: real, c: real)
    requires 0.0 <= s1 <= s2 && 0.5 < c
    ensures 0.3 + 0.62 * s1 * c <= 0.3 + 0.62 * s2 * c
    ensures 1.0 <= s1 ==> 0.4 <= 0.3 + 0.62 * s1 * c
  {
    ScaleMonotone(0.62 * s1, 0.62 * s2, c);
    if 1.0 <= s1 {
      ScaleMonotone(0.62, 0.62 * s1, c);
      ScaleMonotone(0.5, c, 0.62);
    }
  }

  lemma NusseltMonotone(re1: real, re2: real, t: Transcendentals)
    requires Valid(t) && re1 <= re2
    ensures Nusselt(re1, t) <= Nusselt(re2, t)
  {
    CbrtPrandtlAboveHalf(t);
    if re1 >= 1.0 {
      SqrtMonotone(t, re1, re2);
      CorrelationMonotone(t.sqrt(re1), t.sqrt(re2), t.cbrtPrandtl);
    } else if re2 >= 1.0 {
      SqrtOne(t);
      SqrtMonotone(t, 1.0, re2);
      CorrelationMonotone(t.sqrt(re2), t.sqrt(re2), t.cbrtPrandtl);
    }
  }

  /** More wind gives a Reynolds number at least as large (positive diameter). */
  lemma ReynoldsNonDecreasingInWind(c: Conductor, tempConductorC: real, tempAmbientC: real,
                                    wind1: real, wind2: real, windAngleDeg: real, t: Transcendentals)
    requires Valid(t) && ConvectionDefined(c, tempConductorC, tempAmbientC)
    requires 0.0 < c.diameterM && wind1 <= wind2
    ensures ReynoldsNumber(c, tempConductorC, tempAmbientC, wind1, windAngleDeg, t)
         <= ReynoldsNumber(c, tempConductorC, tempAmbientC, wind2, windAngleDeg, t)
  {
    var v1 := EffectiveWindSpeed(wind1, windAngleDeg, t);
    var v2 := EffectiveWindSpeed(wind2, windAngleDeg, t);
    EffectiveWindMonotone(wind1, wind2, windAngleDeg, t);
    var nu := KinematicViscosity(FilmTemperatureK(tempConductorC, tempAmbientC), t);
    assert nu > 0.0;
    ScaledQuotientMonotone(v1, v2, c.diameterM, nu);
    assert ReynoldsNumber(c, tempConductorC, tempAmbientC, wind1, windAngleDeg, t) == v1 * c.diameterM / nu;
    assert ReynoldsNumber(c, tempConductorC, tempAmbientC, wind2, windAngleDeg, t) == v2 * c.diameterM / nu;
  }

  /** More wind never gives a smaller effective wind speed. */
  lemma EffectiveWindMonotone(wind1: real, wind2: real, windAngleDeg: real, t: Transcendentals)
    requires wind1 <= wind2
    ensures EffectiveWindSpeed(wind1, windAngleDeg, t) <= EffectiveWindSpeed(wind2, windAngleDeg, t)
  {
    ScaleMonotone(wind1, wind2, Abs(t.sinDeg(windAngleDeg)));
  }

  lemma ScaledQuotientMonotone(v1: real, v2: real, d: real, nu: real)
    requires v1 <= v2 && 0.0 < d && 0.0 < nu
    ensures v1 * d / nu <= v2 * d / nu
  {
    QuotientPositive(d, nu);
    ScaleMonotone(v1, v2, d / nu);
    assert v1 * d / nu == v1 * (d / nu);
    assert v2 * d / nu == v2 * (d / nu);
  }

  /** pi Nu k dT clamped at zero: the convective loss once the diameter has
      cancelled out. */
  function ClampedLoss(pi: real, nu: real, k: real, dt: real): real {
    Max(pi * (nu * k) * dt, 0.0)
  }

  lemma ConvectionAsClampedLoss(c: Conductor, tempConductorC: real, tempAmbientC: real,
                                windSpeedMs: real, windAngleDeg: real, t: Transcendentals)
    requires Valid(t) && ConvectionDefined(c, tempConductorC, tempAmbientC)
    ensures ConvectiveHeatLoss(c, tempConductorC, tempAmbientC, windSpeedMs, windAngleDeg, t)
         == ClampedLoss(t.pi, Nusselt(ReynoldsNumber(c, tempConductorC, tempAmbientC, windSpeedMs, windAngleDeg, t), t),
                        AirConductivity(FilmTemperatureK(tempConductorC, tempAmbientC)), tempConductorC - tempAmbientC)
  {
    RawConvectionFactored(c, tempConductorC, tempAmbientC, windSpeedMs, windAngleDeg, t);
  }

  /** The clamped loss pi Nu k dT grows with the Nusselt number. */
  lemma ClampedLossMonotone(pi: real, nu1: real, nu2: real, k: real, dt: real)
    requires 0.0 < pi && 0.0 < nu1 <= nu2 && 0.0 < k
    ensures ClampedLoss(pi, nu1, k, dt) <= ClampedLoss(pi, nu2, k, dt)
  {
    if dt >= 0.0 {
      ProductNonNegative(pi, dt);
      ProductNonNegative(k, pi * dt);
      ScaleMonotone(nu1, nu2, k * (pi * dt));
      assert pi * (nu1 * k) * dt == nu1 * (k * (pi * dt));
      assert pi * (nu2 * k) * dt == nu2 * (k * (pi * dt));
    } else {
      ClampedLossVanishes(pi, nu1 * k, dt) by { ProductPositive(nu1, k); }
      ClampedLossVanishes(pi, nu2 * k, dt) by { ProductPositive(nu2, k); }
    }
  }

  lemma ClampedLossVanishes(pi: real, g: real, dt: real)
    requires 0.0 < pi && 0.0 < g && dt < 0.0
    ensures Max(pi * g * dt, 0.0) == 0.0
  {
    ProductPositive(pi, g);
    ProductNonNegative(pi * g, -dt);
    assert pi * g * dt == -(pi * g * -dt);
  }

  /** Holding everything else fixed, more wind never reduces convective
      cooling (for a conductor of positive diameter). */
  lemma ConvectiveNonDecreasingInWind(c: Conductor, tempConductorC: real, tempAmbientC: real,
                                      wind1: real, wind2: real, windAngleDeg: real, t: Transcendentals)
    requires Valid(t) && ConvectionDefined(c, tempConductorC, tempAmbientC)
    requires 0.0 < c.diameterM && wind1 <= wind2
    ensures ConvectiveHeatLoss(c, tempConductorC, tempAmbientC, wind1, windAngleDeg, t)
         <= ConvectiveHeatLoss(c, tempConductorC, tempAmbientC, wind2, windAngleDeg, t)
  {
    ReynoldsNonDecreasingInWind(c, tempConductorC, tempAmbientC, wind1, wind2, windAngleDeg, t);
    var re1 := ReynoldsNumber(c, tempConductorC, tempAmbientC, wind1, windAngleDeg, t);
    var re2 := ReynoldsNumber(c, tempConductorC, tempAmbientC, wind2, windAngleDeg, t);
    NusseltMonotone(re1, re2, t);
    NusseltAtLeastThreeTenths(re1, t);
    AirConductivityPositive(tempConductorC, tempAmbientC);
    ConvectionAsClampedLoss(c, tempConductorC, tempAmbientC, wind1, windAngleDeg, t);
    ConvectionAsClampedLoss(c, tempConductorC, tempAmbientC, wind2, windAngleDeg, t);
    ClampedLossMonotone(t.pi, Nusselt(re1, t), Nusselt(re2, t),
                        AirConductivity(FilmTemperatureK(tempConductorC, tempAmbientC)), tempConductorC - tempAmbientC);
  }

  // ---------------------------------------------------------------------
  // Ampacity

  /** Net heat the conductor can shed at temperature Tc: Qc + Qr - Qs. */
  function NetCooling(c: Conductor, tempAmbientC: real, windSpeedMs: real, tempConductorMaxC: real,
                      solarAltitude: real, windAngleDeg: real, t: Transcendentals): real
    requires Valid(t) && ConvectionDefined(c, tempConductorMaxC, tempAmbientC)
  {
    ConvectiveHeatLoss(c, tempConductorMaxC, tempAmbientC, windSpeedMs, windAngleDeg, t)
      + RadiativeHeatLoss(c, tempConductorMaxC, tempAmbientC, t)
      - SolarHeatGain(c, solarAltitude, t)
  }

  /** Largest steady current whose Joule heating the net cooling absorbs at
      Tc; zero when there is no cooling budget or the resistance is not
      positive. */
  function CalculateAmpacity(c: Conductor, tempAmbientC: real, windSpeedMs: real, tempConductorMaxC: real,
                             solarAltitude: real, windAngleDeg: real, t: Transcendentals): (amp: real)
    requires Valid(t) && ConvectionDefined(c, tempConductorMaxC, tempAmbientC)
    ensures amp >= 0.0
    ensures NetCooling(c, tempAmbientC, windSpeedMs, tempConductorMaxC, solarAltitude, windAngleDeg, t) <= 0.0
            || Resistance(c, tempConductorMaxC) <= 0.0
            ==> amp == 0.0
    ensures NetCooling(c, tempAmbientC, windSpeedMs, tempConductorMaxC, solarAltitude, windAngleDeg, t) > 0.0
            && Resistance(c, tempConductorMaxC) > 0.0
            ==> amp * amp * Resistance(c, tempConductorMaxC)
                == NetCooling(c, tempAmbientC, windSpeedMs, tempConductorMaxC, solarAltitude, windAngleDeg, t)
  {
    AmpacityFromBalance(NetCooling(c, tempAmbientC, windSpeedMs, tempConductorMaxC, solarAltitude, windAngleDeg, t),
                        Resistance(c, tempConductorMaxC), t)
  }

  /** The current I with I^2 R = Qnet when both are positive, else 0: the
      early-return form of the plain calculation. */
  function AmpacityFromBalance(qNet: real, r: real, t: Transcendentals): (amp: real)
    requires Valid(t)
    ensures amp >= 0.0
    ensures qNet <= 0.0 || r <= 0.0 ==> amp == 0.0
    ensures qNet > 0.0 && r > 0.0 ==> amp * amp * r == qNet
  {
    if qNet <= 0.0 || r <= 0.0 then 0.0
    else
      QuotientPositive(qNet, r);
      var i := t.sqrt(qNet / r);
      SquareOfRoot(i, qNet, r);
      i
  }

  /** The same current in the detailed calculation's form, which clamps the
      radical's argument at zero instead of returning early. */
  function ClampedAmpacity(qNet: real, r: real, t: Transcendentals): (amp: real)
    requires Valid(t)
    ensures amp >= 0.0
  {
    if r > 0.0 then t.sqrt(Max(qNet / r, 0.0)) else 0.0
  }

  /** The two forms agree on every input. */
  lemma ClampedAmpacityAgrees(qNet: real, r: real, t: Transcendentals)
    requires Valid(t)
    ensures ClampedAmpacity(qNet, r, t) == AmpacityFromBalance(qNet, r, t)
  {
    if r > 0.0 && qNet <= 0.0 {
      assert qNet / r <= 0.0 by {
        assert qNet / r == -((-qNet) / r);
      }
      SqrtZero(t);
    }
  }

  lemma SquareOfRoot(i: real, q: real, r: real)
    requires r != 0.0 && i * i == q / r
    ensures i * i * r == q
  {
  }

  /** The breakdown reported alongside the ampacity. */
  datatype HeatBalance = HeatBalance(
    ampacity: real,
    qcConvective: real,
    qrRadiative: real,
    qsSolar: real,
    qNet: real,
    rConductor: real,
    tempConductor: real,
    tempAmbient: real,
    windSpeed: real
  )

  /** The detailed variant: same balance, with the radical's argument
      clamped at zero instead of returning early. */
  function CalculateAmpacityDetailed(c: Conductor, tempAmbientC: real, windSpeedMs: real, tempConductorMaxC: real,
                                     solarAltitude: real, windAngleDeg: real, t: Transcendentals): (d: HeatBalance)
    requires Valid(t) && ConvectionDefined(c, tempConductorMaxC, tempAmbientC)
    ensures d.qNet == d.qcConvective + d.qrRadiative - d.qsSolar
    ensures d.qcConvective >= 0.0 && d.ampacity >= 0.0
    ensures solarAltitude <= 0.0 ==> d.qsSolar == 0.0
    ensures d.rConductor == Resistance(c, tempConductorMaxC)
    ensures d.tempConductor == tempConductorMaxC && d.tempAmbient == tempAmbientC && d.windSpeed == windSpeedMs
  {
    var qc := ConvectiveHeatLoss(c, tempConductorMaxC, tempAmbientC, windSpeedMs, windAngleDeg, t);
    var qr := RadiativeHeatLoss(c, tempConductorMaxC, tempAmbientC, t);
    var qs := SolarHeatGain(c, solarAltitude, t);
    var qNet := qc + qr - qs;
    var r := Resistance(c, tempConductorMaxC);
    HeatBalance(ClampedAmpacity(qNet, r, t), qc, qr, qs, qNet, r, tempConductorMaxC, tempAmbientC, windSpeedMs)
  }

  /** The detailed calculation reports the same ampacity as the plain one
      for every input, although it clamps instead of returning early. */
  lemma DetailedAgreesWithAmpacity(c: Conductor, tempAmbientC: real, windSpeedMs: real, tempConductorMaxC: real,
                                   solarAltitude: real, windAngleDeg: real, t: Transcendentals)
    requires Valid(t) && ConvectionDefined(c, tempConductorMaxC, tempAmbientC)
    ensures CalculateAmpacityDetailed(c, tempAmbientC, windSpeedMs, tempConductorMaxC, solarAltitude, windAngleDeg, t).ampacity
         == CalculateAmpacity(c, tempAmbientC, windSpeedMs, tempConductorMaxC, solarAltitude, windAngleDeg, t)
    ensures CalculateAmpacityDetailed(c, tempAmbientC, windSpeedMs, tempConductorMaxC, solarAltitude, windAngleDeg, t).qNet
         == NetCooling(c, tempAmbientC, windSpeedMs, tempConductorMaxC, solarAltitude, windAngleDeg, t)
  {
    ClampedAmpacityAgrees(NetCooling(c, tempAmbientC, windSpeedMs, tempConductorMaxC, solarAltitude, windAngleDeg, t),
                          Resistance(c, tempConductorMaxC), t);
  }

  /** Holding everything else fixed, more wind never lowers the ampacity. */
  lemma AmpacityNonDecreasingInWind(c: Conductor, tempAmbientC: real, wind1: real, wind2: real,
                                    tempConductorMaxC: real, solarAltitude: real, windAngleDeg: real,
                                    t: Transcendentals)
    requires Valid(t) && ConvectionDefined(c, tempConductorMaxC, tempAmbientC)
    requires 0.0 < c.diameterM && wind1 <= wind2
    ensures CalculateAmpacity(c, tempAmbientC, wind1, tempConductorMaxC, solarAltitude, windAngleDeg, t)
         <= CalculateAmpacity(c, tempAmbientC, wind2, tempConductorMaxC, solarAltitude, windAngleDeg, t)
  {
    ConvectiveNonDecreasingInWind(c, tempConductorMaxC, tempAmbientC, wind1, wind2, windAngleDeg, t);
    var q1 := NetCooling(c, tempAmbientC, wind1, tempConductorMaxC, solarAltitude, windAngleDeg, t);
    var q2 := NetCooling(c, tempAmbientC, wind2, tempConductorMaxC, solarAltitude, windAngleDeg, t);
    var r := Resistance(c, tempConductorMaxC);
    if q1 > 0.0 && r > 0.0 {
      QuotientMonotone(q1, q2, r);
      SqrtMonotone(t, q1 / r, q2 / r);
    }
  }

  lemma QuotientMonotone(a: real, b: real, r: real)
    requires 0.0 <= a <= b && 0.0 < r
    ensures 0.0 <= a / r <= b / r
  {
    ScaleMonotone(a, b, 1.0 / r);
    ProductNonNegative(a, 1.0 / r);
  }

  // ---------------------------------------------------------------------
  // Conductor catalogue

  datatype CatalogEntry = CatalogEntry(name: string, diameterM: real, rOhmPerKm: real, tempCoeff: real)

  /** Parameters handed to the calculator; resistance also per metre. */
  datatype ConductorParams = ConductorParams(diameterM: real, rOhmPerKm: real, tempCoeff: real, rOhmPerM: real)

  const ConductorDatabase: seq<CatalogEntry> := [
    CatalogEntry("336.4 ACSR 30/7 ORIOLE", 0.0188, 0.2708, 0.00404),
    CatalogEntry("556.5 ACSR 26/7 DOVE", 0.0235, 0.1655, 0.00404),
    CatalogEntry("795 ACSR 26/7 DRAKE", 0.028, 0.1166, 0.00404),
    CatalogEntry("954 ACSR 54/7 CARDINAL", 0.0303, 0.0986, 0.00404),
    CatalogEntry("1272 ACSR 45/7 BITTERN", 0.0341, 0.0761, 0.00404),
    CatalogEntry("1590 ACSR 54/19 FALCON", 0.0392, 0.0613, 0.00404)
  ]

  /** Values used for a conductor name the catalogue does not know (DRAKE). */
  const DefaultDiameterM: real := 0.028
  const DefaultROhmPerKm: real := 0.1166
  const DefaultTempCoeff: real := 0.00404

  function FindConductor(db: seq<CatalogEntry>, name: string): Option<CatalogEntry> {
    FindBy(db, (e: CatalogEntry) => e.name, name)
  }

  predicate CatalogueValid(db: seq<CatalogEntry>) {
    forall e :: e in db ==> 0.0 < e.diameterM && 0.0 < e.rOhmPerKm && 0.0 < e.tempCoeff
  }

  /** The catalogue lists six ACSR conductors from the smallest to the
      largest: every parameter is positive, the names are distinct, a larger
      conductor has a larger diameter and a smaller resistance, every entry
      shares the aluminium coefficient 0.00404, and the fallback values are
      those of the DRAKE entry. */
  lemma CatalogueIsValid()
    ensures CatalogueValid(ConductorDatabase)
    ensures forall i, j :: 0 <= i < j < |ConductorDatabase| ==> ConductorDatabase[i].name != ConductorDatabase[j].name
    ensures forall i, j :: 0 <= i < j < |ConductorDatabase| ==>
              ConductorDatabase[i].diameterM < ConductorDatabase[j].diameterM
              && ConductorDatabase[i].rOhmPerKm > ConductorDatabase[j].rOhmPerKm
    ensures forall e :: e in ConductorDatabase ==> e.tempCoeff == DefaultTempCoeff
    ensures ConductorDatabase[2] == CatalogEntry("795 ACSR 26/7 DRAKE", DefaultDiameterM, DefaultROhmPerKm, DefaultTempCoeff)
  {
    CatalogueNamesDistinct();
    CatalogueOrderedBySize();
  }

  lemma CatalogueNamesDistinct()
    ensures forall i, j :: 0 <= i < j < |ConductorDatabase| ==> ConductorDatabase[i].name != ConductorDatabase[j].name
  {
    forall i, j | 0 <= i < j < |ConductorDatabase|
      ensures ConductorDatabase[i].name != ConductorDatabase[j].name
    {
      assert ConductorDatabase[i].name[0] != ConductorDatabase[j].name[0]
          || ConductorDatabase[i].name[1] != ConductorDatabase[j].name[1];
    }
  }

  lemma CatalogueOrderedBySize()
    ensures forall i, j :: 0 <= i < j < |ConductorDatabase| ==>
              ConductorDatabase[i].diameterM < ConductorDatabase[j].diameterM
              && ConductorDatabase[i].rOhmPerKm > ConductorDatabase[j].rOhmPerKm
  {
  }

  /** Looks a conductor up by name, falling back to DRAKE, and adds the
      per-metre resistance. */
  function GetConductorParams(name: string): (p: ConductorParams)
    ensures p.rOhmPerM == p.rOhmPerKm / 1000.0
    ensures FindConductor(ConductorDatabase, name).None?
            ==> p.diameterM == DefaultDiameterM && p.rOhmPerKm == DefaultROhmPerKm && p.tempCoeff == DefaultTempCoeff
    ensures FindConductor(ConductorDatabase, name).Some?
            ==> var e := FindConductor(ConductorDatabase, name).value;
                p.diameterM == e.diameterM && p.rOhmPerKm == e.rOhmPerKm && p.tempCoeff == e.tempCoeff
    ensures 0.0 < p.diameterM && 0.0 < p.rOhmPerM && 0.0 < p.tempCoeff
  {
    CatalogueIsValid();
    match FindConductor(ConductorDatabase, name)
    case Some(e) => ConductorParams(e.diameterM, e.rOhmPerKm, e.tempCoeff, e.rOhmPerKm / 1000.0)
    case None => ConductorParams(DefaultDiameterM, DefaultROhmPerKm, DefaultTempCoeff, DefaultROhmPerKm / 1000.0)
  }

  /** An unknown conductor name gets exactly the DRAKE record. */
  lemma UnknownConductorIsDrake(name: string)
    requires FindConductor(ConductorDatabase, name).None?
    ensures GetConductorParams(name) == GetConductorParams("795 ACSR 26/7 DRAKE")
  {
    assert FindConductor(ConductorDatabase, "795 ACSR 26/7 DRAKE") == Some(ConductorDatabase[2]);
  }

  /** The calculator the services build for a line: catalogue diameter,
      per-metre resistance as the 25 degC value, catalogue coefficient. */
  function CalculatorFor(p: ConductorParams, emissivity: real, absorptivity: real): (c: Conductor)
    ensures c.diameterM == p.diameterM && c.r25 == p.rOhmPerM && c.alpha == p.tempCoeff
    ensures c.emissivity == emissivity && c.absorptivity == absorptivity
  {
    Conductor(p.diameterM, emissivity, absorptivity, p.rOhmPerM, p.tempCoeff)
  }
}
