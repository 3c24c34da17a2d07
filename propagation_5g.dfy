/**
 * The 5G propagation models: free-space loss (Friis), the 3GPP TR 38.901
 * path-loss model (clause 7.4.1, Table 7.4.1-1 of 3GPP TR 38.901) and a
 * millimetre-wave model. Frequencies are in Hz, distances and heights in
 * metres.
 */
module FiveG {
  import opened Common

  const SpeedOfLight: real := 300000000.0

  /** The scenarios the 3GPP model accepts, in the order its error message lists them. */
  const Scenarios: seq<string> := ["UMa", "UMi", "RMa", "InH-Office", "InH-ShoppingMall"]

  const TgppFrequencyLo: real := 500000000.0      // 0.5 GHz
  const TgppFrequencyHi: real := 100000000000.0   // 100 GHz
  const TgppDistanceLo: real := 10.0
  const TgppDistanceHi: real := 10000.0

  const MmWaveFrequencyLo: real := 24000000000.0  // 24 GHz
  const MmWaveFrequencyHi: real := 100000000000.0 // 100 GHz

  /** Extra loss of a non-line-of-sight mmWave link, in dB. */
  const NlosPenalty: real := 20.0

  function Max(a: real, b: real): (r: real)
    ensures r >= a && r >= b && (r == a || r == b)
  {
    if a >= b then a else b
  }

  /** `PropagationModel5G.free_space_path_loss` (Friis). */
  function FreeSpacePathLoss(m: Math, frequency: real, distance: real): (r: Result<real, Error>)
    ensures r.Failure? <==> frequency <= 0.0 || distance <= 0.0
    ensures r.Failure? ==> r.error == NonPositiveInput
  {
    if frequency <= 0.0 || distance <= 0.0 then Failure(NonPositiveInput)
    else
      var wavelength := SpeedOfLight / frequency;
      assert wavelength > 0.0;
      Success(20.0 * m.log10((4.0 * m.pi * distance) / wavelength))
  }

  /** With a monotone log10, free-space loss grows strictly with distance. */
  lemma FreeSpaceIncreasesWithDistance(m: Math, frequency: real, d1: real, d2: real)
    requires Log10Sound(m)
    requires 0.0 < frequency && 0.0 < d1 < d2
    ensures FreeSpacePathLoss(m, frequency, d1).value < FreeSpacePathLoss(m, frequency, d2).value
  {
    var wavelength := SpeedOfLight / frequency;
    assert wavelength > 0.0;
    var k := 4.0 * m.pi;
    var a1, a2 := k * d1, k * d2;
    assert 0.0 < a1 < a2;
    var x1, x2 := a1 / wavelength, a2 / wavelength;
    assert 0.0 < x1 < x2;
  }

  /** Distance between the antennas in three dimensions. */
  function Distance3D(m: Math, distance: real, hBs: real, hUt: real): real {
    m.sqrt(Sq(distance) + Sq(hBs - hUt))
  }

  /** The 3D distance is never shorter than the 2D distance. */
  lemma Distance3DAtLeast2D(m: Math, distance: real, hBs: real, hUt: real)
    requires SqrtSound(m)
    requires 0.0 <= distance
    ensures distance <= Distance3D(m, distance, hBs, hUt)
  {
    var b := hBs - hUt;
    assert Sq(distance) + Sq(b) == distance * distance + b * b;
    SqrtDominates(m, distance, b);
    assert Distance3D(m, distance, hBs, hUt) == m.sqrt(distance * distance + b * b);
  }

  /** Breakpoint distance of the UMa LOS model. */
  function UmaBreakpoint(frequency: real, hBs: real, hUt: real): real {
    4.0 * hBs * hUt * (frequency / SpeedOfLight)
  }

  function UmaLosNear(m: Math, d3d: real, fGhz: real): real {
    28.0 + 22.0 * m.log10(d3d) + 20.0 * m.log10(fGhz)
  }

  /** UMa LOS: one slope before the breakpoint, another from it on. */
  function UmaLos(m: Math, frequency: real, distance: real, d3d: real, fGhz: real, hBs: real, hUt: real)
    : Result<real, Error>
  {
    var dbp := UmaBreakpoint(frequency, hBs, hUt);
    if distance < dbp then Success(UmaLosNear(m, d3d, fGhz))
    else
      var tail :- Log10Checked(m, Sq(dbp) + Sq(hBs - hUt));
      Success(28.0 + 40.0 * m.log10(d3d) + 20.0 * m.log10(fGhz) - 9.0 * tail)
  }

  function UmaNlos(m: Math, d3d: real, fGhz: real, hUt: real): real {
    13.54 + 39.08 * m.log10(d3d) + 20.0 * m.log10(fGhz) - 0.6 * (hUt - 1.5)
  }

  function UmiLos(m: Math, d3d: real, fGhz: real): real {
    32.4 + 21.0 * m.log10(d3d) + 20.0 * m.log10(fGhz)
  }

  function UmiNlos(m: Math, d3d: real, fGhz: real, hUt: real): real {
    35.3 * m.log10(d3d) + 22.4 + 21.3 * m.log10(fGhz) - 0.3 * (hUt - 1.5)
  }

  /** Breakpoint distance of the RMa LOS model. */
  function RmaBreakpoint(m: Math, frequency: real, hBs: real, hUt: real): real {
    2.0 * m.pi * hBs * hUt * (frequency / SpeedOfLight)
  }

  /** RMa LOS: free-space loss plus a slope correction, in three distance regimes. */
  function RmaLos(m: Math, frequency: real, distance: real, hBs: real, hUt: real): Result<real, Error> {
    var dbp := RmaBreakpoint(m, frequency, hBs, hUt);
    if distance < 10.0 then
      var fs :- FreeSpacePathLoss(m, frequency, 10.0);
      var slope :- Log10Checked(m, distance / 10.0);
      Success(fs + 10.0 * 2.1 * slope)
    else if distance <= dbp then
      var fs :- FreeSpacePathLoss(m, frequency, distance);
      Success(fs + 10.0 * 2.1 * m.log10(distance / 10.0))
    else
      var fs :- FreeSpacePathLoss(m, frequency, dbp);
      Success(fs + 10.0 * 2.1 * m.log10(dbp / 10.0) + 40.0 * m.log10(distance / dbp))
  }

  /**
   * RMa NLOS formula, with Python's evaluation order: log10(w), log10(h),
   * h / h_bs, log10(h_bs), then log10(11.75 h_ut).
   */
  function RmaNlos(m: Math, d3d: real, fGhz: real, hBs: real, hUt: real, h: real, w: real)
    : Result<real, Error>
  {
    var logW :- Log10Checked(m, w);
    var logH :- Log10Checked(m, h);
    if hBs == 0.0 then Failure(ZeroDivision)
    else
      var ratio := h / hBs;
      var logBs :- Log10Checked(m, hBs);
      var logUt :- Log10Checked(m, 11.75 * hUt);
      Success(161.04 - 7.1 * logW + 7.5 * logH - (24.37 - 3.7 * Sq(ratio)) * logBs
              + (43.42 - 3.1 * logBs) * (m.log10(d3d) - 3.0) + 20.0 * m.log10(fGhz)
              - (3.2 * Sq(logUt) - 4.97))
  }

  function InhLos(m: Math, d3d: real, fGhz: real): real {
    32.4 + 17.3 * m.log10(d3d) + 20.0 * m.log10(fGhz)
  }

  function InhOfficeNlos(m: Math, d3d: real, fGhz: real): real {
    38.3 * m.log10(d3d) + 17.3 + 24.9 * m.log10(fGhz)
  }

  function InhMallNlos(m: Math, d3d: real, fGhz: real): real {
    42.7 * m.log10(d3d) + 11.3 + 20.0 * m.log10(fGhz)
  }

  /**
   * `ThreeGPP_TR_38901.path_loss`: the frequency and distance checks, then
   * dispatch on the scenario. Any condition other than "LOS" is NLOS, whose
   * loss is the larger of the LOS loss and the scenario's NLOS formula; UMa
   * and RMa obtain the LOS loss by calling the model again with "LOS".
   */
  function PathLoss(m: Math, frequency: real, distance: real, scenario: string, losCondition: string,
                    hBs: real := 10.0, hUt: real := 1.5, h: real := 5.0, w: real := 20.0)
    : (r: Result<real, Error>)
    decreases if losCondition == "LOS" then 0 else 1
    ensures !(500000000.0 <= frequency <= 100000000000.0) ==>
      r == Failure(OutOfRange(Frequency, TgppFrequencyLo, TgppFrequencyHi))
    ensures 500000000.0 <= frequency <= 100000000000.0 && !(10.0 <= distance <= 10000.0) ==>
      r == Failure(OutOfRange(Distance, TgppDistanceLo, TgppDistanceHi))
    ensures 500000000.0 <= frequency <= 100000000000.0 && 10.0 <= distance <= 10000.0 && scenario !in Scenarios ==>
      r == Failure(UnsupportedScenario(scenario, Scenarios))
    ensures r.Success? ==> 10.0 <= distance <= 10000.0 && scenario in Scenarios
  {
    if !(TgppFrequencyLo <= frequency <= TgppFrequencyHi) then
      Failure(OutOfRange(Frequency, TgppFrequencyLo, TgppFrequencyHi))
    else if !(TgppDistanceLo <= distance <= TgppDistanceHi) then
      Failure(OutOfRange(Distance, TgppDistanceLo, TgppDistanceHi))
    else
      var fGhz := frequency / 1000000000.0;
      var d3d := Distance3D(m, distance, hBs, hUt);
      if scenario == "UMa" then
        if losCondition == "LOS" then UmaLos(m, frequency, distance, d3d, fGhz, hBs, hUt)
        else
          var plLos :- PathLoss(m, frequency, distance, "UMa", "LOS", hBs, hUt);
          Success(Max(plLos, UmaNlos(m, d3d, fGhz, hUt)))
      else if scenario == "UMi" then
        if losCondition == "LOS" then Success(UmiLos(m, d3d, fGhz))
        else Success(Max(UmiLos(m, d3d, fGhz), UmiNlos(m, d3d, fGhz, hUt)))
      else if scenario == "RMa" then
        if losCondition == "LOS" then RmaLos(m, frequency, distance, hBs, hUt)
        else
          var plLos :- PathLoss(m, frequency, distance, "RMa", "LOS", hBs, hUt);
          var plNlos :- RmaNlos(m, d3d, fGhz, hBs, hUt, h, w);
          Success(Max(plLos, plNlos))
      else if scenario == "InH-Office" then
        if losCondition == "LOS" then Success(InhLos(m, d3d, fGhz))
        else Success(Max(InhLos(m, d3d, fGhz), InhOfficeNlos(m, d3d, fGhz)))
      else if scenario == "InH-ShoppingMall" then
        if losCondition == "LOS" then Success(InhLos(m, d3d, fGhz))
        else Success(Max(InhLos(m, d3d, fGhz), InhMallNlos(m, d3d, fGhz)))
      else
        Failure(UnsupportedScenario(scenario, Scenarios))
  }

  /**
   * UMa LOS has no jump at the breakpoint 4 h_bs h_ut f / c: at that
   * distance the far-regime formula, which applies there, gives the loss of
   * the near-regime formula, because its 3D distance squared is exactly the
   * argument d_bp² + (h_bs - h_ut)² of the far regime's log10.
   */
  lemma UmaLosContinuousAtBreakpoint(m: Math, frequency: real, hBs: real, hUt: real)
    requires SqrtSound(m) && Log10OfSquare(m)
    requires TgppFrequencyLo <= frequency <= TgppFrequencyHi
    requires TgppDistanceLo <= UmaBreakpoint(frequency, hBs, hUt) <= TgppDistanceHi
    ensures var dbp := UmaBreakpoint(frequency, hBs, hUt);
            PathLoss(m, frequency, dbp, "UMa", "LOS", hBs, hUt)
              == Success(UmaLosNear(m, Distance3D(m, dbp, hBs, hUt), frequency / 1000000000.0))
  {
    var dbp := UmaBreakpoint(frequency, hBs, hUt);
    var arg := Sq(dbp) + Sq(hBs - hUt);
    SqPositive(dbp);
    SqNonNegative(hBs - hUt);
    var d3d := Distance3D(m, dbp, hBs, hUt);
    assert d3d == m.sqrt(arg);
    assert Sq(d3d) == arg;
    assert d3d != 0.0;
    assert m.log10(arg) == 2.0 * m.log10(d3d);
  }

  /**
   * The NLOS floor: in every scenario, a condition other than "LOS" that
   * yields a loss yields one no smaller than the LOS loss, which is itself
   * defined. Outside RMa, whose NLOS formula can hit a log10 domain error of
   * its own, NLOS yields a loss exactly when LOS does.
   */
  lemma NlosNeverBelowLos(m: Math, frequency: real, distance: real, scenario: string, los: string,
                          hBs: real, hUt: real, h: real, w: real)
    requires los != "LOS"
    ensures var nlos := PathLoss(m, frequency, distance, scenario, los, hBs, hUt, h, w);
            var losLoss := PathLoss(m, frequency, distance, scenario, "LOS", hBs, hUt, h, w);
            && (nlos.Success? ==> losLoss.Success? && nlos.value >= losLoss.value)
            && (scenario != "RMa" ==> (nlos.Success? <==> losLoss.Success?))
  {
    // The LOS loss does not depend on h and w.
    assert PathLoss(m, frequency, distance, scenario, "LOS", hBs, hUt, h, w)
        == PathLoss(m, frequency, distance, scenario, "LOS", hBs, hUt);
  }

  /** InH-Office and InH-ShoppingMall share their LOS formula. */
  lemma IndoorLosScenariosAgree(m: Math, frequency: real, distance: real, hBs: real, hUt: real)
    ensures PathLoss(m, frequency, distance, "InH-Office", "LOS", hBs, hUt)
         == PathLoss(m, frequency, distance, "InH-ShoppingMall", "LOS", hBs, hUt)
  {
  }

  /**
   * The RMa regime for distances below 10 m is never reached through the
   * model: the distance check rejects those distances first, so every RMa
   * loss comes from the two other regimes, although `RmaLos` alone would
   * use the first one.
   */
  lemma RmaNearRegimeUnreachable(m: Math, frequency: real, distance: real, los: string, hBs: real, hUt: real)
    requires distance < 10.0
    ensures PathLoss(m, frequency, distance, "RMa", los, hBs, hUt).Failure?
    ensures TgppFrequencyLo <= frequency <= TgppFrequencyHi ==>
      PathLoss(m, frequency, distance, "RMa", los, hBs, hUt).error == OutOfRange(Distance, TgppDistanceLo, TgppDistanceHi)
    ensures 0.0 < frequency && 0.0 < distance ==>
      RmaLos(m, frequency, distance, hBs, hUt)
        == Success(FreeSpacePathLoss(m, frequency, 10.0).value + 10.0 * 2.1 * m.log10(distance / 10.0))
  {
  }

  /**
   * RMa LOS with an in-range distance succeeds only with a positive
   * breakpoint, which needs a non-zero base-station height.
   */
  lemma RmaLosNeedsBaseHeight(m: Math, frequency: real, distance: real, hBs: real, hUt: real)
    requires 10.0 <= distance
    requires RmaLos(m, frequency, distance, hBs, hUt).Success?
    ensures hBs != 0.0
  {
    var dbp := RmaBreakpoint(m, frequency, hBs, hUt);
    if dbp < distance {
      assert FreeSpacePathLoss(m, frequency, dbp).Success?;
    }
    assert dbp > 0.0;
    var rest := hUt * (frequency / SpeedOfLight);
    assert dbp == (2.0 * m.pi) * hBs * rest;
  }

  /** The square of a non-zero number is positive. */
  lemma SqPositive(x: real)
    requires x != 0.0
    ensures Sq(x) > 0.0
  {
    var a := if x < 0.0 then -x else x;
    SquareStrictlyMonotone(0.0, a);
    assert Sq(x) == a * a;
  }

  /** A product of a positive factor keeps the sign of the other factor. */
  lemma ScaledSign(c: real, x: real)
    requires c > 0.0
    ensures x > 0.0 <==> c * x > 0.0
  {
    if x > 0.0 {
      assert c * x > 0.0;
    } else {
      assert c * x == -(c * -x);
    }
  }

  /**
   * In range, UMa yields a loss under any condition unless both antenna
   * heights are 0: only then is d_bp² + (h_bs - h_ut)², the argument of the
   * far-regime log10, not positive (the breakpoint is then 0, so every
   * distance is in the far regime).
   */
  lemma UmaSucceedsUnlessBothHeightsZero(m: Math, frequency: real, distance: real, los: string,
                                         hBs: real, hUt: real)
    requires TgppFrequencyLo <= frequency <= TgppFrequencyHi
    requires TgppDistanceLo <= distance <= TgppDistanceHi
    ensures PathLoss(m, frequency, distance, "UMa", los, hBs, hUt).Success? <==> !(hBs == 0.0 && hUt == 0.0)
  {
    var dbp := UmaBreakpoint(frequency, hBs, hUt);
    var q := frequency / SpeedOfLight;
    var arg := Sq(dbp) + Sq(hBs - hUt);
    SqNonNegative(dbp);
    SqNonNegative(hBs - hUt);
    if hBs == 0.0 && hUt == 0.0 {
      assert dbp == 0.0;
      assert arg == 0.0;
    } else if hBs != hUt {
      SqPositive(hBs - hUt);
    } else {
      assert dbp == (4.0 * q) * Sq(hBs);
      SqPositive(hBs);
      ScaledSign(4.0 * q, Sq(hBs));
      SqPositive(dbp);
    }
    var fGhz := frequency / 1000000000.0;
    var d3d := Distance3D(m, distance, hBs, hUt);
    assert PathLoss(m, frequency, distance, "UMa", "LOS", hBs, hUt) == UmaLos(m, frequency, distance, d3d, fGhz, hBs, hUt);
  }

  /**
   * In range, RMa LOS yields a loss exactly when h_bs h_ut > 0: the
   * breakpoint 2 pi h_bs h_ut f / c is then positive, and otherwise every
   * distance is past it and the free-space loss at the breakpoint fails.
   */
  lemma RmaLosSucceedsIffBreakpointPositive(m: Math, frequency: real, distance: real, hBs: real, hUt: real)
    requires TgppFrequencyLo <= frequency <= TgppFrequencyHi
    requires TgppDistanceLo <= distance <= TgppDistanceHi
    ensures PathLoss(m, frequency, distance, "RMa", "LOS", hBs, hUt).Success? <==> hBs * hUt > 0.0
  {
    var dbp := RmaBreakpoint(m, frequency, hBs, hUt);
    var c := 2.0 * m.pi * (frequency / SpeedOfLight);
    assert dbp == c * (hBs * hUt);
    ScaledSign(2.0 * m.pi, frequency / SpeedOfLight);
    ScaledSign(c, hBs * hUt);
  }

  /**
   * In range, RMa under a condition other than "LOS" yields a loss exactly
   * when h_bs, h_ut, h and w are all positive: the LOS loss needs
   * h_bs h_ut > 0 and the NLOS formula takes log10 of w, h, h_bs and
   * 11.75 h_ut.
   */
  lemma RmaNlosSucceedsIffPositiveDimensions(m: Math, frequency: real, distance: real, los: string,
                                             hBs: real, hUt: real, h: real, w: real)
    requires TgppFrequencyLo <= frequency <= TgppFrequencyHi
    requires TgppDistanceLo <= distance <= TgppDistanceHi
    requires los != "LOS"
    ensures PathLoss(m, frequency, distance, "RMa", los, hBs, hUt, h, w).Success?
        <==> hBs > 0.0 && hUt > 0.0 && h > 0.0 && w > 0.0
  {
    RmaLosSucceedsIffBreakpointPositive(m, frequency, distance, hBs, hUt);
    ScaledSign(11.75, hUt);
    if hBs > 0.0 {
      ScaledSign(hBs, hUt);
    }
    var fGhz := frequency / 1000000000.0;
    var d3d := Distance3D(m, distance, hBs, hUt);
    var plLos := PathLoss(m, frequency, distance, "RMa", "LOS", hBs, hUt);
    var plNlos := RmaNlos(m, d3d, fGhz, hBs, hUt, h, w);
    assert PathLoss(m, frequency, distance, "RMa", los, hBs, hUt, h, w).Success? <==> plLos.Success? && plNlos.Success?;
  }

  /**
   * When an in-range call yields a loss: always for UMi and the two indoor
   * scenarios, for UMa unless both heights are 0, for RMa under the height
   * conditions above, never for another scenario.
   */
  lemma InRangeSuccess(m: Math, frequency: real, distance: real, scenario: string, los: string,
                       hBs: real, hUt: real, h: real, w: real)
    requires TgppFrequencyLo <= frequency <= TgppFrequencyHi
    requires TgppDistanceLo <= distance <= TgppDistanceHi
    ensures var r := PathLoss(m, frequency, distance, scenario, los, hBs, hUt, h, w);
            && (scenario in ["UMi", "InH-Office", "InH-ShoppingMall"] ==> r.Success?)
            && (scenario == "UMa" ==> (r.Success? <==> !(hBs == 0.0 && hUt == 0.0)))
            && (scenario == "RMa" && los == "LOS" ==> (r.Success? <==> hBs * hUt > 0.0))
            && (scenario == "RMa" && los != "LOS" ==> (r.Success? <==> hBs > 0.0 && hUt > 0.0 && h > 0.0 && w > 0.0))
            && (scenario !in Scenarios ==> r.Failure?)
  {
    if scenario == "UMa" {
      assert PathLoss(m, frequency, distance, scenario, los, hBs, hUt, h, w)
          == PathLoss(m, frequency, distance, scenario, los, hBs, hUt);
      UmaSucceedsUnlessBothHeightsZero(m, frequency, distance, los, hBs, hUt);
    } else if scenario == "RMa" && los == "LOS" {
      assert PathLoss(m, frequency, distance, scenario, los, hBs, hUt, h, w)
          == PathLoss(m, frequency, distance, scenario, los, hBs, hUt);
      RmaLosSucceedsIffBreakpointPositive(m, frequency, distance, hBs, hUt);
    } else if scenario == "RMa" {
      RmaNlosSucceedsIffPositiveDimensions(m, frequency, distance, los, hBs, hUt, h, w);
    }
  }

  /**
   * The only errors the 3GPP model raises are `ValueError`s: the division by
   * h_bs in the RMa NLOS formula is reached only after the RMa LOS loss,
   * which already fails when h_bs is 0.
   */
  lemma OnlyValueErrors(m: Math, frequency: real, distance: real, scenario: string, los: string,
                        hBs: real, hUt: real, h: real, w: real)
    ensures var r := PathLoss(m, frequency, distance, scenario, los, hBs, hUt, h, w);
            r.Failure? ==> IsValueError(r.error)
  {
    var r := PathLoss(m, frequency, distance, scenario, los, hBs, hUt, h, w);
    if r.Failure? && TgppFrequencyLo <= frequency <= TgppFrequencyHi
       && TgppDistanceLo <= distance <= TgppDistanceHi && scenario == "RMa" && los != "LOS" {
      var plLos := PathLoss(m, frequency, distance, "RMa", "LOS", hBs, hUt);
      if plLos.Success? {
        RmaLosNeedsBaseHeight(m, frequency, distance, hBs, hUt);
      }
    }
  }

  /**
   * `MillimeterWavePropagation.path_loss`: the 24-100 GHz check, then
   * free-space loss plus a 20 dB penalty unless "LOS", plus the material
   * attenuation (dB/m) times the distance.
   */
  function MmWavePathLoss(m: Math, frequency: real, distance: real, losCondition: string,
                          materialAttenuation: real := 0.0)
    : (r: Result<real, Error>)
    ensures !(24000000000.0 <= frequency <= 100000000000.0) ==>
      r == Failure(OutOfRange(Frequency, MmWaveFrequencyLo, MmWaveFrequencyHi))
    ensures 24000000000.0 <= frequency <= 100000000000.0 ==>
      (r.Failure? <==> distance <= 0.0) && (r.Failure? ==> r.error == NonPositiveInput)
  {
    if !(MmWaveFrequencyLo <= frequency <= MmWaveFrequencyHi) then
      Failure(OutOfRange(Frequency, MmWaveFrequencyLo, MmWaveFrequencyHi))
    else
      var fspl :- FreeSpacePathLoss(m, frequency, distance);
      var nlosPenalty := if losCondition == "LOS" then 0.0 else NlosPenalty;
      var materialLoss := materialAttenuation * distance;
      Success(fspl + nlosPenalty + materialLoss)
  }

  /**
   * mmWave decomposes into its three terms: LOS without attenuation is pure
   * free-space loss, NLOS adds exactly 20 dB, and attenuation adds
   * attenuation times distance.
   */
  lemma MmWaveDecomposition(m: Math, frequency: real, distance: real, los: string, attenuation: real)
    requires MmWavePathLoss(m, frequency, distance, los, attenuation).Success?
    ensures MmWavePathLoss(m, frequency, distance, "LOS", 0.0) == FreeSpacePathLoss(m, frequency, distance)
    ensures MmWavePathLoss(m, frequency, distance, los, attenuation).value
         == MmWavePathLoss(m, frequency, distance, "LOS", 0.0).value
            + (if los == "LOS" then 0.0 else 20.0) + attenuation * distance
  {
  }
}
