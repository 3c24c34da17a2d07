/**
 * The Okumura-Hata path-loss model (150-1500 MHz) and its coverage-radius
 * search. Frequencies are in MHz, heights in metres, distances in km.
 */
module OkumuraHata {
  import opened Common
  import Hata

  const FrequencyLo: real := 150.0
  const FrequencyHi: real := 1500.0

  /** Below this frequency the small/medium-city height correction applies. */
  const SmallCityLimit: real := 300.0

  /** Mobile antenna height correction factor a(h_m). */
  function MobileCorrection(m: Math, f: real, hm: real): real {
    if f < SmallCityLimit then 8.29 * Sq(m.log10(1.54 * hm)) - 1.1
    else 3.2 * Sq(m.log10(11.75 * hm)) - 4.97
  }

  /** Urban loss before the mobile correction is taken off. */
  function UrbanUncorrected(m: Math, f: real, h: real, d: real): real {
    69.55 + 26.16 * m.log10(f) - 13.82 * m.log10(h) + (44.9 - 6.55 * m.log10(h)) * m.log10(d)
  }

  function UrbanLoss(m: Math, f: real, h: real, hm: real, d: real): real {
    UrbanUncorrected(m, f, h, d) - MobileCorrection(m, f, hm)
  }

  /**
   * `calculate_path_loss`: the checks in order, then the urban loss adjusted
   * by area type.
   */
  function PathLoss(m: Math, f: real, h: real, hm: real, d: real, area: string): (r: Result<real, Error>)
    ensures r.Failure? <==>
      !(150.0 <= f <= 1500.0 && 30.0 <= h <= 200.0 && 1.0 <= hm <= 10.0 && 1.0 <= d <= 20.0 && area in Hata.AreaTypes)
    ensures !(150.0 <= f <= 1500.0) ==> r == Failure(OutOfRange(Frequency, 150.0, 1500.0))
    ensures 150.0 <= f <= 1500.0 && !(30.0 <= h <= 200.0) ==> r == Failure(OutOfRange(AntennaHeight, 30.0, 200.0))
    ensures 150.0 <= f <= 1500.0 && 30.0 <= h <= 200.0 && !(1.0 <= hm <= 10.0) ==>
      r == Failure(OutOfRange(MobileHeight, 1.0, 10.0))
    ensures 150.0 <= f <= 1500.0 && 30.0 <= h <= 200.0 && 1.0 <= hm <= 10.0 && !(1.0 <= d <= 20.0) ==>
      r == Failure(OutOfRange(Distance, 1.0, 20.0))
    ensures 1.0 <= d <= 20.0 && r.Failure? ==>
      Some(r.error) == Hata.FirstConfigError(FrequencyLo, FrequencyHi, f, h, hm, area)
  {
    match Hata.FirstError(FrequencyLo, FrequencyHi, f, h, hm, d, area)
    case Some(e) => Failure(e)
    case None => Hata.AdjustForArea(m, f, UrbanLoss(m, f, h, hm, d), area)
  }

  /**
   * The mobile correction depends on the frequency only through the switch
   * at 300 MHz: once the 26.16 log10(f) term is taken off, two URBAN losses
   * on the same side of 300 MHz are equal, and across it they differ by
   * exactly the gap between the small-city (1.54 h_m) and the large-city
   * (11.75 h_m) corrections.
   */
  lemma CorrectionJumpAt300(m: Math, f1: real, f2: real, h: real, hm: real, d: real)
    requires PathLoss(m, f1, h, hm, d, "URBAN").Success? && PathLoss(m, f2, h, hm, d, "URBAN").Success?
    ensures var g1 := PathLoss(m, f1, h, hm, d, "URBAN").value - 26.16 * m.log10(f1);
            var g2 := PathLoss(m, f2, h, hm, d, "URBAN").value - 26.16 * m.log10(f2);
            && ((f1 < 300.0 <==> f2 < 300.0) ==> g1 == g2)
            && (f1 < 300.0 <= f2 ==>
                  g1 - g2 == (3.2 * Sq(m.log10(11.75 * hm)) - 4.97) - (8.29 * Sq(m.log10(1.54 * hm)) - 1.1))
  {
  }

  /** OPEN loses exactly 10 dB less than RURAL for the same inputs. */
  lemma OpenIsRuralLessTen(m: Math, f: real, h: real, hm: real, d: real)
    ensures PathLoss(m, f, h, hm, d, "OPEN").Success? <==> PathLoss(m, f, h, hm, d, "RURAL").Success?
    ensures PathLoss(m, f, h, hm, d, "OPEN").Success? ==>
      PathLoss(m, f, h, hm, d, "OPEN").value == PathLoss(m, f, h, hm, d, "RURAL").value - 10.0
  {
  }

  /** SUBURBAN loses strictly less than URBAN for the same inputs. */
  lemma SuburbanBelowUrban(m: Math, f: real, h: real, hm: real, d: real)
    ensures PathLoss(m, f, h, hm, d, "SUBURBAN").Success? <==> PathLoss(m, f, h, hm, d, "URBAN").Success?
    ensures PathLoss(m, f, h, hm, d, "SUBURBAN").Success? ==>
      PathLoss(m, f, h, hm, d, "SUBURBAN").value < PathLoss(m, f, h, hm, d, "URBAN").value
  {
    Hata.SuburbanBelowUrban(m, f, UrbanLoss(m, f, h, hm, d));
  }

  /** An area type other than the four names is rejected once the ranges pass. */
  lemma UnknownAreaRejected(m: Math, f: real, h: real, hm: real, d: real, area: string)
    requires area !in Hata.AreaTypes
    ensures PathLoss(m, f, h, hm, d, area).Failure?
    ensures 150.0 <= f <= 1500.0 && 30.0 <= h <= 200.0 && 1.0 <= hm <= 10.0 && 1.0 <= d <= 20.0 ==>
      PathLoss(m, f, h, hm, d, area) == Failure(InvalidAreaType)
  {
  }

  /**
   * With a monotone log10, the loss grows strictly with distance over the
   * valid range, for every area type: the property the bisection relies on.
   */
  lemma LossIncreasesWithDistance(m: Math, f: real, h: real, hm: real, d1: real, d2: real, area: string)
    requires Log10Sound(m)
    requires PathLoss(m, f, h, hm, d1, area).Success? && PathLoss(m, f, h, hm, d2, area).Success?
    requires d1 < d2
    ensures PathLoss(m, f, h, hm, d1, area).value < PathLoss(m, f, h, hm, d2, area).value
  {
    assert Hata.HeightLo <= h <= Hata.HeightHi && 0.0 < d1 && area in Hata.AreaTypes;
    Hata.DistanceTermIncreases(m, h, d1, d2);
    UrbanLossFollowsDistanceTerm(m, f, h, hm, d1, d2);
    Hata.AdjustPreservesOrder(m, f, UrbanLoss(m, f, h, hm, d1), UrbanLoss(m, f, h, hm, d2), area);
  }

  /** The urban loss differs between two distances only by the distance term. */
  lemma UrbanLossFollowsDistanceTerm(m: Math, f: real, h: real, hm: real, d1: real, d2: real)
    requires (44.9 - 6.55 * m.log10(h)) * m.log10(d1) < (44.9 - 6.55 * m.log10(h)) * m.log10(d2)
    ensures UrbanLoss(m, f, h, hm, d1) < UrbanLoss(m, f, h, hm, d2)
  {
  }

  /**
   * `calculate_coverage_radius`: the bisection over [1, 20] km against the
   * budget `antennaPower - receiverSensitivity`. It fails exactly when a
   * check other than the distance fails, with that check's error; otherwise
   * the result and the final upper end bracket the coverage boundary.
   */
  method CoverageRadius(m: Math, frequency: real, antennaHeight: real, antennaPower: real,
                        receiverSensitivity: real, areaType: string, mobileHeight: real := 1.5)
    returns (r: Result<real, Error>, ghost hi: real)
    ensures r.Failure? <==> !Hata.ConfigValid(FrequencyLo, FrequencyHi, frequency, antennaHeight, mobileHeight, areaType)
    ensures r.Failure? ==>
      Some(r.error) == Hata.FirstConfigError(FrequencyLo, FrequencyHi, frequency, antennaHeight, mobileHeight, areaType)
    ensures r.Success? ==> 1.0 <= r.value <= 20.0
    ensures r.Success? ==> Hata.Bracketed(d => PathLoss(m, frequency, antennaHeight, mobileHeight, d, areaType),
                                          antennaPower - receiverSensitivity, r.value, hi)
  {
    var loss := d => PathLoss(m, frequency, antennaHeight, mobileHeight, d, areaType);
    ghost var probe;
    r, hi, probe := Hata.SearchRadius(loss, antennaPower - receiverSensitivity);
    if r.Success? {
      // A bracket narrower than [1, 20] has an end where the loss was computed.
      var lo := r.value;
      assert lo != Hata.DistanceLo || hi != Hata.DistanceHi;
      if lo != Hata.DistanceLo {
        assert loss(lo).Success?;
      } else {
        assert loss(hi).Success?;
      }
    } else {
      assert loss(probe).Failure?;
    }
  }
}
