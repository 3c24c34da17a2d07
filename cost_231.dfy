/**
 * The COST-231 path-loss model (1500-2000 MHz) and its coverage-radius
 * search. Same shape as Okumura-Hata: other constants, a single
 * height-correction formula, and a +3 dB term in the urban baseline.
 */
module Cost231 {
  import opened Common
  import Hata

  const FrequencyLo: real := 1500.0
  const FrequencyHi: real := 2000.0

  /** Offset added to the urban baseline, in dB. */
  const UrbanOffset: real := 3.0

  /** Mobile antenna height correction factor; the frequency plays no part. */
  function MobileCorrection(m: Math, hm: real): real {
    3.2 * Sq(m.log10(11.75 * hm)) - 4.97
  }

  function UrbanLoss(m: Math, f: real, h: real, hm: real, d: real): real {
    46.3 + 33.9 * m.log10(f) - 13.82 * m.log10(h) - MobileCorrection(m, hm)
      + (44.9 - 6.55 * m.log10(h)) * m.log10(d) + UrbanOffset
  }

  /** `calculate_path_loss` of the COST-231 file. */
  function PathLoss(m: Math, f: real, h: real, hm: real, d: real, area: string): (r: Result<real, Error>)
    ensures r.Failure? <==>
      !(1500.0 <= f <= 2000.0 && 30.0 <= h <= 200.0 && 1.0 <= hm <= 10.0 && 1.0 <= d <= 20.0 && area in Hata.AreaTypes)
    ensures !(1500.0 <= f <= 2000.0) ==> r == Failure(OutOfRange(Frequency, 1500.0, 2000.0))
    ensures 1500.0 <= f <= 2000.0 && !(30.0 <= h <= 200.0) ==> r == Failure(OutOfRange(AntennaHeight, 30.0, 200.0))
    ensures 1500.0 <= f <= 2000.0 && 30.0 <= h <= 200.0 && !(1.0 <= hm <= 10.0) ==>
      r == Failure(OutOfRange(MobileHeight, 1.0, 10.0))
    ensures 1500.0 <= f <= 2000.0 && 30.0 <= h <= 200.0 && 1.0 <= hm <= 10.0 && !(1.0 <= d <= 20.0) ==>
      r == Failure(OutOfRange(Distance, 1.0, 20.0))
    ensures 1.0 <= d <= 20.0 && r.Failure? ==>
      Some(r.error) == Hata.FirstConfigError(FrequencyLo, FrequencyHi, f, h, hm, area)
  {
    match Hata.FirstError(FrequencyLo, FrequencyHi, f, h, hm, d, area)
    case Some(e) => Failure(e)
    case None => Hata.AdjustForArea(m, f, UrbanLoss(m, f, h, hm, d), area)
  }

  /**
   * The height correction has no frequency split: between two valid
   * frequencies the URBAN loss differs only by the 33.9 log10(f) term.
   */
  lemma CorrectionIgnoresFrequency(m: Math, f1: real, f2: real, h: real, hm: real, d: real)
    requires PathLoss(m, f1, h, hm, d, "URBAN").Success? && PathLoss(m, f2, h, hm, d, "URBAN").Success?
    ensures PathLoss(m, f1, h, hm, d, "URBAN").value - 33.9 * m.log10(f1)
         == PathLoss(m, f2, h, hm, d, "URBAN").value - 33.9 * m.log10(f2)
  {
  }

  /**
   * The 3 dB offset is added to the urban baseline before the area
   * adjustment, so every area type carries it: each loss is 3 dB above the
   * same area's adjustment of the offset-free baseline.
   */
  lemma OffsetInEveryArea(m: Math, f: real, h: real, hm: real, d: real, area: string)
    requires PathLoss(m, f, h, hm, d, area).Success?
    ensures PathLoss(m, f, h, hm, d, area).value
         == Hata.AdjustForArea(m, f, UrbanLoss(m, f, h, hm, d) - UrbanOffset, area).value + 3.0
  {
  }

  /** OPEN loses exactly 10 dB less than RURAL for the same inputs. */
  lemma OpenIsRuralLessTen(m: Math, f: real, h: real, hm: real, d: real)
    ensures PathLoss(m, f, h, hm, d, "OPEN").Success? <==> PathLoss(m, f, h, hm, d, "RURAL").Success?
    ensures PathLoss(m, f, h, hm, d, "OPEN").Success? ==>
      PathLoss(m, f, h, hm, d, "OPEN").value == PathLoss(m, f, h, hm, d, "RURAL").value - 10.0
  {
  }

  /** SUBURBAN loses strictly less than URBAN for the same inputs. */
  lemma SuburbanBelowUrban(m: Math, f: real, h: real, hm: real, d: real)
    ensures PathLoss(m, f, h, hm, d, "SUBURBAN").Success? <==> PathLoss(m, f, h, hm, d, "URBAN").Success?
    ensures PathLoss(m, f, h, hm, d, "SUBURBAN").Success? ==>
      PathLoss(m, f, h, hm, d, "SUBURBAN").value < PathLoss(m, f, h, hm, d, "URBAN").value
  {
    Hata.SuburbanBelowUrban(m, f, UrbanLoss(m, f, h, hm, d));
  }

  /** An area type other than the four names is rejected once the ranges pass. */
  lemma UnknownAreaRejected(m: Math, f: real, h: real, hm: real, d: real, area: string)
    requires area !in Hata.AreaTypes
    ensures PathLoss(m, f, h, hm, d, area).Failure?
    ensures 1500.0 <= f <= 2000.0 && 30.0 <= h <= 200.0 && 1.0 <= hm <= 10.0 && 1.0 <= d <= 20.0 ==>
      PathLoss(m, f, h, hm, d, area) == Failure(InvalidAreaType)
  {
  }

  /** With a monotone log10, the loss grows strictly with distance over the valid range. */
  lemma LossIncreasesWithDistance(m: Math, f: real, h: real, hm: real, d1: real, d2: real, area: string)
    requires Log10Sound(m)
    requires PathLoss(m, f, h, hm, d1, area).Success? && PathLoss(m, f, h, hm, d2, area).Success?
    requires d1 < d2
    ensures PathLoss(m, f, h, hm, d1, area).value < PathLoss(m, f, h, hm, d2, area).value
  {
    assert Hata.HeightLo <= h <= Hata.HeightHi && 0.0 < d1 && area in Hata.AreaTypes;
    Hata.DistanceTermIncreases(m, h, d1, d2);
    UrbanLossFollowsDistanceTerm(m, f, h, hm, d1, d2);
    Hata.AdjustPreservesOrder(m, f, UrbanLoss(m, f, h, hm, d1), UrbanLoss(m, f, h, hm, d2), area);
  }

  /** The urban loss differs between two distances only by the distance term. */
  lemma UrbanLossFollowsDistanceTerm(m: Math, f: real, h: real, hm: real, d1: real, d2: real)
    requires (44.9 - 6.55 * m.log10(h)) * m.log10(d1) < (44.9 - 6.55 * m.log10(h)) * m.log10(d2)
    ensures UrbanLoss(m, f, h, hm, d1) < UrbanLoss(m, f, h, hm, d2)
  {
  }

  /** `calculate_coverage_radius` of the COST-231 file: the same bisection over [1, 20] km. */
  method CoverageRadius(m: Math, frequency: real, antennaHeight: real, antennaPower: real,
                        receiverSensitivity: real, areaType: string, mobileHeight: real := 1.5)
    returns (r: Result<real, Error>, ghost hi: real)
    ensures r.Failure? <==> !Hata.ConfigValid(FrequencyLo, FrequencyHi, frequency, antennaHeight, mobileHeight, areaType)
    ensures r.Failure? ==>
      Some(r.error) == Hata.FirstConfigError(FrequencyLo, FrequencyHi, frequency, antennaHeight, mobileHeight, areaType)
    ensures r.Success? ==> 1.0 <= r.value <= 20.0
    ensures r.Success? ==> Hata.Bracketed(d => PathLoss(m, frequency, antennaHeight, mobileHeight, d, areaType),
                                          antennaPower - receiverSensitivity, r.value, hi)
  {
    var loss := d => PathLoss(m, frequency, antennaHeight, mobileHeight, d, areaType);
    ghost var probe;
    r, hi, probe := Hata.SearchRadius(loss, antennaPower - receiverSensitivity);
    if r.Success? {
      var lo := r.value;
      assert lo != Hata.DistanceLo || hi != Hata.DistanceHi;
      if lo != Hata.DistanceLo {
        assert loss(lo).Success?;
      } else {
        assert loss(hi).Success?;
      }
    } else {
      assert loss(probe).Failure?;
    }
  }
}
