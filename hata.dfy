/**
 * What the two terrestrial models (Okumura-Hata and COST-231) share: the
 * order of their input checks, the area-type adjustment of the urban loss,
 * and the bisection that searches [1, 20] km for the coverage radius.
 */
module Hata {
  import opened Common

  const AreaTypes: seq<string> := ["URBAN", "SUBURBAN", "RURAL", "OPEN"]

  const HeightLo: real := 30.0
  const HeightHi: real := 200.0
  const MobileLo: real := 1.0
  const MobileHi: real := 10.0
  const DistanceLo: real := 1.0
  const DistanceHi: real := 20.0

  /** Convergence width of the radius search, in km. */
  const Tolerance: real := 0.01

  /** Everything a terrestrial model checks except the distance. */
  predicate ConfigValid(fLo: real, fHi: real, f: real, h: real, hm: real, area: string) {
    && fLo <= f <= fHi
    && HeightLo <= h <= HeightHi
    && MobileLo <= hm <= MobileHi
    && area in AreaTypes
  }

  /**
   * The first check that fails, in the order the models run them:
   * frequency, antenna height, mobile height, distance, then area type.
   */
  function FirstError(fLo: real, fHi: real, f: real, h: real, hm: real, d: real, area: string): (r: Option<Error>)
    ensures r.None? <==> ConfigValid(fLo, fHi, f, h, hm, area) && DistanceLo <= d <= DistanceHi
    ensures DistanceLo <= d <= DistanceHi ==> r == FirstConfigError(fLo, fHi, f, h, hm, area)
  {
    if !(fLo <= f <= fHi) then Some(OutOfRange(Frequency, fLo, fHi))
    else if !(HeightLo <= h <= HeightHi) then Some(OutOfRange(AntennaHeight, HeightLo, HeightHi))
    else if !(MobileLo <= hm <= MobileHi) then Some(OutOfRange(MobileHeight, MobileLo, MobileHi))
    else if !(DistanceLo <= d <= DistanceHi) then Some(OutOfRange(Distance, DistanceLo, DistanceHi))
    else if area !in AreaTypes then Some(InvalidAreaType)
    else None
  }

  /** The error raised at any in-range distance: it does not depend on the distance. */
  function FirstConfigError(fLo: real, fHi: real, f: real, h: real, hm: real, area: string): (r: Option<Error>)
    ensures r.None? <==> ConfigValid(fLo, fHi, f, h, hm, area)
  {
    if !(fLo <= f <= fHi) then Some(OutOfRange(Frequency, fLo, fHi))
    else if !(HeightLo <= h <= HeightHi) then Some(OutOfRange(AntennaHeight, HeightLo, HeightHi))
    else if !(MobileLo <= hm <= MobileHi) then Some(OutOfRange(MobileHeight, MobileLo, MobileHi))
    else if area !in AreaTypes then Some(InvalidAreaType)
    else None
  }

  /** The RURAL correction, which OPEN also applies. */
  function RuralCorrection(m: Math, f: real): real {
    4.78 * Sq(m.log10(f)) - 18.33 * m.log10(f) + 40.94
  }

  /** Adjustment of the urban baseline loss by area type. */
  function AdjustForArea(m: Math, f: real, urban: real, area: string): (r: Result<real, Error>)
    ensures r.Failure? <==> area !in AreaTypes
    ensures r.Failure? ==> r.error == InvalidAreaType
  {
    if area == "URBAN" then Success(urban)
    else if area == "SUBURBAN" then Success(urban - 2.0 * Sq(m.log10(f / 28.0)) - 5.4)
    else if area == "RURAL" then Success(urban - 4.78 * Sq(m.log10(f)) + 18.33 * m.log10(f) - 40.94)
    else if area == "OPEN" then Success(urban - 4.78 * Sq(m.log10(f)) + 18.33 * m.log10(f) - 40.94 - 10.0)
    else Failure(InvalidAreaType)
  }

  /** SUBURBAN always loses strictly less than URBAN, whatever log10 returns. */
  lemma SuburbanBelowUrban(m: Math, f: real, urban: real)
    ensures AdjustForArea(m, f, urban, "SUBURBAN").value < AdjustForArea(m, f, urban, "URBAN").value
  {
    SqNonNegative(m.log10(f / 28.0));
  }

  /** OPEN is RURAL less exactly 10 dB. */
  lemma OpenIsRuralLessTen(m: Math, f: real, urban: real)
    ensures AdjustForArea(m, f, urban, "OPEN").value == AdjustForArea(m, f, urban, "RURAL").value - 10.0
    ensures AdjustForArea(m, f, urban, "RURAL").value == urban - RuralCorrection(m, f)
  {
  }

  /** The adjustment adds a constant to the urban loss, so it keeps any order on it. */
  lemma AdjustPreservesOrder(m: Math, f: real, u1: real, u2: real, area: string)
    requires area in AreaTypes
    requires u1 < u2
    ensures AdjustForArea(m, f, u1, area).value < AdjustForArea(m, f, u2, area).value
  {
  }

  /**
   * The distance term (44.9 - 6.55 log10 h) log10 d of the Hata formulas
   * grows strictly with d: for antennas below 1000 m its slope is positive.
   */
  lemma DistanceTermIncreases(m: Math, h: real, d1: real, d2: real)
    requires Log10Sound(m)
    requires HeightLo <= h <= HeightHi
    requires 0.0 < d1 < d2
    ensures (44.9 - 6.55 * m.log10(h)) * m.log10(d1) < (44.9 - 6.55 * m.log10(h)) * m.log10(d2)
  {
    var slope := 44.9 - 6.55 * m.log10(h);
    assert m.log10(h) < 3.0 by {
      assert h < 1000.0;
    }
    var g := m.log10(d2) - m.log10(d1);
    assert g > 0.0;
    var p := slope * g;
    assert p > 0.0;
    assert slope * m.log10(d2) == slope * m.log10(d1) + p;
  }

  /**
   * What the radius search leaves in `lo` and `hi`: both inside [1, 20] km,
   * at most `Tolerance` apart, `lo` is 1 or a distance whose loss fits the
   * budget, and `hi` is 20 or a distance whose loss exceeds it.
   */
  predicate Bracketed(loss: real -> Result<real, Error>, budget: real, lo: real, hi: real) {
    && DistanceLo <= lo <= hi <= DistanceHi
    && hi - lo <= Tolerance
    && (lo == DistanceLo || (loss(lo).Success? && loss(lo).value <= budget))
    && (hi == DistanceHi || (loss(hi).Success? && loss(hi).value > budget))
  }

  /**
   * The bisection of `calculate_coverage_radius`: halve [1, 20] km until it
   * is at most 0.01 km wide, moving the lower end up when the loss at the
   * midpoint fits `maxPathLoss` and the upper end down otherwise. An error
   * of the loss function at a midpoint ends the search with that error.
   * `hi` is the upper end at exit; `probe` is the midpoint that failed.
   */
  method SearchRadius(loss: real -> Result<real, Error>, maxPathLoss: real)
    returns (r: Result<real, Error>, ghost hi: real, ghost probe: real)
    ensures r.Success? ==> DistanceLo <= r.value <= DistanceHi
    ensures r.Success? ==> r.value == DistanceLo || (loss(r.value).Success? && loss(r.value).value <= maxPathLoss)
    ensures r.Success? ==> Bracketed(loss, maxPathLoss, r.value, hi)
    ensures r.Failure? ==> DistanceLo < probe < DistanceHi && loss(probe) == Failure(r.error)
  {
    var minDistance, maxDistance := DistanceLo, DistanceHi;
    probe := DistanceLo;
    while maxDistance - minDistance > Tolerance
      invariant DistanceLo <= minDistance < maxDistance <= DistanceHi
      invariant minDistance == DistanceLo || (loss(minDistance).Success? && loss(minDistance).value <= maxPathLoss)
      invariant maxDistance == DistanceHi || (loss(maxDistance).Success? && loss(maxDistance).value > maxPathLoss)
      decreases ((maxDistance - minDistance) * 100.0).Floor
    {
      var width := maxDistance - minDistance;
      var midDistance := (minDistance + maxDistance) / 2.0;
      var pathLoss := loss(midDistance);
      if pathLoss.Failure? {
        r, hi, probe := Failure(pathLoss.error), maxDistance, midDistance;
        return;
      }
      if pathLoss.value <= maxPathLoss {
        minDistance := midDistance;
      } else {
        maxDistance := midDistance;
      }
      HalvingShrinksMeasure(width);
    }
    r, hi := Success(minDistance), maxDistance;
  }

  /** The integer measure of the search interval drops with every halving. */
  lemma HalvingShrinksMeasure(w: real)
    requires w > Tolerance
    ensures 0 <= ((w / 2.0) * 100.0).Floor < (w * 100.0).Floor
  {
    var x := w * 100.0;
    assert (w / 2.0) * 100.0 == x / 2.0;
    assert x > 1.0;
    if x < 2.0 {
      assert (x / 2.0).Floor == 0;
    } else {
      assert x / 2.0 <= x - 1.0;
    }
  }

  /**
   * The search converges on the coverage boundary: if the loss fits the
   * budget exactly at the distances up to some `b` in [1, 20], the result
   * is within 0.01 km below `b`.
   */
  lemma BracketContainsBoundary(loss: real -> Result<real, Error>, budget: real, lo: real, hi: real, b: real)
    requires Bracketed(loss, budget, lo, hi)
    requires DistanceLo <= b <= DistanceHi
    requires forall d :: DistanceLo <= d <= DistanceHi ==>
      loss(d).Success? && (loss(d).value <= budget <==> d <= b)
    ensures lo <= b <= hi
    ensures b - lo <= Tolerance
  {
  }
}
