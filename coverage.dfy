/**
 * The grid coverage evaluator: pick the path-loss model, sample a lattice of
 * points around the antenna, evaluate the points inside the radius, record
 * their received signal, mark the cells at or above -100 dBm as covered, and
 * aggregate the coverage percentage and the population covered.
 *
 * Lattice points are identified by their indices (i, j): `i` runs over the
 * longitudes and `j` over the latitudes, in the order of the nested loops.
 */
module Coverage {
  import opened Common
  import OkumuraHata
  import Cost231
  import FiveG

  /** The 5G parameters attached to a simulation; `None` where a key is absent. */
  datatype Network5GParams = Network5GParams(
    scenario: Option<string>, losCondition: Option<string>,
    hBs: Option<real>, hUt: Option<real>, h: Option<real>, w: Option<real>)

  /** What a simulation without 5G parameters sees: an empty dictionary. */
  const NoNetwork5GParams: Network5GParams := Network5GParams(None, None, None, None, None, None)

  /** A stored simulation parameter row. Frequency in MHz, radius in km, location in degrees. */
  datatype SimulationParams = SimulationParams(
    propagationModel: string, frequency: real, antennaHeight: real, antennaPower: real,
    terrainType: string, longitude: real, latitude: real, radius: real,
    populationDensity: real, network5g: Network5GParams)

  function GetOr<T>(o: Option<T>, default: T): T {
    match o
    case Some(v) => v
    case None => default
  }

  /** The path-loss function the sweep calls, with the 5G parameters already resolved. */
  datatype LossModel =
    | ThreeGpp(scenario: string, losCondition: string, hBs: real, hUt: real, h: real, w: real)
    | OkumuraHataModel
    | Cost231Model

  const ThreeGppId: string := "3GPP_TR_38901"
  const OkumuraHataId: string := "OKUMURA_HATA"

  /** Mobile height the sweep passes to the terrestrial models, in metres. */
  const MobileHeight: real := 1.5

  /** Model selection: 3GPP and Okumura-Hata by name, COST-231 for anything else. */
  function SelectModel(p: SimulationParams): (r: LossModel)
    ensures r.ThreeGpp? <==> p.propagationModel == "3GPP_TR_38901"
    ensures r.OkumuraHataModel? <==> p.propagationModel == "OKUMURA_HATA"
    ensures r.Cost231Model? <==> p.propagationModel != "3GPP_TR_38901" && p.propagationModel != "OKUMURA_HATA"
  {
    if p.propagationModel == ThreeGppId then
      var q := p.network5g;
      ThreeGpp(GetOr(q.scenario, "UMa"), GetOr(q.losCondition, "LOS"),
               GetOr(q.hBs, 10.0), GetOr(q.hUt, 1.5), GetOr(q.h, 20.0), GetOr(q.w, 20.0))
    else if p.propagationModel == OkumuraHataId then OkumuraHataModel
    else Cost231Model
  }

  /**
   * The loss at a distance in km. The 5G closure converts the distance to
   * metres and the frequency from MHz to Hz; the terrestrial models get the
   * antenna height, a 1.5 m mobile and the terrain type.
   */
  function EvaluateLoss(m: Math, p: SimulationParams, model: LossModel, distance: real): (r: Result<real, Error>)
    ensures r.Failure? ==> IsValueError(r.error)
    ensures r.Success? && !model.ThreeGpp? ==> 1.0 <= distance <= 20.0
    ensures r.Success? && model.ThreeGpp? ==> 10.0 <= distance * 1000.0 <= 10000.0
  {
    match model
    case ThreeGpp(scenario, los, hBs, hUt, h, w) =>
      FiveG.OnlyValueErrors(m, p.frequency * 1000000.0, distance * 1000.0, scenario, los, hBs, hUt, h, w);
      FiveG.PathLoss(m, p.frequency * 1000000.0, distance * 1000.0, scenario, los, hBs, hUt, h, w)
    case OkumuraHataModel =>
      OkumuraHata.PathLoss(m, p.frequency, p.antennaHeight, MobileHeight, distance, p.terrainType)
    case Cost231Model =>
      Cost231.PathLoss(m, p.frequency, p.antennaHeight, MobileHeight, distance, p.terrainType)
  }

  /**
   * Without attached 5G parameters, the 3GPP model runs UMa, LOS, with a 10 m
   * base station, a 1.5 m terminal and 20 m for h and w, on the distance in
   * metres and the frequency in Hz.
   */
  lemma FiveGDefaults(m: Math, p: SimulationParams, distance: real)
    requires p.propagationModel == "3GPP_TR_38901" && p.network5g == NoNetwork5GParams
    ensures SelectModel(p) == ThreeGpp("UMa", "LOS", 10.0, 1.5, 20.0, 20.0)
    ensures EvaluateLoss(m, p, SelectModel(p), distance)
         == FiveG.PathLoss(m, p.frequency * 1000000.0, distance * 1000.0, "UMa", "LOS", 10.0, 1.5, 20.0, 20.0)
  {
  }

  const GridSize: real := 0.1        // km
  const KmPerDegree: real := 111.0
  const CoverageThreshold: real := -100.0  // dBm

  /** `int(2 * radius / grid_size)`: the number of samples on each axis. */
  function SamplesPerAxis(radius: real): (r: int)
    ensures r < 0 <==> 2.0 * radius / 0.1 <= -1.0
  {
    Trunc(2.0 * radius / GridSize)
  }

  /** Sample `k` of `numpy.linspace(lo, hi, n)`. */
  function Linspace(lo: real, hi: real, n: nat, k: nat): real {
    if n == 1 then lo else lo + (k as real) * (hi - lo) / ((n - 1) as real)
  }

  /** The samples start at `lo` and, with two or more of them, end at `hi`. */
  lemma LinspaceEnds(lo: real, hi: real, n: nat)
    requires n >= 1
    ensures Linspace(lo, hi, n, 0) == lo
    ensures n >= 2 ==> Linspace(lo, hi, n, n - 1) == hi
  {
    if n >= 2 {
      var span := hi - lo;
      var steps := (n - 1) as real;
      assert steps * span / steps == span;
    }
  }

  /** One sweep: the primitives, the parameters, the selected model and the samples per axis. */
  datatype Grid = Grid(m: Math, p: SimulationParams, model: LossModel, n: nat)

  function Lon(g: Grid, i: nat): real {
    Linspace(g.p.longitude - g.p.radius / KmPerDegree, g.p.longitude + g.p.radius / KmPerDegree, g.n, i)
  }

  function Lat(g: Grid, j: nat): real {
    Linspace(g.p.latitude - g.p.radius / KmPerDegree, g.p.latitude + g.p.radius / KmPerDegree, g.n, j)
  }

  /** The flat-earth distance from the antenna, 111 km per degree. */
  function DistanceKm(g: Grid, i: nat, j: nat): real {
    g.m.sqrt(Sq(Lon(g, i) - g.p.longitude) + Sq(Lat(g, j) - g.p.latitude)) * KmPerDegree
  }

  /** What happens at one lattice point. */
  datatype PointOutcome = Outside | Rejected(error: Error) | Measured(signal: real)

  function Outcome(g: Grid, i: nat, j: nat): PointOutcome {
    var distance := DistanceKm(g, i, j);
    if distance > g.p.radius then Outside
    else
      match EvaluateLoss(g.m, g.p, g.model, distance)
      case Failure(e) => Rejected(e)
      case Success(loss) => Measured(g.p.antennaPower - loss)
  }

  predicate Covered(g: Grid, i: nat, j: nat) {
    Outcome(g, i, j).Measured? && Outcome(g, i, j).signal >= CoverageThreshold
  }

  /** The signal map and the covered cells, in the order the sweep adds them. */
  datatype Sweep = Sweep(signal: map<(nat, nat), real>, covered: seq<(nat, nat)>)

  /** The sweep state after processing the point (i, j). */
  function Step(g: Grid, s: Sweep, i: nat, j: nat): Sweep {
    match Outcome(g, i, j)
    case Measured(signal) =>
      Sweep(s.signal[(i, j) := signal], if signal >= CoverageThreshold then s.covered + [(i, j)] else s.covered)
    case _ => s
  }

  /**
   * The sweep state once every point before (i, j) in row-major order has
   * been processed: all of rows 0 .. i-1 and columns 0 .. j-1 of row i.
   */
  function SweepTo(g: Grid, i: nat, j: nat): Sweep
    requires j <= g.n
    decreases i, j
  {
    if j > 0 then Step(g, SweepTo(g, i, j - 1), i, j - 1)
    else if i == 0 then Sweep(map[], [])
    else SweepTo(g, i - 1, g.n)
  }

  /** (a, b) comes before (i, j) in the row-major order of an n-by-n lattice. */
  predicate Visited(n: nat, i: nat, j: nat, a: nat, b: nat) {
    b < n && (a < i || (a == i && b < j))
  }

  predicate RowMajorBefore(x: (nat, nat), y: (nat, nat)) {
    x.0 < y.0 || (x.0 == y.0 && x.1 < y.1)
  }

  /**
   * The signal map holds exactly the visited points inside the radius whose
   * model call succeeded, each with power minus loss.
   */
  lemma {:induction false} SweepSignalExactlyMeasured(g: Grid, i: nat, j: nat)
    requires j <= g.n
    ensures forall a: nat, b: nat :: (a, b) in SweepTo(g, i, j).signal <==> Visited(g.n, i, j, a, b) && Outcome(g, a, b).Measured?
    ensures forall a: nat, b: nat :: (a, b) in SweepTo(g, i, j).signal ==> SweepTo(g, i, j).signal[(a, b)] == Outcome(g, a, b).signal
    decreases i, j
  {
    if j > 0 {
      SweepSignalExactlyMeasured(g, i, j - 1);
    } else if i > 0 {
      SweepSignalExactlyMeasured(g, i - 1, g.n);
    }
  }

  /** The covered cells are exactly the visited covered points. */
  lemma {:induction false} SweepCoveredExactly(g: Grid, i: nat, j: nat)
    requires j <= g.n
    ensures forall a: nat, b: nat :: (a, b) in SweepTo(g, i, j).covered <==> Visited(g.n, i, j, a, b) && Covered(g, a, b)
    decreases i, j
  {
    if j > 0 {
      SweepCoveredExactly(g, i, j - 1);
    } else if i > 0 {
      SweepCoveredExactly(g, i - 1, g.n);
    }
  }

  /** The covered cells are listed in row-major order, so none is listed twice. */
  lemma {:induction false} SweepCoveredInOrder(g: Grid, i: nat, j: nat)
    requires j <= g.n
    ensures forall k, l :: 0 <= k < l < |SweepTo(g, i, j).covered| ==>
      RowMajorBefore(SweepTo(g, i, j).covered[k], SweepTo(g, i, j).covered[l])
    decreases i, j
  {
    if j > 0 {
      SweepCoveredInOrder(g, i, j - 1);
      SweepCoveredExactly(g, i, j - 1);
      var prev := SweepTo(g, i, j - 1).covered;
      forall k | 0 <= k < |prev|
        ensures RowMajorBefore(prev[k], (i, j - 1))
      {
        assert prev[k] in prev;
      }
      var cur := SweepTo(g, i, j).covered;
      assert cur == prev || cur == prev + [(i, j - 1)];
    } else if i > 0 {
      SweepCoveredInOrder(g, i - 1, g.n);
    }
  }

  /**
   * Consequences for the finished sweep: a recorded point lies inside the
   * radius; with a terrestrial model it is at least 1 km away, so no point
   * closer than 1 km is recorded; and a covered cell is a recorded point
   * whose signal reaches the threshold.
   */
  lemma RecordedPoints(g: Grid, a: nat, b: nat)
    requires (a, b) in SweepTo(g, g.n, 0).signal
    ensures a < g.n && b < g.n
    ensures DistanceKm(g, a, b) <= g.p.radius
    ensures !g.model.ThreeGpp? ==> 1.0 <= DistanceKm(g, a, b)
    ensures (a, b) in SweepTo(g, g.n, 0).covered <==> SweepTo(g, g.n, 0).signal[(a, b)] >= -100.0
  {
    SweepSignalExactlyMeasured(g, g.n, 0);
    SweepCoveredExactly(g, g.n, 0);
  }

  /** The nested loops over the lattice, filling the signal map and the covered list. */
  method SweepGrid(g: Grid) returns (signal: map<(nat, nat), real>, covered: seq<(nat, nat)>)
    ensures Sweep(signal, covered) == SweepTo(g, g.n, 0)
  {
    signal, covered := map[], [];
    var i := 0;
    while i < g.n
      invariant i <= g.n
      invariant Sweep(signal, covered) == SweepTo(g, i, 0)
    {
      var j := 0;
      while j < g.n
        invariant j <= g.n
        invariant Sweep(signal, covered) == SweepTo(g, i, j)
      {
        var distance := DistanceKm(g, i, j);
        if distance <= g.p.radius {
          var pathLoss := EvaluateLoss(g.m, g.p, g.model, distance);
          if pathLoss.Success? {
            var received := g.p.antennaPower - pathLoss.value;
            signal := signal[(i, j) := received];
            if received >= CoverageThreshold {
              covered := covered + [(i, j)];
            }
          }
        }
        j := j + 1;
      }
      i := i + 1;
    }
  }

  /** Area of the square drawn around a covered point, in km². */
  function CellArea(lon: real, lat: real): real {
    var half := GridSize / 222.0;
    ((lon + half) - (lon - half)) * ((lat + half) - (lat - half)) * (KmPerDegree * KmPerDegree)
  }

  /** Every square is 0.1 km by 0.1 km, wherever it is. */
  lemma CellAreaIsConstant(lon: real, lat: real)
    ensures CellArea(lon, lat) == 0.01
  {
    var half := GridSize / 222.0;
    assert (lon + half) - (lon - half) == 2.0 * half;
    assert (lat + half) - (lat - half) == 2.0 * half;
  }

  /** The covered-area sum over the squares of the covered cells. */
  method CoveredArea(g: Grid, cells: seq<(nat, nat)>) returns (area: real)
    ensures area == 0.01 * |cells| as real
  {
    area := 0.0;
    var k := 0;
    while k < |cells|
      invariant k <= |cells|
      invariant area == 0.01 * k as real
    {
      var (i, j) := cells[k];
      CellAreaIsConstant(Lon(g, i), Lat(g, j));
      area := area + CellArea(Lon(g, i), Lat(g, j));
      k := k + 1;
    }
  }

  /** Area of the circle of the given radius. */
  function DiscArea(m: Math, radius: real): (r: real)
    ensures radius != 0.0 ==> r > 0.0
  {
    var rr := Sq(radius);
    assert radius != 0.0 ==> rr > 0.0 by {
      if radius > 0.0 {
        SquareStrictlyMonotone(0.0, radius);
      } else if radius < 0.0 {
        SquareStrictlyMonotone(0.0, -radius);
        assert rr == (-radius) * (-radius);
      }
    }
    var pi: real := m.pi;
    assert rr > 0.0 ==> pi * rr > 0.0;
    pi * rr
  }

  /**
   * The coverage percentage: covered area over the disc area, in percent,
   * and 0 when the radius is not positive.
   */
  function CoveragePercentage(m: Math, radius: real, area: real): (r: real)
    ensures radius <= 0.0 ==> r == 0.0
    ensures radius > 0.0 ==> r * DiscArea(m, radius) == area * 100.0
    ensures radius > 0.0 && area >= 0.0 ==> r >= 0.0
  {
    if radius > 0.0 then area / DiscArea(m, radius) * 100.0 else 0.0
  }

  /**
   * The population covered: none when the density is 0 (falsy), otherwise
   * the covered area times the density, truncated.
   */
  function PopulationCovered(area: real, density: real): (r: Option<int>)
    ensures r.None? <==> density == 0.0
    ensures r.Some? && area * density >= 0.0 ==> 0 <= r.value && r.value as real <= area * density < r.value as real + 1.0
  {
    if density == 0.0 then None else Some(Trunc(area * density))
  }

  /** What the evaluator returns. */
  datatype CoverageReport = CoverageReport(
    coveragePercentage: real, populationCovered: Option<int>, signalStrength: map<(nat, nat), real>)

  /**
   * `run_propagation_model` without the ORM: select the model, sweep the
   * lattice, then aggregate over 0.01 km² per covered cell. A negative
   * sample count makes `numpy.linspace` raise; with radius <= 0 the covered
   * area is never bound, so a non-zero population density raises on it.
   */
  method RunPropagationModel(m: Math, p: SimulationParams) returns (r: Result<CoverageReport, Error>)
    ensures SamplesPerAxis(p.radius) < 0 ==> r == Failure(NegativeSampleCount)
    ensures SamplesPerAxis(p.radius) >= 0 && p.radius <= 0.0 && p.populationDensity != 0.0 ==>
      r == Failure(UnboundCoveredArea)
    ensures r.Success? <==> SamplesPerAxis(p.radius) >= 0 && (p.radius > 0.0 || p.populationDensity == 0.0)
    ensures r.Success? ==>
      var s := SweepTo(Grid(m, p, SelectModel(p), SamplesPerAxis(p.radius) as nat), SamplesPerAxis(p.radius) as nat, 0);
      var area := 0.01 * |s.covered| as real;
      && r.value.signalStrength == s.signal
      && r.value.coveragePercentage == CoveragePercentage(m, p.radius, area)
      && r.value.populationCovered == PopulationCovered(area, p.populationDensity)
  {
    var model := SelectModel(p);
    var n := SamplesPerAxis(p.radius);
    if n < 0 {
      return Failure(NegativeSampleCount);
    }
    var g := Grid(m, p, model, n);
    var signal, covered := SweepGrid(g);
    var percentage := 0.0;
    var coveredArea: Option<real> := None;
    if p.radius > 0.0 {
      var area := CoveredArea(g, covered);
      coveredArea := Some(area);
      percentage := CoveragePercentage(m, p.radius, area);
    }
    if p.populationDensity != 0.0 && coveredArea.None? {
      return Failure(UnboundCoveredArea);
    }
    var area := if coveredArea.Some? then coveredArea.value else 0.01 * |covered| as real;
    return Success(CoverageReport(percentage, PopulationCovered(area, p.populationDensity), signal));
  }
}
