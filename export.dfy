/**
 * The logic of the PDF export that does not draw anything: the grouping of
 * the signal map into four signal tiers for the coverage map, and the rows
 * of the parameter and result tables.
 */
module Export {
  import opened Common
  import Coverage

  /** A key of the stored signal map: the "lon,lat" text or an unpacked pair. */
  datatype Coord = Key(text: string) | Pair(lon: real, lat: real)

  datatype MapError =
    | WrongPartCount(parts: nat)   // unpacking a split of every parsed part into two names fails
    | NotANumber(text: string)     // float() of a part that is not a number

  datatype Tier = Excellent | Good | Fair | Poor

  /** The tier of a signal in dBm. */
  function TierOf(signal: real): (t: Tier)
    ensures t == Excellent <==> signal >= -70.0
    ensures t == Good <==> -85.0 <= signal < -70.0
    ensures t == Fair <==> -100.0 <= signal < -85.0
    ensures t == Poor <==> signal < -100.0
  {
    if signal >= -70.0 then Excellent
    else if signal >= -85.0 then Good
    else if signal >= -100.0 then Fair
    else Poor
  }

  /** The tiers above Poor are exactly the cells the coverage sweep counts as covered. */
  lemma TiersAgreeWithCoverageThreshold(signal: real)
    ensures TierOf(signal) != Poor <==> signal >= Coverage.CoverageThreshold
  {
  }

  /** `s.split(sep)`: the pieces between separators, in order. */
  function Split(s: string, sep: char): (r: seq<string>)
    ensures |r| >= 1
  {
    if s == [] then [""]
    else
      var rest := Split(s[1..], sep);
      if s[0] == sep then [""] + rest
      else [[s[0]] + rest[0]] + rest[1..]
  }

  /**
   * The pieces of a split: one more than there are separators, none holding
   * the separator; with `SplitThenJoin` they are exactly the text between
   * separators.
   */
  lemma {:induction false} SplitPieces(s: string, sep: char)
    ensures |Split(s, sep)| == multiset(s)[sep] + 1
    ensures forall k :: 0 <= k < |Split(s, sep)| ==> sep !in Split(s, sep)[k]
  {
    if s != [] {
      var rest := Split(s[1..], sep);
      SplitPieces(s[1..], sep);
      assert s == [s[0]] + s[1..];
      SplitStep(s[0], s[1..], sep);
      var r := Split(s, sep);
      if s[0] != sep {
        assert forall k :: 1 <= k < |r| ==> r[k] == rest[k];
      } else {
        assert forall k :: 1 <= k < |r| ==> r[k] == rest[k - 1];
      }
    }
  }

  /** `sep.join(parts)`. */
  function Join(parts: seq<string>, sep: char): string
    requires |parts| >= 1
  {
    if |parts| == 1 then parts[0] else parts[0] + [sep] + Join(parts[1..], sep)
  }

  /** Splitting loses nothing: joining the pieces with the separator restores the string. */
  lemma {:induction false} SplitThenJoin(s: string, sep: char)
    ensures Join(Split(s, sep), sep) == s
  {
    if s != [] {
      var rest := Split(s[1..], sep);
      SplitThenJoin(s[1..], sep);
      assert s == [s[0]] + s[1..];
      if s[0] == sep {
        var r := [""] + rest;
        assert r[1..] == rest;
        assert Join(r, sep) == "" + [sep] + Join(rest, sep);
      } else {
        JoinExtendsFirst(rest, s[0], sep);
      }
    }
  }

  /** Prefixing the first piece with a character prefixes the joined string with it. */
  lemma JoinExtendsFirst(parts: seq<string>, c: char, sep: char)
    requires |parts| >= 1
    ensures Join([[c] + parts[0]] + parts[1..], sep) == [c] + Join(parts, sep)
  {
    var q := [[c] + parts[0]] + parts[1..];
    if |parts| > 1 {
      assert q[1..] == parts[1..];
      var tail := Join(parts[1..], sep);
      assert [c] + parts[0] + [sep] + tail == [c] + (parts[0] + [sep] + tail);
    }
  }

  /** Without a separator, the split is the whole string. */
  lemma {:induction false} SplitWithoutSeparator(s: string, sep: char)
    requires sep !in s
    ensures Split(s, sep) == [s]
  {
    if s != [] {
      assert sep !in s[1..];
      SplitWithoutSeparator(s[1..], sep);
      assert [s[0]] + s[1..] == s;
    }
  }

  /** Joining two separator-free strings with the separator and splitting gives them back. */
  lemma {:induction false} SplitJoinedPair(a: string, b: string, sep: char)
    requires sep !in a && sep !in b
    ensures Split(a + [sep] + b, sep) == [a, b]
  {
    if a == [] {
      assert a + [sep] + b == [sep] + b;
      SplitStep(sep, b, sep);
      SplitWithoutSeparator(b, sep);
    } else {
      var tail := a[1..] + [sep] + b;
      assert a + [sep] + b == [a[0]] + tail;
      assert sep !in a[1..];
      SplitJoinedPair(a[1..], b, sep);
      var rest := Split(tail, sep);
      SplitStep(a[0], tail, sep);
      assert Split([a[0]] + tail, sep) == [[a[0]] + a[1..], b];
      assert [a[0]] + a[1..] == a;
    }
  }

  /** One step of the split: a leading separator opens a new piece, any other character extends the first. */
  lemma SplitStep(c: char, t: string, sep: char)
    ensures var rest := Split(t, sep);
      Split([c] + t, sep) == if c == sep then [""] + rest else [[c] + rest[0]] + rest[1..]
  {
    assert ([c] + t)[1..] == t;
  }

  /**
   * The map position of a key, as [lat, lon]: a text key is split on ','
   * and unpacked into two numbers, longitude first; a pair is unpacked as
   * is. `parse` is Python's `float()` on a string. Unpacking the lazy `map`
   * converts each part as it is drawn: the first part, then the second,
   * then, to detect a surplus, the third; a count mismatch is reported only
   * after the parts drawn so far converted.
   */
  function Locate(coord: Coord, parse: string -> Option<real>): (r: Result<(real, real), MapError>)
    ensures coord.Pair? ==> r == Success((coord.lat, coord.lon))
    ensures coord.Key? ==>
      var parts := Split(coord.text, ',');
      && (r.Success? <==> |parts| == 2 && parse(parts[0]).Some? && parse(parts[1]).Some?)
      && (r.Success? ==> r.value == (parse(parts[1]).value, parse(parts[0]).value))
      && (r.Failure? && r.error.NotANumber? ==>
            exists k :: 0 <= k < |parts| && k <= 2 && r.error.text == parts[k] && parse(parts[k]).None?
                        && forall j :: 0 <= j < k ==> parse(parts[j]).Some?)
      && (r.Failure? && r.error.WrongPartCount? ==>
            r.error.parts == |parts| != 2 && forall j :: 0 <= j < |parts| && j <= 2 ==> parse(parts[j]).Some?)
  {
    match coord
    case Pair(lon, lat) => Success((lat, lon))
    case Key(text) =>
      var parts := Split(text, ',');
      match parse(parts[0])
      case None => Failure(NotANumber(parts[0]))
      case Some(lon) =>
        if |parts| == 1 then Failure(WrongPartCount(1))
        else
          match parse(parts[1])
          case None => Failure(NotANumber(parts[1]))
          case Some(lat) =>
            if |parts| == 2 then Success((lat, lon))
            else if parse(parts[2]).None? then Failure(NotANumber(parts[2]))
            else Failure(WrongPartCount(|parts|))
  }

  /**
   * A key without a comma whose text is not a number fails on the number,
   * not on the count: "abc" reports the failed conversion of "abc".
   */
  lemma MalformedKeyFailsOnNumberFirst(text: string, parse: string -> Option<real>)
    requires ',' !in text && parse(text).None?
    ensures Locate(Key(text), parse) == Failure(NotANumber(text))
  {
    SplitWithoutSeparator(text, ',');
  }

  /** A "lon,lat" key lands at [lat, lon]: the two numbers swap places. */
  lemma KeyLandsSwapped(lonText: string, latText: string, lon: real, lat: real, parse: string -> Option<real>)
    requires ',' !in lonText && ',' !in latText
    requires parse(lonText) == Some(lon) && parse(latText) == Some(lat)
    ensures Locate(Key(lonText + "," + latText), parse) == Success((lat, lon))
  {
    SplitJoinedPair(lonText, latText, ',');
    assert lonText + "," + latText == lonText + [','] + latText;
  }

  /** The four lists of [lat, lon] positions. */
  datatype Buckets = Buckets(excellent: seq<(real, real)>, good: seq<(real, real)>,
                             fair: seq<(real, real)>, poor: seq<(real, real)>)
  {
    function Size(): nat { |excellent| + |good| + |fair| + |poor| }

    function Of(t: Tier): seq<(real, real)> {
      match t
      case Excellent => excellent
      case Good => good
      case Fair => fair
      case Poor => poor
    }
  }

  function Add(b: Buckets, t: Tier, point: (real, real)): Buckets {
    match t
    case Excellent => b.(excellent := b.excellent + [point])
    case Good => b.(good := b.good + [point])
    case Fair => b.(fair := b.fair + [point])
    case Poor => b.(poor := b.poor + [point])
  }

  /** The buckets after the given entries of the signal map, or the first key that fails. */
  function BucketsOf(entries: seq<(Coord, real)>, parse: string -> Option<real>): Result<Buckets, MapError> {
    if entries == [] then Success(Buckets([], [], [], []))
    else
      var last := entries[|entries| - 1];
      var prev :- BucketsOf(entries[..|entries| - 1], parse);
      var point :- Locate(last.0, parse);
      Success(Add(prev, TierOf(last.1), point))
  }

  /** How many entries have a signal in tier `t`. */
  function CountTier(entries: seq<(Coord, real)>, t: Tier): nat {
    if entries == [] then 0
    else CountTier(entries[..|entries| - 1], t) + (if TierOf(entries[|entries| - 1].1) == t then 1 else 0)
  }

  /**
   * Each bucket holds one position per entry of its tier, so every entry
   * lands in exactly one bucket and the sizes add up to the map's size.
   */
  lemma {:induction false} BucketsPartitionEntries(entries: seq<(Coord, real)>, parse: string -> Option<real>)
    requires BucketsOf(entries, parse).Success?
    ensures forall t :: |BucketsOf(entries, parse).value.Of(t)| == CountTier(entries, t)
    ensures BucketsOf(entries, parse).value.Size() == |entries|
  {
    if entries != [] {
      BucketsPartitionEntries(entries[..|entries| - 1], parse);
    }
  }

  /** The grouping loop of `create_coverage_map`, over the map's entries in order. */
  method GroupSignals(entries: seq<(Coord, real)>, parse: string -> Option<real>)
    returns (r: Result<Buckets, MapError>)
    ensures r == BucketsOf(entries, parse)
  {
    var excellent, good, fair, poor := [], [], [], [];
    var k := 0;
    while k < |entries|
      invariant k <= |entries|
      invariant BucketsOf(entries[..k], parse) == Success(Buckets(excellent, good, fair, poor))
    {
      var (coord, signal) := entries[k];
      var located := Locate(coord, parse);
      if located.Failure? {
        FailurePersists(entries, k + 1, parse);
        assert entries[..k + 1][..k] == entries[..k];
        return Failure(located.error);
      }
      var point := located.value;
      if signal >= -70.0 {
        excellent := excellent + [point];
      } else if signal >= -85.0 {
        good := good + [point];
      } else if signal >= -100.0 {
        fair := fair + [point];
      } else {
        poor := poor + [point];
      }
      assert entries[..k + 1][..k] == entries[..k];
      k := k + 1;
    }
    assert entries[..k] == entries;
    r := Success(Buckets(excellent, good, fair, poor));
  }

  /** Once a prefix fails, every longer prefix fails with the same error. */
  lemma {:induction false} FailurePersists(entries: seq<(Coord, real)>, k: nat, parse: string -> Option<real>)
    requires 0 < k <= |entries|
    requires BucketsOf(entries[..k], parse).Failure?
    ensures BucketsOf(entries, parse) == BucketsOf(entries[..k], parse)
    decreases |entries| - k
  {
    if k < |entries| {
      assert entries[..k + 1][..k] == entries[..k];
      FailurePersists(entries, k + 1, parse);
    } else {
      assert entries[..k] == entries;
    }
  }

  /** The value of a table row: a display name, a quantity with its unit, a position or a count. */
  datatype Cell =
    | Text(text: string)
    | Quantity(amount: real, unit: string)
    | Position(lon: real, lat: real)
    | Percent(percentage: real)
    | Inhabitants(count: int)

  datatype Row = Row(heading: string, value: Cell)

  /** A model field's display name: its label in the choice list, or the raw value when absent. */
  function Display(choices: seq<(string, string)>, value: string): (r: string)
    ensures (forall k :: 0 <= k < |choices| ==> choices[k].0 != value) ==> r == value
    ensures forall k :: 0 <= k < |choices| && choices[k].0 == value && (forall j :: 0 <= j < k ==> choices[j].0 != value) ==>
      r == choices[k].1
  {
    if choices == [] then value
    else if choices[0].0 == value then choices[0].1
    else Display(choices[1..], value)
  }

  const TechnologyChoices: seq<(string, string)> :=
    [("2G", "2G - GSM"), ("3G", "3G - UMTS"), ("4G", "4G - LTE"), ("5G", "5G - NR (New Radio)")]
  const PropagationModelChoices: seq<(string, string)> :=
    [("OKUMURA_HATA", "Okumura-Hata"), ("COST_231", "COST-231"), ("3GPP_TR_38901", "3GPP TR 38.901 (5G)")]
  const TerrainTypeChoices: seq<(string, string)> :=
    [("URBAN", "Urban"), ("SUBURBAN", "Suburban"), ("RURAL", "Rural"), ("OPEN", "Open")]

  /** What the report reads from a stored parameter row. */
  datatype ReportParams = ReportParams(
    technology: string, propagationModel: string, frequency: real, antennaHeight: real,
    antennaPower: real, terrainType: string, longitude: real, latitude: real, radius: real,
    populationDensity: real)

  /** The header and the eight rows every parameter table has. */
  function FixedParameterRows(p: ReportParams): seq<Row> {
    [ Row("Paramètre", Text("Valeur")),
      Row("Technologie", Text(Display(TechnologyChoices, p.technology))),
      Row("Modèle de propagation", Text(Display(PropagationModelChoices, p.propagationModel))),
      Row("Fréquence", Quantity(p.frequency, "MHz")),
      Row("Hauteur d'antenne", Quantity(p.antennaHeight, "m")),
      Row("Puissance d'antenne", Quantity(p.antennaPower, "dBm")),
      Row("Type de terrain", Text(Display(TerrainTypeChoices, p.terrainType))),
      Row("Coordonnées", Position(p.longitude, p.latitude)),
      Row("Rayon", Quantity(p.radius, "km")) ]
  }

  /**
   * The parameter table: none when the simulation has no parameter row;
   * otherwise the fixed rows, then a density row only when the population
   * density is non-zero.
   */
  method ParameterRows(params: Option<ReportParams>) returns (rows: seq<Row>)
    ensures params.None? ==> rows == []
    ensures params.Some? ==> var p := params.value;
      && |rows| == 9 + (if p.populationDensity != 0.0 then 1 else 0)
      && rows[..9] == FixedParameterRows(p)
      && (p.populationDensity != 0.0 ==> rows[9] == Row("Densité de population", Quantity(p.populationDensity, "hab/km²")))
  {
    if params.None? {
      return [];
    }
    var p := params.value;
    rows := FixedParameterRows(p);
    if p.populationDensity != 0.0 {
      rows := rows + [Row("Densité de population", Quantity(p.populationDensity, "hab/km²"))];
    }
  }

  /** What the report reads from a stored result row. */
  datatype ReportResult = ReportResult(coveragePercentage: real, populationCovered: Option<int>)

  /**
   * The result table: none when the simulation has no result row;
   * otherwise the header and the coverage row, then a population row only
   * when the population covered is set and non-zero.
   */
  method ResultRows(result: Option<ReportResult>) returns (rows: seq<Row>)
    ensures result.None? ==> rows == []
    ensures result.Some? ==> var res := result.value;
      && |rows| == (if res.populationCovered.Some? && res.populationCovered.value != 0 then 3 else 2)
      && rows[0] == Row("Métrique", Text("Valeur"))
      && rows[1] == Row("Pourcentage de couverture", Percent(res.coveragePercentage))
      && (|rows| == 3 ==> rows[2] == Row("Population couverte", Inhabitants(res.populationCovered.value)))
  {
    if result.None? {
      return [];
    }
    var res := result.value;
    rows := [Row("Métrique", Text("Valeur")), Row("Pourcentage de couverture", Percent(res.coveragePercentage))];
    if res.populationCovered.Some? && res.populationCovered.value != 0 {
      rows := rows + [Row("Population couverte", Inhabitants(res.populationCovered.value))];
    }
  }

  /**
   * A run with no covered cell: the covered area sums to 0, the population
   * stored with it is `None` or 0, and the report's result table has only
   * the header and the coverage row.
   */
  method NoCoveredCellsNoPopulationRow(g: Coverage.Grid, coveragePercentage: real) returns (rows: seq<Row>)
    ensures |rows| == 2
    ensures rows[1] == Row("Pourcentage de couverture", Percent(coveragePercentage))
  {
    var area := Coverage.CoveredArea(g, []);
    var population := Coverage.PopulationCovered(area, g.p.populationDensity);
    rows := ResultRows(Some(ReportResult(coveragePercentage, population)));
  }
}
