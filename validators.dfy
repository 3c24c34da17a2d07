/**
 * The field validators of the simulation parameters. Each returns the
 * `ValidationError` it raises, or `None` when the value passes.
 */
module Validators {
  import opened Common
  import OkumuraHata
  import Cost231

  datatype Invalid =
    | FrequencyOutOfBand(frequency: real)          // MHz
    | AntennaHeightOutOfRange(height: real)        // m
    | AntennaPowerOutOfRange(power: real)          // dBm
    | LongitudeOutOfRange(longitude: real)
    | LatitudeOutOfRange(latitude: real)
    | InvalidName

  /** `validate_frequency`: the mobile bands, 700-2600 MHz. */
  function ValidateFrequency(value: real): (r: Option<Invalid>)
    ensures r.None? <==> 700.0 <= value <= 2600.0
    ensures r.Some? ==> r.value == FrequencyOutOfBand(value)
  {
    if !(700.0 <= value <= 2600.0) then Some(FrequencyOutOfBand(value)) else None
  }

  /** `validate_antenna_height`: 3-200 m. */
  function ValidateAntennaHeight(value: real): (r: Option<Invalid>)
    ensures r.None? <==> 3.0 <= value <= 200.0
    ensures r.Some? ==> r.value == AntennaHeightOutOfRange(value)
  {
    if !(3.0 <= value <= 200.0) then Some(AntennaHeightOutOfRange(value)) else None
  }

  /** `validate_antenna_power`: 10-60 dBm. */
  function ValidateAntennaPower(value: real): (r: Option<Invalid>)
    ensures r.None? <==> 10.0 <= value <= 60.0
    ensures r.Some? ==> r.value == AntennaPowerOutOfRange(value)
  {
    if !(10.0 <= value <= 60.0) then Some(AntennaPowerOutOfRange(value)) else None
  }

  /** `validate_coordinates`: the longitude is checked first. */
  function ValidateCoordinates(longitude: real, latitude: real): (r: Option<Invalid>)
    ensures r.None? <==> -180.0 <= longitude <= 180.0 && -90.0 <= latitude <= 90.0
    ensures !(-180.0 <= longitude <= 180.0) ==> r == Some(LongitudeOutOfRange(longitude))
    ensures -180.0 <= longitude <= 180.0 && !(-90.0 <= latitude <= 90.0) ==> r == Some(LatitudeOutOfRange(latitude))
  {
    if !(-180.0 <= longitude <= 180.0) then Some(LongitudeOutOfRange(longitude))
    else if !(-90.0 <= latitude <= 90.0) then Some(LatitudeOutOfRange(latitude))
    else None
  }

  /** The characters of `[a-zA-Z0-9_\- ]`. */
  predicate NameChar(c: char) {
    ('a' <= c <= 'z') || ('A' <= c <= 'Z') || ('0' <= c <= '9') || c == '_' || c == '-' || c == ' '
  }

  /** Every character is a name character, scanned left to right. */
  function AllNameChars(s: string): (r: bool)
    ensures r <==> forall k :: 0 <= k < |s| ==> NameChar(s[k])
  {
    if s == [] then true
    else NameChar(s[0]) && AllNameChars(s[1..])
  }

  /**
   * `re.match(r'^[a-zA-Z0-9_\- ]+$', value)`: one or more name characters
   * up to the end, where `$` also matches just before a final newline.
   */
  function ValidateSimulationName(value: string): (r: Option<Invalid>)
    ensures r.None? <==>
      || (|value| > 0 && forall k :: 0 <= k < |value| ==> NameChar(value[k]))
      || (|value| > 1 && value[|value| - 1] == '\n' && forall k :: 0 <= k < |value| - 1 ==> NameChar(value[k]))
  {
    var body := if |value| > 0 && value[|value| - 1] == '\n' then value[..|value| - 1] else value;
    if |body| > 0 && AllNameChars(body) then None else Some(InvalidName)
  }

  /** The one newline the pattern lets through is a final one. */
  lemma NameAllowsOnlyFinalNewline(value: string)
    requires ValidateSimulationName(value).None?
    ensures forall k :: 0 <= k < |value| - 1 ==> value[k] != '\n'
    ensures ValidateSimulationName(value + "\n").None? <==> value[|value| - 1] != '\n'
  {
    var longer := value + "\n";
    assert longer[..|longer| - 1] == value;
    if value[|value| - 1] == '\n' {
      assert !NameChar(longer[|value| - 1]);
    }
  }

  /**
   * The validator's band is wider than the terrestrial models together:
   * from 2000 to 2600 MHz a frequency passes the validator but both
   * Okumura-Hata and COST-231 reject it with a frequency error.
   */
  lemma ValidatedBandExceedsTerrestrialModels(m: Math, f: real, h: real, hm: real, d: real, area: string)
    requires 2000.0 < f <= 2600.0
    ensures ValidateFrequency(f).None?
    ensures OkumuraHata.PathLoss(m, f, h, hm, d, area) == Failure(OutOfRange(Frequency, 150.0, 1500.0))
    ensures Cost231.PathLoss(m, f, h, hm, d, area) == Failure(OutOfRange(Frequency, 1500.0, 2000.0))
  {
  }
}
