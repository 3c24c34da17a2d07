/**
 * The cross-field rule of the simulation-parameter serializer: a 5G
 * simulation on the 3GPP model must carry the scenario, the LOS condition
 * and both antenna heights, and the UMa and RMa scenarios also need the
 * building height h and the street width w.
 */
module Serializer {
  import opened Common
  import ModelCatalog

  /** A deserialized field value; `Null` is Python's `None`. */
  datatype Value = Null | Text(text: string) | Number(number: real)

  /** The validated data, by field name. */
  type Data = map<string, Value>

  /** `data.get(field)`. */
  function Get(data: Data, field: string): Value {
    if field in data then data[field] else Null
  }

  /** A field that is missing or `None`. */
  predicate Absent(data: Data, field: string) {
    field !in data || data[field] == Null
  }

  const BaseFields: seq<string> := ["scenario", "los_condition", "h_bs", "h_ut"]

  /** How the UMa/RMa error message names h and w. */
  const HLabel: string := "h (hauteur moyenne des bâtiments)"
  const WLabel: string := "w (largeur moyenne des routes)"

  datatype ValidationError =
    | MissingFields(fields: seq<string>)
    | MissingForScenario(scenario: Value, labels: seq<string>)

  /** `xs` is `ys` with some elements dropped, the rest in the same order. */
  predicate SubsequenceOf(xs: seq<string>, ys: seq<string>) {
    if xs == [] then true
    else if ys == [] then false
    else if xs[0] == ys[0] then SubsequenceOf(xs[1..], ys[1..])
    else SubsequenceOf(xs, ys[1..])
  }

  /** The list comprehension over the required fields: those absent, in list order. */
  function MissingOf(data: Data, fields: seq<string>): (r: seq<string>)
    ensures forall f :: f in r <==> f in fields && Absent(data, f)
    ensures SubsequenceOf(r, fields)
  {
    if fields == [] then []
    else
      var rest := MissingOf(data, fields[1..]);
      assert forall f :: f in fields <==> f == fields[0] || f in fields[1..];
      if Absent(data, fields[0]) then [fields[0]] + rest
      else
        SkipHeadKeepsSubsequence(rest, fields);
        rest
  }

  /** A subsequence of the tail is a subsequence of the whole. */
  lemma {:induction false} SkipHeadKeepsSubsequence(xs: seq<string>, ys: seq<string>)
    requires ys != []
    requires SubsequenceOf(xs, ys[1..])
    ensures SubsequenceOf(xs, ys)
    decreases |ys|, 0
  {
    if xs != [] && xs[0] == ys[0] {
      SubsequenceDropHead(xs, ys[1..]);
    }
  }

  /** Dropping the first element of a subsequence keeps it a subsequence. */
  lemma {:induction false} SubsequenceDropHead(xs: seq<string>, ys: seq<string>)
    requires xs != []
    requires SubsequenceOf(xs, ys)
    ensures SubsequenceOf(xs[1..], ys)
    decreases |ys|, 1
  {
    if xs[0] == ys[0] {
      if xs[1..] != [] {
        SkipHeadKeepsSubsequence(xs[1..], ys);
      }
    } else {
      SubsequenceDropHead(xs, ys[1..]);
      if xs[1..] != [] {
        SkipHeadKeepsSubsequence(xs[1..], ys);
      }
    }
  }

  predicate IsThreeGppFiveG(data: Data) {
    Get(data, "technology") == Text("5G") && Get(data, "propagation_model") == Text("3GPP_TR_38901")
  }

  predicate NeedsHeightAndWidth(scenario: Value) {
    scenario == Text("UMa") || scenario == Text("RMa")
  }

  /**
   * `SimulationParameterSerializer.validate`. The data comes back unchanged
   * unless it is 5G on the 3GPP model with an absent base field, or with
   * scenario UMa or RMa and an absent h or w.
   */
  function Validate(data: Data): (r: Result<Data, ValidationError>)
    ensures r.Success? ==> r.value == data
    ensures !IsThreeGppFiveG(data) ==> r == Success(data)
    ensures r.Failure? <==>
      IsThreeGppFiveG(data) &&
      ((exists f :: f in BaseFields && Absent(data, f)) ||
       (NeedsHeightAndWidth(Get(data, "scenario")) && (Absent(data, "h") || Absent(data, "w"))))
  {
    if IsThreeGppFiveG(data) then
      var missing := MissingOf(data, BaseFields);
      assert missing != [] ==> missing[0] in missing;
      if missing != [] then Failure(MissingFields(missing))
      else
        var scenario := Get(data, "scenario");
        if NeedsHeightAndWidth(scenario) && (Get(data, "h") == Null || Get(data, "w") == Null) then
          var labels := (if Get(data, "h") == Null then [HLabel] else []) + (if Get(data, "w") == Null then [WLabel] else []);
          Failure(MissingForScenario(scenario, labels))
        else Success(data)
    else Success(data)
  }

  /**
   * A missing-fields error lists exactly the absent base fields, in the
   * order scenario, los_condition, h_bs, h_ut, and never an empty list.
   */
  lemma MissingFieldsListedInOrder(data: Data)
    requires Validate(data).Failure? && Validate(data).error.MissingFields?
    ensures var fs := Validate(data).error.fields;
            && fs != []
            && SubsequenceOf(fs, BaseFields)
            && forall f :: f in fs <==> f in BaseFields && Absent(data, f)
  {
  }

  /**
   * The h/w check is reached only when every base field is present, and it
   * names h before w, each exactly when absent.
   */
  lemma ScenarioCheckAfterBaseFields(data: Data)
    requires Validate(data).Failure? && Validate(data).error.MissingForScenario?
    ensures forall f :: f in BaseFields ==> !Absent(data, f)
    ensures NeedsHeightAndWidth(Validate(data).error.scenario)
    ensures Validate(data).error.labels ==
      (if Absent(data, "h") then [HLabel] else []) + (if Absent(data, "w") then [WLabel] else [])
  {
    var missing := MissingOf(data, BaseFields);
    assert missing == [];
  }

  /**
   * UMi, InH-Office and InH-ShoppingMall never need h or w: removing both
   * changes nothing about whether the data passes.
   */
  lemma OtherScenariosIgnoreHeightAndWidth(data: Data)
    requires Get(data, "scenario") in [Text("UMi"), Text("InH-Office"), Text("InH-ShoppingMall")]
    ensures Validate(data).Success? <==> Validate(data - {"h", "w"}).Success?
  {
    var stripped := data - {"h", "w"};
    assert Get(stripped, "scenario") == Get(data, "scenario");
    assert IsThreeGppFiveG(stripped) == IsThreeGppFiveG(data);
    forall f | f in BaseFields
      ensures Absent(stripped, f) == Absent(data, f)
    {
    }
  }

  /** The base fields are the required parameters the catalogue lists for the 3GPP model. */
  lemma BaseFieldsAreCatalogRequired()
    ensures ModelCatalog.ModelParameters("3GPP_TR_38901").Some?
    ensures BaseFields == ModelCatalog.ModelParameters("3GPP_TR_38901").value.required
  {
  }
}
