/**
 * The catalogue of 5G models the simulation API advertises, and the
 * parameters each of them takes.
 */
module ModelCatalog {
  import opened Common
  import FiveG

  datatype ModelInfo = ModelInfo(id: string, name: string, description: string, scenarios: seq<string>)

  /** The parameter lists of one model: required and optional names, and defaults. */
  datatype ParameterSpec = ParameterSpec(required: seq<string>, optional: seq<string>, defaults: map<string, real>)

  const ThreeGppId: string := "3GPP_TR_38901"
  const MmWaveId: string := "mmWave"

  /** `get_available_5g_models`. */
  function AvailableModels(): (r: seq<ModelInfo>)
    ensures |r| == 2
  {
    [ ModelInfo(ThreeGppId, "3GPP TR 38.901", "Modèle 3GPP TR 38.901 pour les bandes FR1 et FR2",
                ["UMa", "UMi", "RMa", "InH-Office", "InH-ShoppingMall"]),
      ModelInfo(MmWaveId, "Ondes millimétriques", "Modèle pour les fréquences millimétriques (24-100 GHz)",
                ["LOS", "NLOS"]) ]
  }

  /** `get_5g_model_parameters`: the parameter lists of a model, `None` for an unknown id. */
  function ModelParameters(modelId: string): (r: Option<ParameterSpec>)
    ensures r.Some? <==> modelId == "3GPP_TR_38901" || modelId == "mmWave"
    ensures r.Some? ==> r.value.defaults.Keys == set f | f in r.value.optional
    ensures r.Some? ==> forall f :: f in r.value.required ==> f !in r.value.optional
  {
    if modelId == ThreeGppId then
      Some(ParameterSpec(["scenario", "los_condition", "h_bs", "h_ut"],
                         ["h", "w", "h_roof", "street_width"],
                         map["h" := 20.0, "w" := 20.0, "h_roof" := 20.0, "street_width" := 20.0]))
    else if modelId == MmWaveId then
      Some(ParameterSpec(["los_condition"], ["material_attenuation"], map["material_attenuation" := 0.0]))
    else
      None
  }

  /**
   * Every advertised model has a parameter list and nothing else has one:
   * the ids of `AvailableModels` are exactly the ids `ModelParameters` knows.
   */
  lemma ParametersExactlyForListedModels(modelId: string)
    ensures ModelParameters(modelId).Some? <==> exists i :: 0 <= i < |AvailableModels()| && AvailableModels()[i].id == modelId
  {
    if ModelParameters(modelId).Some? {
      if modelId == ThreeGppId {
        assert AvailableModels()[0].id == modelId;
      } else {
        assert AvailableModels()[1].id == modelId;
      }
    }
  }

  /**
   * The scenarios advertised for the 3GPP model are exactly those its path
   * loss accepts: with an in-range frequency and distance, a listed scenario
   * never raises the unsupported-scenario error, and the listing is the one
   * the error message names.
   */
  lemma AdvertisedScenariosAccepted(m: Math, frequency: real, distance: real, scenario: string, los: string)
    requires scenario in AvailableModels()[0].scenarios
    ensures AvailableModels()[0].scenarios == FiveG.Scenarios
    ensures !FiveG.PathLoss(m, frequency, distance, scenario, los).Failure?
            || !FiveG.PathLoss(m, frequency, distance, scenario, los).error.UnsupportedScenario?
  {
    var r := FiveG.PathLoss(m, frequency, distance, scenario, los);
    if scenario == "RMa" && los != "LOS" {
      FiveG.OnlyValueErrors(m, frequency, distance, scenario, los, 10.0, 1.5, 5.0, 20.0);
    }
  }

  /**
   * The two conditions advertised for mmWave are the two branches of its
   * penalty term: "NLOS" loses exactly 20 dB more than "LOS".
   */
  lemma AdvertisedMmWaveConditions(m: Math, frequency: real, distance: real, attenuation: real)
    requires FiveG.MmWavePathLoss(m, frequency, distance, "LOS", attenuation).Success?
    ensures AvailableModels()[1].scenarios == ["LOS", "NLOS"]
    ensures FiveG.MmWavePathLoss(m, frequency, distance, "NLOS", attenuation).value
         == FiveG.MmWavePathLoss(m, frequency, distance, "LOS", attenuation).value + 20.0
  {
  }
}
