/** The pure part of the settings screen (ConfigurationScreen.kt): which
    model parameters each W' model uses, the labels of the models in the
    selection list, and which parameter fields the screen enables or shows. */
module ConfigurationScreen {
  import opened Wrappers
  import opened ModelTypes
  import opened Settings

  /** `ModelParameterRequirements`. */
  datatype ModelParameterRequirements = ModelParameterRequirements(usesTau: bool, usesKIn: bool)

  /** `getModelRequirements`: only Bartram takes the user's tau, only Weigend
      the hydraulic inflow coefficient. */
  function GetModelRequirements(model: ModelType): (r: ModelParameterRequirements)
    ensures r.usesTau <==> model == Bartram
    ensures r.usesKIn <==> model == Weigend
    ensures !(r.usesTau && r.usesKIn)
  {
    match model
    case Skiba2012 | SkibaDifferential | CaenLievens | Chorley =>
      ModelParameterRequirements(usesTau := false, usesKIn := false)
    case Bartram => ModelParameterRequirements(usesTau := true, usesKIn := false)
    case Weigend => ModelParameterRequirements(usesTau := false, usesKIn := true)
  }

  /** `formatModelName`: the label of a model in the selection list. */
  function FormatModelName(model: ModelType): string
  {
    match model
    case Skiba2012 => "Skiba 2012"
    case SkibaDifferential => "Skiba Differential (2014)"
    case Bartram => "Bartram 2018"
    case CaenLievens => "Caen/Lievens (Domain)"
    case Chorley => "Chorley 2023 (Bi-Exp)"
    case Weigend => "Weigend 2022 (Hydraulic)"
  }

  /** The model a list label stands for, if any: the inverse of the labels. */
  function ModelOfLabel(text: string): (r: Option<ModelType>)
    ensures r.Some? ==> FormatModelName(r.value) == text
  {
    if text == "Skiba 2012" then Some(Skiba2012)
    else if text == "Skiba Differential (2014)" then Some(SkibaDifferential)
    else if text == "Bartram 2018" then Some(Bartram)
    else if text == "Caen/Lievens (Domain)" then Some(CaenLievens)
    else if text == "Chorley 2023 (Bi-Exp)" then Some(Chorley)
    else if text == "Weigend 2022 (Hydraulic)" then Some(Weigend)
    else None
  }

  /** Every model has a label, and no two models share one: the label
      identifies the model. */
  lemma FormatModelNameInjective(a: ModelType, b: ModelType)
    ensures ModelOfLabel(FormatModelName(a)) == Some(a)
    ensures FormatModelName(a) == FormatModelName(b) ==> a == b
  {
    assert ModelOfLabel(FormatModelName(b)) == Some(b);
  }

  /** The state of the two model-specific parameter fields on the screen. */
  datatype ParameterFields = ParameterFields(tauEnabled: bool, tauDescription: string, kInShown: bool)

  /** The tau field is always present, enabled (and described as the
      individualized constant) only when the model uses tau; the kIn field is
      present only when the model uses kIn. */
  function ParameterFieldsFor(configuration: WPrimeConfiguration): (f: ParameterFields)
    ensures f.tauEnabled <==> configuration.modelType == Bartram
    ensures f.kInShown <==> configuration.modelType == Weigend
    ensures f.tauEnabled <==> f.tauDescription == "Individualized recovery time constant"
  {
    var requirements := GetModelRequirements(configuration.modelType);
    ParameterFields(
      tauEnabled := requirements.usesTau,
      tauDescription := if requirements.usesTau then "Individualized recovery time constant"
                        else "Not used by this model",
      kInShown := requirements.usesKIn)
  }
}
