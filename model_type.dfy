/** The closed set of W' balance models (the Kotlin enum `WPrimeModelType`),
    with the two members of a Kotlin enum the settings rely on: `name`, the
    identifier as a string, and `valueOf`, its partial inverse, which throws
    for a string that names no variant. */
module ModelTypes {
  import opened Wrappers

  datatype ModelType =
    | Skiba2012
    | SkibaDifferential
    | Bartram
    | CaenLievens
    | Chorley
    | Weigend

  /** `modelType.name`. */
  function Name(m: ModelType): string
  {
    match m
    case Skiba2012 => "SKIBA_2012"
    case SkibaDifferential => "SKIBA_DIFFERENTIAL"
    case Bartram => "BARTRAM"
    case CaenLievens => "CAEN_LIEVENS"
    case Chorley => "CHORLEY"
    case Weigend => "WEIGEND"
  }

  /** `WPrimeModelType.valueOf(s)`; None stands for the IllegalArgumentException
      it throws when s is not the name of a variant. */
  function ValueOf(s: string): (r: Option<ModelType>)
    ensures r.Some? ==> Name(r.value) == s
  {
    if s == "SKIBA_2012" then Some(Skiba2012)
    else if s == "SKIBA_DIFFERENTIAL" then Some(SkibaDifferential)
    else if s == "BARTRAM" then Some(Bartram)
    else if s == "CAEN_LIEVENS" then Some(CaenLievens)
    else if s == "CHORLEY" then Some(Chorley)
    else if s == "WEIGEND" then Some(Weigend)
    else None
  }

  /** `valueOf(m.name) == m` for every variant, so storing a model by its name
      and reading it back recovers it; and valueOf accepts nothing else. */
  lemma ValueOfName(m: ModelType, s: string)
    ensures ValueOf(Name(m)) == Some(m)
    ensures ValueOf(s).Some? <==> exists v :: Name(v) == s
  {
    if exists v :: Name(v) == s {
      var v :| Name(v) == s;
      assert ValueOf(Name(v)).Some?;
    }
  }
}
