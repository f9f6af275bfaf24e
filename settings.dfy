/** The persisted settings of the extension (WPrimeSettings.kt): the
    configuration record with its defaults, its decoding from the preferences
    store, and the eight single-key writes. The store is a map from key names
    to typed values; file persistence, the change flow and logging are outside
    this model. */
module Settings {
  import opened Wrappers
  import opened ModelTypes

  /** `WPrimeConfiguration`: CP in watts, W' in joules, tau in seconds, the
      hydraulic inflow coefficient, and three switches. */
  datatype WPrimeConfiguration = WPrimeConfiguration(
    criticalPower: real,
    anaerobicCapacity: real,
    tauRecovery: real,
    kIn: real,
    recordFit: bool,
    modelType: ModelType,
    showArrow: bool,
    useColors: bool)

  /** `WPrimeConfiguration()`, the record built from the constructor's defaults. */
  const DEFAULT_CONFIGURATION := WPrimeConfiguration(
    criticalPower := 250.0,
    anaerobicCapacity := 12000.0,
    tauRecovery := 300.0,
    kIn := 0.002,
    recordFit := true,
    modelType := SkibaDifferential,
    showArrow := true,
    useColors := true)

  const CRITICAL_POWER_KEY := "critical_power"
  const ANAEROBIC_CAPACITY_KEY := "anaerobic_capacity"
  const TAU_RECOVERY_KEY := "tau_recovery"
  const K_IN_KEY := "k_in"
  const RECORD_FIT_KEY := "record_fit"
  const MODEL_TYPE_KEY := "model_type"
  const SHOW_ARROW_KEY := "show_arrow"
  const USE_COLORS_KEY := "use_colors"

  /** A stored preference: the store keeps doubles, booleans and strings. */
  datatype PrefValue = DoubleValue(d: real) | BooleanValue(b: bool) | StringValue(s: string)

  type Preferences = map<string, PrefValue>

  /** Why decoding fails: a key holding a value of another kind (a cast that
      fails in the source), or a stored model name `valueOf` rejects. */
  datatype DecodeError = WrongKind(key: string) | UnknownModelName(name: string)

  /** `preferences[key] ?: default` for a double key. */
  function DoubleOr(prefs: Preferences, key: string, default: real): Result<real, DecodeError>
  {
    if key !in prefs then Success(default)
    else if prefs[key].DoubleValue? then Success(prefs[key].d)
    else Failure(WrongKind(key))
  }

  /** `preferences[key] ?: default` for a boolean key. */
  function BooleanOr(prefs: Preferences, key: string, default: bool): Result<bool, DecodeError>
  {
    if key !in prefs then Success(default)
    else if prefs[key].BooleanValue? then Success(prefs[key].b)
    else Failure(WrongKind(key))
  }

  /** `preferences[key] ?: default` for a string key. */
  function StringOr(prefs: Preferences, key: string, default: string): Result<string, DecodeError>
  {
    if key !in prefs then Success(default)
    else if prefs[key].StringValue? then Success(prefs[key].s)
    else Failure(WrongKind(key))
  }

  /** The `configuration` mapping: the model name first (`valueOf` throws on an
      unknown one), then every other field from its key or its own default. */
  function Decode(prefs: Preferences): Result<WPrimeConfiguration, DecodeError>
  {
    var modelName :- StringOr(prefs, MODEL_TYPE_KEY, Name(SkibaDifferential));
    var modelType :- if ValueOf(modelName).Some? then Success(ValueOf(modelName).value)
                     else Failure(UnknownModelName(modelName));
    var criticalPower :- DoubleOr(prefs, CRITICAL_POWER_KEY, 250.0);
    var anaerobicCapacity :- DoubleOr(prefs, ANAEROBIC_CAPACITY_KEY, 12000.0);
    var tauRecovery :- DoubleOr(prefs, TAU_RECOVERY_KEY, 300.0);
    var kIn :- DoubleOr(prefs, K_IN_KEY, 0.002);
    var recordFit :- BooleanOr(prefs, RECORD_FIT_KEY, true);
    var showArrow :- BooleanOr(prefs, SHOW_ARROW_KEY, true);
    var useColors :- BooleanOr(prefs, USE_COLORS_KEY, true);
    Success(WPrimeConfiguration(criticalPower, anaerobicCapacity, tauRecovery, kIn,
                                recordFit, modelType, showArrow, useColors))
  }

  predicate HoldsDouble(prefs: Preferences, key: string) {
    key in prefs ==> prefs[key].DoubleValue?
  }

  predicate HoldsBoolean(prefs: Preferences, key: string) {
    key in prefs ==> prefs[key].BooleanValue?
  }

  /** The model key is absent, or holds the name of a variant. */
  predicate HoldsModelName(prefs: Preferences) {
    MODEL_TYPE_KEY in prefs ==>
      prefs[MODEL_TYPE_KEY].StringValue? && ValueOf(prefs[MODEL_TYPE_KEY].s).Some?
  }

  /** Every key other than the model key is absent or of its own kind. */
  predicate ScalarKeysWellFormed(prefs: Preferences) {
    && HoldsDouble(prefs, CRITICAL_POWER_KEY)
    && HoldsDouble(prefs, ANAEROBIC_CAPACITY_KEY)
    && HoldsDouble(prefs, TAU_RECOVERY_KEY)
    && HoldsDouble(prefs, K_IN_KEY)
    && HoldsBoolean(prefs, RECORD_FIT_KEY)
    && HoldsBoolean(prefs, SHOW_ARROW_KEY)
    && HoldsBoolean(prefs, USE_COLORS_KEY)
  }

  predicate WellFormed(prefs: Preferences) {
    ScalarKeysWellFormed(prefs) && HoldsModelName(prefs)
  }

  /** Decoding succeeds exactly on a well-formed store. */
  lemma DecodeSucceedsIff(prefs: Preferences)
    ensures Decode(prefs).Success? <==> WellFormed(prefs)
  {
  }

  /** An empty store decodes to `WPrimeConfiguration()`: the defaults in the
      mapping agree with those of the record. */
  lemma DecodeEmpty()
    ensures Decode(map[]) == Success(DEFAULT_CONFIGURATION)
  {
  }

  /** Each field is the stored value when its key is present and its own
      default otherwise, whatever the other keys hold. */
  lemma DecodeFields(prefs: Preferences)
    requires Decode(prefs).Success?
    ensures var c := Decode(prefs).value;
      && c.criticalPower == (if CRITICAL_POWER_KEY in prefs then prefs[CRITICAL_POWER_KEY].d
                             else DEFAULT_CONFIGURATION.criticalPower)
      && c.anaerobicCapacity == (if ANAEROBIC_CAPACITY_KEY in prefs then prefs[ANAEROBIC_CAPACITY_KEY].d
                                 else DEFAULT_CONFIGURATION.anaerobicCapacity)
      && c.tauRecovery == (if TAU_RECOVERY_KEY in prefs then prefs[TAU_RECOVERY_KEY].d
                           else DEFAULT_CONFIGURATION.tauRecovery)
      && c.kIn == (if K_IN_KEY in prefs then prefs[K_IN_KEY].d else DEFAULT_CONFIGURATION.kIn)
      && c.recordFit == (if RECORD_FIT_KEY in prefs then prefs[RECORD_FIT_KEY].b
                         else DEFAULT_CONFIGURATION.recordFit)
      && c.modelType == (if MODEL_TYPE_KEY in prefs then ValueOf(prefs[MODEL_TYPE_KEY].s).value
                         else DEFAULT_CONFIGURATION.modelType)
      && c.showArrow == (if SHOW_ARROW_KEY in prefs then prefs[SHOW_ARROW_KEY].b
                         else DEFAULT_CONFIGURATION.showArrow)
      && c.useColors == (if USE_COLORS_KEY in prefs then prefs[USE_COLORS_KEY].b
                         else DEFAULT_CONFIGURATION.useColors)
  {
  }

  /** A stored model string that names no variant makes decoding fail. */
  lemma UnknownModelNameFails(prefs: Preferences, s: string)
    requires MODEL_TYPE_KEY in prefs && prefs[MODEL_TYPE_KEY] == StringValue(s)
    requires ValueOf(s).None?
    ensures Decode(prefs) == Failure(UnknownModelName(s))
  {
  }

  /** One of the eight settings with its new value: the argument of an `update*`. */
  datatype Setting =
    | CriticalPower(watts: real)
    | AnaerobicCapacity(joules: real)
    | TauRecovery(seconds: real)
    | KIn(rate: real)
    | RecordFit(enabled: bool)
    | ShowArrow(enabled: bool)
    | UseColors(enabled: bool)
    | Model(model: ModelType)

  function KeyOf(s: Setting): string
  {
    match s
    case CriticalPower(_) => CRITICAL_POWER_KEY
    case AnaerobicCapacity(_) => ANAEROBIC_CAPACITY_KEY
    case TauRecovery(_) => TAU_RECOVERY_KEY
    case KIn(_) => K_IN_KEY
    case RecordFit(_) => RECORD_FIT_KEY
    case ShowArrow(_) => SHOW_ARROW_KEY
    case UseColors(_) => USE_COLORS_KEY
    case Model(_) => MODEL_TYPE_KEY
  }

  /** The stored form of a value; a model is stored by its name. */
  function Encode(s: Setting): PrefValue
  {
    match s
    case CriticalPower(v) => DoubleValue(v)
    case AnaerobicCapacity(v) => DoubleValue(v)
    case TauRecovery(v) => DoubleValue(v)
    case KIn(v) => DoubleValue(v)
    case RecordFit(v) => BooleanValue(v)
    case ShowArrow(v) => BooleanValue(v)
    case UseColors(v) => BooleanValue(v)
    case Model(m) => StringValue(Name(m))
  }

  /** The store after `edit { preferences[KEY] = value }`. */
  function Store(prefs: Preferences, s: Setting): Preferences
  {
    prefs[KeyOf(s) := Encode(s)]
  }

  /** The configuration with the one field a setting names replaced. */
  function Apply(c: WPrimeConfiguration, s: Setting): WPrimeConfiguration
  {
    match s
    case CriticalPower(v) => c.(criticalPower := v)
    case AnaerobicCapacity(v) => c.(anaerobicCapacity := v)
    case TauRecovery(v) => c.(tauRecovery := v)
    case KIn(v) => c.(kIn := v)
    case RecordFit(v) => c.(recordFit := v)
    case ShowArrow(v) => c.(showArrow := v)
    case UseColors(v) => c.(useColors := v)
    case Model(m) => c.(modelType := m)
  }

  /** A write touches its own key only, and writing the same value again
      leaves the store as it was after the first write. */
  lemma StoreWritesOneKey(prefs: Preferences, s: Setting)
    ensures var after := Store(prefs, s);
      && after.Keys == prefs.Keys + {KeyOf(s)}
      && after[KeyOf(s)] == Encode(s)
      && (forall k :: k in prefs && k != KeyOf(s) ==> after[k] == prefs[k])
      && Store(after, s) == after
  {
  }

  /** Writing a setting and decoding yields the old configuration with that
      one field replaced: the value written for it, every other field as before. */
  lemma StoreThenDecode(prefs: Preferences, s: Setting)
    requires Decode(prefs).Success?
    ensures Decode(Store(prefs, s)) == Success(Apply(Decode(prefs).value, s))
  {
    var after := Store(prefs, s);
    DecodeSucceedsIff(prefs);
    assert WellFormed(after) by {
      if s.Model? {
        ValueOfName(s.model, "");
      }
    }
    DecodeSucceedsIff(after);
    DecodeFields(prefs);
    DecodeFields(after);
    if s.Model? {
      ValueOfName(s.model, "");
    }
  }

  /** Writing a model repairs an unknown stored name: when the other keys are
      well formed, the store decodes afterwards, to the model written. */
  lemma StoreModelThenDecode(prefs: Preferences, m: ModelType)
    requires ScalarKeysWellFormed(prefs)
    ensures Decode(Store(prefs, Model(m))).Success?
    ensures Decode(Store(prefs, Model(m))).value.modelType == m
  {
    var after := Store(prefs, Model(m));
    ValueOfName(m, "");
    assert WellFormed(after);
    DecodeSucceedsIff(after);
    DecodeFields(after);
  }

  /** `WPrimeSettings`: the preferences store and its single-key updates. */
  class WPrimeSettings {
    var preferences: Preferences

    /** Opens the store with whatever it already holds. */
    constructor (stored: Preferences)
      ensures preferences == stored
    {
      preferences := stored;
    }

    /** The current value of the `configuration` flow. */
    function Configuration(): Result<WPrimeConfiguration, DecodeError>
      reads this
    {
      Decode(preferences)
    }

    method UpdateCriticalPower(power: real)
      modifies this
      ensures preferences == Store(old(preferences), CriticalPower(power))
      ensures old(Configuration()).Success? ==>
        Configuration() == Success(old(Configuration()).value.(criticalPower := power))
    {
      ghost var before := preferences;
      preferences := preferences[CRITICAL_POWER_KEY := DoubleValue(power)];
      if Decode(before).Success? { StoreThenDecode(before, CriticalPower(power)); }
    }

    method UpdateAnaerobicCapacity(capacity: real)
      modifies this
      ensures preferences == Store(old(preferences), AnaerobicCapacity(capacity))
      ensures old(Configuration()).Success? ==>
        Configuration() == Success(old(Configuration()).value.(anaerobicCapacity := capacity))
    {
      ghost var before := preferences;
      preferences := preferences[ANAEROBIC_CAPACITY_KEY := DoubleValue(capacity)];
      if Decode(before).Success? { StoreThenDecode(before, AnaerobicCapacity(capacity)); }
    }

    method UpdateTauRecovery(tau: real)
      modifies this
      ensures preferences == Store(old(preferences), TauRecovery(tau))
      ensures old(Configuration()).Success? ==>
        Configuration() == Success(old(Configuration()).value.(tauRecovery := tau))
    {
      ghost var before := preferences;
      preferences := preferences[TAU_RECOVERY_KEY := DoubleValue(tau)];
      if Decode(before).Success? { StoreThenDecode(before, TauRecovery(tau)); }
    }

    method UpdateKIn(kIn: real)
      modifies this
      ensures preferences == Store(old(preferences), KIn(kIn))
      ensures old(Configuration()).Success? ==>
        Configuration() == Success(old(Configuration()).value.(kIn := kIn))
    {
      ghost var before := preferences;
      preferences := preferences[K_IN_KEY := DoubleValue(kIn)];
      if Decode(before).Success? { StoreThenDecode(before, KIn(kIn)); }
    }

    method UpdateRecordFit(enabled: bool)
      modifies this
      ensures preferences == Store(old(preferences), RecordFit(enabled))
      ensures old(Configuration()).Success? ==>
        Configuration() == Success(old(Configuration()).value.(recordFit := enabled))
    {
      ghost var before := preferences;
      preferences := preferences[RECORD_FIT_KEY := BooleanValue(enabled)];
      if Decode(before).Success? { StoreThenDecode(before, RecordFit(enabled)); }
    }

    method UpdateShowArrow(enabled: bool)
      modifies this
      ensures preferences == Store(old(preferences), ShowArrow(enabled))
      ensures old(Configuration()).Success? ==>
        Configuration() == Success(old(Configuration()).value.(showArrow := enabled))
    {
      ghost var before := preferences;
      preferences := preferences[SHOW_ARROW_KEY := BooleanValue(enabled)];
      if Decode(before).Success? { StoreThenDecode(before, ShowArrow(enabled)); }
    }

    method UpdateUseColors(enabled: bool)
      modifies this
      ensures preferences == Store(old(preferences), UseColors(enabled))
      ensures old(Configuration()).Success? ==>
        Configuration() == Success(old(Configuration()).value.(useColors := enabled))
    {
      ghost var before := preferences;
      preferences := preferences[USE_COLORS_KEY := BooleanValue(enabled)];
      if Decode(before).Success? { StoreThenDecode(before, UseColors(enabled)); }
    }

    method UpdateModelType(modelType: ModelType)
      modifies this
      ensures preferences == Store(old(preferences), Model(modelType))
      ensures old(Configuration()).Success? ==>
        Configuration() == Success(old(Configuration()).value.(modelType := modelType))
      ensures ScalarKeysWellFormed(old(preferences)) ==>
        Configuration().Success? && Configuration().value.modelType == modelType
    {
      ghost var before := preferences;
      preferences := preferences[MODEL_TYPE_KEY := StringValue(Name(modelType))];
      if Decode(before).Success? { StoreThenDecode(before, Model(modelType)); }
      if ScalarKeysWellFormed(before) { StoreModelThenDecode(before, modelType); }
    }
  }
}
