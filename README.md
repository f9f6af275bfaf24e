# W' Karoo extension: display, sizing and settings logic in Dafny

This project models the parts of the W' ("W-prime") data-field extension
for Karoo bike computers that turn the integrator's output into what the
rider sees, and that store the rider's settings. The integrator is the
engine that tracks the remaining anaerobic work capacity from the power
stream. The model covers five pieces:

- the two data fields: the "%W'" field streams and shows W' as a percentage
  of capacity, and the "W' (J)" field streams joules and shows them rounded;
- the trend arrow of the field's view: the fill fraction, a rotation that
  is a multiple of 15 degrees in [-90, 90], and its 13-entry drawable table;
- the view's automatic text size (`pickTextSizeSp` and its caller);
- the model-parameter table and model labels of the settings screen;
- the settings store, as a class holding the preferences map. It has the
  `configuration` decoding with per-key defaults and the eight single-key
  `update*` writes.

Numbers are exact `real`s. Kotlin's `toInt()` truncates toward zero and
`roundToInt()` rounds half up. Both saturate at the 32-bit `Int` range, and
`KotlinMath` writes this out. `Int.toString()` is modelled in `Decimal`,
together with a parser. The parser is the reference inverse behind the
round-trip lemmas; the source never parses. Where the source throws, the
model returns an error value instead. `valueOf` on an unknown model name
and a preference of the wrong kind give a `DecodeError`. `steps.last {}`
with no fitting step gives `None`.

Files: `wrappers.dfy`, `kotlin_math.dfy`, `decimal.dfy`, `model_type.dfy`,
`settings.dfy`, `configuration_screen.dfy`, `glance_views.dfy`,
`percent_field.dfy`, `kj_field.dfy`.

## Model

| member | source | states |
|---|---|---|
| Decimal.IntToString | app/src/main/kotlin/com/itl/wprimeext/extension/WPrimeKjDataType.kt:28 | `Int.toString()` is never empty and is all digits exactly when the number is non-negative |
| Decimal.ParseIntToString | app/src/main/kotlin/com/itl/wprimeext/extension/WPrimeKjDataType.kt:28 | reading a rendered integer back yields that integer (decimal round trip) |
| Decimal.NatToStringLength | app/src/main/kotlin/com/itl/wprimeext/extension/WPrimeKjDataType.kt:43 | a value below 10^k renders in at most k characters, the basis of the fields' fixed character counts |
| ModelTypes.ValueOf | app/src/main/kotlin/com/itl/wprimeext/extension/WPrimeSettings.kt:43-44 | `valueOf` accepts only the name of a variant and returns that variant |
| ModelTypes.ValueOfName | app/src/main/kotlin/com/itl/wprimeext/extension/WPrimeSettings.kt:127-131 | `valueOf(m.name) == m` for every model; `valueOf` succeeds exactly on the six names |
| Settings.DecodeSucceedsIff | app/src/main/kotlin/com/itl/wprimeext/extension/WPrimeSettings.kt:42-55 | decoding succeeds if and only if every key is absent or of its own kind and a stored model name is valid |
| Settings.DecodeEmpty | app/src/main/kotlin/com/itl/wprimeext/extension/WPrimeSettings.kt:18-55 | an empty store decodes to `WPrimeConfiguration()`: 250, 12000, 300, 0.002, true, SKIBA_DIFFERENTIAL, true, true |
| Settings.DecodeFields | app/src/main/kotlin/com/itl/wprimeext/extension/WPrimeSettings.kt:47-54 | specifies `Settings.Decode`: each field is its stored value when its key is present and its own default otherwise, independently of other keys |
| Settings.UnknownModelNameFails | app/src/main/kotlin/com/itl/wprimeext/extension/WPrimeSettings.kt:43-44 | a stored model string naming no variant makes decoding fail with that name |
| Settings.StoreWritesOneKey | app/src/main/kotlin/com/itl/wprimeext/extension/WPrimeSettings.kt:71-133 | specifies `Settings.Store`: a write adds or replaces only its own key, leaves every other entry as it was, and repeating it changes nothing |
| Settings.StoreThenDecode | app/src/main/kotlin/com/itl/wprimeext/extension/WPrimeSettings.kt:71-133 | after a write, decoding gives the previous configuration with exactly the written field replaced by the written value |
| Settings.StoreModelThenDecode | app/src/main/kotlin/com/itl/wprimeext/extension/WPrimeSettings.kt:127-131 | writing a model makes a store with well-formed other keys decode, and decode to that model, even if the stored name was invalid before |
| Settings.WPrimeSettings.constructor | app/src/main/kotlin/com/itl/wprimeext/extension/WPrimeSettings.kt:29 | the settings object starts from what the store already holds |
| Settings.WPrimeSettings.UpdateCriticalPower | app/src/main/kotlin/com/itl/wprimeext/extension/WPrimeSettings.kt:71-77 | writes only `critical_power`; the configuration's CP becomes the value, other fields unchanged |
| Settings.WPrimeSettings.UpdateAnaerobicCapacity | app/src/main/kotlin/com/itl/wprimeext/extension/WPrimeSettings.kt:79-85 | writes only `anaerobic_capacity`; the configuration's W' becomes the value, other fields unchanged |
| Settings.WPrimeSettings.UpdateTauRecovery | app/src/main/kotlin/com/itl/wprimeext/extension/WPrimeSettings.kt:87-93 | writes only `tau_recovery`; tau becomes the value, other fields unchanged |
| Settings.WPrimeSettings.UpdateKIn | app/src/main/kotlin/com/itl/wprimeext/extension/WPrimeSettings.kt:95-101 | writes only `k_in`; kIn becomes the value, other fields unchanged |
| Settings.WPrimeSettings.UpdateRecordFit | app/src/main/kotlin/com/itl/wprimeext/extension/WPrimeSettings.kt:103-109 | writes only `record_fit`; recordFit becomes the value, other fields unchanged |
| Settings.WPrimeSettings.UpdateShowArrow | app/src/main/kotlin/com/itl/wprimeext/extension/WPrimeSettings.kt:111-117 | writes only `show_arrow`; showArrow becomes the value, other fields unchanged |
| Settings.WPrimeSettings.UpdateUseColors | app/src/main/kotlin/com/itl/wprimeext/extension/WPrimeSettings.kt:119-125 | writes only `use_colors`; useColors becomes the value, other fields unchanged |
| Settings.WPrimeSettings.UpdateModelType | app/src/main/kotlin/com/itl/wprimeext/extension/WPrimeSettings.kt:127-133 | writes the model's name under `model_type`; decoding then yields that model, other fields unchanged |
| ConfigurationScreen.GetModelRequirements | app/src/main/kotlin/com/itl/wprimeext/ConfigurationScreen.kt:390-400 | tau is used if and only if the model is Bartram, kIn if and only if it is Weigend; never both |
| ConfigurationScreen.ModelOfLabel | app/src/main/kotlin/com/itl/wprimeext/ConfigurationScreen.kt:373-380 | a label maps back only to the model it labels |
| ConfigurationScreen.FormatModelNameInjective | app/src/main/kotlin/com/itl/wprimeext/ConfigurationScreen.kt:373-380 | specifies `ConfigurationScreen.FormatModelName`: every model has a label that maps back to it, so no two models share a label |
| ConfigurationScreen.ParameterFieldsFor | app/src/main/kotlin/com/itl/wprimeext/ConfigurationScreen.kt:149-173 | the tau field is enabled, and described as individualized, exactly for Bartram; the kIn field is shown exactly for Weigend |
| GlanceViews.SafeCapacity | app/src/main/kotlin/com/itl/wprimeext/ui/WPrimeGlanceViews.kt:72 | the capacity used is positive: the capacity itself when positive, 1 otherwise |
| GlanceViews.FillFraction | app/src/main/kotlin/com/itl/wprimeext/ui/WPrimeGlanceViews.kt:72-73 | the fill fraction lies in [0, 1], is 0 for no W', 1 at or above capacity, and W'/capacity in between |
| GlanceViews.FillCapacityFloored | app/src/main/kotlin/com/itl/wprimeext/ui/WPrimeGlanceViews.kt:72-73 | a capacity of zero or less is replaced by 1 J: the fraction is as for 1 J, the joules clamped to [0, 1] |
| GlanceViews.RotationRatio | app/src/main/kotlin/com/itl/wprimeext/ui/WPrimeGlanceViews.kt:82 | the ratio lies in [-1, 1] and is 0 at CP; within the full-rotation delta it is exactly power delta / full-rotation delta, and beyond it it is pinned at +1 or -1 |
| GlanceViews.RotationDegrees | app/src/main/kotlin/com/itl/wprimeext/ui/WPrimeGlanceViews.kt:75-84 | the rotation is a multiple of 15 in [-90, 90]. It is 0 when W' is full and power is below CP; otherwise it is the multiple of 15 nearest to 90 x ratio (ties upward), hence 0 at CP with a sign that follows power minus CP |
| GlanceViews.RotationMonotone | app/src/main/kotlin/com/itl/wprimeext/ui/WPrimeGlanceViews.kt:82-83 | for a fixed fill and CP the rotation never decreases as power increases |
| GlanceViews.RotationSaturates | app/src/main/kotlin/com/itl/wprimeext/ui/WPrimeGlanceViews.kt:82-83 | beyond the full-rotation delta the rotation is +90, or -90 unless W' is full |
| GlanceViews.IconAngle | app/src/main/kotlin/com/itl/wprimeext/ui/WPrimeGlanceViews.kt:150-165 | every drawable depicts a multiple of 15 degrees in [-90, 90] |
| GlanceViews.ArrowTableBijective | app/src/main/kotlin/com/itl/wprimeext/ui/WPrimeGlanceViews.kt:150-165 | specifies `GlanceViews.ArrowDrawable`: each of the 13 angles maps to its own drawable, each drawable is reached from its angle, and any other angle gets the level arrow |
| GlanceViews.ArrowShowsRotation | app/src/main/kotlin/com/itl/wprimeext/ui/WPrimeGlanceViews.kt:150-165 | the drawable chosen for any computed rotation depicts exactly that rotation |
| GlanceViews.DefaultDeltaHalfway | app/src/main/kotlin/com/itl/wprimeext/ui/WPrimeGlanceViews.kt:75-83 | with the default full-rotation delta of 150 W, 75 W above CP gives 45 degrees and the 45-degree drawable, at any fill |
| GlanceViews.TrendArrow | app/src/main/kotlin/com/itl/wprimeext/ui/WPrimeGlanceViews.kt:72-84 | the arrow drawn depicts the rotation of the reading; it is level at CP and level when W' is full and power is below CP |
| GlanceViews.SafeMax | app/src/main/kotlin/com/itl/wprimeext/ui/WPrimeGlanceViews.kt:321 | `safeMax` is the larger of the maximum and minimum sizes |
| GlanceViews.ClampedSize | app/src/main/kotlin/com/itl/wprimeext/ui/WPrimeGlanceViews.kt:340-348 | the size lies in [minSp, safeMax]; above minSp the characters fit the available width and a line fits the height fraction; below safeMax the width or the height is used up, so no larger size fits; strictly inside the bounds one of the two is tight |
| GlanceViews.FirstFitIndex | app/src/main/kotlin/com/itl/wprimeext/ui/WPrimeGlanceViews.kt:353 | `firstOrNull`: the first step that is at most the clamped size and safeMax, or none when no step is |
| GlanceViews.LastFitIndex | app/src/main/kotlin/com/itl/wprimeext/ui/WPrimeGlanceViews.kt:353 | `last { it <= safeMax }`: the last step at most safeMax, or none when no step is (where the source throws) |
| GlanceViews.PickTextSizeFallback | app/src/main/kotlin/com/itl/wprimeext/ui/WPrimeGlanceViews.kt:321-338 | specifies `GlanceViews.PickTextSizeSp` on its early exits: an unspecified or non-positive widget size, or no room left after the reservations, yields safeMax |
| GlanceViews.PickTextSizeFixed | app/src/main/kotlin/com/itl/wprimeext/ui/WPrimeGlanceViews.kt:340-350 | with a fixed character count the size always lies in [minSp, safeMax]; when there is room it is the clamped size truncated toward zero |
| GlanceViews.PickTextSizeStepped | app/src/main/kotlin/com/itl/wprimeext/ui/WPrimeGlanceViews.kt:352-354 | without one the lookup fails exactly when safeMax is below 24. Otherwise it gives a step no larger than safeMax: the largest step not above the clamped size, or 24 when the clamped size is below 24 |
| GlanceViews.AutoTextSp | app/src/main/kotlin/com/itl/wprimeext/ui/WPrimeGlanceViews.kt:94-104 | the view's text size is at least 8 sp. For an unknown widget size, the size the fields are composed with, and a scale in [0, 1] (1 for "%W'", 0.85 for "W' (J)"), it is the larger of the configured size and 24, times the scale, truncated and floored at 8; at scale 1 it is exactly that larger size |
| GlanceViews.PickerNeverFailsInView | app/src/main/kotlin/com/itl/wprimeext/ui/WPrimeGlanceViews.kt:94-103 | the view calls the picker with a minimum of 24 sp, so the picker always returns a size there and never throws |
| PercentField.StreamValue | app/src/main/kotlin/com/itl/wprimeext/extension/WPrimeDataType.kt:41-44 | the percentage lies in [0, 100]; it is 0 for no joules, 100 from capacity upward, and 100 x joules / capacity in between |
| PercentField.CapacityFloored | app/src/main/kotlin/com/itl/wprimeext/extension/WPrimeDataType.kt:42 | any capacity up to 1 J behaves as 1 J, for stream and display |
| PercentField.StreamValueMonotone | app/src/main/kotlin/com/itl/wprimeext/extension/WPrimeDataType.kt:43 | for a fixed capacity the percentage never decreases as joules increase |
| PercentField.DisplayMatchesStream | app/src/main/kotlin/com/itl/wprimeext/extension/WPrimeDataType.kt:27-31 | specifies `PercentField.DisplayText`: the text is the whole part of the streamed percentage; it reads back as an integer in [0, 100] and fits 3 characters |
| PercentField.InitialIsFull | app/src/main/kotlin/com/itl/wprimeext/extension/WPrimeDataType.kt:40 | the initial 100 is what a full W' maps to |
| KjField.DisplayMatchesStream | app/src/main/kotlin/com/itl/wprimeext/extension/WPrimeKjDataType.kt:28-40 | specifies `KjField.StreamValue` and `KjField.DisplayText`: the stream is the joules unchanged, and the text reads back as that value rounded half up, the nearest integer |
| KjField.DisplayFits | app/src/main/kotlin/com/itl/wprimeext/extension/WPrimeKjDataType.kt:28-43 | joule values in [0, 99999.5) render in at most the 5 characters the field is sized for |
| KjField.InitialIsFull | app/src/main/kotlin/com/itl/wprimeext/extension/WPrimeKjDataType.kt:39-40 | specifies `KjField.InitialStreamValue`: the initial value is the stream value of a full W', and it is the value the "%W'" field shows as its initial 100 % |

## Left out

- The W' integrator (`WPrimeCalculator`: six balance models, sample timing, reconfiguration) is not part of this model. Its source is not among the files modelled. The capacity, the CP and the current joules it supplies are parameters here.
- Stream and view plumbing in WPrimeDataTypeBase.kt is left out: coroutines, the Karoo power stream, emitters, Glance composition, the preview power generator (which uses `sin` and `Random`) and the colour choice.
- The settings view model is left out. Its `copy` updates only mirror the store writes modelled in `Settings`.
- Compose and Glance layout is left out: cards, switches, the dropdown's `expanded` state, alignment and arrow placement, and padding.
- DataStore persistence, the `configuration` flow's re-emission and logging are left out. The store is a map; decoding gives the current configuration.
- Float and Double rounding is not modelled. Ratios are exact reals, and 0.995, 0.62 and 1.2 are exact constants. The Float conversion of the fill fraction is not modelled.
- `GlanceViews.RotationRatio`: for a zero full-rotation delta and a zero power delta the source computes NaN and never reads it; the model returns 0.
- `WPrimeModelType` is declared outside the files modelled. Its variant names come from the source's uses of them. Its declaration order, which fixes the order of the dropdown entries, is not modelled.
- `Settings.Decode`: a preference of the wrong kind under a key fails with `WrongKind`. In the source that is a cast failure when the value is used. Only writes through other code could cause it.
- `KjField.DisplayMatchesStream`: `roundToInt()` throws on NaN. Reals have no NaN, so that case is not modelled.
- The fields' constant descriptors are not modelled: `getFormatDataTypeId`, `getUnitText` and `getFieldLabel` each return a fixed string and state nothing to prove.
- The "W' (J)" field's `targetHeightFraction` (0.43) and `sizeScale` (0.85) only enter the model as parameters of `GlanceViews.AutoTextSp`.
- `GlanceViews.RotationDegrees`: the power delta is an unbounded integer. Kotlin's `Int` subtraction wraps when current power minus CP leaves the 32-bit range, which only absurd CP values can cause. For example, 100 W against a CP of -2147483648 gives a negative delta and -90 degrees in the source, and +90 here.
- `GlanceViews.PickTextSizeSp`: `value.length` counts UTF-16 code units, and the model counts characters. They differ only for characters outside the Basic Multilingual Plane, which the numeric texts shown never contain.
- The `isDefault` check in `WPrimeSettings.kt` only feeds a log message, so it is left out with the logging.
