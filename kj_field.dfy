/** The "W' (J)" data field (WPrimeKjDataType.kt): the remaining W' in
    joules, streamed unchanged and shown rounded to a whole joule. The
    capacity is the integrator's current value, passed in here. */
module KjField {
  import opened Wrappers
  import opened KotlinMath
  import opened Decimal
  import PercentField

  /** `getFixedCharCount()`: the field is sized for five characters ("12000"). */
  const FIXED_CHAR_COUNT: nat := 5

  /** `mapJoulesToStreamValue`: the joules themselves. */
  function StreamValue(joules: real): real
  {
    joules
  }

  /** `getInitialStreamValue()`: the stream starts at the full capacity. */
  function InitialStreamValue(capacity: real): real
  {
    capacity
  }

  /** `getDisplayText`: `joulesValue.roundToInt().toString()`. */
  function DisplayText(joules: real): string
  {
    IntToString(RoundToInt(joules))
  }

  /** The text reads back as the streamed value rounded half up: the integer
      nearest to it, whenever the value lies within Kotlin's Int range. */
  lemma DisplayMatchesStream(joules: real)
    ensures StreamValue(joules) == joules
    ensures ParseInt(DisplayText(joules)) == Some(RoundToInt(StreamValue(joules)))
    ensures INT_MIN as real - 0.5 <= joules < INT_MAX as real + 0.5 ==>
      RoundToInt(joules) as real - 0.5 <= joules < RoundToInt(joules) as real + 0.5
  {
    ParseIntToString(RoundToInt(joules));
  }

  /** A joule value in [0, 99999.5) renders in at most the five characters the
      field is sized for. */
  lemma DisplayFits(joules: real)
    requires 0.0 <= joules < 99999.5
    ensures |DisplayText(joules)| <= FIXED_CHAR_COUNT
  {
    var n := RoundToInt(joules);
    assert 0 <= n <= 99999;
    assert Pow10(5) == 100000;
    NatToStringLength(n, 5);
  }

  /** The initial value is the stream value of a full W', and it is the
      reading the "%W'" field starts from: 100 % of the same capacity. */
  lemma InitialIsFull(capacity: real)
    ensures InitialStreamValue(capacity) == StreamValue(capacity)
    ensures capacity >= 1.0 ==>
      PercentField.StreamValue(InitialStreamValue(capacity), capacity) == PercentField.INITIAL_STREAM_VALUE
  {
    if capacity >= 1.0 {
      PercentField.InitialIsFull(capacity);
    }
  }
}
