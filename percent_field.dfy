/** The "%W'" data field (WPrimeDataType.kt): the remaining W' shown and
    streamed as a percentage of the anaerobic capacity. The capacity is the
    integrator's current value, passed in here. */
module PercentField {
  import opened Wrappers
  import opened KotlinMath
  import opened Decimal

  /** `getFixedCharCount()`: the field is sized for three characters ("100"). */
  const FIXED_CHAR_COUNT: nat := 3

  /** `getInitialStreamValue()`: the stream starts at 100 %. */
  const INITIAL_STREAM_VALUE: real := 100.0

  /** `mapJoulesToStreamValue`: joules as a percentage of the capacity floored
      at 1 J, clamped to [0, 100]. */
  function StreamValue(joules: real, capacity: real): (pct: real)
    ensures 0.0 <= pct <= 100.0
    ensures joules <= 0.0 ==> pct == 0.0
    ensures capacity >= 1.0 && joules >= capacity ==> pct == 100.0
    ensures capacity >= 1.0 && 0.0 <= joules <= capacity ==> pct * capacity == joules * 100.0
  {
    var safeCapacity := CoerceAtLeast(capacity, 1.0);
    assert capacity >= 1.0 && joules >= capacity ==> joules / safeCapacity >= 1.0 by {
      if capacity >= 1.0 && joules >= capacity {
        assert safeCapacity == capacity;
        DivideMonotone(capacity, joules, capacity);
        assert capacity / capacity == 1.0;
      }
    }
    assert capacity >= 1.0 && 0.0 <= joules <= capacity ==> joules / safeCapacity <= 1.0 by {
      if capacity >= 1.0 && 0.0 <= joules <= capacity {
        assert safeCapacity == capacity;
        DivideMonotone(joules, capacity, capacity);
        assert capacity / capacity == 1.0;
      }
    }
    CoerceIn(joules / safeCapacity * 100.0, 0.0, 100.0)
  }

  /** `getDisplayText`: the same percentage, truncated to an integer and
      rendered in decimal. */
  function DisplayText(joules: real, capacity: real): string
  {
    var safeCapacity := CoerceAtLeast(capacity, 1.0);
    var pct := CoerceIn(joules / safeCapacity * 100.0, 0.0, 100.0);
    IntToString(ToInt(pct))
  }

  /** A capacity below 1 J behaves exactly as a capacity of 1 J. */
  lemma CapacityFloored(joules: real, capacity: real)
    requires capacity <= 1.0
    ensures StreamValue(joules, capacity) == StreamValue(joules, 1.0)
    ensures DisplayText(joules, capacity) == DisplayText(joules, 1.0)
  {
  }

  /** For a fixed capacity, more joules never give a smaller percentage. */
  lemma StreamValueMonotone(j1: real, j2: real, capacity: real)
    requires j1 <= j2
    ensures StreamValue(j1, capacity) <= StreamValue(j2, capacity)
  {
    var safeCapacity := CoerceAtLeast(capacity, 1.0);
    DivideMonotone(j1, j2, safeCapacity);
  }

  /** The text shown is the whole part of the streamed percentage: it reads
      back as an integer in [0, 100] and fits the three characters the field
      is sized for. */
  lemma DisplayMatchesStream(joules: real, capacity: real)
    ensures var n := ToInt(StreamValue(joules, capacity));
      && DisplayText(joules, capacity) == IntToString(n)
      && ParseInt(DisplayText(joules, capacity)) == Some(n)
      && 0 <= n <= 100
      && n as real <= StreamValue(joules, capacity) < n as real + 1.0
      && |DisplayText(joules, capacity)| <= FIXED_CHAR_COUNT
  {
    var n := ToInt(StreamValue(joules, capacity));
    ToIntWithin(StreamValue(joules, capacity), 0, 100);
    ParseIntToString(n);
    assert Pow10(3) == 1000;
    NatToStringLength(n, 3);
  }

  /** The initial value is what a full W' maps to. */
  lemma InitialIsFull(capacity: real)
    requires capacity >= 1.0
    ensures StreamValue(capacity, capacity) == INITIAL_STREAM_VALUE
  {
  }
}
