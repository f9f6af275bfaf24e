/** The computations of the W' data field's view (WPrimeGlanceViews.kt): how
    full W' is, the trend arrow's rotation and its icon, and the automatic
    text size. Layout, colours and composition are outside this model. */
module GlanceViews {
  import opened Wrappers
  import opened KotlinMath

  // ---------------------------------------------------------------------------
  // Fill fraction and trend arrow

  /** W' counts as full from this fraction of capacity upward. */
  const FULL_FRACTION: real := 0.995
  /** The power delta (W) at which the arrow reaches its full 90 degrees. */
  const DEFAULT_MAX_POWER_DELTA: int := 150

  /** A capacity that is not positive is replaced by 1 J. */
  function SafeCapacity(capacity: real): (r: real)
    ensures r > 0.0
    ensures capacity > 0.0 ==> r == capacity
    ensures capacity <= 0.0 ==> r == 1.0
  {
    if capacity > 0.0 then capacity else 1.0
  }

  /** `wPrimeFraction`: the remaining W' as a fraction of capacity, in [0, 1]. */
  function FillFraction(wPrimeJoules: real, capacity: real): (f: real)
    ensures 0.0 <= f <= 1.0
    ensures wPrimeJoules <= 0.0 ==> f == 0.0
    ensures capacity > 0.0 && wPrimeJoules >= capacity ==> f == 1.0
    ensures capacity > 0.0 && 0.0 <= wPrimeJoules <= capacity ==> f * capacity == wPrimeJoules
  {
    CoerceIn(wPrimeJoules / SafeCapacity(capacity), 0.0, 1.0)
  }

  /** A capacity that is zero or negative is replaced by 1 J: the fraction is
      then the joules themselves, clamped to [0, 1]. */
  lemma FillCapacityFloored(wPrimeJoules: real, capacity: real)
    requires capacity <= 0.0
    ensures FillFraction(wPrimeJoules, capacity) == FillFraction(wPrimeJoules, 1.0)
    ensures FillFraction(wPrimeJoules, capacity) == CoerceIn(wPrimeJoules, 0.0, 1.0)
  {
  }

  /** `rotationRatio`: the power delta over the full-rotation delta, clamped to
      [-1, 1]. A zero divisor yields an infinity in Float arithmetic, which the
      clamp turns into the sign of the delta; the 0/0 case gives NaN in the
      source, a value it never reads, and 0 here. */
  function RotationRatio(powerDelta: int, maxPowerDelta: int): (r: real)
    ensures -1.0 <= r <= 1.0
    ensures powerDelta == 0 ==> r == 0.0
    ensures maxPowerDelta > 0 && powerDelta >= maxPowerDelta ==> r == 1.0
    ensures maxPowerDelta > 0 && powerDelta <= -maxPowerDelta ==> r == -1.0
    ensures maxPowerDelta > 0 && -maxPowerDelta <= powerDelta <= maxPowerDelta ==>
      r * maxPowerDelta as real == powerDelta as real
  {
    if maxPowerDelta == 0 then
      (if powerDelta > 0 then 1.0 else if powerDelta < 0 then -1.0 else 0.0)
    else
      var q := powerDelta as real / maxPowerDelta as real;
      if maxPowerDelta > 0 then
        QuotientBounds(powerDelta as real, maxPowerDelta as real);
        CoerceIn(q, -1.0, 1.0)
      else
        CoerceIn(q, -1.0, 1.0)
  }

  /** `rotationDegrees`: 0 while W' is full and power is below CP; otherwise the
      ratio times 90 degrees, rounded to a multiple of 15. */
  function RotationDegrees(currentPower: int, criticalPower: int, fraction: real,
                           maxPowerDelta: int): (deg: int)
    ensures -90 <= deg <= 90 && deg % 15 == 0
    ensures currentPower == criticalPower ==> deg == 0
    ensures currentPower < criticalPower && fraction >= FULL_FRACTION ==> deg == 0
    ensures maxPowerDelta > 0 ==> (deg > 0 ==> currentPower > criticalPower)
    ensures maxPowerDelta > 0 ==> (deg < 0 ==> currentPower < criticalPower)
    ensures !(currentPower < criticalPower && fraction >= FULL_FRACTION) ==>
      var target := 90.0 * RotationRatio(currentPower - criticalPower, maxPowerDelta);
      deg as real - 7.5 <= target < deg as real + 7.5
  {
    var powerDelta := currentPower - criticalPower;
    var isAtMaxWithLowPower := currentPower < criticalPower && fraction >= FULL_FRACTION;
    if isAtMaxWithLowPower then 0
    else
      var ratio := RotationRatio(powerDelta, maxPowerDelta);
      var steps := RoundHalfUp((if powerDelta == 0 then 0.0 else ratio * 90.0) / 15.0);
      assert -6 <= steps <= 6;
      steps * 15
  }

  /** For a fixed fill fraction and CP, more power never turns the arrow down. */
  lemma RotationMonotone(p1: int, p2: int, criticalPower: int, fraction: real, maxPowerDelta: int)
    requires maxPowerDelta > 0
    requires p1 <= p2
    ensures RotationDegrees(p1, criticalPower, fraction, maxPowerDelta)
         <= RotationDegrees(p2, criticalPower, fraction, maxPowerDelta)
  {
    var d1, d2 := p1 - criticalPower, p2 - criticalPower;
    var full := fraction >= FULL_FRACTION;
    if !(p1 < criticalPower && full) && !(p2 < criticalPower && full) && d1 != 0 && d2 != 0 {
      var m := maxPowerDelta as real;
      assert d1 as real / m <= d2 as real / m by {
        assert d1 as real <= d2 as real;
        DivideMonotone(d1 as real, d2 as real, m);
      }
      var r1, r2 := RotationRatio(d1, maxPowerDelta), RotationRatio(d2, maxPowerDelta);
      assert r1 <= r2;
      RoundHalfUpMonotone(r1 * 90.0 / 15.0, r2 * 90.0 / 15.0);
    }
  }

  /** Beyond the full-rotation delta the arrow is pinned at +90, or at -90
      unless W' is full. */
  lemma RotationSaturates(currentPower: int, criticalPower: int, fraction: real, maxPowerDelta: int)
    requires maxPowerDelta > 0
    ensures currentPower - criticalPower >= maxPowerDelta ==>
      RotationDegrees(currentPower, criticalPower, fraction, maxPowerDelta) == 90
    ensures currentPower - criticalPower <= -maxPowerDelta && fraction < FULL_FRACTION ==>
      RotationDegrees(currentPower, criticalPower, fraction, maxPowerDelta) == -90
  {
  }

  /** The thirteen arrow drawables, one per multiple of 15 degrees in
      [-90, 90]; `Arrow` is the level one. */
  datatype ArrowIcon =
    | ArrowN90 | ArrowN75 | ArrowN60 | ArrowN45 | ArrowN30 | ArrowN15
    | Arrow
    | ArrowP15 | ArrowP30 | ArrowP45 | ArrowP60 | ArrowP75 | ArrowP90

  /** The `when` table from degrees to drawable; any other angle gets the
      level arrow. */
  function ArrowDrawable(degrees: int): ArrowIcon
  {
    match degrees
    case -90 => ArrowN90
    case -75 => ArrowN75
    case -60 => ArrowN60
    case -45 => ArrowN45
    case -30 => ArrowN30
    case -15 => ArrowN15
    case 0 => Arrow
    case 15 => ArrowP15
    case 30 => ArrowP30
    case 45 => ArrowP45
    case 60 => ArrowP60
    case 75 => ArrowP75
    case 90 => ArrowP90
    case _ => Arrow
  }

  /** The angle each drawable depicts. */
  function IconAngle(icon: ArrowIcon): (deg: int)
    ensures -90 <= deg <= 90 && deg % 15 == 0
  {
    match icon
    case ArrowN90 => -90
    case ArrowN75 => -75
    case ArrowN60 => -60
    case ArrowN45 => -45
    case ArrowN30 => -30
    case ArrowN15 => -15
    case Arrow => 0
    case ArrowP15 => 15
    case ArrowP30 => 30
    case ArrowP45 => 45
    case ArrowP60 => 60
    case ArrowP75 => 75
    case ArrowP90 => 90
  }

  predicate IsArrowAngle(degrees: int) {
    -90 <= degrees <= 90 && degrees % 15 == 0
  }

  /** Every reachable angle has its own drawable, depicting that very angle;
      every drawable is reached from its angle; other angles fall back to
      the level arrow. */
  lemma ArrowTableBijective(degrees: int, icon: ArrowIcon)
    ensures IsArrowAngle(degrees) ==> IconAngle(ArrowDrawable(degrees)) == degrees
    ensures ArrowDrawable(IconAngle(icon)) == icon
    ensures !IsArrowAngle(degrees) ==> ArrowDrawable(degrees) == Arrow
  {
    if IsArrowAngle(degrees) {
      var k := degrees / 15;
      assert degrees == k * 15;
      assert -6 <= k <= 6;
    }
  }

  /** The drawable shown for a reading always depicts the computed rotation. */
  lemma ArrowShowsRotation(currentPower: int, criticalPower: int, fraction: real, maxPowerDelta: int)
    ensures var deg := RotationDegrees(currentPower, criticalPower, fraction, maxPowerDelta);
      IconAngle(ArrowDrawable(deg)) == deg
  {
    var deg := RotationDegrees(currentPower, criticalPower, fraction, maxPowerDelta);
    ArrowTableBijective(deg, Arrow);
  }

  /** With the view's default full-rotation delta of 150 W, riding 75 W above
      CP tilts the arrow halfway up, to 45 degrees, whatever the fill. */
  lemma DefaultDeltaHalfway(wPrimeJoules: real, anaerobicCapacity: real)
    ensures RotationDegrees(325, 250, FillFraction(wPrimeJoules, anaerobicCapacity),
                            DEFAULT_MAX_POWER_DELTA) == 45
    ensures TrendArrow(325, 250, wPrimeJoules, anaerobicCapacity, DEFAULT_MAX_POWER_DELTA) == ArrowP45
  {
    var f := FillFraction(wPrimeJoules, anaerobicCapacity);
    assert RotationRatio(75, DEFAULT_MAX_POWER_DELTA) == 0.5;
    assert RoundHalfUp(0.5 * 90.0 / 15.0) == 3;
  }

  /** The trend arrow the view draws for a reading: level at CP, level while
      W' is full and power is below CP, and otherwise the drawable of the
      quantised rotation. */
  function TrendArrow(currentPower: int, criticalPower: int, wPrimeJoules: real,
                      anaerobicCapacity: real, maxPowerDelta: int): (icon: ArrowIcon)
    ensures IconAngle(icon)
         == RotationDegrees(currentPower, criticalPower, FillFraction(wPrimeJoules, anaerobicCapacity),
                            maxPowerDelta)
    ensures currentPower == criticalPower ==> icon == Arrow
    ensures currentPower < criticalPower && 0.0 < anaerobicCapacity <= wPrimeJoules ==> icon == Arrow
  {
    var fraction := FillFraction(wPrimeJoules, anaerobicCapacity);
    ArrowShowsRotation(currentPower, criticalPower, fraction, maxPowerDelta);
    ArrowDrawable(RotationDegrees(currentPower, criticalPower, fraction, maxPowerDelta))
  }

  // ---------------------------------------------------------------------------
  // Automatic text size

  /** A Compose `Dp`; `Unspecified` is the size Glance reports when unknown. */
  datatype Dp = Unspecified | Dp(value: real)

  const CHAR_WIDTH_FACTOR: real := 0.62
  const LINE_HEIGHT_FACTOR: real := 1.2
  const TITLE_ROW_HEIGHT: real := 22.0
  const VERTICAL_MARGINS: real := 8.0
  const HORIZONTAL_SLACK: real := 4.0
  const ICON_SIZE: real := 28.0
  const ICON_SIDE_PADDING: real := 2.0
  const MIN_TEXT_SP: int := 24
  const MIN_SCALED_SP: int := 8

  /** The snap table of text sizes, largest first. */
  const STEPS: seq<int> := [64, 56, 50, 46, 42, 38, 34, 32, 30, 28, 26, 24]

  predicate Descending(s: seq<int>) {
    forall i, j :: 0 <= i < j < |s| ==> s[i] > s[j]
  }

  /** `safeMax`: the maximum size, raised to the minimum when below it. */
  function SafeMax(maxSp: int, minSp: int): (r: int)
    ensures r >= maxSp && r >= minSp
    ensures r == maxSp || r == minSp
  {
    if maxSp < minSp then minSp else maxSp
  }

  /** The size is unknowable: a dimension is unspecified or not positive. */
  predicate Unsized(widgetWidth: Dp, widgetHeight: Dp) {
    || widgetWidth.Unspecified? || widgetHeight.Unspecified?
    || widgetWidth.value <= 0.0 || widgetHeight.value <= 0.0
  }

  /** `availW`: the width left for text after the arrow column and a slack. */
  function AvailableWidth(widgetWidth: real, reservedHorizontal: real): real
  {
    CoerceAtLeast(widgetWidth - reservedHorizontal - HORIZONTAL_SLACK, 0.0)
  }

  /** `availH`: the height left for text under the title row. */
  function AvailableHeight(widgetHeight: real): real
  {
    CoerceAtLeast(widgetHeight - TITLE_ROW_HEIGHT - VERTICAL_MARGINS, 0.0)
  }

  /** `clamped`: the largest size that fits the width (for the given number of
      characters) and the height fraction, clamped into [minSp, safeMax]. */
  function ClampedSize(targetChars: int, availW: real, availH: real, maxSp: int, minSp: int,
                       targetHeightFraction: real): (c: real)
    ensures minSp as real <= c <= SafeMax(maxSp, minSp) as real
    // Above the minimum, the text fits: the characters fit the width and a
    // line fits the height fraction.
    ensures targetChars > 0 && c > minSp as real ==>
      && c * targetChars as real * CHAR_WIDTH_FACTOR <= availW
      && c * LINE_HEIGHT_FACTOR <= availH * CoerceIn(targetHeightFraction, 0.3, 0.85)
    // Strictly between the bounds, it is the largest size that fits: one of
    // the two constraints is tight.
    ensures targetChars > 0 && minSp as real < c < SafeMax(maxSp, minSp) as real ==>
      || c * targetChars as real * CHAR_WIDTH_FACTOR == availW
      || c * LINE_HEIGHT_FACTOR == availH * CoerceIn(targetHeightFraction, 0.3, 0.85)
    // Below safeMax, no larger size fits: at c the width or the height is
    // already used up (at minSp, possibly overflowing).
    ensures targetChars > 0 && c < SafeMax(maxSp, minSp) as real ==>
      || c * targetChars as real * CHAR_WIDTH_FACTOR >= availW
      || c * LINE_HEIGHT_FACTOR >= availH * CoerceIn(targetHeightFraction, 0.3, 0.85)
  {
    var safeMax := SafeMax(maxSp, minSp);
    var units := targetChars as real * 1.0;
    var fromWidth := if units * CHAR_WIDTH_FACTOR > 0.0 then availW / (units * CHAR_WIDTH_FACTOR)
                     else safeMax as real;
    var adjustedFraction := CoerceIn(targetHeightFraction, 0.3, 0.85);
    var fromHeight := (availH * adjustedFraction) / LINE_HEIGHT_FACTOR;
    var raw := CoerceAtMost(fromWidth, fromHeight);
    var c := CoerceIn(raw, minSp as real, safeMax as real);
    assert units * CHAR_WIDTH_FACTOR > 0.0 ==> fromWidth * (units * CHAR_WIDTH_FACTOR) == availW;
    assert fromHeight * LINE_HEIGHT_FACTOR == availH * adjustedFraction;
    c
  }

  /** `steps.firstOrNull { clamped >= it && it <= safeMax }`, as an index. */
  function FirstFitIndex(steps: seq<int>, clamped: real, safeMax: int): (r: Option<nat>)
    ensures r.Some? ==> (r.value < |steps|
      && clamped >= steps[r.value] as real && steps[r.value] <= safeMax
      && forall j :: 0 <= j < r.value ==> !(clamped >= steps[j] as real && steps[j] <= safeMax))
    ensures r.None? ==> forall j :: 0 <= j < |steps| ==> !(clamped >= steps[j] as real && steps[j] <= safeMax)
  {
    if steps == [] then None
    else if clamped >= steps[0] as real && steps[0] <= safeMax then Some(0)
    else
      match FirstFitIndex(steps[1..], clamped, safeMax)
      case None => None
      case Some(i) => Some(i + 1)
  }

  /** `steps.lastOrNull { it <= safeMax }`, as an index. */
  function LastFitIndex(steps: seq<int>, safeMax: int): (r: Option<nat>)
    ensures r.Some? ==> (r.value < |steps| && steps[r.value] <= safeMax
      && forall j :: r.value < j < |steps| ==> steps[j] > safeMax)
    ensures r.None? ==> forall j :: 0 <= j < |steps| ==> steps[j] > safeMax
  {
    if steps == [] then None
    else if steps[|steps| - 1] <= safeMax then Some(|steps| - 1)
    else LastFitIndex(steps[..|steps| - 1], safeMax)
  }

  /** `pickTextSizeSp`. None stands for the NoSuchElementException that
      `steps.last { it <= safeMax }` throws when no step fits. */
  function PickTextSizeSp(value: string, widgetWidth: Dp, widgetHeight: Dp, reservedHorizontal: real,
                          maxSp: int, minSp: int, targetHeightFraction: real,
                          fixedCharCount: Option<int>): (r: Option<int>)
  {
    var safeMax := SafeMax(maxSp, minSp);
    if Unsized(widgetWidth, widgetHeight) then Some(safeMax)
    else
      var availW := AvailableWidth(widgetWidth.value, reservedHorizontal);
      var availH := AvailableHeight(widgetHeight.value);
      if availW <= 0.0 || availH <= 0.0 then Some(safeMax)
      else
        var targetChars := if fixedCharCount.Some? then fixedCharCount.value else |value|;
        var clamped := ClampedSize(targetChars, availW, availH, maxSp, minSp, targetHeightFraction);
        if fixedCharCount.Some? then Some(ToInt(clamped))
        else
          match FirstFitIndex(STEPS, clamped, safeMax)
          case Some(i) => Some(STEPS[i])
          case None =>
            match LastFitIndex(STEPS, safeMax)
            case Some(i) => Some(STEPS[i])
            case None => None
  }

  /** The early exits: an unknown size, or no room left once the arrow column,
      title row and margins are taken, yields `safeMax`. */
  lemma PickTextSizeFallback(value: string, widgetWidth: Dp, widgetHeight: Dp, reservedHorizontal: real,
                             maxSp: int, minSp: int, targetHeightFraction: real,
                             fixedCharCount: Option<int>)
    requires || Unsized(widgetWidth, widgetHeight)
             || AvailableWidth(widgetWidth.value, reservedHorizontal) <= 0.0
             || AvailableHeight(widgetHeight.value) <= 0.0
    ensures PickTextSizeSp(value, widgetWidth, widgetHeight, reservedHorizontal, maxSp, minSp,
                           targetHeightFraction, fixedCharCount) == Some(SafeMax(maxSp, minSp))
  {
  }

  /** With a fixed character count the size lies in [minSp, safeMax], and when
      there is room it is the clamped size truncated toward zero. */
  lemma PickTextSizeFixed(value: string, widgetWidth: Dp, widgetHeight: Dp, reservedHorizontal: real,
                          maxSp: int, minSp: int, targetHeightFraction: real, fixedCharCount: int)
    requires !Unsized(widgetWidth, widgetHeight)
    requires INT_MIN <= minSp <= INT_MAX && INT_MIN <= maxSp <= INT_MAX
    ensures var r := PickTextSizeSp(value, widgetWidth, widgetHeight, reservedHorizontal, maxSp, minSp,
                                    targetHeightFraction, Some(fixedCharCount));
      r.Some? && minSp <= r.value <= SafeMax(maxSp, minSp)
    ensures var r := PickTextSizeSp(value, widgetWidth, widgetHeight, reservedHorizontal, maxSp, minSp,
                                    targetHeightFraction, Some(fixedCharCount));
      var availW := AvailableWidth(widgetWidth.value, reservedHorizontal);
      var availH := AvailableHeight(widgetHeight.value);
      var clamped := ClampedSize(fixedCharCount, availW, availH, maxSp, minSp, targetHeightFraction);
      availW > 0.0 && availH > 0.0 ==>
        && r.Some?
        && (0.0 <= clamped ==> r.value as real <= clamped < r.value as real + 1.0)
        && (clamped < 0.0 ==> r.value as real - 1.0 < clamped <= r.value as real)
  {
    var availW := AvailableWidth(widgetWidth.value, reservedHorizontal);
    var availH := AvailableHeight(widgetHeight.value);
    if availW > 0.0 && availH > 0.0 {
      var clamped := ClampedSize(fixedCharCount, availW, availH, maxSp, minSp, targetHeightFraction);
      ToIntWithin(clamped, minSp, SafeMax(maxSp, minSp));
    }
  }

  /** Without a fixed character count the size is snapped to the step table:
      it fails exactly when safeMax is below the smallest step; otherwise it is
      a step no larger than safeMax, namely the largest step not above the
      clamped size, or the smallest step when even that is above it. */
  lemma PickTextSizeStepped(value: string, widgetWidth: Dp, widgetHeight: Dp, reservedHorizontal: real,
                            maxSp: int, minSp: int, targetHeightFraction: real)
    requires !Unsized(widgetWidth, widgetHeight)
    requires AvailableWidth(widgetWidth.value, reservedHorizontal) > 0.0
    requires AvailableHeight(widgetHeight.value) > 0.0
    ensures var r := PickTextSizeSp(value, widgetWidth, widgetHeight, reservedHorizontal, maxSp, minSp,
                                    targetHeightFraction, None);
      var safeMax := SafeMax(maxSp, minSp);
      var clamped := ClampedSize(|value|, AvailableWidth(widgetWidth.value, reservedHorizontal),
                                 AvailableHeight(widgetHeight.value), maxSp, minSp, targetHeightFraction);
      && (r.None? <==> safeMax < MIN_TEXT_SP)
      && (r.Some? ==> r.value in STEPS && r.value <= safeMax)
      && (r.Some? && clamped >= MIN_TEXT_SP as real ==>
            r.value as real <= clamped && forall s :: s in STEPS && s as real <= clamped ==> s <= r.value)
      && (r.Some? && clamped < MIN_TEXT_SP as real ==> r.value == MIN_TEXT_SP)
  {
    var safeMax := SafeMax(maxSp, minSp);
    var clamped := ClampedSize(|value|, AvailableWidth(widgetWidth.value, reservedHorizontal),
                               AvailableHeight(widgetHeight.value), maxSp, minSp, targetHeightFraction);
    assert Descending(STEPS);
    var first := FirstFitIndex(STEPS, clamped, safeMax);
    var last := LastFitIndex(STEPS, safeMax);
    assert STEPS[|STEPS| - 1] == MIN_TEXT_SP;
    if first.Some? {
      var i := first.value;
      forall s | s in STEPS && s as real <= clamped
        ensures s <= STEPS[i]
      {
        var j :| 0 <= j < |STEPS| && STEPS[j] == s;
        assert s <= safeMax;
        if j < i {
          assert false;
        }
      }
    } else {
      assert clamped < MIN_TEXT_SP as real;
      if safeMax >= MIN_TEXT_SP {
        assert last == Some(|STEPS| - 1);
      }
    }
  }

  /** `sizingReservedHorizontal`: the arrow column's width when it is shown. */
  function ReservedHorizontal(showArrow: bool): (r: real)
    ensures showArrow ==> r == ICON_SIZE + 2.0 * ICON_SIDE_PADDING
    ensures !showArrow ==> r == 0.0
  {
    if showArrow then ICON_SIZE + ICON_SIDE_PADDING * 2.0 else 0.0
  }

  /** `autoTextSp`: the view's text size, the picked size scaled per field and
      never below 8 sp. The picker is called with a minimum of 24 sp, so its
      step lookup cannot fail. */
  function AutoTextSp(value: string, widgetWidth: Dp, widgetHeight: Dp, showArrow: bool, textSize: int,
                      targetHeightFraction: real, fixedCharCount: Option<int>, sizeScale: real): (sp: int)
    ensures sp >= MIN_SCALED_SP
    ensures sizeScale == 1.0 && Unsized(widgetWidth, widgetHeight) && textSize <= INT_MAX ==>
      sp == SafeMax(textSize, MIN_TEXT_SP)
    // For an unknown widget size (the size the fields are composed with), any
    // scale in [0, 1] gives the scaled configured size, truncated, floored at 8.
    ensures Unsized(widgetWidth, widgetHeight) && 0.0 <= sizeScale <= 1.0 && textSize <= INT_MAX ==>
      var target := SafeMax(textSize, MIN_TEXT_SP) as real * sizeScale;
      && (target >= MIN_SCALED_SP as real ==> sp as real <= target < sp as real + 1.0)
      && (target < MIN_SCALED_SP as real ==> sp == MIN_SCALED_SP)
  {
    var base := PickTextSizeSp(value, widgetWidth, widgetHeight, ReservedHorizontal(showArrow), textSize,
                               MIN_TEXT_SP, targetHeightFraction, fixedCharCount);
    if base.Some? then
      var scaled := ToInt(base.value as real * sizeScale);
      assert 0 <= base.value && 0.0 <= sizeScale <= 1.0 ==>
        base.value as real * sizeScale <= base.value as real;
      if scaled < MIN_SCALED_SP then MIN_SCALED_SP else scaled
    else
      MIN_SCALED_SP
  }

  /** The view's call of the picker, with a minimum of 24 sp, always yields a size. */
  lemma PickerNeverFailsInView(value: string, widgetWidth: Dp, widgetHeight: Dp, showArrow: bool,
                               textSize: int, targetHeightFraction: real, fixedCharCount: Option<int>)
    ensures PickTextSizeSp(value, widgetWidth, widgetHeight, ReservedHorizontal(showArrow), textSize,
                           MIN_TEXT_SP, targetHeightFraction, fixedCharCount).Some?
  {
    if !Unsized(widgetWidth, widgetHeight)
       && AvailableWidth(widgetWidth.value, ReservedHorizontal(showArrow)) > 0.0
       && AvailableHeight(widgetHeight.value) > 0.0
       && fixedCharCount.None?
    {
      PickTextSizeStepped(value, widgetWidth, widgetHeight, ReservedHorizontal(showArrow), textSize,
                          MIN_TEXT_SP, targetHeightFraction);
    }
  }
}
