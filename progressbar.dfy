/**
 * The progress bar: a background bar and a fill bar whose width is the
 * value's share of the bar width. The value is a percentage kept in [0, 100];
 * every write reports the stored value to the increment callback, and six of
 * the state hooks report the widget's current state to the state-change
 * callback.
 */
module ProgressBarWidget {
  import opened UiTypes

  const DefaultWidth: real := 200.0
  const DefaultHeight: real := 20.0
  const DefaultStep: real := 10.0

  /** `Math.max(0, Math.min(v, 100))`: what the value setter stores for `v`. */
  function ClampPercent(v: real): (r: real)
    ensures 0.0 <= r <= 100.0
    ensures 0.0 <= v <= 100.0 ==> r == v
    ensures v < 0.0 ==> r == 0.0
    ensures 100.0 < v ==> r == 100.0
  {
    Clamp(0.0, 100.0, v)
  }

  /** The outermost inputs land on the ends: -10 stores 0 and 500 stores 100. */
  lemma ClampPercentExamples()
    ensures ClampPercent(-10.0) == 0.0 && ClampPercent(500.0) == 100.0
  {
  }

  /** The width `update` gives the fill bar: the value's share of the bar width. */
  function FillWidth(value: real, barWidth: real): (w: real)
    requires 0.0 <= value <= 100.0
    ensures 0.0 <= barWidth ==> 0.0 <= w <= barWidth
    ensures barWidth < 0.0 ==> barWidth <= w <= 0.0
    ensures value == 0.0 ==> w == 0.0
    ensures value == 100.0 ==> w == barWidth
  {
    FillShareBounds(value, barWidth);
    (value / 100.0) * barWidth
  }

  /** A share between 0 and 1 of a width lies between 0 and that width. */
  lemma FillShareBounds(value: real, barWidth: real)
    requires 0.0 <= value <= 100.0
    ensures 0.0 <= barWidth ==> 0.0 <= (value / 100.0) * barWidth <= barWidth
    ensures barWidth < 0.0 ==> barWidth <= (value / 100.0) * barWidth <= 0.0
  {
    var share := value / 100.0;
    assert 0.0 <= share <= 1.0;
    if 0.0 <= barWidth {
      assert share * barWidth <= 1.0 * barWidth by {
        assert (1.0 - share) * barWidth >= 0.0;
      }
    } else {
      assert share * barWidth >= 1.0 * barWidth by {
        assert (1.0 - share) * barWidth <= 0.0;
      }
    }
  }

  /** A larger value never gives a narrower fill on a bar of non-negative width. */
  lemma FillWidthMonotone(v1: real, v2: real, barWidth: real)
    requires 0.0 <= v1 <= v2 <= 100.0 && 0.0 <= barWidth
    ensures FillWidth(v1, barWidth) <= FillWidth(v2, barWidth)
  {
    assert (v2 / 100.0 - v1 / 100.0) * barWidth >= 0.0;
  }

  /** The fields of a progress bar that its methods set, apart from what is drawn. */
  datatype ProgressState = ProgressState(
    value: real,
    barWidth: real,
    barHeight: real,
    step: real,
    currentState: Option<WidgetState>,
    increments: seq<real>,
    stateChanges: seq<Option<WidgetState>>)

  class ProgressBar {
    var value: real
    var barWidth: real
    var barHeight: real
    var step: real
    /** The state `getState()` reports; set by the state machine before each hook runs. */
    var currentState: Option<WidgetState>
    /** The arguments of every call of the increment callback, oldest first. */
    var increments: seq<real>
    /** The arguments of every call of the state-change callback, oldest first. */
    var stateChanges: seq<Option<WidgetState>>

    var fillWidth: real
    var backgroundWidth: real

    function State(): ProgressState
      reads this
    {
      ProgressState(value, barWidth, barHeight, step, currentState, increments, stateChanges)
    }

    /** The value is a percentage, and what is drawn agrees with it, as `update` leaves it. */
    ghost predicate Valid()
      reads this
    {
      0.0 <= value <= 100.0 &&
      fillWidth == FillWidth(value, barWidth) && backgroundWidth == barWidth
    }

    /**
     * A new bar: value 0 of a 200 by 20 bar, step 10, current state IdleUp,
     * and no callback calls yet (the constructor's entry into IdleUp runs no
     * hook).
     */
    constructor ()
      ensures Valid()
      ensures State() == ProgressState(0.0, DefaultWidth, DefaultHeight, DefaultStep, Some(IdleUp), [], [])
    {
      value := 0.0;
      barWidth, barHeight := DefaultWidth, DefaultHeight;
      step := DefaultStep;
      currentState := Some(IdleUp);
      increments, stateChanges := [], [];
      new;
      Update();
    }

    /** Redraws: the fill bar's width from the value, the background's from the bar width. */
    method Update()
      requires 0.0 <= value <= 100.0
      modifies this`fillWidth, this`backgroundWidth
      ensures Valid()
      ensures 0.0 <= barWidth ==> 0.0 <= fillWidth <= barWidth
    {
      fillWidth := FillWidth(value, barWidth);
      backgroundWidth := barWidth;
    }

    /** Stores the clamped value, redraws, and reports the stored value once. */
    method SetValue(v: real)
      requires Valid()
      modifies this
      ensures Valid()
      ensures State() == old(State()).(value := ClampPercent(v), increments := old(increments) + [ClampPercent(v)])
    {
      value := Max(0.0, Min(v, 100.0));
      Update();
      increments := increments + [value];
    }

    /**
     * Adds the amount to the value through the setter; with no amount given,
     * the step is added.
     */
    method Increment(amount: Option<real>)
      requires Valid()
      modifies this
      ensures Valid()
      ensures var a := if amount.Some? then amount.value else old(step);
        State() == old(State()).(value := ClampPercent(old(value) + a),
                                 increments := old(increments) + [ClampPercent(old(value) + a)])
    {
      var a := if amount.Some? then amount.value else step;
      SetValue(value + a);
    }

    method SetProgressWidth(width: real)
      requires Valid()
      modifies this
      ensures Valid() && State() == old(State()).(barWidth := width)
    {
      barWidth := width;
      Update();
    }

    function ProgressWidth(): (w: real)
      reads this
      requires Valid()
      ensures 0.0 <= w ==> 0.0 <= fillWidth <= w
    {
      barWidth
    }

    /** Changes the step only; the bar is not redrawn. */
    method SetIncrementValue(v: real)
      requires Valid()
      modifies this`step
      ensures Valid() && State() == old(State()).(step := v)
    {
      step := v;
    }

    function IncrementValue(): real
      reads this
    {
      step
    }

    /** Reports the current state to the state-change callback once. */
    method TriggerStateChange()
      requires Valid()
      modifies this`stateChanges
      ensures Valid() && State() == old(State()).(stateChanges := old(stateChanges) + [currentState])
    {
      stateChanges := stateChanges + [currentState];
    }

    method IdleupState()
      requires Valid()
      modifies this`stateChanges
      ensures Valid() && State() == old(State()).(stateChanges := old(stateChanges) + [currentState])
    {
      TriggerStateChange();
    }

    method IdledownState()
      requires Valid()
      modifies this`stateChanges
      ensures Valid() && State() == old(State()).(stateChanges := old(stateChanges) + [currentState])
    {
      TriggerStateChange();
    }

    method PressedState()
      requires Valid()
      modifies this`stateChanges
      ensures Valid() && State() == old(State()).(stateChanges := old(stateChanges) + [currentState])
    {
      TriggerStateChange();
    }

    method HoverState()
      requires Valid()
      modifies this`stateChanges
      ensures Valid() && State() == old(State()).(stateChanges := old(stateChanges) + [currentState])
    {
      TriggerStateChange();
    }

    method HoverPressedState()
      requires Valid()
      modifies this`stateChanges
      ensures Valid() && State() == old(State()).(stateChanges := old(stateChanges) + [currentState])
    {
      TriggerStateChange();
    }

    method PressedoutState()
      requires Valid()
      modifies this`stateChanges
      ensures Valid() && State() == old(State()).(stateChanges := old(stateChanges) + [currentState])
    {
      TriggerStateChange();
    }

    /** The move, keyup and press-release hooks do nothing. */
    method MoveState()
      ensures unchanged(this)
    {
    }

    method KeyupState()
      ensures unchanged(this)
    {
    }

    method PressReleaseState()
      ensures unchanged(this)
    {
    }
  }

  /** Two writes through the setter: the value ends up in range whatever is written. */
  method SetterExamples() returns (first: real, second: real)
    ensures first == 0.0 && second == 100.0
  {
    var bar := new ProgressBar();
    bar.SetValue(-10.0);
    first := bar.value;
    bar.SetValue(500.0);
    second := bar.value;
  }
}
