/**
 * A single radio button: a circle with an inner dot shown when checked, and
 * a label. Its hooks never change the checked flag themselves: a completed
 * press or Enter only calls the click callback, and only while unchecked.
 */
module RadioWidget {
  import opened UiTypes

  /** Circle fills the state hooks assign. */
  const PlainFill: string := "#fff"
  const HoverFill: string := "#f9f9f9"

  /** The fields of a radio button that its methods set, apart from what is drawn. */
  datatype RadioState = RadioState(
    caption: string,
    checked: bool,
    previousState: Option<WidgetState>,
    hasCallback: bool,
    clicks: nat,
    x: real,
    y: real,
    circleFill: string)

  class RadioButton {
    /** The position of the button in its group, fixed at construction. */
    const index: int

    var caption: string
    var checked: bool
    /** Set by the state machine before each hook runs. */
    var previousState: Option<WidgetState>
    var hasCallback: bool
    /** How many times the click callback has been called. */
    var clicks: nat
    var x: real
    var y: real

    var text: string
    var dotVisible: bool
    var circleFill: string

    function State(): RadioState
      reads this
    {
      RadioState(caption, checked, previousState, hasCallback, clicks, x, y, circleFill)
    }

    /** What is drawn agrees with the fields, as `update` leaves it. */
    ghost predicate Valid()
      reads this
    {
      text == caption && dotVisible == checked
    }

    /** A new radio button is unchecked, has no callback, and keeps the index it is given. */
    constructor (caption: string, index: int)
      ensures Valid() && this.index == index
      ensures State() == RadioState(caption, false, None, false, 0, 0.0, 0.0, PlainFill)
    {
      this.index := index;
      this.caption := caption;
      checked := false;
      previousState := None;
      hasCallback := false;
      clicks := 0;
      x, y := 0.0, 0.0;
      circleFill := PlainFill;
      new;
      Update();
    }

    /** Redraws: the label text, and the inner dot shown iff checked. */
    method Update()
      modifies this`text, this`dotVisible
      ensures Valid()
      ensures dotVisible == checked
    {
      text := caption;
      dotVisible := checked;
    }

    method SetChecked(value: bool)
      modifies this
      ensures Valid() && State() == old(State()).(checked := value)
    {
      checked := value;
      Update();
    }

    method SetLabel(value: string)
      modifies this
      ensures Valid() && State() == old(State()).(caption := value)
    {
      caption := value;
      Update();
    }

    method OnClick()
      requires Valid()
      modifies this`hasCallback
      ensures Valid() && hasCallback
    {
      hasCallback := true;
    }

    /** Places the button (the widget's visual root) at the given point. */
    method Move(x: real, y: real)
      requires Valid()
      modifies this`x, this`y
      ensures Valid() && this.x == x && this.y == y
    {
      this.x, this.y := x, y;
    }

    /**
     * A release right after Pressed calls the callback, if there is one, but
     * only while the button is unchecked; `fired` says whether it was called.
     * The checked flag is left alone.
     */
    method PressReleaseState() returns (fired: bool)
      requires Valid()
      modifies this`clicks
      ensures Valid()
      ensures fired == (WasPressed(previousState) && !checked && hasCallback)
      ensures clicks == if fired then old(clicks) + 1 else old(clicks)
    {
      fired := false;
      if WasPressed(previousState) {
        if !checked && hasCallback {
          fired := true;
          clicks := clicks + 1;
        }
      }
    }

    /** Enter calls the callback, if there is one, only while unchecked; the flag is left alone. */
    method KeyupState(key: Option<string>) returns (fired: bool)
      requires Valid()
      modifies this`clicks
      ensures Valid()
      ensures fired == (IsEnter(key) && !checked && hasCallback)
      ensures clicks == if fired then old(clicks) + 1 else old(clicks)
    {
      fired := false;
      if IsEnter(key) {
        if !checked && hasCallback {
          fired := true;
          clicks := clicks + 1;
        }
      }
    }

    method IdleupState()
      requires Valid()
      modifies this`text, this`dotVisible, this`circleFill
      ensures Valid() && State() == old(State()).(circleFill := PlainFill)
    {
      circleFill := PlainFill;
      Update();
    }

    method IdledownState()
      requires Valid()
      modifies this`text, this`dotVisible, this`circleFill
      ensures Valid() && State() == old(State()).(circleFill := PlainFill)
    {
      circleFill := PlainFill;
      Update();
    }

    method PressedState()
      requires Valid()
      modifies this`text, this`dotVisible, this`circleFill
      ensures Valid() && State() == old(State()).(circleFill := PlainFill)
    {
      circleFill := PlainFill;
      Update();
    }

    method HoverState()
      requires Valid()
      modifies this`text, this`dotVisible, this`circleFill
      ensures Valid() && State() == old(State()).(circleFill := HoverFill)
    {
      circleFill := HoverFill;
      Update();
    }

    method HoverPressedState()
      requires Valid()
      modifies this`text, this`dotVisible, this`circleFill
      ensures Valid() && State() == old(State()).(circleFill := PlainFill)
    {
      circleFill := PlainFill;
      Update();
    }

    method PressedoutState()
      requires Valid()
      modifies this`text, this`dotVisible, this`circleFill
      ensures Valid() && State() == old(State()).(circleFill := PlainFill)
    {
      circleFill := PlainFill;
      Update();
    }
  }
}
