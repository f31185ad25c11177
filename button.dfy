/**
 * The push button: a rounded rectangle with a centred caption. A completed
 * press (release right after Pressed) raises an EventArgs and calls the
 * click callback; the Enter key calls the callback directly.
 */
module ButtonWidget {
  import opened UiTypes

  const DefaultLabel: string := "Button"
  const DefaultFontSize: real := 18.0
  const DefaultWidth: real := 80.0
  const DefaultHeight: real := 30.0

  /** Background colours the state hooks assign. */
  const IdleColor: string := "#b5c8ff"
  const PressedColor: string := "#8c9ed1"
  const HoverColor: string := "#9eb1e8"

  const NotImplemented: string := "Method not implemented."

  /** The size of a piece of text as the renderer measures it (`bbox()`). */
  datatype Box = Box(width: real, height: real)

  /** The fields of a button that its methods set, apart from what is drawn. */
  datatype ButtonState = ButtonState(
    width: real,
    height: real,
    caption: string,
    fontSize: real,
    backcolor: string,
    previousState: Option<WidgetState>,
    hasCallback: bool,
    clicks: nat,
    raised: nat,
    rectX: real,
    rectY: real)

  /** What `update` draws: the rectangle's fill and the text, its font size and position. */
  datatype ButtonView = ButtonView(
    rectFill: string,
    text: string,
    textFont: real,
    textX: real,
    textY: real)

  /**
   * The start coordinate at which a span of length `inner` sits centred in
   * the span of length `outer` that starts at `start` (the arithmetic of
   * `positionText`): the margins before and after it are equal.
   */
  function Centre(start: real, outer: real, inner: real): (r: real)
    ensures r - start == (start + outer) - (r + inner)
  {
    start + (outer - inner) / 2.0
  }

  /** The only start coordinate with equal margins is the one `Centre` gives. */
  lemma CentreUnique(start: real, outer: real, inner: real, r: real)
    requires r - start == (start + outer) - (r + inner)
    ensures r == Centre(start, outer, inner)
  {
  }

  /**
   * What `update` draws for a given state: the rectangle takes the background
   * colour, and the text, measured by `measure`, is centred in the rectangle
   * both horizontally and vertically.
   */
  function Render(s: ButtonState, measure: (string, real) -> Box): (v: ButtonView)
    ensures v.textX - s.rectX == (s.rectX + s.width) - (v.textX + measure(s.caption, s.fontSize).width)
    ensures v.textY - s.rectY == (s.rectY + s.height) - (v.textY + measure(s.caption, s.fontSize).height)
  {
    var box := measure(s.caption, s.fontSize);
    ButtonView(s.backcolor, s.caption, s.fontSize,
               Centre(s.rectX, s.width, box.width), Centre(s.rectY, s.height, box.height))
  }

  class Button {
    /** The renderer's text measurement, a parameter of the model. */
    const measure: (string, real) -> Box

    var width: real
    var height: real
    var caption: string
    var fontSize: real
    var backcolor: string
    /** Set by the state machine before each hook runs. */
    var previousState: Option<WidgetState>
    var hasCallback: bool
    /** How many times the click callback has been called. */
    var clicks: nat
    /** How many EventArgs the button has raised. */
    var raised: nat
    var rectX: real
    var rectY: real

    var rectFill: string
    var text: string
    var textFont: real
    var textX: real
    var textY: real

    function State(): ButtonState
      reads this
    {
      ButtonState(width, height, caption, fontSize, backcolor, previousState,
                  hasCallback, clicks, raised, rectX, rectY)
    }

    function View(): ButtonView
      reads this
    {
      ButtonView(rectFill, text, textFont, textX, textY)
    }

    /** What is drawn is what `update` draws for the current state. */
    ghost predicate Valid()
      reads this
    {
      View() == Render(State(), measure)
    }

    /**
     * A new button is 80 by 30 with the caption "Button" in size 18, drawn at
     * the origin. Its background colour is the widget base class's default,
     * `initialBackcolor`, until a state hook assigns one.
     */
    constructor (measure: (string, real) -> Box, initialBackcolor: string)
      ensures Valid() && this.measure == measure
      ensures State() == ButtonState(DefaultWidth, DefaultHeight, DefaultLabel, DefaultFontSize,
                                     initialBackcolor, None, false, 0, 0, 0.0, 0.0)
    {
      this.measure := measure;
      width, height := DefaultWidth, DefaultHeight;
      caption, fontSize := DefaultLabel, DefaultFontSize;
      backcolor := initialBackcolor;
      previousState := None;
      hasCallback := false;
      clicks, raised := 0, 0;
      rectX, rectY := 0.0, 0.0;
      new;
      Update();
    }

    /** Redraws from the fields: fill, font size, text, then `positionText`. */
    method Update()
      modifies this
      ensures Valid() && State() == old(State())
    {
      rectFill := backcolor;
      text := caption;
      textFont := fontSize;
      PositionText(measure(text, textFont));
    }

    /** Centres a text box of the measured size in the rectangle. */
    method PositionText(box: Box)
      modifies this`textX, this`textY
      ensures textX == Centre(rectX, width, box.width)
      ensures textY == Centre(rectY, height, box.height)
    {
      textX := rectX + (width - box.width) / 2.0;
      textY := rectY + (height - box.height) / 2.0;
    }

    method SetLabel(value: string)
      requires Valid()
      modifies this
      ensures Valid() && State() == old(State()).(caption := value)
    {
      caption := value;
      Update();
    }

    method SetFontSize(size: real)
      requires Valid()
      modifies this
      ensures Valid() && State() == old(State()).(fontSize := size)
    {
      fontSize := size;
      Update();
    }

    method OnClick()
      requires Valid()
      modifies this
      ensures Valid()
      ensures State() == old(State()).(hasCallback := true) && View() == old(View())
    {
      hasCallback := true;
    }

    /**
     * A release right after Pressed raises one EventArgs and calls the
     * callback once if one is registered; any other release does neither.
     */
    method PressReleaseState()
      requires Valid()
      modifies this
      ensures Valid()
      ensures WasPressed(previousState) ==>
        State() == old(State()).(raised := old(raised) + 1,
                                 clicks := if hasCallback then old(clicks) + 1 else old(clicks))
      ensures !WasPressed(previousState) ==> State() == old(State())
      ensures View() == old(View())
    {
      if WasPressed(previousState) {
        raised := raised + 1;
        if hasCallback {
          clicks := clicks + 1;
        }
      }
    }

    /** Enter calls the callback once when one is registered; nothing is raised. */
    method KeyupState(key: Option<string>)
      requires Valid()
      modifies this
      ensures Valid()
      ensures State() == old(State()).(clicks := if IsEnter(key) && hasCallback then old(clicks) + 1 else old(clicks))
      ensures View() == old(View())
    {
      if IsEnter(key) && hasCallback {
        clicks := clicks + 1;
      }
    }

    method IdleupState()
      requires Valid()
      modifies this
      ensures Valid() && State() == old(State()).(backcolor := IdleColor)
    {
      backcolor := IdleColor;
      Update();
    }

    method IdledownState()
      requires Valid()
      modifies this
      ensures Valid() && State() == old(State()).(backcolor := PressedColor)
    {
      backcolor := PressedColor;
      Update();
    }

    method PressedState()
      requires Valid()
      modifies this
      ensures Valid() && State() == old(State()).(backcolor := PressedColor)
    {
      backcolor := PressedColor;
      Update();
    }

    method HoverState()
      requires Valid()
      modifies this
      ensures Valid() && State() == old(State()).(backcolor := HoverColor)
    {
      backcolor := HoverColor;
      Update();
    }

    method HoverPressedState()
      requires Valid()
      modifies this
      ensures Valid() && State() == old(State()).(backcolor := HoverColor)
    {
      backcolor := HoverColor;
      Update();
    }

    method PressedoutState()
      requires Valid()
      modifies this
      ensures Valid() && State() == old(State()).(backcolor := IdleColor)
    {
      backcolor := IdleColor;
      Update();
    }

    /** The move hook always throws. */
    method MoveState() returns (r: Outcome)
      ensures r == Fail(NotImplemented)
    {
      r := Fail(NotImplemented);
    }
  }

  /** A full press-release cycle with a callback registered clicks exactly once. */
  method PressThenRelease(b: Button)
    requires b.Valid() && b.hasCallback
    modifies b
    ensures b.clicks == old(b.clicks) + 1 && b.raised == old(b.raised) + 1
  {
    b.previousState := Some(Pressed);
    b.PressReleaseState();
  }

  /** A release after the pointer left the button (PressedOut) clicks nothing. */
  method PressLeaveRelease(b: Button)
    requires b.Valid()
    modifies b
    ensures b.clicks == old(b.clicks) && b.raised == old(b.raised)
  {
    b.previousState := Some(PressedOut);
    b.PressReleaseState();
  }
}
