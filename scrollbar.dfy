/**
 * The vertical scroll bar: an up button, a track, a down button, and a thumb
 * one third as tall as the track. The buttons step the thumb by 10, a track
 * click centres the thumb on the click, and dragging the pressed thumb follows
 * the pointer; every move keeps the thumb inside the track and records the
 * direction of travel.
 */
module ScrollBarWidget {
  import opened UiTypes

  /** Height of the up and down buttons; the track starts this far below the top. */
  const ButtonHeight: real := 20.0
  /** How far one click on an arrow button moves the thumb. */
  const ArrowStep: real := 10.0

  /** The direction of the last thumb move; `NoDirection` stands for `undefined`. */
  datatype Direction = NoDirection | Upwards | Downwards

  /** The thumb's height for a track of the given height. */
  function ThumbHeightFor(height: real): (t: real)
    ensures 3.0 * t == height
  {
    height / 3.0
  }

  /**
   * The thumb offset, measured from the track's top, that a track click at
   * `localY` asks for: the thumb is centred on the click, then kept inside
   * the track.
   */
  function TrackTarget(localY: real, height: real, thumbHeight: real): (t: real)
    ensures 0.0 <= t
    ensures thumbHeight <= height ==> t <= height - thumbHeight
    ensures 0.0 <= localY - thumbHeight / 2.0 <= height - thumbHeight ==> t == localY - thumbHeight / 2.0
  {
    Clamp(0.0, height - thumbHeight, localY - thumbHeight / 2.0)
  }

  /**
   * The track-click update as the source writes it: the thumb's y becomes
   * `ButtonHeight + target`, and the previous position it compares against is
   * `thumbY - ButtonHeight`; the group's own vertical offset is left out.
   * Returns the new thumb y and the direction.
   */
  function TrackClickAsWritten(thumbY: real, target: real): (r: (real, Direction))
    ensures r.0 - ButtonHeight == target
    ensures r.1 == Downwards <==> r.0 > thumbY
  {
    (ButtonHeight + target, if target > thumbY - ButtonHeight then Downwards else Upwards)
  }

  /**
   * The track-click update measured from the track's top, as the arrow
   * buttons and the drag handler measure: the thumb's y becomes
   * `groupY + ButtonHeight + target`, and the direction compares the target
   * with the thumb's previous offset in the track.
   */
  function TrackClickPlacement(groupY: real, thumbY: real, target: real): (r: (real, Direction))
    ensures r.0 - (groupY + ButtonHeight) == target
    ensures r.1 == Downwards <==> r.0 > thumbY
    ensures r.1 != NoDirection
  {
    (groupY + ButtonHeight + target,
     if target > thumbY - (groupY + ButtonHeight) then Downwards else Upwards)
  }

  /** For a scroll bar at the top of the canvas the two agree. */
  lemma AsWrittenAgreesAtOrigin(thumbY: real, target: real)
    ensures TrackClickAsWritten(thumbY, target) == TrackClickPlacement(0.0, thumbY, target)
  {
  }

  /**
   * For a scroll bar moved down to y = 100 with a 300-high track (thumb 100),
   * a click at the very top of the track puts the thumb, as written, at y = 20:
   * above the track, which begins at 120.
   */
  lemma AsWrittenLeavesTrack()
    ensures TrackClickAsWritten(100.0 + ButtonHeight, TrackTarget(0.0, 300.0, ThumbHeightFor(300.0))).0 == 20.0
    ensures 20.0 < 100.0 + ButtonHeight
  {
    var thumbHeight := ThumbHeightFor(300.0);
    assert thumbHeight == 100.0;
    var target := TrackTarget(0.0, 300.0, thumbHeight);
    assert target == Clamp(0.0, 200.0, -50.0);
    assert target == 0.0;
  }

  /** Moving the range and the value by the same amount moves the clamped value by that amount. */
  lemma ClampShift(lo: real, hi: real, v: real, d: real)
    ensures Clamp(lo + d, hi + d, v + d) == Clamp(lo, hi, v) + d
  {
  }

  class ScrollBar {
    var heightValue: real
    var thumbHeight: real
    /** The position of the bar's group: the top left of the up button. */
    var groupX: real
    var groupY: real
    /** The thumb's y coordinate in the canvas. */
    var thumbY: real
    var mouseDown: bool
    var lastY: real
    var direction: Direction

    var hasThumbMovedHandler: bool
    var hasMoveHandler: bool
    var hasStateChangeHandler: bool
    /** The arguments of every call of the thumb-moved handler, oldest first. */
    var thumbMoves: seq<(real, Direction)>
    /** How many times the move handler and the state-change handler have been called. */
    var moveEvents: nat
    var stateEvents: nat

    /** The smallest and the largest y the thumb may take. */
    function TrackMin(): real
      reads this
    {
      groupY + ButtonHeight
    }

    function TrackMax(): real
      reads this
    {
      groupY + ButtonHeight + heightValue - thumbHeight
    }

    /** The thumb is a third of the track and lies inside it. */
    ghost predicate Valid()
      reads this
    {
      thumbHeight == ThumbHeightFor(heightValue) && InRange(TrackMin(), TrackMax(), thumbY)
    }

    /** With a track of non-negative height, the thumb lies between the two ends. */
    lemma ThumbInsideTrack()
      requires Valid() && 0.0 <= heightValue
      ensures TrackMin() <= thumbY <= TrackMax()
      ensures TrackMin() <= thumbY + thumbHeight <= groupY + ButtonHeight + heightValue
    {
      InRangeMeaning(TrackMin(), TrackMax(), thumbY);
    }

    /** A new bar at the origin, its thumb at the top of the track, not pressed, no direction yet. */
    constructor (height: real)
      ensures Valid()
      ensures heightValue == height && groupX == 0.0 && groupY == 0.0 && thumbY == ButtonHeight
      ensures !mouseDown && lastY == 0.0 && direction == NoDirection
      ensures !hasThumbMovedHandler && !hasMoveHandler && !hasStateChangeHandler
      ensures thumbMoves == [] && moveEvents == 0 && stateEvents == 0
    {
      heightValue := height;
      thumbHeight := height / 3.0;
      groupX, groupY := 0.0, 0.0;
      thumbY := ButtonHeight;
      mouseDown, lastY, direction := false, 0.0, NoDirection;
      hasThumbMovedHandler, hasMoveHandler, hasStateChangeHandler := false, false, false;
      thumbMoves, moveEvents, stateEvents := [], 0, 0;
    }

    /**
     * A new track height: the thumb becomes a third of it, and redrawing puts
     * the thumb back at the top of the track, at the bar's current position.
     */
    method SetScrollBarHeight(value: real)
      requires Valid()
      modifies this`heightValue, this`thumbHeight, this`thumbY
      ensures Valid()
      ensures heightValue == value && thumbHeight == ThumbHeightFor(value) && thumbY == TrackMin()
    {
      heightValue := value;
      thumbHeight := value / 3.0;
      thumbY := groupY + ButtonHeight;
    }

    /** The track height; the thumb is a third of it. */
    function ScrollBarHeight(): (h: real)
      reads this
      requires Valid()
      ensures 3.0 * thumbHeight == h
    {
      heightValue
    }

    /** The thumb's y less the height of the up button. */
    function ThumbPosition(): (p: real)
      reads this
      ensures p + ButtonHeight == thumbY
    {
      thumbY - ButtonHeight
    }

    /**
     * The position every handler reports lies between the bar's own y and
     * that plus the room the thumb has in the track; for a bar at y = 0 it
     * is the thumb's offset in the track.
     */
    lemma ThumbPositionInTrack()
      requires Valid() && 0.0 <= heightValue
      ensures groupY <= ThumbPosition() <= groupY + heightValue - thumbHeight
    {
      ThumbInsideTrack();
    }

    function GetDirection(): Direction
      reads this
    {
      direction
    }

    method OnThumbMove()
      requires Valid()
      modifies this`hasThumbMovedHandler
      ensures Valid() && hasThumbMovedHandler
    {
      hasThumbMovedHandler := true;
    }

    method OnMove()
      requires Valid()
      modifies this`hasMoveHandler
      ensures Valid() && hasMoveHandler
    {
      hasMoveHandler := true;
    }

    method OnStateChange()
      requires Valid()
      modifies this`hasStateChangeHandler
      ensures Valid() && hasStateChangeHandler
    {
      hasStateChangeHandler := true;
    }

    /** Moves the whole bar; the thumb keeps its place in the track. */
    method Move(x: real, y: real)
      requires Valid()
      modifies this`groupX, this`groupY, this`thumbY
      ensures Valid() && groupX == x && groupY == y
      ensures thumbY - TrackMin() == old(thumbY - TrackMin())
    {
      ClampShift(TrackMin(), TrackMax(), thumbY, y - groupY);
      thumbY := thumbY + (y - groupY);
      groupX, groupY := x, y;
    }

    /** Reports a thumb move to the thumb-moved handler, if one is registered. */
    method ReportThumbMove(d: Direction)
      modifies this`thumbMoves
      ensures thumbMoves == if hasThumbMovedHandler then old(thumbMoves) + [(ThumbPosition(), d)] else old(thumbMoves)
    {
      if hasThumbMovedHandler {
        thumbMoves := thumbMoves + [(ThumbPosition(), d)];
      }
    }

    /** Puts the thumb at `targetY`, kept inside the track, and records the given direction. */
    method ScrollTo(targetY: real, d: Direction)
      requires Valid()
      modifies this`thumbY, this`direction, this`thumbMoves
      ensures Valid()
      ensures thumbY == Clamp(TrackMin(), TrackMax(), targetY) && direction == d
      ensures thumbMoves == if hasThumbMovedHandler then old(thumbMoves) + [(ThumbPosition(), d)] else old(thumbMoves)
    {
      var low := groupY + ButtonHeight;
      var high := groupY + ButtonHeight + heightValue - thumbHeight;
      thumbY := Max(low, Min(targetY, high));
      ClampIdempotent(low, high, targetY);
      direction := d;
      ReportThumbMove(d);
    }

    /** The up button asks for the thumb 10 higher. */
    method UpButtonClick()
      requires Valid()
      modifies this`thumbY, this`direction, this`thumbMoves
      ensures Valid()
      ensures thumbY == Clamp(TrackMin(), TrackMax(), old(thumbY) - ArrowStep) && direction == Upwards
      ensures thumbY <= old(thumbY)
      ensures thumbMoves == if hasThumbMovedHandler then old(thumbMoves) + [(ThumbPosition(), Upwards)] else old(thumbMoves)
    {
      ScrollTo(thumbY - ArrowStep, Upwards);
    }

    /** The down button asks for the thumb 10 lower. */
    method DownButtonClick()
      requires Valid()
      modifies this`thumbY, this`direction, this`thumbMoves
      ensures Valid()
      ensures thumbY == Clamp(TrackMin(), TrackMax(), old(thumbY) + ArrowStep) && direction == Downwards
      ensures thumbY >= old(thumbY)
      ensures thumbMoves == if hasThumbMovedHandler then old(thumbMoves) + [(ThumbPosition(), Downwards)] else old(thumbMoves)
    {
      if 0.0 <= heightValue {
        InRangeMeaning(TrackMin(), TrackMax(), thumbY);
      }
      ScrollTo(thumbY + ArrowStep, Downwards);
    }

    /** Pressing the thumb starts a drag from the pointer's y and reports the press. */
    method ThumbMouseDown(clientY: real)
      requires Valid()
      modifies this`mouseDown, this`lastY, this`stateEvents
      ensures Valid() && mouseDown && lastY == clientY
      ensures stateEvents == if hasStateChangeHandler then old(stateEvents) + 1 else old(stateEvents)
    {
      mouseDown := true;
      lastY := clientY;
      if hasStateChangeHandler {
        stateEvents := stateEvents + 1;
      }
    }

    /**
     * A pointer move during a drag centres the thumb on the pointer, kept
     * inside the track; the direction is Downwards iff the pointer went down.
     * Without a drag in progress nothing changes.
     */
    method HandleDrag(clientY: real)
      requires Valid()
      modifies this`thumbY, this`direction, this`lastY, this`thumbMoves, this`moveEvents
      ensures Valid()
      ensures !old(mouseDown) ==>
        thumbY == old(thumbY) && direction == old(direction) && lastY == old(lastY) &&
        thumbMoves == old(thumbMoves) && moveEvents == old(moveEvents)
      ensures old(mouseDown) ==>
        thumbY == Clamp(TrackMin(), TrackMax(), clientY - thumbHeight / 2.0) &&
        (direction == Downwards <==> clientY > old(lastY)) && direction != NoDirection &&
        lastY == clientY &&
        thumbMoves == (if hasThumbMovedHandler then old(thumbMoves) + [(ThumbPosition(), direction)] else old(thumbMoves)) &&
        moveEvents == if hasMoveHandler then old(moveEvents) + 1 else old(moveEvents)
    {
      if !mouseDown {
        return;
      }
      var low := groupY + ButtonHeight;
      var high := groupY + ButtonHeight + heightValue - thumbHeight;
      var newY := clientY - thumbHeight / 2.0;
      newY := Max(low, Min(newY, high));
      ClampIdempotent(low, high, clientY - thumbHeight / 2.0);
      thumbY := newY;
      direction := if clientY > lastY then Downwards else Upwards;
      lastY := clientY;
      ReportThumbMove(direction);
      if hasMoveHandler {
        moveEvents := moveEvents + 1;
      }
    }

    /** A pointer release reports the end of a drag, if one was in progress, and always ends it. */
    method HandleRelease()
      requires Valid()
      modifies this`mouseDown, this`stateEvents
      ensures Valid() && !mouseDown
      ensures stateEvents == if old(mouseDown) && hasStateChangeHandler then old(stateEvents) + 1 else old(stateEvents)
    {
      if mouseDown && hasStateChangeHandler {
        stateEvents := stateEvents + 1;
      }
      mouseDown := false;
    }

    /**
     * A click on the track at `localY` below the track's top centres the thumb
     * on the click, kept inside the track, and records whether that moved the
     * thumb down. Placement is measured from the track's top (see
     * `TrackClickPlacement`), then all three handlers are told.
     */
    method HandleTrackClick(localY: real)
      requires Valid()
      modifies this`thumbY, this`direction, this`thumbMoves, this`moveEvents, this`stateEvents
      ensures Valid()
      ensures thumbY - TrackMin() == TrackTarget(localY, heightValue, thumbHeight)
      ensures (direction == Downwards <==> thumbY > old(thumbY)) && direction != NoDirection
      ensures thumbMoves == if hasThumbMovedHandler then old(thumbMoves) + [(ThumbPosition(), direction)] else old(thumbMoves)
      ensures moveEvents == if hasMoveHandler then old(moveEvents) + 1 else old(moveEvents)
      ensures stateEvents == if hasStateChangeHandler then old(stateEvents) + 1 else old(stateEvents)
    {
      var targetY := Max(0.0, Min(localY - thumbHeight / 2.0, heightValue - thumbHeight));
      var placed := TrackClickPlacement(groupY, thumbY, targetY);
      direction := placed.1;
      thumbY := placed.0;
      ReportThumbMove(direction);
      if hasMoveHandler {
        moveEvents := moveEvents + 1;
      }
      if hasStateChangeHandler {
        stateEvents := stateEvents + 1;
      }
    }

    /** All nine state hooks do nothing. */
    method EnterState(s: WidgetState)
      ensures unchanged(this)
    {
    }
  }

  /** A full drag: press, move, release. The thumb stays in the track and the drag is over afterwards. */
  method Drag(b: ScrollBar, pressY: real, moveY: real)
    requires b.Valid()
    modifies b
    ensures b.Valid() && !b.mouseDown && b.lastY == moveY
    ensures b.thumbY == Clamp(b.TrackMin(), b.TrackMax(), moveY - b.thumbHeight / 2.0)
    ensures b.direction == if moveY > pressY then Downwards else Upwards
  {
    b.ThumbMouseDown(pressY);
    b.HandleDrag(moveY);
    b.HandleRelease();
  }
}
