# Widget toolkit: interaction rules and value arithmetic of the controls

This project models, in Dafny, the concrete controls of a small widget toolkit
that draws buttons, checkboxes, radio groups, progress bars, star ratings and
scroll bars on an SVG canvas. Each control is a class whose fields are the
source's fields. Its methods are the source's setters, handlers and
state-machine hooks, and they say exactly how each call changes the fields.
The one exception is the scroll bar's track click. The model uses the
corrected placement there; see "## Findings".
Each class has a `Valid()` invariant. It ties what is drawn (fills, dot and
checkmark visibility, fill width, star fills, thumb position) to the
widget's state, as the widget's `update` leaves it. Every method keeps it.

What is proved:

- **Button** (`ButtonWidget`). A completed press is a release right after
  `Pressed`. It raises one EventArgs and calls the click callback once; any
  other release does neither. Enter calls the callback when one is
  registered. The state hooks set the background colours. The label text is
  centred in the rectangle, with equal margins on both sides. The move hook
  always fails.
- **Checkbox** (`CheckboxWidget`). A completed press and the Enter key flip
  `checked` and report the new value once. Two activations restore the
  flag. The `checked` setter never calls the callback. `update` shows the
  checkmark exactly when checked and fills the box by the flag. Because
  every fill hook calls `update` after setting its own colour, the colours
  those hooks set (`#f0f0f0`, `#e0e0e0`, `#f9f9f9`) never stay drawn.
- **Radio button and group** (`RadioWidget`, `RadioGroupWidget`). A radio
  button's hooks never change its own flag. They call the click callback
  only while the button is unchecked. The group keeps the checked flags
  equal to "only `selectedIndex` is checked" at all times. So at most one
  button is checked, and exactly one when the index is in range.
  `select(i)` with a new index checks exactly button `i`, records `i` and
  reports it once. Re-selecting changes nothing. Clicking an unchecked
  button selects it.
- **Progress bar** (`ProgressBarWidget`). The value setter stores
  `max(0, min(v, 100))`, for example 0 for -10 and 100 for 500. It reports
  the stored value once. `increment` goes through the setter and defaults to
  the step. The fill width is the value's share of the bar width, so it lies
  within the bar. Six hooks report the current state; the other three do
  nothing.
- **Star rating** (`StarRatingWidget`). The rating stays in
  `[0, maxStars]`. Star `i` sits at `35 i`. Hovering star `i` fills stars
  `0..i` whatever the rating. The filled stars always form a prefix. When no
  star is hovered and the rating is a whole number `k`, exactly `k` stars
  are filled.
- **Scroll bar** (`ScrollBarWidget`). The thumb is always one third of the
  track. Every move keeps it inside the track: arrow buttons, drag, moving
  the bar, resizing it, and a track click with the corrected placement (see
  "## Findings"). The position reported to the thumb-moved handler
  therefore lies between the bar's y and that plus the thumb's room in the
  track. Direction is `Downwards` exactly when the pointer went down during
  a drag, or when the thumb went down on a corrected track click. A release
  ends any drag and reports only a drag that was in progress. As written,
  a track click on a bar moved away from y = 0 can put the thumb outside
  the track.

Conventions of the model:

- TypeScript numbers are `real`s.
- Callbacks are logs or counters of their calls, with their arguments.
  A `has…` flag records whether a callback is registered, wherever the
  source tests for one.
- A widget's `previousState` is a field that the state machine sets before
  a hook runs. `None` stands for the undefined state before the first
  transition.
- Button text measurement is the function `measure`, a constructor
  parameter.
- A track click's y coordinate within the track is an input of
  `HandleTrackClick`.

## Model

| member | source | states |
|---|---|---|
| UiTypes.Clamp | src/widgets/progressbar.ts:42 | `Math.max(lo, Math.min(v, hi))` lies at or above `lo`, within `[lo, hi]` when that range is non-empty, is `v` when `v` is inside, and is the nearer end otherwise |
| UiTypes.WasPressed | src/widgets/button.ts:109 | the `instanceof PressedWidgetState` test of the press-release hooks: the previous state is `Pressed` |
| UiTypes.IsEnter | src/widgets/button.ts:153 | the `key === "Enter"` test of the keyup hooks; an absent key is not Enter |
| UiTypes.ClampIdempotent | src/widgets/scrollbar.ts:173 | clamping an already clamped value changes nothing |
| ButtonWidget.Centre | src/widgets/button.ts:65-66 | `rect + (outer - inner)/2` leaves equal margins before and after the text box |
| ButtonWidget.CentreUnique | src/widgets/button.ts:65-66 | that position is the only one with equal margins |
| ButtonWidget.Render | src/widgets/button.ts:98-106 | what `update` draws: the label text, measured, centred in the rectangle both horizontally and vertically |
| ButtonWidget.Button.constructor | src/widgets/button.ts:15-35 | a new button is 80 wide, 30 high, labelled "Button" in size 18, has no callback and no clicks |
| ButtonWidget.Button.Update | src/widgets/button.ts:98-106 | redraws fill, font, text and centred position from the fields and changes no other field |
| ButtonWidget.Button.PositionText | src/widgets/button.ts:51-70 | the text ends up at `rectX + (w - boxW)/2`, `rectY + (h - boxH)/2` |
| ButtonWidget.Button.SetLabel | src/widgets/button.ts:37-44 | the label becomes the value set, nothing else changes, and the drawing follows |
| ButtonWidget.Button.SetFontSize | src/widgets/button.ts:46-49 | the font size becomes the value set, nothing else changes |
| ButtonWidget.Button.OnClick | src/widgets/button.ts:117-120 | registers the click callback and changes nothing else |
| ButtonWidget.Button.PressReleaseState | src/widgets/button.ts:108-115 | iff the previous state is Pressed: one EventArgs raised, and one callback call if registered; otherwise nothing changes |
| ButtonWidget.Button.KeyupState | src/widgets/button.ts:152-156 | one callback call iff the key is Enter and a callback is registered; nothing is raised |
| ButtonWidget.Button.IdleupState | src/widgets/button.ts:124-127 | background becomes `#b5c8ff`, drawing follows |
| ButtonWidget.Button.IdledownState | src/widgets/button.ts:128-131 | background becomes `#8c9ed1` |
| ButtonWidget.Button.PressedState | src/widgets/button.ts:132-135 | background becomes `#8c9ed1` |
| ButtonWidget.Button.HoverState | src/widgets/button.ts:136-139 | background becomes `#9eb1e8` |
| ButtonWidget.Button.HoverPressedState | src/widgets/button.ts:140-143 | background becomes `#9eb1e8` |
| ButtonWidget.Button.PressedoutState | src/widgets/button.ts:145-148 | background becomes `#b5c8ff` |
| ButtonWidget.Button.MoveState | src/widgets/button.ts:149-151 | always fails with "Method not implemented." |
| ButtonWidget.PressThenRelease | src/widgets/button.ts:108-115 | a press followed by a release clicks exactly once |
| ButtonWidget.PressLeaveRelease | src/widgets/button.ts:108-115 | a release after PressedOut clicks nothing and raises nothing |
| CheckboxWidget.BoxFill | src/widgets/checkbox.ts:82-88 | the box fill is `#8c9ed1` exactly when checked (else `#ffffff`) |
| CheckboxWidget.Checkbox.constructor | src/widgets/checkbox.ts:9-19 | a new checkbox is unchecked, labelled "Checkbox", with no callback |
| CheckboxWidget.Checkbox.Update | src/widgets/checkbox.ts:77-91 | checkmark visible iff checked; box fill `#8c9ed1` when checked, `#ffffff` otherwise |
| CheckboxWidget.Checkbox.SetChecked | src/widgets/checkbox.ts:21-28 | `checked` becomes the value set and the callback is not called |
| CheckboxWidget.Checkbox.SetLabel | src/widgets/checkbox.ts:30-37 | the label becomes the value set and nothing else changes |
| CheckboxWidget.Checkbox.OnChange | src/widgets/checkbox.ts:39-41 | registers the change callback |
| CheckboxWidget.Checkbox.Activate | src/widgets/checkbox.ts:95-99 | negates `checked` and, if a callback is registered, reports the new value once |
| CheckboxWidget.Checkbox.PressReleaseState | src/widgets/checkbox.ts:93-101 | toggles iff the previous state is Pressed, reporting the new value once if registered; otherwise nothing changes |
| CheckboxWidget.Checkbox.KeyupState | src/widgets/checkbox.ts:135-143 | Enter toggles and reports once; any other key, or none, changes nothing |
| CheckboxWidget.Checkbox.Restyle | src/widgets/checkbox.ts:103-131 | a hook's own fill is overwritten by `update`: the fill left drawn depends only on `checked` |
| CheckboxWidget.Checkbox.IdleupState | src/widgets/checkbox.ts:103-106 | drawn fill follows `checked` |
| CheckboxWidget.Checkbox.IdledownState | src/widgets/checkbox.ts:108-111 | drawn fill follows `checked` (the `#f0f0f0` is overwritten) |
| CheckboxWidget.Checkbox.PressedState | src/widgets/checkbox.ts:113-116 | drawn fill follows `checked` (the `#e0e0e0` is overwritten) |
| CheckboxWidget.Checkbox.HoverState | src/widgets/checkbox.ts:118-121 | drawn fill follows `checked` (the `#f9f9f9` is overwritten) |
| CheckboxWidget.Checkbox.HoverPressedState | src/widgets/checkbox.ts:123-126 | drawn fill follows `checked` (the `#e0e0e0` is overwritten) |
| CheckboxWidget.Checkbox.PressedoutState | src/widgets/checkbox.ts:128-131 | drawn fill follows `checked` |
| CheckboxWidget.ActivateTwice | src/widgets/checkbox.ts:93-143 | two activations restore `checked` and report both flips in order |
| CheckboxWidget.EnterChecksNewCheckbox | src/widgets/checkbox.ts:135-143 | Enter on a new checkbox checks it and reports `true` exactly once |
| RadioWidget.RadioButton.constructor | src/widgets/radio.ts:13-21 | a new radio button is unchecked, has no callback, and keeps the index given, circle fill `#fff` |
| RadioWidget.RadioButton.Update | src/widgets/radio.ts:67-80 | the inner dot is visible iff checked |
| RadioWidget.RadioButton.SetChecked | src/widgets/radio.ts:27-30 | `checked` becomes the value set; nothing else changes |
| RadioWidget.RadioButton.SetLabel | src/widgets/radio.ts:32-35 | the label becomes the value set; nothing else changes |
| RadioWidget.RadioButton.OnClick | src/widgets/radio.ts:41-43 | registers the click callback |
| RadioWidget.RadioButton.Move | src/widgets/radiobuttongroup.ts:17 | places the button at the given point |
| RadioWidget.RadioButton.PressReleaseState | src/widgets/radio.ts:82-88 | the callback fires iff the previous state is Pressed, the button is unchecked and a callback is registered; the flag is untouched |
| RadioWidget.RadioButton.KeyupState | src/widgets/radio.ts:117-123 | the callback fires iff the key is Enter, the button is unchecked and a callback is registered; the flag is untouched |
| RadioWidget.RadioButton.IdleupState | src/widgets/radio.ts:90-93 | only the circle fill changes, to `#fff`; the dot still follows `checked` |
| RadioWidget.RadioButton.IdledownState | src/widgets/radio.ts:95-98 | only the circle fill changes, to `#fff` |
| RadioWidget.RadioButton.PressedState | src/widgets/radio.ts:99-102 | only the circle fill changes, to `#fff` |
| RadioWidget.RadioButton.HoverState | src/widgets/radio.ts:103-106 | only the circle fill changes, to `#f9f9f9` |
| RadioWidget.RadioButton.HoverPressedState | src/widgets/radio.ts:107-110 | only the circle fill changes, to `#fff` |
| RadioWidget.RadioButton.PressedoutState | src/widgets/radio.ts:112-115 | only the circle fill changes, to `#fff` |
| RadioGroupWidget.Selection | src/widgets/radiobuttongroup.ts:25 | button `j` is checked iff `j == index` |
| RadioGroupWidget.SelectionCount | src/widgets/radiobuttongroup.ts:25-26 | a selection checks exactly one button when the index is in range and none otherwise |
| RadioGroupWidget.SelectionInjective | src/widgets/radiobuttongroup.ts:24-26 | two in-range selections give the same flags only for the same index |
| RadioGroupWidget.RadioButtonGroup.CheckedFlags | src/widgets/radiobuttongroup.ts:25 | flag `j` is button `j`'s `checked` |
| RadioGroupWidget.RadioButtonGroup.constructor | src/widgets/radiobuttongroup.ts:5-21 | one fresh button per label, in order; button `j` has index `j`, that label, position `(x, y + 35 j)`, is wired to the group; `selectedIndex` is -1 |
| RadioGroupWidget.RadioButtonGroup.Select | src/widgets/radiobuttongroup.ts:23-29 | a new index: button `j` checked iff `j == index` and nothing else about any button changes, `selectedIndex == index`, one report of `index`; the current index: no button and no report changes; afterwards exactly one button is checked iff the index is in range |
| RadioGroupWidget.RadioButtonGroup.SelectedIndex | src/widgets/radiobuttongroup.ts:31-33 | the result is in range iff exactly one button is checked, and button `j` is checked iff `j` is the result |
| RadioGroupWidget.RadioButtonGroup.PressReleaseButton | src/widgets/radiobuttongroup.ts:18 | a completed press on unselected button `i` counts one click on it, checks only it, selects `i` and reports it once, with every other field of every button kept; otherwise no button, selection or report changes |
| RadioGroupWidget.RadioButtonGroup.KeyupButton | src/widgets/radiobuttongroup.ts:18 | Enter on unselected button `i` counts one click on it, checks only it, selects `i` and reports it once, with every other field of every button kept; otherwise no button, selection or report changes |
| ProgressBarWidget.ClampPercent | src/widgets/progressbar.ts:42 | the stored value lies in [0, 100], equals the input inside it, and is 0 below and 100 above |
| ProgressBarWidget.ClampPercentExamples | src/widgets/progressbar.ts:42 | -10 stores 0 and 500 stores 100 |
| ProgressBarWidget.FillWidth | src/widgets/progressbar.ts:77 | the fill is between 0 and the bar width, 0 at value 0 and the full width at 100 |
| ProgressBarWidget.FillShareBounds | src/widgets/progressbar.ts:77 | a share in [0, 1] of a width lies between 0 and that width |
| ProgressBarWidget.FillWidthMonotone | src/widgets/progressbar.ts:77 | a larger value never gives a narrower fill |
| ProgressBarWidget.ProgressBar.constructor | src/widgets/progressbar.ts:8-22 | value 0, width 200, height 20, step 10, state IdleUp, no callback calls |
| ProgressBarWidget.ProgressBar.Update | src/widgets/progressbar.ts:76-81 | fill width `value/100 * barWidth`, within the bar when the width is non-negative |
| ProgressBarWidget.ProgressBar.SetValue | src/widgets/progressbar.ts:41-45 | stores the clamped value and reports it once; nothing else changes |
| ProgressBarWidget.ProgressBar.Increment | src/widgets/progressbar.ts:51-53 | the value becomes `clamp(old + amount)`, with the step as the default amount, reported once |
| ProgressBarWidget.ProgressBar.SetProgressWidth | src/widgets/progressbar.ts:24-27 | only the bar width changes; the drawing follows |
| ProgressBarWidget.ProgressBar.IncrementValue | src/widgets/progressbar.ts:37-39 | reads back the step that `increment` adds by default |
| ProgressBarWidget.ProgressBar.ProgressWidth | src/widgets/progressbar.ts:29-31 | the fill drawn lies within the returned width |
| ProgressBarWidget.ProgressBar.SetIncrementValue | src/widgets/progressbar.ts:33-35 | only the step changes |
| ProgressBarWidget.ProgressBar.TriggerStateChange | src/widgets/progressbar.ts:83-85 | reports the current state once |
| ProgressBarWidget.ProgressBar.IdleupState | src/widgets/progressbar.ts:87-89 | reports the current state once, nothing else changes |
| ProgressBarWidget.ProgressBar.IdledownState | src/widgets/progressbar.ts:90-92 | reports the current state once |
| ProgressBarWidget.ProgressBar.PressedState | src/widgets/progressbar.ts:93-95 | reports the current state once |
| ProgressBarWidget.ProgressBar.HoverState | src/widgets/progressbar.ts:96-98 | reports the current state once |
| ProgressBarWidget.ProgressBar.HoverPressedState | src/widgets/progressbar.ts:99-101 | reports the current state once |
| ProgressBarWidget.ProgressBar.PressedoutState | src/widgets/progressbar.ts:102-104 | reports the current state once |
| ProgressBarWidget.ProgressBar.MoveState | src/widgets/progressbar.ts:106 | changes nothing |
| ProgressBarWidget.ProgressBar.KeyupState | src/widgets/progressbar.ts:107 | changes nothing |
| ProgressBarWidget.ProgressBar.PressReleaseState | src/widgets/progressbar.ts:108 | changes nothing |
| ProgressBarWidget.SetterExamples | src/widgets/progressbar.ts:41-45 | writing -10 then 500 reads back 0 then 100 |
| StarRatingWidget.Highlight | src/widgets/starrating.ts:83 | the number of stars `update` fills: the hover index while a star is hovered, the rating otherwise |
| StarRatingWidget.Filled | src/widgets/starrating.ts:83-86 | one fill flag per star |
| StarRatingWidget.FilledIsPrefix | src/widgets/starrating.ts:83-86 | if a star is filled, so is every star before it |
| StarRatingWidget.FilledCount | src/widgets/starrating.ts:83-86 | with a whole-number highlight `k`, exactly `min(k, n)` stars are filled |
| StarRatingWidget.StarFills | src/widgets/starrating.ts:84-86 | the fill loop fills star `i` iff `i < highlight` |
| StarRatingWidget.StarRating.constructor | src/widgets/starrating.ts:7-19 | rating 0, no hover (-1), `maxStars` stars at `35 i`, default 5 |
| StarRatingWidget.StarRating.Render | src/widgets/starrating.ts:34-46 | exactly `maxStars` stars, star `i` at x = `35 i`, then drawn |
| StarRatingWidget.StarRating.Update | src/widgets/starrating.ts:82-88 | star `i` filled iff `i < highlight`, the highlight being the hover index while hovering and the rating otherwise |
| StarRatingWidget.StarRating.SetRating | src/widgets/starrating.ts:25-28 | stores `max(0, min(maxStars, v))` |
| StarRatingWidget.StarRating.OnChange | src/widgets/starrating.ts:30-32 | registers the change callback |
| StarRatingWidget.StarRating.MouseOver | src/widgets/starrating.ts:68-71 | hover index `i + 1`; stars `0..i` filled, the rest not, whatever the rating |
| StarRatingWidget.StarRating.MouseOut | src/widgets/starrating.ts:72-75 | hover index -1; star `j` filled iff `j < rating` |
| StarRatingWidget.StarRating.Click | src/widgets/starrating.ts:76-79 | rating `i + 1`, reported once when a callback is registered |
| StarRatingWidget.StarRating.EnterState | src/widgets/starrating.ts:90-98 | every state hook changes nothing |
| StarRatingWidget.ClickThenLeave | src/widgets/starrating.ts:72-79 | after clicking star `i` and leaving, exactly `i + 1` stars are filled |
| ScrollBarWidget.ThumbHeightFor | src/widgets/scrollbar.ts:28 | the thumb is one third of the track height |
| ScrollBarWidget.TrackTarget | src/widgets/scrollbar.ts:131 | the requested offset lies in `[0, height - thumbHeight]` and centres the thumb on the click when that fits |
| ScrollBarWidget.TrackClickPlacement | src/widgets/scrollbar.ts:133-136 | corrected placement: the thumb sits `target` below the track's top; Downwards iff the thumb went down |
| ScrollBarWidget.AsWrittenAgreesAtOrigin | src/widgets/scrollbar.ts:133-136 | for a bar at y = 0, the placement as written and the corrected one agree |
| ScrollBarWidget.TrackClickAsWritten | src/widgets/scrollbar.ts:133-136 | the placement as written: the thumb ends `target` below y = 20, whatever the bar's own y; its direction is Downwards iff that y is below the old one |
| ScrollBarWidget.AsWrittenLeavesTrack | src/widgets/scrollbar.ts:136 | as written, a bar at y = 100 puts the thumb above its track on a click at the track's top |
| ScrollBarWidget.ScrollBar.ThumbInsideTrack | src/widgets/scrollbar.ts:168-175 | with a non-negative height, the whole thumb lies within the track |
| ScrollBarWidget.ScrollBar.constructor | src/widgets/scrollbar.ts:21-34 | height as given, thumb a third of it at the top of the track, not pressed, `lastY` 0, no direction, no handlers |
| ScrollBarWidget.ScrollBar.SetScrollBarHeight | src/widgets/scrollbar.ts:36-45 | new height, thumb a third of it, thumb back at the top of the track where the bar stands |
| ScrollBarWidget.ScrollBar.ThumbPosition | src/widgets/scrollbar.ts:51-53 | the thumb's y less the up button's height |
| ScrollBarWidget.ScrollBar.ThumbPositionInTrack | src/widgets/scrollbar.ts:51-53 | the reported position lies in `[groupY, groupY + height - thumbHeight]`, so for a bar at y = 0 it is the thumb's offset in the track |
| ScrollBarWidget.ScrollBar.ScrollBarHeight | src/widgets/scrollbar.ts:47-49 | the track height, three times the thumb's height |
| ScrollBarWidget.ScrollBar.GetDirection | src/widgets/scrollbar.ts:75-77 | the direction of the last thumb move, `NoDirection` before any |
| ScrollBarWidget.ScrollBar.ReportThumbMove | src/widgets/scrollbar.ts:137 | the thumb-moved handler, if registered, gets the thumb position and the direction once; otherwise nothing is logged |
| ScrollBarWidget.ScrollBar.OnThumbMove | src/widgets/scrollbar.ts:55-57 | registers the thumb-moved handler |
| ScrollBarWidget.ScrollBar.OnMove | src/widgets/scrollbar.ts:59-61 | registers the move handler |
| ScrollBarWidget.ScrollBar.OnStateChange | src/widgets/scrollbar.ts:63-65 | registers the state-change handler |
| ScrollBarWidget.ScrollBar.Move | src/widgets/scrollbar.ts:67-69 | moves the bar; the thumb keeps its offset in the track |
| ScrollBarWidget.ScrollBar.ScrollTo | src/widgets/scrollbar.ts:168-178 | thumb y is `max(min, min(t, max))` with `min = groupY + 20` and `max = min + height - thumbHeight`; direction as given; one report if registered |
| ScrollBarWidget.ScrollBar.UpButtonClick | src/widgets/scrollbar.ts:101-104 | requests thumb y − 10, Upwards; the thumb never goes down; the thumb-moved handler, if registered, gets the new position and Upwards once |
| ScrollBarWidget.ScrollBar.DownButtonClick | src/widgets/scrollbar.ts:106-109 | requests thumb y + 10, Downwards; the thumb never goes up; the thumb-moved handler, if registered, gets the new position and Downwards once |
| ScrollBarWidget.ScrollBar.ThumbMouseDown | src/widgets/scrollbar.ts:113-117 | `mouseDown` true, `lastY` the pointer's y, one state report if registered |
| ScrollBarWidget.ScrollBar.HandleDrag | src/widgets/scrollbar.ts:142-159 | nothing without a drag; otherwise thumb clamped into the track at the pointer, Downwards iff the pointer went down, `lastY` updated, reports |
| ScrollBarWidget.ScrollBar.HandleRelease | src/widgets/scrollbar.ts:161-166 | reports only when a drag was in progress; `mouseDown` is false afterwards |
| ScrollBarWidget.ScrollBar.HandleTrackClick | src/widgets/scrollbar.ts:123-140 | thumb offset in the track is the clamped target; Downwards iff the thumb went down; all three handlers told once |
| ScrollBarWidget.ScrollBar.EnterState | src/widgets/scrollbar.ts:180-189 | every state hook changes nothing |
| ScrollBarWidget.Drag | src/widgets/scrollbar.ts:113-166 | press, move, release: thumb clamped at the pointer, direction by the pointer's travel, drag over |

## Left out

- The shared state machine is in `src/core/ui.ts`, which is not part of this model. That covers the dispatcher from pointer and keyboard signals to states, `setState`, the `Widget` base class (`move` for most widgets, `raise`, `registerEvent`, `getState`, `width`, `height`, `role`, `tabindex`) and `EventArgs`. `previousState` and the progress bar's `currentState` are fields the caller sets. A raised EventArgs is only counted.
- The press test `previousState instanceof PressedWidgetState` is modelled as "the previous state is `Pressed`". Whether `HoverPressed` also passes depends on the class hierarchy in `src/core/ui.ts`.
- The constructors' `setState(new IdleUpWidgetState())` is taken to run no hook. The checkbox and radio constructors call it before `render` creates the shapes their hooks use (`src/widgets/checkbox.ts:17`, `src/widgets/radio.ts:19`). So the button starts with the base class's default background colour, given as `initialBackcolor`.
- SVG rendering is not modelled: shapes, strokes, radii, filters, fonts, `show`/`hide` and the drawn label text styling. Only the drawn attributes named in each `Valid()` are kept. The checkbox's white checkmark stroke is left out too.
- Text measurement (`bbox`) is the `measure` parameter.
- The first text placement in `positionText` (`_text_y` and the `+4` offset) is overwritten by the centred placement in the same call and is not modelled.
- `calculateStarPoints` and `createStar` compute star shapes with trigonometry and are not modelled.
- The screen-to-SVG transform in `handleTrackClick` is not modelled; the y within the track is an input.
- `setupEvents` adds window-level `mousemove` and `mouseup` listeners, and adds them again on every height change. The model delivers each window event once to `HandleDrag` and `HandleRelease`. So it does not capture what happens after height changes. After `k` changes, each mousemove runs `handleDrag` `k + 1` times. Every run after the first sees `clientY == lastY`, so a downward drag is reported `k + 1` times and ends with direction Upwards. Each mouseup runs `handleRelease` `k + 1` times, and every run after the first does nothing.
- `getScrollPosition` only formats the thumb's coordinates as a string and is not modelled.
- The scroll bar's redraw on a height change is reduced to where it leaves the thumb. The recreated shapes are not modelled.
- `ScrollBar.ThumbPosition` is the thumb's y less 20, as written. For a bar moved away from y = 0 it includes the bar's own offset.
- Numbers are exact reals. NaN, the infinities and floating-point rounding are not modelled.
- `StarRating.maxStars` is a `nat`. A fractional or negative star count is not modelled.
- Which function a callback is does not matter to the model: a callback is a flag plus a log of its calls. The progress bar's `onIncrement` and `onStateChange` only swap one handler for another (the default is a no-op), and every call is logged, so those two are not modelled.
- `src/index.ts` is host-page glue and is not modelled.

## Findings

| source | as written | input that shows it | evidently intended | confidence | as-written member | corrected member |
|---|---|---|---|---|---|---|
| src/widgets/scrollbar.ts:133-136 | a track click sets the thumb's y to `buttonHeight + target` and takes the previous position as `thumb.y - buttonHeight`, leaving out the bar's own y. `scrollTo` and `handleDrag` both include it (`groupY + buttonHeight`). | bar moved to y = 100, track height 300, click at the track's top: the thumb goes to y = 20, above the track, which starts at 120 | thumb y = `groupY + buttonHeight + target`, and the direction compares the target with the thumb's offset from the track's top | medium; not executed | ScrollBarWidget.TrackClickAsWritten | ScrollBarWidget.ScrollBar.HandleTrackClick |
