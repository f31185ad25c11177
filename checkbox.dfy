/**
 * The checkbox: a box with a checkmark and a label. A completed press or the
 * Enter key flips the checked flag, redraws, and reports the new flag to the
 * change callback.
 */
module CheckboxWidget {
  import opened UiTypes

  const DefaultLabel: string := "Checkbox"

  /** Box fills that `update` chooses. */
  const CheckedFill: string := "#8c9ed1"
  const UncheckedFill: string := "#ffffff"

  /** Box fills the state hooks assign before they call `update`. */
  const IdleDownFill: string := "#f0f0f0"
  const PressedFill: string := "#e0e0e0"
  const HoverFill: string := "#f9f9f9"

  /** The fill `update` gives the box. */
  function BoxFill(checked: bool): (fill: string)
    ensures checked <==> fill == CheckedFill
  {
    if checked then CheckedFill else UncheckedFill
  }

  class Checkbox {
    var caption: string
    var checked: bool
    /** Set by the state machine before each hook runs. */
    var previousState: Option<WidgetState>
    var hasCallback: bool
    /** The arguments of every call of the change callback, oldest first. */
    var changes: seq<bool>

    var text: string
    var checkmarkVisible: bool
    var boxFill: string

    /** What is drawn agrees with the fields, as `update` leaves it. */
    ghost predicate Valid()
      reads this
    {
      text == caption && checkmarkVisible == checked && boxFill == BoxFill(checked)
    }

    /** A new checkbox is unchecked, labelled "Checkbox", with no callback. */
    constructor ()
      ensures Valid()
      ensures caption == DefaultLabel && !checked && previousState == None
      ensures !hasCallback && changes == []
    {
      caption := DefaultLabel;
      checked := false;
      previousState := None;
      hasCallback := false;
      changes := [];
      new;
      Update();
    }

    /** Redraws: label text, checkmark shown iff checked, box fill by the flag. */
    method Update()
      modifies this`text, this`checkmarkVisible, this`boxFill
      ensures Valid()
      ensures checkmarkVisible == checked
      ensures boxFill == (if checked then CheckedFill else UncheckedFill)
    {
      text := caption;
      if checked {
        checkmarkVisible := true;
        boxFill := CheckedFill;
      } else {
        checkmarkVisible := false;
        boxFill := UncheckedFill;
      }
    }

    /** The `checked` setter redraws but never calls the callback. */
    method SetChecked(value: bool)
      modifies this
      ensures Valid() && checked == value
      ensures caption == old(caption) && previousState == old(previousState)
      ensures hasCallback == old(hasCallback) && changes == old(changes)
    {
      checked := value;
      Update();
    }

    method SetLabel(value: string)
      modifies this
      ensures Valid() && caption == value
      ensures checked == old(checked) && previousState == old(previousState)
      ensures hasCallback == old(hasCallback) && changes == old(changes)
    {
      caption := value;
      Update();
    }

    method OnChange()
      requires Valid()
      modifies this`hasCallback
      ensures Valid() && hasCallback
    {
      hasCallback := true;
    }

    /** Flips the flag, redraws, then reports the new flag if a callback is registered. */
    method Activate()
      modifies this
      ensures Valid() && checked == !old(checked)
      ensures changes == if hasCallback then old(changes) + [checked] else old(changes)
      ensures caption == old(caption) && previousState == old(previousState)
      ensures hasCallback == old(hasCallback)
    {
      checked := !checked;
      Update();
      if hasCallback {
        changes := changes + [checked];
      }
    }

    /** A release right after Pressed toggles; any other release changes nothing. */
    method PressReleaseState()
      requires Valid()
      modifies this
      ensures Valid()
      ensures checked == (if WasPressed(previousState) then !old(checked) else old(checked))
      ensures changes == if WasPressed(previousState) && hasCallback then old(changes) + [checked] else old(changes)
      ensures caption == old(caption) && previousState == old(previousState)
      ensures hasCallback == old(hasCallback)
    {
      if WasPressed(previousState) {
        Activate();
      }
    }

    /** Enter toggles; any other key, or no key event, changes nothing. */
    method KeyupState(key: Option<string>)
      requires Valid()
      modifies this
      ensures Valid()
      ensures checked == (if IsEnter(key) then !old(checked) else old(checked))
      ensures changes == if IsEnter(key) && hasCallback then old(changes) + [checked] else old(changes)
      ensures caption == old(caption) && previousState == old(previousState)
      ensures hasCallback == old(hasCallback)
    {
      if IsEnter(key) {
        Activate();
      }
    }

    /**
     * Each fill hook assigns its own colour and then calls `update`, which
     * assigns the fill again from the checked flag, so the hook's colour is
     * never what remains drawn.
     */
    method Restyle(hookFill: string)
      requires Valid()
      modifies this`text, this`checkmarkVisible, this`boxFill
      ensures Valid() && boxFill == BoxFill(checked)
    {
      boxFill := hookFill;
      Update();
    }

    method IdleupState()
      requires Valid()
      modifies this`text, this`checkmarkVisible, this`boxFill
      ensures Valid() && boxFill == BoxFill(checked)
    {
      Restyle(UncheckedFill);
    }

    method IdledownState()
      requires Valid()
      modifies this`text, this`checkmarkVisible, this`boxFill
      ensures Valid() && boxFill == BoxFill(checked)
    {
      Restyle(IdleDownFill);
    }

    method PressedState()
      requires Valid()
      modifies this`text, this`checkmarkVisible, this`boxFill
      ensures Valid() && boxFill == BoxFill(checked)
    {
      Restyle(PressedFill);
    }

    method HoverState()
      requires Valid()
      modifies this`text, this`checkmarkVisible, this`boxFill
      ensures Valid() && boxFill == BoxFill(checked)
    {
      Restyle(HoverFill);
    }

    method HoverPressedState()
      requires Valid()
      modifies this`text, this`checkmarkVisible, this`boxFill
      ensures Valid() && boxFill == BoxFill(checked)
    {
      Restyle(PressedFill);
    }

    method PressedoutState()
      requires Valid()
      modifies this`text, this`checkmarkVisible, this`boxFill
      ensures Valid() && boxFill == BoxFill(checked)
    {
      Restyle(UncheckedFill);
    }
  }

  /** Two activations in a row restore the flag and report both flips. */
  method ActivateTwice(c: Checkbox)
    requires c.Valid()
    modifies c
    ensures c.Valid() && c.checked == old(c.checked)
    ensures c.changes == if c.hasCallback then old(c.changes) + [!old(c.checked), old(c.checked)] else old(c.changes)
  {
    c.KeyupState(Some("Enter"));
    c.previousState := Some(Pressed);
    c.PressReleaseState();
  }

  /** Enter on a new checkbox with a callback checks it and reports `true` once. */
  method EnterChecksNewCheckbox() returns (c: Checkbox)
    ensures c.checked && c.changes == [true]
  {
    c := new Checkbox();
    c.OnChange();
    c.KeyupState(Some("Enter"));
  }
}
