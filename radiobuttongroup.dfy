/**
 * A group of radio buttons, one per label, stacked 35 units apart. Clicking
 * (or pressing Enter on) an unchecked button selects it: the group checks
 * exactly that button, records the index and reports it to the change
 * callback. Selecting the index that is already selected does nothing.
 */
module RadioGroupWidget {
  import opened UiTypes
  import opened RadioWidget

  const Spacing: real := 35.0

  /** The checked flags `select(index)` leaves on a group of `n` buttons. */
  function Selection(n: nat, index: int): (flags: seq<bool>)
    ensures |flags| == n
    ensures forall j :: 0 <= j < n ==> (flags[j] <==> j == index)
  {
    seq(n, j => j == index)
  }

  /** A selection checks exactly one button when the index is in range, and none otherwise. */
  lemma {:induction false} SelectionCount(n: nat, index: int)
    ensures CountTrue(Selection(n, index)) == if 0 <= index < n then 1 else 0
  {
    if n > 0 {
      assert Selection(n, index) == Selection(n - 1, index) + [n - 1 == index];
      CountTrueAppend(Selection(n - 1, index), [n - 1 == index]);
      assert CountTrue([n - 1 == index]) == if n - 1 == index then 1 else 0 by {
        assert [n - 1 == index][1..] == [];
      }
      SelectionCount(n - 1, index);
    } else {
      assert Selection(n, index) == [];
    }
  }

  /** A selection of an in-range index equals another selection exactly when both pick that index. */
  lemma SelectionInjective(n: nat, i: int, k: int)
    requires 0 <= i < n
    ensures Selection(n, i) == Selection(n, k) <==> i == k
  {
    if Selection(n, i) == Selection(n, k) {
      assert Selection(n, k)[i];
    }
  }

  class RadioButtonGroup {
    const x: real
    const y: real
    var buttons: seq<RadioButton>
    var selectedIndex: int
    /** The arguments of every call of the change callback, oldest first. */
    var changes: seq<int>

    /** The checked flag of each button, in order. */
    function CheckedFlags(): (flags: seq<bool>)
      reads this, buttons
      ensures |flags| == |buttons|
      ensures forall j :: 0 <= j < |buttons| ==> flags[j] == buttons[j].checked
    {
      seq(|buttons|, j reads this, buttons requires 0 <= j < |buttons| => buttons[j].checked)
    }

    /**
     * The buttons are distinct, each knows its index and is wired to the
     * group, and the checked flags are those of selecting `selectedIndex`.
     */
    ghost predicate Valid()
      reads this, buttons
    {
      (forall j, k :: 0 <= j < k < |buttons| ==> buttons[j] != buttons[k]) &&
      (forall j :: 0 <= j < |buttons| ==>
         buttons[j].Valid() && buttons[j].index == j && buttons[j].hasCallback) &&
      CheckedFlags() == Selection(|buttons|, selectedIndex)
    }

    /**
     * Builds one button per label, in order: button `j` has index `j`, the
     * label `labels[j]`, sits at `(x, y + 35 j)` and is wired to the group.
     * Nothing is selected yet.
     */
    constructor (labels: seq<string>, x: real := 10.0, y: real := 10.0)
      ensures Valid() && this.x == x && this.y == y
      ensures |buttons| == |labels| && selectedIndex == -1 && changes == []
      ensures forall j :: 0 <= j < |labels| ==>
        fresh(buttons[j]) &&
        buttons[j].State() == RadioState(labels[j], false, None, true, 0, x, y + (j as real) * Spacing, PlainFill)
    {
      this.x, this.y := x, y;
      buttons := [];
      selectedIndex := -1;
      changes := [];
      new;
      var i := 0;
      while i < |labels|
        invariant 0 <= i <= |labels| && |buttons| == i
        invariant selectedIndex == -1 && changes == []
        invariant Valid()
        invariant forall j :: 0 <= j < i ==>
          fresh(buttons[j]) &&
          buttons[j].State() == RadioState(labels[j], false, None, true, 0, x, y + (j as real) * Spacing, PlainFill)
      {
        var btn := new RadioButton(labels[i], i);
        btn.Move(x, y + (i as real) * Spacing);
        btn.OnClick();
        buttons := buttons + [btn];
        i := i + 1;
      }
    }

    /**
     * Selecting a new index checks exactly the button at that index (none at
     * all when it is out of range), records the index and reports it once.
     * Selecting the current index changes nothing.
     */
    method Select(index: int)
      requires Valid()
      modifies this, buttons
      ensures Valid() && buttons == old(buttons) && selectedIndex == index
      ensures old(selectedIndex) == index ==>
        changes == old(changes) &&
        forall j :: 0 <= j < |buttons| ==> buttons[j].State() == old(buttons[j].State())
      ensures old(selectedIndex) != index ==>
        changes == old(changes) + [index] &&
        forall j :: 0 <= j < |buttons| ==>
          buttons[j].State() == old(buttons[j].State()).(checked := j == index)
      ensures CountTrue(CheckedFlags()) == if 0 <= index < |buttons| then 1 else 0
    {
      if selectedIndex != index {
        var i := 0;
        while i < |buttons|
          invariant 0 <= i <= |buttons| && buttons == old(buttons)
          invariant selectedIndex == old(selectedIndex) && changes == old(changes)
          invariant forall j :: 0 <= j < |buttons| ==>
            buttons[j].Valid() && buttons[j].index == j && buttons[j].hasCallback
          invariant forall j :: 0 <= j < i ==>
            buttons[j].State() == old(buttons[j].State()).(checked := j == index)
          invariant forall j :: i <= j < |buttons| ==>
            buttons[j].State() == old(buttons[j].State())
        {
          buttons[i].SetChecked(i == index);
          i := i + 1;
        }
        selectedIndex := index;
        changes := changes + [index];
      }
      SelectionCount(|buttons|, index);
    }

    /** The index last selected, or -1 before any selection. */
    function SelectedIndex(): (r: int)
      reads this, buttons
      requires Valid()
      ensures 0 <= r < |buttons| <==> CountTrue(CheckedFlags()) == 1
      ensures forall j :: 0 <= j < |buttons| ==> (buttons[j].checked <==> j == r)
    {
      SelectionCount(|buttons|, selectedIndex);
      selectedIndex
    }

    /**
     * A completed press on button `i`: its callback, `select(i)`, runs only
     * when the button was unchecked, and then makes `i` the selection. Apart
     * from that call and the flags it sets, no button changes.
     */
    method PressReleaseButton(i: int)
      requires Valid() && 0 <= i < |buttons|
      modifies this, buttons
      ensures Valid() && buttons == old(buttons)
      ensures WasPressed(old(buttons[i].previousState)) && old(selectedIndex) != i ==>
        selectedIndex == i && changes == old(changes) + [i] &&
        forall j :: 0 <= j < |buttons| ==>
          buttons[j].State() == old(buttons[j].State()).(checked := j == i, clicks := if j == i then old(buttons[j].clicks) + 1 else old(buttons[j].clicks))
      ensures !WasPressed(old(buttons[i].previousState)) || old(selectedIndex) == i ==>
        selectedIndex == old(selectedIndex) && changes == old(changes) &&
        forall j :: 0 <= j < |buttons| ==> buttons[j].State() == old(buttons[j].State())
    {
      assert buttons[i].checked <==> selectedIndex == i by {
        assert CheckedFlags()[i] == buttons[i].checked;
      }
      var fired := buttons[i].PressReleaseState();
      if fired {
        Select(i);
      }
    }

    /**
     * Enter on button `i`: selects it when it was unchecked, and otherwise
     * changes no selection; apart from that, no button changes.
     */
    method KeyupButton(i: int, key: Option<string>)
      requires Valid() && 0 <= i < |buttons|
      modifies this, buttons
      ensures Valid() && buttons == old(buttons)
      ensures IsEnter(key) && old(selectedIndex) != i ==>
        selectedIndex == i && changes == old(changes) + [i] &&
        forall j :: 0 <= j < |buttons| ==>
          buttons[j].State() == old(buttons[j].State()).(checked := j == i, clicks := if j == i then old(buttons[j].clicks) + 1 else old(buttons[j].clicks))
      ensures !IsEnter(key) || old(selectedIndex) == i ==>
        selectedIndex == old(selectedIndex) && changes == old(changes) &&
        forall j :: 0 <= j < |buttons| ==> buttons[j].State() == old(buttons[j].State())
    {
      assert buttons[i].checked <==> selectedIndex == i by {
        assert CheckedFlags()[i] == buttons[i].checked;
      }
      var fired := buttons[i].KeyupState(key);
      if fired {
        Select(i);
      }
    }
  }
}
