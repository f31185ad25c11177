/**
 * Types shared by every widget: the nine interaction-state tags of the
 * toolkit's state machine, optional values (TypeScript's `undefined`),
 * the outcome of a hook that may throw, and the clamp that the widgets
 * build from JavaScript's `Math.max` and `Math.min`.
 */
module UiTypes {

  /** The interaction states; a widget's `previousState` holds one of these. */
  datatype WidgetState =
    | IdleUp
    | IdleDown
    | Hover
    | Pressed
    | HoverPressed
    | PressedOut
    | Move
    | KeyUp
    | PressRelease

  /** An optional value: `None` stands for TypeScript's `undefined`. */
  datatype Option<+T> = None | Some(value: T)

  /** The result of a hook that may throw: `Fail` carries the error message. */
  datatype Outcome = Pass | Fail(message: string)

  /**
   * The activation test of the press-release hooks (`previousState instanceof
   * PressedWidgetState`): it holds only when the state immediately before the
   * release was Pressed; before the first transition there is no previous state.
   */
  predicate WasPressed(previous: Option<WidgetState>)
  {
    previous == Some(Pressed)
  }

  /** The key test of the keyup hooks (`keyEvent?.key === "Enter"`). */
  predicate IsEnter(key: Option<string>)
  {
    key == Some("Enter")
  }

  function Min(a: real, b: real): (r: real)
    ensures r <= a && r <= b && (r == a || r == b)
  {
    if a <= b then a else b
  }

  function Max(a: real, b: real): (r: real)
    ensures r >= a && r >= b && (r == a || r == b)
  {
    if a >= b then a else b
  }

  /**
   * `Math.max(lo, Math.min(v, hi))`: the value `v` pulled into the range from
   * `lo` to `hi`. When the range is empty (`hi < lo`) the lower end wins.
   */
  function Clamp(lo: real, hi: real, v: real): (r: real)
    ensures lo <= r
    ensures lo <= hi ==> r <= hi
    ensures lo <= v <= hi ==> r == v
    ensures v < lo ==> r == lo
    ensures lo <= hi && hi < v ==> r == hi
    ensures hi < lo ==> r == lo
  {
    Max(lo, Min(v, hi))
  }

  /** Clamping twice changes nothing: a clamped value is a fixed point. */
  lemma ClampIdempotent(lo: real, hi: real, v: real)
    ensures Clamp(lo, hi, Clamp(lo, hi, v)) == Clamp(lo, hi, v)
  {
  }

  /** A value is left where it is by the clamp exactly when it lies in the range (or is its lower end). */
  predicate InRange(lo: real, hi: real, v: real)
  {
    Clamp(lo, hi, v) == v
  }

  lemma InRangeMeaning(lo: real, hi: real, v: real)
    requires lo <= hi
    ensures InRange(lo, hi, v) <==> lo <= v <= hi
  {
  }

  /** The number of `true` entries of a sequence of flags. */
  function CountTrue(s: seq<bool>): (n: nat)
    ensures n <= |s|
  {
    if s == [] then 0 else (if s[0] then 1 else 0) + CountTrue(s[1..])
  }

  lemma {:induction false} CountTrueAppend(s: seq<bool>, t: seq<bool>)
    ensures CountTrue(s + t) == CountTrue(s) + CountTrue(t)
  {
    if s == [] {
      assert s + t == t;
    } else {
      assert (s + t)[1..] == s[1..] + t;
      CountTrueAppend(s[1..], t);
    }
  }
}
