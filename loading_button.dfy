/** The loading button (loading_widget.py): a push button that hides its
    label and shows a 16x16 spinner turning in 15-degree steps while
    loading. Painting, the SVG file and the Qt timer itself are not
    modelled; what is modelled is the state the methods keep: the stored
    `text`, the label the button shows, `is_loading`, `rotation_angle`,
    the spinner's visibility and position, the timer's running flag and
    the enabled flag. */
module Spinner {

  /** Side of the square spinner widget, `setFixedSize(16, 16)`. */
  const SpinnerSize: int := 16

  /** The angle step of one timer tick. */
  const Step: int := 15

  /** The timer interval while loading, in milliseconds. */
  const TickMillis: int := 50

  /** The button's state as one value. `text` is the Python attribute the
      class stores; `shown` is the label the underlying Qt button shows. */
  datatype ButtonState = ButtonState(
    text: string,
    shown: string,
    isLoading: bool,
    rotationAngle: int,
    spinnerVisible: bool,
    timerRunning: bool,
    enabled: bool)

  /** What the methods keep true: the angle is a proper angle, and a button
      that is not loading shows the text it stores. */
  predicate Consistent(s: ButtonState) {
    0 <= s.rotationAngle < 360 && (!s.isLoading ==> s.shown == s.text)
  }

  /** `rotate()`: one step forward, modulo a full turn. */
  function Rotated(s: ButtonState): (r: ButtonState)
    ensures 0 <= r.rotationAngle < 360
    ensures r == s.(rotationAngle := r.rotationAngle)
  {
    s.(rotationAngle := (s.rotationAngle + Step) % 360)
  }

  /** `setText(text)`: always stored, shown only when not loading. */
  function WithText(s: ButtonState, text: string): (r: ButtonState)
    ensures r.text == text
    ensures r.shown == (if s.isLoading then s.shown else text)
    ensures Consistent(s) ==> Consistent(r)
  {
    if s.isLoading then s.(text := text) else s.(text := text, shown := text)
  }

  /** `setLoading(loading)` as written: loading calls `setText("")` after
      `is_loading` is set, unloading calls `setText(self.text)`. */
  function WithLoading(s: ButtonState, loading: bool): (r: ButtonState)
    ensures r.isLoading == loading && r.spinnerVisible == loading && r.timerRunning == loading
    ensures r.enabled == !loading
    ensures loading ==> r.shown == s.shown && r.text == "" && r.rotationAngle == s.rotationAngle
    ensures !loading ==> r.shown == s.text && r.text == s.text && r.rotationAngle == 0
    ensures Consistent(s) ==> Consistent(r)
  {
    if loading then
      WithText(s.(isLoading := true), "").(spinnerVisible := true, timerRunning := true, enabled := false)
    else
      WithText(s.(isLoading := false), s.text).(timerRunning := false, spinnerVisible := false,
                                                rotationAngle := 0, enabled := true)
  }

  /** `n` timer ticks from angle `a`. */
  function Ticks(s: ButtonState, n: nat): ButtonState {
    if n == 0 then s else Rotated(Ticks(s, n - 1))
  }

  /** After `n` ticks the angle is the start angle plus `15 n`, modulo 360. */
  lemma {:induction false} TicksAngle(s: ButtonState, n: nat)
    requires 0 <= s.rotationAngle < 360
    ensures Ticks(s, n).rotationAngle == (s.rotationAngle + Step * n) % 360
    ensures Ticks(s, n) == s.(rotationAngle := Ticks(s, n).rotationAngle)
  {
    if n > 0 {
      TicksAngle(s, n - 1);
      StepMod(s.rotationAngle + Step * (n - 1));
    }
  }

  lemma StepMod(a: int)
    ensures (a % 360 + Step) % 360 == (a + Step) % 360
  {
  }

  /** Twenty-four ticks, 1.2 s at 50 ms each, are one full turn. */
  lemma FullTurn(s: ButtonState)
    requires 0 <= s.rotationAngle < 360
    ensures Ticks(s, 24) == s
  {
    TicksAngle(s, 24);
    assert (s.rotationAngle + Step * 24) % 360 == s.rotationAngle;
  }

  /** A loading cycle as written loses the shown: after `setLoading(True)`
      then `setLoading(False)` the button shows "" whatever it showed. */
  lemma LoadingCycleLosesLabel(s: ButtonState)
    ensures WithLoading(WithLoading(s, true), false).shown == ""
    ensures WithLoading(WithLoading(s, true), false).text == ""
  {
  }

  /** The shown comes back only if it is set again while loading. */
  lemma TextSetWhileLoadingIsShown(s: ButtonState, text: string)
    ensures WithLoading(WithText(WithLoading(s, true), text), false).shown == text
  {
  }

  /** `setLoading` as evidently intended: the shown is blanked without
      overwriting the stored text, so unloading shows it again. */
  function WithLoadingIntended(s: ButtonState, loading: bool): (r: ButtonState)
    ensures r.isLoading == loading && r.spinnerVisible == loading && r.timerRunning == loading
    ensures r.enabled == !loading && r.text == s.text
    ensures loading ==> r.shown == "" && r.rotationAngle == s.rotationAngle
    ensures !loading ==> r.shown == s.text && r.rotationAngle == 0
  {
    if loading then
      s.(isLoading := true, shown := "", spinnerVisible := true, timerRunning := true, enabled := false)
    else
      s.(isLoading := false, shown := s.text, timerRunning := false, spinnerVisible := false,
         rotationAngle := 0, enabled := true)
  }

  /** With the intended definition a loading cycle restores what a
      consistent button showed, and keeps the button consistent. */
  lemma LoadingCycleRestoresLabel(s: ButtonState)
    requires Consistent(s) && !s.isLoading
    ensures WithLoadingIntended(WithLoadingIntended(s, true), false).shown == s.shown
    ensures Consistent(WithLoadingIntended(s, true))
    ensures Consistent(WithLoadingIntended(WithLoadingIntended(s, true), false))
  {
  }

  /** `(outer - SpinnerSize) // 2`: Python's floor division, which is
      Dafny's for a positive divisor. */
  function CentredOffset(outer: int): (x: int)
    ensures 0 <= outer - SpinnerSize - 2 * x <= 1
  {
    (outer - SpinnerSize) / 2
  }

  class LoadingButton {
    var text: string
    var shown: string
    var isLoading: bool
    var rotationAngle: int
    var spinnerVisible: bool
    var timerRunning: bool
    var enabled: bool
    var spinnerX: int
    var spinnerY: int

    function State(): ButtonState
      reads this
    {
      ButtonState(text, shown, isLoading, rotationAngle, spinnerVisible, timerRunning, enabled)
    }

    predicate Valid()
      reads this
    {
      Consistent(State())
    }

    /** `LoadingButton(text)`: the Qt button shows `text`, the spinner is
        hidden and the timer is created but not started. */
    constructor (text: string)
      ensures Valid()
      ensures State() == ButtonState(text, text, false, 0, false, false, true)
    {
      this.text := text;
      shown := text;
      isLoading := false;
      rotationAngle := 0;
      spinnerVisible := false;
      timerRunning := false;
      enabled := true;
    }

    /** `rotate()` */
    method Rotate()
      modifies this`rotationAngle
      ensures old(Valid()) ==> Valid()
      ensures State() == Rotated(old(State()))
    {
      rotationAngle := (rotationAngle + Step) % 360;
    }

    /** `setText(text)` */
    method SetText(text: string)
      modifies this`text, this`shown
      ensures old(Valid()) ==> Valid()
      ensures State() == WithText(old(State()), text)
    {
      this.text := text;
      if !isLoading {
        shown := text;
      }
    }

    /** `setLoading(loading)` */
    method SetLoading(loading: bool)
      modifies this`isLoading, this`text, this`shown, this`spinnerVisible, this`timerRunning,
        this`rotationAngle, this`enabled
      ensures old(Valid()) ==> Valid()
      ensures State() == WithLoading(old(State()), loading)
    {
      isLoading := loading;
      if loading {
        SetText("");
        spinnerVisible := true;
        timerRunning := true;
        enabled := false;
      } else {
        SetText(text);
        timerRunning := false;
        spinnerVisible := false;
        rotationAngle := 0;
        enabled := true;
      }
    }

    /** Qt's `setEnabled(enabled)`, which the class does not override. */
    method SetEnabled(enabled: bool)
      modifies this`enabled
      ensures this.enabled == enabled
    {
      this.enabled := enabled;
    }

    /** `resizeEvent` for a button of `width` by `height`: the spinner is
        centred, to within a pixel. */
    method ResizeEvent(width: int, height: int)
      modifies this`spinnerX, this`spinnerY
      ensures spinnerX == CentredOffset(width) && spinnerY == CentredOffset(height)
    {
      spinnerX := (width - SpinnerSize) / 2;
      spinnerY := (height - SpinnerSize) / 2;
    }
  }
}
