/** Pointer capture: moves, button presses and releases, and wheel turns
    become `move`, `button` and `scroll` records. */
module Mouse {
  import opened Wrappers
  import opened Ints
  import opened Events
  import opened Models
  import Decimal

  /** The printed name of a button. */
  function ButtonToString(b: Button): (r: string)
    ensures b.Left? <==> r == "left"
    ensures b.Right? <==> r == "right"
    ensures b.Middle? <==> r == "middle"
    ensures b.Unknown? <==> |r| > 7 && r[..7] == "button_"
    ensures b.Unknown? ==> Decimal.Read(r[7..]) == Some(b.code)
  {
    match b
    case Left => "left"
    case Right => "right"
    case Middle => "middle"
    case Unknown(code) =>
      Decimal.ReadShow(code);
      "button_" + Decimal.Show(code)
  }

  /** Distinct buttons print distinct names, so a name identifies its button. */
  lemma ButtonToStringInjective(a: Button, b: Button)
    ensures ButtonToString(a) == ButtonToString(b) ==> a == b
  {
    if a.Unknown? && b.Unknown? && ButtonToString(a) == ButtonToString(b) {
      assert Decimal.Read(ButtonToString(a)[7..]) == Some(a.code);
    }
  }

  /** The record for one event; keyboard events produce none. */
  function Callback<K>(ev: Event<K>, now: U64): (r: Option<MouseEvent>)
    ensures r.None? <==> ev.IsKeyboard()
    ensures r.Some? ==> r.value.timestamp == now
    ensures ev.MouseMove? ==> r == Some(MouseEvent("move", Some(ev.x), Some(ev.y), None, None, None, None, now))
    ensures ev.ButtonPress? || ev.ButtonRelease? ==>
      r == Some(MouseEvent("button", None, None, Some(ButtonToString(ev.button)), Some(ev.ButtonPress?), None, None, now))
    ensures ev.Wheel? ==>
      && r.Some? && r.value.eventType == "scroll"
      && r.value.x.None? && r.value.y.None? && r.value.button.None? && r.value.pressed.None?
      && r.value.scrollX.Some? && (r.value.scrollX.value - ev.deltaX) % TWO_32 == 0
      && r.value.scrollY.Some? && (r.value.scrollY.value - ev.deltaY) % TWO_32 == 0
  {
    match ev
    case MouseMove(x, y) =>
      Some(MouseEvent("move", Some(x), Some(y), None, None, None, None, now))
    case ButtonPress(b) =>
      Some(MouseEvent("button", None, None, Some(ButtonToString(b)), Some(true), None, None, now))
    case ButtonRelease(b) =>
      Some(MouseEvent("button", None, None, Some(ButtonToString(b)), Some(false), None, None, now))
    case Wheel(dx, dy) =>
      Some(MouseEvent("scroll", None, None, None, None, Some(WrapI32(dx)), Some(WrapI32(dy)), now))
    case KeyPress(_) => None
    case KeyRelease(_) => None
  }

  /** A move record's object holds the coordinates and nothing else
      optional. */
  lemma MoveFields<K>(ev: Event<K>, now: U64)
    requires ev.MouseMove?
    ensures Fields(Pointer(Callback(ev, now).value)) == ["event_type", "x", "y", "timestamp"]
  {
    assert OptionalFields(Callback(ev, now).value) == ["x", "y"];
    EncloseTwo("x", "y");
  }

  /** A button record's object holds the button and its state and nothing
      else optional. */
  lemma ButtonFields<K>(ev: Event<K>, now: U64)
    requires ev.ButtonPress? || ev.ButtonRelease?
    ensures Fields(Pointer(Callback(ev, now).value)) == ["event_type", "button", "pressed", "timestamp"]
  {
    assert OptionalFields(Callback(ev, now).value) == ["button", "pressed"];
    EncloseTwo("button", "pressed");
  }

  /** A scroll record's object holds the two deltas and nothing else
      optional. */
  lemma ScrollFields<K>(ev: Event<K>, now: U64)
    requires ev.Wheel?
    ensures Fields(Pointer(Callback(ev, now).value)) == ["event_type", "scroll_x", "scroll_y", "timestamp"]
  {
    assert OptionalFields(Callback(ev, now).value) == ["scroll_x", "scroll_y"];
    EncloseTwo("scroll_x", "scroll_y");
  }
}
