/** Direct capture: every key press and release becomes one `direct` record,
    with no state between events. */
module Direct {
  import opened Wrappers
  import opened Ints
  import opened Events
  import opened Models

  /** The record for one event; `nameOf` is the key's printed name. */
  function Callback<K>(ev: Event<K>, now: U64, nameOf: K -> string): (r: Option<KeyEvent>)
    ensures r.Some? <==> ev.IsKeyboard()
    ensures r.Some? ==>
      && r.value.eventType == "direct"
      && r.value.key == nameOf(ev.key)
      && r.value.pressed == ev.KeyPress?
      && r.value.timestamp == now
  {
    match ev
    case KeyPress(k) => Some(KeyEvent(nameOf(k), "direct", true, now))
    case KeyRelease(k) => Some(KeyEvent(nameOf(k), "direct", false, now))
    case _ => None
  }

  function KeyboardEvents<K>(t: seq<Stamped<K>>): (r: seq<Stamped<K>>)
    ensures |r| <= |t|
    ensures forall i :: 0 <= i < |r| ==> r[i].event.IsKeyboard()
  {
    if t == [] then []
    else
      var rest := KeyboardEvents(t[..|t| - 1]);
      if t[|t| - 1].event.IsKeyboard() then rest + [t[|t| - 1]] else rest
  }

  /** The records printed for a whole stream: one per keyboard event, in
      order, each describing that event. */
  function Records<K>(t: seq<Stamped<K>>, nameOf: K -> string): (r: seq<KeyEvent>)
    ensures |r| == |KeyboardEvents(t)|
    ensures forall i :: 0 <= i < |r| ==>
      var e := KeyboardEvents(t)[i];
      r[i] == KeyEvent(nameOf(e.event.key), "direct", e.event.KeyPress?, e.time)
  {
    if t == [] then []
    else
      var rest := Records(t[..|t| - 1], nameOf);
      match Callback(t[|t| - 1].event, t[|t| - 1].time, nameOf)
      case Some(ke) => rest + [ke]
      case None => rest
  }

  /** Pressing the same key twice without a release prints two press
      records: nothing is suppressed, unlike the combination tracker. */
  lemma RepeatedPressIsReported<K>(k: K, t1: U64, t2: U64, nameOf: K -> string)
    ensures Records([Stamped(KeyPress(k), t1), Stamped(KeyPress(k), t2)], nameOf)
         == [KeyEvent(nameOf(k), "direct", true, t1), KeyEvent(nameOf(k), "direct", true, t2)]
  {
    var t := [Stamped(KeyPress(k), t1), Stamped(KeyPress(k), t2)];
    assert t[..1] == [Stamped(KeyPress(k), t1)];
    assert t[..1][..0] == [];
  }
}
