/** Raw input events as the capture library delivers them, and the reference
    meaning of a stream of key events: which keys are held, in which order
    they were first pressed, and which keys joined the current hold span. */
module Events {
  import opened Ints
  import opened Seqs

  /** A pointer button; `Unknown` carries the platform's button code. */
  datatype Button = Left | Right | Middle | Unknown(code: U8)

  /** One raw event. Pointer coordinates are taken as integers: the
      float-to-integer conversion of the capture library is not modelled. */
  datatype Event<K> =
    | KeyPress(key: K)
    | KeyRelease(key: K)
    | ButtonPress(button: Button)
    | ButtonRelease(button: Button)
    | MouseMove(x: I32, y: I32)
    | Wheel(deltaX: I64, deltaY: I64)
  {
    predicate IsKeyboard()
    {
      KeyPress? || KeyRelease?
    }
  }

  /** An event together with the wall-clock millisecond time it was handled. */
  datatype Stamped<K> = Stamped(event: Event<K>, time: U64)

  /** Keys pressed and not released since. */
  function Held<K(==)>(t: seq<Stamped<K>>): set<K>
  {
    if t == [] then {}
    else
      var h := Held(t[..|t| - 1]);
      match t[|t| - 1].event
      case KeyPress(k) => h + {k}
      case KeyRelease(k) => h - {k}
      case _ => h
  }

  /** The held keys, in the order they were (last) pressed. */
  function HeldOrder<K(==)>(t: seq<Stamped<K>>): seq<K>
  {
    if t == [] then []
    else NextHeldOrder(HeldOrder(t[..|t| - 1]), t[|t| - 1].event)
  }

  /** A press of a key not yet held puts it last; a release takes it out. */
  function NextHeldOrder<K(==)>(o: seq<K>, ev: Event<K>): seq<K>
  {
    match ev
    case KeyPress(k) => if k in o then o else o + [k]
    case KeyRelease(k) => Without(o, k)
    case _ => o
  }

  /** A key joining the current hold span, with the time it joined. */
  datatype Join<K> = Join(key: K, time: U64)

  /** Every press of a key not already held since the held set last became
      empty (one span of continuous holding), in order. */
  function SpanJoins<K(==)>(t: seq<Stamped<K>>): seq<Join<K>>
  {
    if t == [] then []
    else
      var p := t[..|t| - 1];
      var e := t[|t| - 1];
      var j := SpanJoins(p);
      match e.event
      case KeyPress(k) => if k in Held(p) then j else j + [Join(k, e.time)]
      case KeyRelease(k) => if Held(p) == {k} then [] else j
      case _ => j
  }

  /** A span has joins exactly while some key is held. */
  lemma {:induction false} SpanJoinsWhileHeld<K>(t: seq<Stamped<K>>)
    ensures SpanJoins(t) == [] <==> Held(t) == {}
    decreases |t|
  {
    if t != [] {
      var p := t[..|t| - 1];
      SpanJoinsWhileHeld(p);
      match t[|t| - 1].event
      case KeyPress(k) =>
        assert k in Held(t);
      case KeyRelease(k) =>
        if Held(p) != {k} && Held(p) != {} {
          var j :| j in Held(p) && j != k;
          assert j in Held(t);
        }
      case _ =>
    }
  }

  /** Hold A, hold B, let go of A, let go of B. */
  function ABScenario(): seq<Stamped<string>>
  {
    [Stamped(KeyPress("A"), 0), Stamped(KeyPress("B"), 1),
     Stamped(KeyRelease("A"), 2), Stamped(KeyRelease("B"), 3)]
  }

  /** Keys that are their own printed names. */
  function Ident(k: string): string
  {
    k
  }

  lemma {:induction false} HeldOrderIsHeld<K>(t: seq<Stamped<K>>)
    ensures NoDup(HeldOrder(t))
    ensures Elems(HeldOrder(t)) == Held(t)
    decreases |t|
  {
    if t != [] {
      var p := t[..|t| - 1];
      HeldOrderIsHeld(p);
      var o := HeldOrder(p);
      assert HeldOrder(t) == NextHeldOrder(o, t[|t| - 1].event);
      match t[|t| - 1].event
      case KeyPress(k) =>
        if k !in o {
          assert Elems(o + [k]) == Elems(o) + {k};
        }
      case KeyRelease(k) =>
        WithoutElems(o, k);
      case _ =>
    }
  }
}
