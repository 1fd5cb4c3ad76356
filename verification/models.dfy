/** The records the program prints (one JSON object per line) and the
    commands it reads, with the field-shape rules of their serialisation. */
module Models {
  import opened Wrappers
  import opened Ints
  import opened Seqs

  /** A single key press or release (`"event_type": "direct"`). */
  datatype KeyEvent = KeyEvent(key: string, eventType: string, pressed: bool, timestamp: U64)

  /** The current combination, tagged `press`, `combination` or `release`. */
  datatype ComplexKeyEvent = ComplexKeyEvent(keys: seq<string>, eventType: string, timestamp: U64)

  /** A completed hold span (`"event_type": "key_sequence"`). */
  datatype KeySequenceEvent = KeySequenceEvent(
    keys: seq<string>, startTime: U64, endTime: U64, durationMs: U64, eventType: string)

  /** A pointer record; fields that do not apply are `None` and are omitted
      from the output. */
  datatype MouseEvent = MouseEvent(
    eventType: string,
    x: Option<I32>,
    y: Option<I32>,
    button: Option<string>,
    pressed: Option<bool>,
    scrollX: Option<I32>,
    scrollY: Option<I32>,
    timestamp: U64)

  /** Any printed record. */
  datatype Record =
    | Direct(keyEvent: KeyEvent)
    | Classified(complex: ComplexKeyEvent)
    | Sequence(sequence: KeySequenceEvent)
    | Pointer(mouse: MouseEvent)

  datatype KeySimulationEvent = KeySimulationEvent(key: string, action: string, delayAfterMs: Option<U64>)

  datatype MouseSimulationEvent = MouseSimulationEvent(
    action: string,
    x: Option<I32>,
    y: Option<I32>,
    button: Option<string>,
    scrollX: Option<I32>,
    scrollY: Option<I32>,
    delayAfterMs: Option<U64>,
    durationMs: Option<U64>,
    ease: Option<string>)

  datatype TextSimulationEvent = TextSimulationEvent(text: string, delayAfterMs: Option<U64>)

  /** A command line, discriminated by its `event_type` tag. */
  datatype SimulationEvent =
    | Key(keyCommand: KeySimulationEvent)
    | Mouse(mouseCommand: MouseSimulationEvent)
    | Text(textCommand: TextSimulationEvent)

  datatype CommandKind = KeyKind | MouseKind | TextKind

  function KindOf(e: SimulationEvent): CommandKind
  {
    match e
    case Key(_) => KeyKind
    case Mouse(_) => MouseKind
    case Text(_) => TextKind
  }

  /** The tag value a command carries. */
  function Tag(e: SimulationEvent): string
  {
    match e
    case Key(_) => "key"
    case Mouse(_) => "mouse"
    case Text(_) => "text"
  }

  /** Which payload a tag selects; any other tag fails to decode. */
  function KindOfTag(tag: string): (r: Option<CommandKind>)
    ensures r.Some? <==> tag == "key" || tag == "mouse" || tag == "text"
  {
    match tag
    case "key" => Some(KeyKind)
    case "mouse" => Some(MouseKind)
    case "text" => Some(TextKind)
    case _ => None
  }

  /** The tag written for a command selects that command's payload again,
      and distinct kinds carry distinct tags. */
  lemma TagRoundTrip(e: SimulationEvent, f: SimulationEvent)
    ensures KindOfTag(Tag(e)) == Some(KindOf(e))
    ensures KindOf(e) != KindOf(f) ==> Tag(e) != Tag(f)
  {
  }

  /** `[name]` when the field is set, nothing otherwise: a field left
      unset is skipped rather than written as `null`. */
  function Optional<T>(name: string, v: Option<T>): (r: seq<string>)
    ensures Elems(r) == if v.Some? then {name} else {}
  {
    if v.Some? then [name] else []
  }

  /** The names of the optional fields of `m` that are `Some`. */
  function SetFields(m: MouseEvent): set<string>
  {
    (if m.x.Some? then {"x"} else {})
    + (if m.y.Some? then {"y"} else {})
    + (if m.button.Some? then {"button"} else {})
    + (if m.pressed.Some? then {"pressed"} else {})
    + (if m.scrollX.Some? then {"scroll_x"} else {})
    + (if m.scrollY.Some? then {"scroll_y"} else {})
  }

  lemma ElemsConcat<T>(a: seq<T>, b: seq<T>)
    ensures Elems(a + b) == Elems(a) + Elems(b)
  {
  }

  /** The optional part of a pointer record's object, in declaration order. */
  function OptionalFields(m: MouseEvent): (names: seq<string>)
    ensures Elems(names) == SetFields(m)
  {
    var a := Optional("x", m.x) + Optional("y", m.y);
    var b := Optional("button", m.button) + Optional("pressed", m.pressed);
    var c := Optional("scroll_x", m.scrollX) + Optional("scroll_y", m.scrollY);
    ElemsConcat(Optional("x", m.x), Optional("y", m.y));
    ElemsConcat(Optional("button", m.button), Optional("pressed", m.pressed));
    ElemsConcat(Optional("scroll_x", m.scrollX), Optional("scroll_y", m.scrollY));
    ElemsConcat(a, b);
    ElemsConcat(a + b, c);
    a + b + c
  }

  /** The field names of a record's JSON object, in output order. Every
      field of the key records is always written; a pointer record writes
      `event_type` first, `timestamp` last and, between them, exactly those
      optional fields that are `Some` (never a `null`). */
  function Fields(r: Record): (names: seq<string>)
    ensures |names| >= 2 && "event_type" in names
    ensures !r.Pointer? ==> NoDup(names) && |names| == NumberOfFields(r)
    ensures r.Pointer? ==>
      && names[0] == "event_type" && names[|names| - 1] == "timestamp"
      && Elems(names) == {"event_type", "timestamp"} + SetFields(r.mouse)
  {
    match r
    case Direct(_) => ["key", "event_type", "pressed", "timestamp"]
    case Classified(_) => ["keys", "event_type", "timestamp"]
    case Sequence(_) => ["keys", "start_time", "end_time", "duration_ms", "event_type"]
    case Pointer(m) => PointerFields(m)
  }

  function PointerFields(m: MouseEvent): (names: seq<string>)
    ensures |names| >= 2
    ensures names[0] == "event_type" && names[|names| - 1] == "timestamp"
    ensures Elems(names) == {"event_type", "timestamp"} + SetFields(m)
  {
    Enclose(OptionalFields(m))
  }

  /** `event_type` first, then the given fields, then `timestamp`. */
  function Enclose(opt: seq<string>): (names: seq<string>)
    ensures |names| == |opt| + 2
    ensures names[0] == "event_type" && names[|names| - 1] == "timestamp"
    ensures Elems(names) == {"event_type", "timestamp"} + Elems(opt)
  {
    var names := ["event_type"] + opt + ["timestamp"];
    assert Elems(["event_type"]) == {"event_type"};
    assert Elems(["timestamp"]) == {"timestamp"};
    ElemsConcat(["event_type"], opt);
    ElemsConcat(["event_type"] + opt, ["timestamp"]);
    names
  }

  /** The key records write every declared field, in declaration order. */
  lemma KeyRecordFields(r: Record)
    requires !r.Pointer?
    ensures r.Direct? ==> Fields(r) == ["key", "event_type", "pressed", "timestamp"]
    ensures r.Classified? ==> Fields(r) == ["keys", "event_type", "timestamp"]
    ensures r.Sequence? ==> Fields(r) == ["keys", "start_time", "end_time", "duration_ms", "event_type"]
  {
  }

  /** The object of a pointer record with two optional fields set. */
  lemma EncloseTwo(a: string, b: string)
    ensures Enclose([a, b]) == ["event_type", a, b, "timestamp"]
  {
  }

  /** Each optional field of a pointer record appears in its object exactly
      when it is `Some`; `event_type` and `timestamp` always do. */
  lemma PointerFieldPresence(m: MouseEvent)
    ensures var names := Fields(Pointer(m));
      && "event_type" in names && "timestamp" in names
      && ("x" in names <==> m.x.Some?)
      && ("y" in names <==> m.y.Some?)
      && ("button" in names <==> m.button.Some?)
      && ("pressed" in names <==> m.pressed.Some?)
      && ("scroll_x" in names <==> m.scrollX.Some?)
      && ("scroll_y" in names <==> m.scrollY.Some?)
  {
    var names := Fields(Pointer(m));
    var present := {"event_type", "timestamp"} + SetFields(m);
    assert Elems(names) == present;
    assert forall f :: f in names <==> f in present;
    SetFieldsMembers(m);
  }

  lemma SetFieldsMembers(m: MouseEvent)
    ensures "event_type" !in SetFields(m) && "timestamp" !in SetFields(m)
    ensures "x" in SetFields(m) <==> m.x.Some?
    ensures "y" in SetFields(m) <==> m.y.Some?
    ensures "button" in SetFields(m) <==> m.button.Some?
    ensures "pressed" in SetFields(m) <==> m.pressed.Some?
    ensures "scroll_x" in SetFields(m) <==> m.scrollX.Some?
    ensures "scroll_y" in SetFields(m) <==> m.scrollY.Some?
  {
    assert SetFields(m) <= {"x", "y", "button", "pressed", "scroll_x", "scroll_y"};
  }

  /** How many fields each record type declares. */
  function NumberOfFields(r: Record): nat
  {
    match r
    case Direct(_) => 4
    case Classified(_) => 3
    case Sequence(_) => 5
    case Pointer(_) => 8
  }
}
