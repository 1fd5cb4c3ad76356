/** Command interpretation: the key-name table and the translation of key
    and mouse commands into the synthesis actions they perform, in order.
    The synthesis back-end itself is outside the model: an action records
    what is asked of it. */
module Simulation {
  import opened Wrappers
  import opened Ints
  import opened Seqs
  import opened Models
  import Events
  import Mouse

  /** The function keys F1 to F20. */
  datatype FunctionKey = F1 | F2 | F3 | F4 | F5 | F6 | F7 | F8 | F9 | F10 | F11 | F12 | F13 | F14 | F15 | F16 | F17 | F18 | F19 | F20

  /** Navigation and editing keys. */
  datatype EditingKey = Home | End | PageUp | PageDown | Delete | Insert | Escape | Tab | Return | Space | Backspace | PrintScr

  /** Arrow keys. */
  datatype ArrowKey = UpArrow | DownArrow | LeftArrow | RightArrow

  /** Modifier keys. */
  datatype ModifierKey = Alt | Control | Shift | Meta | Option | CapsLock

  /** Volume and media keys. */
  datatype MediaKey = VolumeUp | VolumeDown | VolumeMute | MediaPlayPause | MediaNextTrack | MediaPrevTrack

  /** Numeric-pad keys (Windows only). */
  datatype NumpadKey = Numpad0 | Numpad1 | Numpad2 | Numpad3 | Numpad4 | Numpad5 | Numpad6 | Numpad7 | Numpad8 | Numpad9

  /** Digit keys (Windows only). */
  datatype DigitKey = Num0 | Num1 | Num2 | Num3 | Num4 | Num5 | Num6 | Num7 | Num8 | Num9

  /** The keys a command can name: the listed named keys, by group in the
      order the name table lists them, and any single character. */
  datatype Key =
    | Function(functionKey: FunctionKey)
    | Editing(editingKey: EditingKey)
    | Arrow(arrowKey: ArrowKey)
    | Modifier(modifierKey: ModifierKey)
    | Media(mediaKey: MediaKey)
    | Numpad(numpadKey: NumpadKey)
    | Digit(digitKey: DigitKey)
    | Help
    | Unicode(c: char)

  /** Keys that exist only in the Windows build. */
  predicate WindowsOnly(k: Key)
  {
    k.Numpad? || k.Digit?
  }

  function FunctionKeyName(k: FunctionKey): string
  {
    match k
    case F1 => "F1"
    case F2 => "F2"
    case F3 => "F3"
    case F4 => "F4"
    case F5 => "F5"
    case F6 => "F6"
    case F7 => "F7"
    case F8 => "F8"
    case F9 => "F9"
    case F10 => "F10"
    case F11 => "F11"
    case F12 => "F12"
    case F13 => "F13"
    case F14 => "F14"
    case F15 => "F15"
    case F16 => "F16"
    case F17 => "F17"
    case F18 => "F18"
    case F19 => "F19"
    case F20 => "F20"
  }

  function EditingKeyName(k: EditingKey): string
  {
    match k
    case Home => "Home"
    case End => "End"
    case PageUp => "PageUp"
    case PageDown => "PageDown"
    case Delete => "Delete"
    case Insert => "Insert"
    case Escape => "Escape"
    case Tab => "Tab"
    case Return => "Return"
    case Space => "Space"
    case Backspace => "Backspace"
    case PrintScr => "PrintScr"
  }

  function ArrowKeyName(k: ArrowKey): string
  {
    match k
    case UpArrow => "UpArrow"
    case DownArrow => "DownArrow"
    case LeftArrow => "LeftArrow"
    case RightArrow => "RightArrow"
  }

  function ModifierKeyName(k: ModifierKey): string
  {
    match k
    case Alt => "Alt"
    case Control => "Control"
    case Shift => "Shift"
    case Meta => "Meta"
    case Option => "Option"
    case CapsLock => "CapsLock"
  }

  function MediaKeyName(k: MediaKey): string
  {
    match k
    case VolumeUp => "VolumeUp"
    case VolumeDown => "VolumeDown"
    case VolumeMute => "VolumeMute"
    case MediaPlayPause => "MediaPlayPause"
    case MediaNextTrack => "MediaNextTrack"
    case MediaPrevTrack => "MediaPrevTrack"
  }

  function NumpadKeyName(k: NumpadKey): string
  {
    match k
    case Numpad0 => "Numpad0"
    case Numpad1 => "Numpad1"
    case Numpad2 => "Numpad2"
    case Numpad3 => "Numpad3"
    case Numpad4 => "Numpad4"
    case Numpad5 => "Numpad5"
    case Numpad6 => "Numpad6"
    case Numpad7 => "Numpad7"
    case Numpad8 => "Numpad8"
    case Numpad9 => "Numpad9"
  }

  function DigitKeyName(k: DigitKey): string
  {
    match k
    case Num0 => "Num0"
    case Num1 => "Num1"
    case Num2 => "Num2"
    case Num3 => "Num3"
    case Num4 => "Num4"
    case Num5 => "Num5"
    case Num6 => "Num6"
    case Num7 => "Num7"
    case Num8 => "Num8"
    case Num9 => "Num9"
  }

  /** The listed name of each named key. */
  function KeyName(k: Key): (name: string)
    requires !k.Unicode?
  {
    match k
    case Function(functionKey) => FunctionKeyName(functionKey)
    case Editing(editingKey) => EditingKeyName(editingKey)
    case Arrow(arrowKey) => ArrowKeyName(arrowKey)
    case Modifier(modifierKey) => ModifierKeyName(modifierKey)
    case Media(mediaKey) => MediaKeyName(mediaKey)
    case Numpad(numpadKey) => NumpadKeyName(numpadKey)
    case Digit(digitKey) => DigitKeyName(digitKey)
    case Help => "Help"
  }

  /** The table's entries for the group: the function keys F1 to F20. */
  function FunctionKeyOf(s: string): (r: Option<FunctionKey>)
    ensures r.Some? ==> FunctionKeyName(r.value) == s
  {
    match s
    case "F1" => Some(F1)
    case "F2" => Some(F2)
    case "F3" => Some(F3)
    case "F4" => Some(F4)
    case "F5" => Some(F5)
    case "F6" => Some(F6)
    case "F7" => Some(F7)
    case "F8" => Some(F8)
    case "F9" => Some(F9)
    case "F10" => Some(F10)
    case "F11" => Some(F11)
    case "F12" => Some(F12)
    case "F13" => Some(F13)
    case "F14" => Some(F14)
    case "F15" => Some(F15)
    case "F16" => Some(F16)
    case "F17" => Some(F17)
    case "F18" => Some(F18)
    case "F19" => Some(F19)
    case "F20" => Some(F20)
    case _ => None
  }

  /** The table's entries for the group: navigation and editing keys. */
  function EditingKeyOf(s: string): (r: Option<EditingKey>)
    ensures r.Some? ==> EditingKeyName(r.value) == s
  {
    match s
    case "Home" => Some(Home)
    case "End" => Some(End)
    case "PageUp" => Some(PageUp)
    case "PageDown" => Some(PageDown)
    case "Delete" => Some(Delete)
    case "Insert" => Some(Insert)
    case "Escape" => Some(Escape)
    case "Tab" => Some(Tab)
    case "Return" => Some(Return)
    case "Space" => Some(Space)
    case "Backspace" => Some(Backspace)
    case "PrintScr" => Some(PrintScr)
    case _ => None
  }

  /** The table's entries for the group: arrow keys. */
  function ArrowKeyOf(s: string): (r: Option<ArrowKey>)
    ensures r.Some? ==> ArrowKeyName(r.value) == s
  {
    match s
    case "UpArrow" => Some(UpArrow)
    case "DownArrow" => Some(DownArrow)
    case "LeftArrow" => Some(LeftArrow)
    case "RightArrow" => Some(RightArrow)
    case _ => None
  }

  /** The table's entries for the group: modifier keys. */
  function ModifierKeyOf(s: string): (r: Option<ModifierKey>)
    ensures r.Some? ==> ModifierKeyName(r.value) == s
  {
    match s
    case "Alt" => Some(Alt)
    case "Control" => Some(Control)
    case "Shift" => Some(Shift)
    case "Meta" => Some(Meta)
    case "Option" => Some(Option)
    case "CapsLock" => Some(CapsLock)
    case _ => None
  }

  /** The table's entries for the group: volume and media keys. */
  function MediaKeyOf(s: string): (r: Option<MediaKey>)
    ensures r.Some? ==> MediaKeyName(r.value) == s
  {
    match s
    case "VolumeUp" => Some(VolumeUp)
    case "VolumeDown" => Some(VolumeDown)
    case "VolumeMute" => Some(VolumeMute)
    case "MediaPlayPause" => Some(MediaPlayPause)
    case "MediaNextTrack" => Some(MediaNextTrack)
    case "MediaPrevTrack" => Some(MediaPrevTrack)
    case _ => None
  }

  /** The table's entries for the group: numeric-pad keys (Windows only). */
  function NumpadKeyOf(s: string): (r: Option<NumpadKey>)
    ensures r.Some? ==> NumpadKeyName(r.value) == s
  {
    match s
    case "Numpad0" => Some(Numpad0)
    case "Numpad1" => Some(Numpad1)
    case "Numpad2" => Some(Numpad2)
    case "Numpad3" => Some(Numpad3)
    case "Numpad4" => Some(Numpad4)
    case "Numpad5" => Some(Numpad5)
    case "Numpad6" => Some(Numpad6)
    case "Numpad7" => Some(Numpad7)
    case "Numpad8" => Some(Numpad8)
    case "Numpad9" => Some(Numpad9)
    case _ => None
  }

  /** The table's entries for the group: digit keys (Windows only). */
  function DigitKeyOf(s: string): (r: Option<DigitKey>)
    ensures r.Some? ==> DigitKeyName(r.value) == s
  {
    match s
    case "Num0" => Some(Num0)
    case "Num1" => Some(Num1)
    case "Num2" => Some(Num2)
    case "Num3" => Some(Num3)
    case "Num4" => Some(Num4)
    case "Num5" => Some(Num5)
    case "Num6" => Some(Num6)
    case "Num7" => Some(Num7)
    case "Num8" => Some(Num8)
    case "Num9" => Some(Num9)
    case _ => None
  }

  /** The listed-name table, in source order. */
  function NamedKey(s: string): (r: Option<Key>)
    ensures r.Some? ==> !r.value.Unicode? && KeyName(r.value) == s
  {
    if FunctionKeyOf(s).Some? then Some(Function(FunctionKeyOf(s).value))
    else if EditingKeyOf(s).Some? then Some(Editing(EditingKeyOf(s).value))
    else if ArrowKeyOf(s).Some? then Some(Arrow(ArrowKeyOf(s).value))
    else if ModifierKeyOf(s).Some? then Some(Modifier(ModifierKeyOf(s).value))
    else if MediaKeyOf(s).Some? then Some(Media(MediaKeyOf(s).value))
    else if NumpadKeyOf(s).Some? then Some(Numpad(NumpadKeyOf(s).value))
    else if DigitKeyOf(s).Some? then Some(Digit(DigitKeyOf(s).value))
    else if s == "Help" then Some(Help)
    else None
  }

  /** Number of bytes of `c` in UTF-8. */
  function Utf8Width(c: char): (n: nat)
    ensures 1 <= n <= 4
    ensures n == 1 <==> (c as int) < 0x80
  {
    if (c as int) < 0x80 then 1
    else if (c as int) < 0x800 then 2
    else if (c as int) < 0x1_0000 then 3
    else 4
  }

  /** Byte length of a string in UTF-8 (Rust's `str::len`). */
  function Utf8Len(s: string): (n: nat)
    ensures n >= |s|
    ensures n == |s| <==> forall i :: 0 <= i < |s| ==> (s[i] as int) < 0x80
    ensures n == 1 <==> |s| == 1 && (s[0] as int) < 0x80
  {
    if s == [] then 0
    else
      var rest := Utf8Len(s[1..]);
      assert forall i :: 1 <= i < |s| ==> s[i] == s[1..][i - 1];
      Utf8Width(s[0]) + rest
  }

  /** `string_to_key`: a listed name (the Windows-only ones only on
      Windows), else a string of exactly one byte as that character, else
      nothing. */
  function StringToKey(s: string, windows: bool): (r: Option<Key>)
    ensures r.Some? && !r.value.Unicode? ==>
      s == KeyName(r.value) && (WindowsOnly(r.value) ==> windows)
    ensures r.Some? && r.value.Unicode? ==>
      |s| == 1 && (s[0] as int) < 0x80 && r.value.c == s[0]
    ensures Utf8Len(s) == 1 ==> r == Some(Unicode(s[0]))
  {
    var named := NamedKey(s);
    if named.Some? && (windows || !WindowsOnly(named.value)) then named
    else if Utf8Len(s) == 1 then Some(Unicode(s[0]))
    else None
  }

  lemma FunctionKeyRoundTrip(k: FunctionKey)
    ensures FunctionKeyOf(FunctionKeyName(k)) == Some(k)
  {
    match k
    case F1 => assert FunctionKeyOf("F1") == Some(F1);
    case F2 => assert FunctionKeyOf("F2") == Some(F2);
    case F3 => assert FunctionKeyOf("F3") == Some(F3);
    case F4 => assert FunctionKeyOf("F4") == Some(F4);
    case F5 => assert FunctionKeyOf("F5") == Some(F5);
    case F6 => assert FunctionKeyOf("F6") == Some(F6);
    case F7 => assert FunctionKeyOf("F7") == Some(F7);
    case F8 => assert FunctionKeyOf("F8") == Some(F8);
    case F9 => assert FunctionKeyOf("F9") == Some(F9);
    case F10 => assert FunctionKeyOf("F10") == Some(F10);
    case F11 => assert FunctionKeyOf("F11") == Some(F11);
    case F12 => assert FunctionKeyOf("F12") == Some(F12);
    case F13 => assert FunctionKeyOf("F13") == Some(F13);
    case F14 => assert FunctionKeyOf("F14") == Some(F14);
    case F15 => assert FunctionKeyOf("F15") == Some(F15);
    case F16 => assert FunctionKeyOf("F16") == Some(F16);
    case F17 => assert FunctionKeyOf("F17") == Some(F17);
    case F18 => assert FunctionKeyOf("F18") == Some(F18);
    case F19 => assert FunctionKeyOf("F19") == Some(F19);
    case F20 => assert FunctionKeyOf("F20") == Some(F20);
  }

  /** Only the function keys' names start with `F`. */
  lemma EditingNamesMissEarlierGroups(s: string)
    requires |s| >= 1 && s[0] != 'F'
    ensures FunctionKeyOf(s).None?
  {
  }

  lemma EditingKeyRoundTrip(k: EditingKey)
    ensures EditingKeyOf(EditingKeyName(k)) == Some(k)
    ensures var s := EditingKeyName(k); |s| >= 1 && s[0] != 'F'
  {
    match k
    case Home => assert EditingKeyOf("Home") == Some(Home);
    case End => assert EditingKeyOf("End") == Some(End);
    case PageUp => assert EditingKeyOf("PageUp") == Some(PageUp);
    case PageDown => assert EditingKeyOf("PageDown") == Some(PageDown);
    case Delete => assert EditingKeyOf("Delete") == Some(Delete);
    case Insert => assert EditingKeyOf("Insert") == Some(Insert);
    case Escape => assert EditingKeyOf("Escape") == Some(Escape);
    case Tab => assert EditingKeyOf("Tab") == Some(Tab);
    case Return => assert EditingKeyOf("Return") == Some(Return);
    case Space => assert EditingKeyOf("Space") == Some(Space);
    case Backspace => assert EditingKeyOf("Backspace") == Some(Backspace);
    case PrintScr => assert EditingKeyOf("PrintScr") == Some(PrintScr);
  }

  /** No earlier name starts with `U`, `D`, `L` or `R` and has 7 or more
      characters. */
  lemma ArrowNamesMissEarlierGroups(s: string)
    requires |s| >= 7 && (s[0] == 'U' || s[0] == 'D' || s[0] == 'L' || s[0] == 'R')
    ensures FunctionKeyOf(s).None? && EditingKeyOf(s).None?
  {
  }

  lemma ArrowKeyRoundTrip(k: ArrowKey)
    ensures ArrowKeyOf(ArrowKeyName(k)) == Some(k)
    ensures var s := ArrowKeyName(k); |s| >= 7 && (s[0] == 'U' || s[0] == 'D' || s[0] == 'L' || s[0] == 'R')
  {
    match k
    case UpArrow => assert ArrowKeyOf("UpArrow") == Some(UpArrow);
    case DownArrow => assert ArrowKeyOf("DownArrow") == Some(DownArrow);
    case LeftArrow => assert ArrowKeyOf("LeftArrow") == Some(LeftArrow);
    case RightArrow => assert ArrowKeyOf("RightArrow") == Some(RightArrow);
  }

  /** No earlier name starts with `A`, `C`, `M`, `O` or `Sh`. */
  lemma ModifierNamesMissEarlierGroups(s: string)
    requires |s| >= 2 && (s[0] == 'A' || s[0] == 'C' || s[0] == 'M' || s[0] == 'O' || (s[0] == 'S' && s[1] == 'h'))
    ensures FunctionKeyOf(s).None? && EditingKeyOf(s).None? && ArrowKeyOf(s).None?
  {
  }

  lemma ModifierKeyRoundTrip(k: ModifierKey)
    ensures ModifierKeyOf(ModifierKeyName(k)) == Some(k)
    ensures var s := ModifierKeyName(k); |s| >= 2 && (s[0] == 'A' || s[0] == 'C' || s[0] == 'M' || s[0] == 'O' || (s[0] == 'S' && s[1] == 'h'))
  {
    match k
    case Alt => assert ModifierKeyOf("Alt") == Some(Alt);
    case Control => assert ModifierKeyOf("Control") == Some(Control);
    case Shift => assert ModifierKeyOf("Shift") == Some(Shift);
    case Meta => assert ModifierKeyOf("Meta") == Some(Meta);
    case Option => assert ModifierKeyOf("Option") == Some(Option);
    case CapsLock => assert ModifierKeyOf("CapsLock") == Some(CapsLock);
  }

  /** No earlier name starts with `V` or `M` and has 8 or more characters. */
  lemma MediaNamesMissEarlierGroups(s: string)
    requires |s| >= 8 && (s[0] == 'V' || s[0] == 'M')
    ensures FunctionKeyOf(s).None? && EditingKeyOf(s).None? && ArrowKeyOf(s).None? && ModifierKeyOf(s).None?
  {
  }

  lemma MediaKeyRoundTrip(k: MediaKey)
    ensures MediaKeyOf(MediaKeyName(k)) == Some(k)
    ensures var s := MediaKeyName(k); |s| >= 8 && (s[0] == 'V' || s[0] == 'M')
  {
    match k
    case VolumeUp => assert MediaKeyOf("VolumeUp") == Some(VolumeUp);
    case VolumeDown => assert MediaKeyOf("VolumeDown") == Some(VolumeDown);
    case VolumeMute => assert MediaKeyOf("VolumeMute") == Some(VolumeMute);
    case MediaPlayPause => assert MediaKeyOf("MediaPlayPause") == Some(MediaPlayPause);
    case MediaNextTrack => assert MediaKeyOf("MediaNextTrack") == Some(MediaNextTrack);
    case MediaPrevTrack => assert MediaKeyOf("MediaPrevTrack") == Some(MediaPrevTrack);
  }

  /** No earlier name starts with `N`. */
  lemma NumpadNamesMissEarlierGroups(s: string)
    requires |s| == 7 && s[0] == 'N'
    ensures FunctionKeyOf(s).None? && EditingKeyOf(s).None? && ArrowKeyOf(s).None? && ModifierKeyOf(s).None? && MediaKeyOf(s).None?
  {
  }

  lemma NumpadKeyRoundTrip(k: NumpadKey)
    ensures NumpadKeyOf(NumpadKeyName(k)) == Some(k)
    ensures var s := NumpadKeyName(k); |s| == 7 && s[0] == 'N'
  {
    match k
    case Numpad0 => assert NumpadKeyOf("Numpad0") == Some(Numpad0);
    case Numpad1 => assert NumpadKeyOf("Numpad1") == Some(Numpad1);
    case Numpad2 => assert NumpadKeyOf("Numpad2") == Some(Numpad2);
    case Numpad3 => assert NumpadKeyOf("Numpad3") == Some(Numpad3);
    case Numpad4 => assert NumpadKeyOf("Numpad4") == Some(Numpad4);
    case Numpad5 => assert NumpadKeyOf("Numpad5") == Some(Numpad5);
    case Numpad6 => assert NumpadKeyOf("Numpad6") == Some(Numpad6);
    case Numpad7 => assert NumpadKeyOf("Numpad7") == Some(Numpad7);
    case Numpad8 => assert NumpadKeyOf("Numpad8") == Some(Numpad8);
    case Numpad9 => assert NumpadKeyOf("Numpad9") == Some(Numpad9);
  }

  /** No earlier name starts with `N`, and the numeric-pad names are longer. */
  lemma DigitNamesMissEarlierGroups(s: string)
    requires |s| == 4 && s[0] == 'N'
    ensures FunctionKeyOf(s).None? && EditingKeyOf(s).None? && ArrowKeyOf(s).None? && ModifierKeyOf(s).None? && MediaKeyOf(s).None? && NumpadKeyOf(s).None?
  {
  }

  lemma DigitKeyRoundTrip(k: DigitKey)
    ensures DigitKeyOf(DigitKeyName(k)) == Some(k)
    ensures var s := DigitKeyName(k); |s| == 4 && s[0] == 'N'
  {
    match k
    case Num0 => assert DigitKeyOf("Num0") == Some(Num0);
    case Num1 => assert DigitKeyOf("Num1") == Some(Num1);
    case Num2 => assert DigitKeyOf("Num2") == Some(Num2);
    case Num3 => assert DigitKeyOf("Num3") == Some(Num3);
    case Num4 => assert DigitKeyOf("Num4") == Some(Num4);
    case Num5 => assert DigitKeyOf("Num5") == Some(Num5);
    case Num6 => assert DigitKeyOf("Num6") == Some(Num6);
    case Num7 => assert DigitKeyOf("Num7") == Some(Num7);
    case Num8 => assert DigitKeyOf("Num8") == Some(Num8);
    case Num9 => assert DigitKeyOf("Num9") == Some(Num9);
  }

  /** No earlier name starts with `He` and has 4 characters. */
  lemma HelpNamesMissEarlierGroups(s: string)
    requires |s| == 4 && s[0] == 'H' && s[1] == 'e'
    ensures FunctionKeyOf(s).None? && EditingKeyOf(s).None? && ArrowKeyOf(s).None? && ModifierKeyOf(s).None? && MediaKeyOf(s).None? && NumpadKeyOf(s).None? && DigitKeyOf(s).None?
  {
  }

  /** Every named key's listed name selects that key in the table. */
  lemma NamedKeyOfName(k: Key)
    requires !k.Unicode?
    ensures NamedKey(KeyName(k)) == Some(k)
  {
    match k
    case Function(functionKey) =>
      FunctionKeyRoundTrip(functionKey);
    case Editing(editingKey) =>
      EditingKeyRoundTrip(editingKey);
      EditingNamesMissEarlierGroups(EditingKeyName(editingKey));
    case Arrow(arrowKey) =>
      ArrowKeyRoundTrip(arrowKey);
      ArrowNamesMissEarlierGroups(ArrowKeyName(arrowKey));
    case Modifier(modifierKey) =>
      ModifierKeyRoundTrip(modifierKey);
      ModifierNamesMissEarlierGroups(ModifierKeyName(modifierKey));
    case Media(mediaKey) =>
      MediaKeyRoundTrip(mediaKey);
      MediaNamesMissEarlierGroups(MediaKeyName(mediaKey));
    case Numpad(numpadKey) =>
      NumpadKeyRoundTrip(numpadKey);
      NumpadNamesMissEarlierGroups(NumpadKeyName(numpadKey));
    case Digit(digitKey) =>
      DigitKeyRoundTrip(digitKey);
      DigitNamesMissEarlierGroups(DigitKeyName(digitKey));
    case Help =>
      HelpNamesMissEarlierGroups("Help");
  }

  /** Each listed name selects its own key, the Windows-only ones only on
      Windows; elsewhere those names are not single characters either and
      select nothing. */
  lemma StringToKeyOfName(k: Key, windows: bool)
    requires !k.Unicode?
    ensures StringToKey(KeyName(k), windows) == (if windows || !WindowsOnly(k) then Some(k) else None)
  {
    NamedKeyOfName(k);
  }

  /** A single character that takes more than one byte in UTF-8 (an accented
      letter, say) is no key: the one-character rule counts bytes. */
  lemma MultiByteCharacterIsNoKey(c: char, windows: bool)
    requires (c as int) >= 0x80
    ensures StringToKey([c], windows) == None
  {
    assert Utf8Len([c]) != 1;
  }

  datatype Direction = Press | Release | Click

  datatype MouseButton = Left | Right | Middle

  datatype Axis = Horizontal | Vertical

  /** What the program reports on its error stream. */
  datatype Diagnostic =
    | UnsupportedKey(name: string)
    | UnknownKeyAction(keyAction: string)
    | MoveNeedsCoordinates
    | InvalidButton
    | UnknownMouseAction(mouseAction: string)

  /** One request to the synthesis back-end, a pause, or a diagnostic. */
  datatype Action =
    | KeyAct(key: Key, direction: Direction)
    | ButtonAct(button: MouseButton, direction: Direction)
    | MoveAbs(x: I32, y: I32)
    | Scroll(axis: Axis, amount: I32)
    | Sleep(ms: U64)
    | Diag(diagnostic: Diagnostic)

  predicate IsKeyAct(a: Action) { a.KeyAct? }
  predicate IsButtonAct(a: Action) { a.ButtonAct? }
  predicate IsMove(a: Action) { a.MoveAbs? }
  predicate IsScroll(a: Action) { a.Scroll? }
  predicate IsSleep(a: Action) { a.Sleep? }
  predicate IsDiag(a: Action) { a.Diag? }

  /** Only a trailing action may be a pause. */
  predicate SleepsLast(acts: seq<Action>)
  {
    forall i :: 0 <= i < |acts| - 1 ==> !acts[i].Sleep?
  }

  /** The trailing pause a command asks for, if any. */
  function DelayAfter(delay: Option<U64>): (acts: seq<Action>)
    ensures Filter(IsSleep, acts) == acts
  {
    if delay.Some? then [Sleep(delay.value)] else []
  }

  /** The key-command action words. */
  function KeyDirection(action: string): (r: Option<Direction>)
    ensures r.Some? <==> action == "press" || action == "release" || action == "tap"
    ensures action == "press" ==> r == Some(Press)
    ensures action == "release" ==> r == Some(Release)
    ensures action == "tap" ==> r == Some(Click)
  {
    match action
    case "press" => Some(Press)
    case "release" => Some(Release)
    case "tap" => Some(Click)
    case _ => None
  }

  /** `handle_key_event`: an unsupported key is only reported, even if a
      delay is given; a supported key is pressed, released or tapped (an
      unknown action word is reported instead), and then the delay, if any,
      is slept. */
  function HandleKeyEvent(ev: KeySimulationEvent, windows: bool): (acts: seq<Action>)
    ensures StringToKey(ev.key, windows).None? ==> acts == [Diag(UnsupportedKey(ev.key))]
    ensures StringToKey(ev.key, windows).Some? ==>
      && Filter(IsKeyAct, acts)
         == (if KeyDirection(ev.action).Some?
             then [KeyAct(StringToKey(ev.key, windows).value, KeyDirection(ev.action).value)] else [])
      && Filter(IsSleep, acts) == DelayAfter(ev.delayAfterMs)
      && Filter(IsDiag, acts)
         == (if KeyDirection(ev.action).None? then [Diag(UnknownKeyAction(ev.action))] else [])
    ensures StringToKey(ev.key, windows).Some? ==>
      acts == [if KeyDirection(ev.action).Some?
               then KeyAct(StringToKey(ev.key, windows).value, KeyDirection(ev.action).value)
               else Diag(UnknownKeyAction(ev.action))]
              + DelayAfter(ev.delayAfterMs)
    ensures SleepsLast(acts)
  {
    match StringToKey(ev.key, windows)
    case None => [Diag(UnsupportedKey(ev.key))]
    case Some(k) =>
      var act := match KeyDirection(ev.action)
                 case Some(d) => KeyAct(k, d)
                 case None => Diag(UnknownKeyAction(ev.action));
      FilterConcat(IsKeyAct, [act], DelayAfter(ev.delayAfterMs));
      FilterConcat(IsSleep, [act], DelayAfter(ev.delayAfterMs));
      FilterConcat(IsDiag, [act], DelayAfter(ev.delayAfterMs));
      [act] + DelayAfter(ev.delayAfterMs)
  }

  /** Tapping, pressing or releasing a key by its listed name acts on that
      key, then pauses, wherever the key exists. */
  lemma ListedKeyCommand(k: Key, action: string, delay: Option<U64>, windows: bool)
    requires !k.Unicode? && (windows || !WindowsOnly(k))
    requires KeyDirection(action).Some?
    ensures HandleKeyEvent(KeySimulationEvent(KeyName(k), action, delay), windows)
         == [KeyAct(k, KeyDirection(action).value)] + DelayAfter(delay)
  {
    StringToKeyOfName(k, windows);
  }

  /** The button a mouse command names; anything else, or no name, is the
      left button, reported as invalid (the flag is false). */
  function ParseButton(name: Option<string>): (r: (MouseButton, bool))
    ensures r.1 <==> name == Some("left") || name == Some("right") || name == Some("middle")
    ensures !r.1 ==> r.0 == Left
    ensures name == Some("left") ==> r == (Left, true)
    ensures name == Some("right") ==> r == (Right, true)
    ensures name == Some("middle") ==> r == (Middle, true)
  {
    match name
    case Some("left") => (Left, true)
    case Some("right") => (Right, true)
    case Some("middle") => (Middle, true)
    case _ => (Left, false)
  }

  function ButtonActions(name: Option<string>, direction: Direction): (acts: seq<Action>)
  {
    var (button, valid) := ParseButton(name);
    (if valid then [] else [Diag(InvalidButton)]) + [ButtonAct(button, direction)]
  }

  function ScrollActions(scrollX: Option<I32>, scrollY: Option<I32>): (acts: seq<Action>)
  {
    (if scrollX.Some? then [Scroll(Horizontal, scrollX.value)] else [])
    + (if scrollY.Some? then [Scroll(Vertical, scrollY.value)] else [])
  }

  /** The button action words of a mouse command. */
  function ButtonDirection(action: string): (r: Option<Direction>)
    ensures r.Some? <==> action == "click" || action == "press" || action == "release"
    ensures action == "click" ==> r == Some(Click)
    ensures action == "press" ==> r == Some(Press)
    ensures action == "release" ==> r == Some(Release)
  {
    match action
    case "click" => Some(Click)
    case "press" => Some(Press)
    case "release" => Some(Release)
    case _ => None
  }

  /** The actions of a mouse command before its trailing delay. */
  function MouseActions(ev: MouseSimulationEvent): (acts: seq<Action>)
    ensures forall i :: 0 <= i < |acts| ==> !acts[i].Sleep?
  {
    match ev.action
    case "move" =>
      if ev.x.Some? && ev.y.Some? then [MoveAbs(ev.x.value, ev.y.value)]
      else [Diag(MoveNeedsCoordinates)]
    case "click" => ButtonActions(ev.button, Click)
    case "press" => ButtonActions(ev.button, Press)
    case "release" => ButtonActions(ev.button, Release)
    case "scroll" => ScrollActions(ev.scrollX, ev.scrollY)
    case _ => [Diag(UnknownMouseAction(ev.action))]
  }

  /** A move needs both coordinates and is otherwise only reported. */
  lemma MoveActions(ev: MouseSimulationEvent)
    requires ev.action == "move"
    ensures MouseActions(ev)
         == if ev.x.Some? && ev.y.Some? then [MoveAbs(ev.x.value, ev.y.value)] else [Diag(MoveNeedsCoordinates)]
  {
  }

  /** A click, press or release acts on the named button, or on the left
      button after reporting an invalid or missing name. */
  lemma ButtonCommandActions(ev: MouseSimulationEvent)
    requires ButtonDirection(ev.action).Some?
    ensures Filter(IsButtonAct, MouseActions(ev))
         == [ButtonAct(ParseButton(ev.button).0, ButtonDirection(ev.action).value)]
    ensures Filter(IsDiag, MouseActions(ev))
         == if ParseButton(ev.button).1 then [] else [Diag(InvalidButton)]
    ensures |MouseActions(ev)| == |Filter(IsButtonAct, MouseActions(ev))| + |Filter(IsDiag, MouseActions(ev))|
    ensures MouseActions(ev)
         == (if ParseButton(ev.button).1 then [] else [Diag(InvalidButton)])
            + [ButtonAct(ParseButton(ev.button).0, ButtonDirection(ev.action).value)]
  {
    var d := ButtonDirection(ev.action).value;
    assert MouseActions(ev) == ButtonActions(ev.button, d);
    var (button, valid) := ParseButton(ev.button);
    var pre: seq<Action> := if valid then [] else [Diag(InvalidButton)];
    FilterConcat(IsButtonAct, pre, [ButtonAct(button, d)]);
    FilterConcat(IsDiag, pre, [ButtonAct(button, d)]);
  }

  /** A scroll issues the horizontal amount, then the vertical one, each
      only when given, and nothing else. */
  lemma ScrollCommandActions(ev: MouseSimulationEvent)
    requires ev.action == "scroll"
    ensures Filter(IsScroll, MouseActions(ev)) == MouseActions(ev)
    ensures |MouseActions(ev)| == (if ev.scrollX.Some? then 1 else 0) + (if ev.scrollY.Some? then 1 else 0)
    ensures forall i :: 0 <= i < |MouseActions(ev)| ==>
      MouseActions(ev)[i] == (if i == 0 && ev.scrollX.Some? then Scroll(Horizontal, ev.scrollX.value)
                              else Scroll(Vertical, ev.scrollY.value))
  {
    var acts := MouseActions(ev);
    assert acts == ScrollActions(ev.scrollX, ev.scrollY);
    var h: seq<Action> := if ev.scrollX.Some? then [Scroll(Horizontal, ev.scrollX.value)] else [];
    var v: seq<Action> := if ev.scrollY.Some? then [Scroll(Vertical, ev.scrollY.value)] else [];
    FilterConcat(IsScroll, h, v);
  }

  /** Any other action word is only reported. */
  lemma UnknownMouseActionIsReported(ev: MouseSimulationEvent)
    requires ev.action != "move" && ev.action != "scroll" && ButtonDirection(ev.action).None?
    ensures MouseActions(ev) == [Diag(UnknownMouseAction(ev.action))]
  {
  }

  /** `handle_mouse_event`: the command's actions, then its delay, whatever
      the action word (an unknown one included). */
  function HandleMouseEvent(ev: MouseSimulationEvent): (acts: seq<Action>)
    ensures Filter(IsSleep, acts) == DelayAfter(ev.delayAfterMs)
    ensures SleepsLast(acts)
    ensures acts[..|acts| - |DelayAfter(ev.delayAfterMs)|] == MouseActions(ev)
  {
    var main := MouseActions(ev);
    FilterConcat(IsSleep, main, DelayAfter(ev.delayAfterMs));
    FilterEmpty(IsSleep, main);
    main + DelayAfter(ev.delayAfterMs)
  }

  /** The animation fields of a mouse command are never read. */
  lemma MouseIgnoresAnimation(ev: MouseSimulationEvent, duration: Option<U64>, ease: Option<string>)
    ensures HandleMouseEvent(ev.(durationMs := duration, ease := ease)) == HandleMouseEvent(ev)
  {
  }

  /** A button name printed by the pointer capture selects the same button
      when fed back as a command; a numbered button falls back to the left
      button with a diagnostic. */
  lemma CapturedButtonNames(b: Events.Button)
    ensures ParseButton(Some(Mouse.ButtonToString(b)))
         == match b
            case Left => (Left, true)
            case Right => (Right, true)
            case Middle => (Middle, true)
            case Unknown(_) => (Left, false)
  {
    var name := Mouse.ButtonToString(b);
    if b.Unknown? {
      assert name[..7] == "button_";
      assert name != "left" && name != "right" && name != "middle";
    }
  }
}
