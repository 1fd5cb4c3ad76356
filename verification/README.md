# Keyboard and mouse listener: a Dafny model of its event handling

The program listens to global keyboard and mouse events and prints one JSON
record per line. It has four capture modes and one command mode, and this
project models the decision logic of each as pure functions.

- **Direct capture** (`src/direct.rs`): every key press or release becomes a
  `direct` record.
- **Combination capture** (`src/complex.rs`): tracks the set of held keys and
  the *combination*, the names of the held keys in press order. Each new press
  prints a `direct` record and then a `press` or `combination` record. Each
  release of a held key prints a `direct` record and then, while other keys
  remain held, a `combination` record. The code also contains a `release`
  record for the final release, but that branch cannot be reached (see
  Findings).
- **Hold-and-release capture** (`src/hold_and_release.rs`): collects the names
  of every key pressed during one span of continuous holding. When the last
  key is let go, it prints a single `key_sequence` record with start time, end
  time and duration.
- **Mouse capture** (`src/mouse.rs`): moves, button presses and releases, and
  wheel turns become `move`, `button` and `scroll` records. Fields that do not
  apply are left out of the object.
- **Simulation** (`src/simulation.rs`): reads key and mouse commands and turns
  them into key, button, move and scroll actions for the synthesis back-end.
  Diagnostics and trailing pauses are also actions.

The record shapes and their field order are in `src/models.rs`.

How the source's runtime parts appear in the model:

- **Capture callbacks** become step functions `Step(state, event, now,
  nameOf)` that return the next state and the records printed, in print
  order. A `Run` folds a step over a stream of time-stamped events.
- **Key names** are a parameter. The capture library's key type is a type
  parameter `K`, and its debug name (`format!("{:?}", key)`) is the function
  `nameOf: K -> string`. Most results hold for every naming. Results that need
  distinct names for distinct keys say so with `Injective(nameOf)`.
- **The clock** (`Utc::now`) is a parameter `now` of each step.
- **Printing** becomes the returned record sequence. JSON text itself is not
  produced; `Models.Fields` gives the field names of each record's object, in
  output order.
- **Reference semantics** in `Events`, independent of any tracker, give the
  meaning of a key-event stream:
  - `Held`: the keys pressed and not released since;
  - `HeldOrder`: those keys in press order;
  - `SpanJoins`: the presses that joined the current span of holding.

  The trackers are proved against these definitions.

Points where the code's own text suggests one behaviour and its statements
do another, and what the model does about each:

- **Final `release` record.** The comments at `src/complex.rs:74`, `:77`
  and `:84` say that the last release sends the last state of the
  combination and clears it only after that record is sent. The statements
  remove the released name first and only then test the combination for
  emptiness, so that record never appears. The model keeps the code's
  behaviour in `Complex.Step` and the commented intent in
  `Complex.StepIntended` (see Findings).
- **Mouse command timing.** `src/models.rs:43-44` declares `duration_ms` as
  the duration of an animated movement and `ease` as the name of an easing
  function. `handle_mouse_event` never reads either field, and a move is a
  single absolute jump. The model follows the statements
  (`Simulation.MouseIgnoresAnimation`).
- **Taps and clicks.** A tap or a click is one back-end call with the
  `Click` direction (`src/simulation.rs:151`, `:186`), and so it is one
  action in the model.
- **Scroll fields.** The pointer capture fills fields named `delta_x` and
  `delta_y` (`src/mouse.rs:25-26`, `:58-59`). The record type declares them
  as `scroll_x` and `scroll_y` (`src/models.rs:75-78`). The model uses the
  record type's names.

## Model

| member | source | states |
|---|---|---|
| Complex.Step | src/complex.rs:16-101 | A repeated press, or a release of a key not held, changes nothing and prints nothing; events other than key events are ignored. A new press adds the key and appends its name unless the name is already present. It prints a direct press record, then a classified record of the new combination tagged `press` exactly when nothing was held before and `combination` otherwise. A release of a held key prints a direct release record; while keys remain, it then prints a `combination` record of the combination with the name removed. At the final release the combination ends empty, and a second record is printed exactly when removing the name left something. No name is ever duplicated. |
| Complex.StepIntended | src/complex.rs:74-85 | The corrected step reaches the same state as the code on every event. Its first record is always the code's first record. Its records differ from the code's only at the release that empties the held set. |
| Complex.SoundClosingRelease | src/complex.rs:74-85 | In a sound state, the release of the only held key prints only its direct record as written. The corrected step prints the same record followed by a `release` record of the combination as it stood before the removal, when that combination is not empty. |
| Complex.StepSound | src/complex.rs:23-97 | Both steps keep the combination free of duplicates and keep it to names of keys that are still held, whatever the naming. |
| Complex.SoundStepNeverReleases | src/complex.rs:57-85 | From such a state, no step prints a `release` record. |
| Complex.RunHeld | src/complex.rs:23-61 | After any stream, the tracked set is exactly the set of keys pressed and not released since. |
| Complex.RunSound | src/complex.rs:16-101 | Every state reached from the initial one satisfies the invariant of `StepSound`. |
| Complex.NeverReleases | src/complex.rs:75-85 | On every stream and with every naming, the code as written prints no `release` record at all. |
| Complex.CombinationIsHeldOrder | src/complex.rs:23-61 | With distinct names, the combination after any stream is exactly the names of the held keys, in the order they were pressed. |
| Complex.StepFollowsHeldOrder | src/complex.rs:25-61 | One step keeps the combination equal to the named reference press order. |
| Complex.IntendedReleaseCarriesLastKey | src/complex.rs:74-85 | With the corrected step and distinct names, releasing the only held key prints its direct record and then a `release` record listing that key's name. |
| Complex.ABRun1 | src/complex.rs:23-53 | Pressing A on an idle keyboard prints the direct record of A and `press` of `[A]`. |
| Complex.ABRun2 | src/complex.rs:23-53 | Pressing B while A is held then prints the direct record of B and `combination` of `[A, B]`. |
| Complex.ABRun3 | src/complex.rs:55-97 | Releasing A while B is held then prints the direct record of A and `combination` of `[B]`. |
| Complex.ABScenarioAsWritten | src/complex.rs:55-97 | As written, releasing B last prints only its direct record. |
| Complex.ABScenarioIntended | src/complex.rs:74-85 | The corrected step ends the same scenario with the direct record of B and `release` of `[B]`. |
| HoldRelease.Step | src/hold_and_release.rs:18-69 | Each step prints at most one record, and only the release of the last held key prints one. A new press records the start time if there is none and otherwise keeps the earlier one, and adds the key's name once. A partial release only shrinks the held set. The closing release prints the collected names, the start, the release time and their wrapped `u64` difference, then resets. Duplicate names never arise. |
| HoldRelease.StepValid | src/hold_and_release.rs:24-68 | A start time is set exactly while keys are held, and so is a non-empty name list; no name is listed twice; every held key's name is listed. Every step preserves all of this. |
| HoldRelease.Run | src/hold_and_release.rs:18-69 | On any stream, whatever the order of its times, every reached state satisfies the invariant above and tracks exactly the held keys. |
| HoldRelease.RunFollowsSpan | src/hold_and_release.rs:29-37 | The start is the time of the first press of the current span. The names are those of every key that joined the span, in first-press order, each once, including keys released again. |
| HoldRelease.ClosingSpan | src/hold_and_release.rs:40-44 | Just before the closing release, the tracker holds the span's first-press time as its start. |
| HoldRelease.ClosingStep | src/hold_and_release.rs:43-62 | The closing release prints one `key_sequence` record whose duration is end minus start, wrapped modulo 2^64, and resets the tracker. |
| HoldRelease.ClosingRecord | src/hold_and_release.rs:40-63 | On any stream, the release that empties the held set prints exactly one record. It lists the span's names in first-press order, starts at the span's first press, ends at the release, and lasts their difference, wrapped modulo 2^64. Afterwards the tracker is back in its initial state. |
| HoldRelease.PartialReleaseIsSilent | src/hold_and_release.rs:40-43 | Releasing one of several held keys prints nothing and changes only the held set. |
| HoldRelease.ABRun1 | src/hold_and_release.rs:25-38 | Pressing A starts a span at its time and lists `[A]`. |
| HoldRelease.ABRun2 | src/hold_and_release.rs:25-38 | Pressing B while A is held keeps the start and lists `[A, B]`. |
| HoldRelease.ABRun3 | src/hold_and_release.rs:40-43 | Releasing A while B is held keeps the list `[A, B]` and prints nothing. |
| HoldRelease.ABScenarioRecord | src/hold_and_release.rs:40-63 | Hold A, hold B, release A, release B prints the single record `[A, B]`, start 0, end 3, duration 3. |
| Direct.Callback | src/direct.rs:6-23 | Key events produce a record and nothing else does. The record carries the key's name, `direct`, whether it was a press, and the time. |
| Direct.Records | src/direct.rs:6-30 | A stream produces one record per key event, in order, each describing its event. |
| Direct.RepeatedPressIsReported | src/direct.rs:9-14 | Two presses of the same key without a release print two press records. |
| Mouse.ButtonToString | src/mouse.rs:6-13 | The three named buttons print as `left`, `right` and `middle`. Any other button prints as `button_` followed by its code in decimal, and reading those digits back gives the code. |
| Mouse.ButtonToStringInjective | src/mouse.rs:6-13 | Distinct buttons print distinct names. |
| Mouse.Callback | src/mouse.rs:16-64 | Keyboard events produce no record. A move record carries both coordinates and nothing else optional. A button record carries the button's name and whether it was pressed. A scroll record carries both wheel deltas, each reduced to 32 bits so that it agrees with the 64-bit delta modulo 2^32. Every record carries the time. |
| Mouse.MoveFields | src/mouse.rs:19-28 | A move record's object has the fields `event_type`, `x`, `y`, `timestamp`, in that order. |
| Mouse.ButtonFields | src/mouse.rs:29-50 | A button record's object has the fields `event_type`, `button`, `pressed`, `timestamp`, in that order. |
| Mouse.ScrollFields | src/mouse.rs:51-61 | A scroll record's object has the fields `event_type`, `scroll_x`, `scroll_y`, `timestamp`, in that order. |
| Ints.WrapI32 | src/mouse.rs:58-59 | The cast of a 64-bit delta to 32 bits gives a value congruent to it modulo 2^32, and leaves values already in range unchanged. |
| Ints.WrapSubU64 | src/hold_and_release.rs:46 | The duration subtraction gives the true difference when the end is not before the start; otherwise it wraps around 2^64. |
| HoldRelease.ClockBackwardsWraps | src/hold_and_release.rs:44-54 | Holding a key from time 5 until a release stamped 3 prints a duration of 2^64 - 2. |
| Ints.WrapI32Unique | src/mouse.rs:58-59 | That value is the only 32-bit integer congruent to the delta. |
| Decimal.ReadShow | src/mouse.rs:11 | Reading the decimal rendering of a number gives the number back. |
| Decimal.ShowInjective | src/mouse.rs:11 | Distinct numbers have distinct decimal renderings. |
| Models.Fields | src/models.rs:3-80 | The key records always write all their fields, each once. A pointer record writes `event_type` first and `timestamp` last, and between them exactly the optional fields that are set. |
| Models.KeyRecordFields | src/models.rs:3-25 | A direct record writes `key`, `event_type`, `pressed`, `timestamp`; a classified record writes `keys`, `event_type`, `timestamp`; a sequence record writes `keys`, `start_time`, `end_time`, `duration_ms`, `event_type`, each in that order. |
| Models.OptionalFields | src/models.rs:66-78 | The optional part of a pointer record's object names exactly its set fields. |
| Models.PointerFieldPresence | src/models.rs:64-80 | Each optional field of a pointer record appears in its object exactly when it is set; `event_type` and `timestamp` always appear. |
| Models.KindOfTag | src/models.rs:53-62 | A command's tag selects a payload exactly when it is `key`, `mouse` or `text`. |
| Models.TagRoundTrip | src/models.rs:53-62 | The tag of each command kind selects that kind again, and distinct kinds have distinct tags. |
| Seqs.RemoveFirst | src/complex.rs:59-61 | Removing a name that is absent changes nothing, and removing one that is present shortens the list by one. On a duplicate-free list it is the same as dropping every occurrence of the name. |
| Seqs.WithoutElems | src/complex.rs:59-61 | Dropping every occurrence of a name removes exactly that name from the set of elements and keeps a duplicate-free list duplicate-free. |
| Simulation.NamedKey | src/simulation.rs:7-103 | A name found in the key table is exactly the listed name of the key it selects. |
| Simulation.NamedKeyOfName | src/simulation.rs:7-103 | Every listed name selects its own key: the table is a bijection between its names and the named keys. |
| Simulation.Utf8Len | src/simulation.rs:105 | A string's byte length is at least its character count. It equals the count exactly when every character is ASCII, and it is 1 exactly for a single ASCII character. |
| Simulation.StringToKey | src/simulation.rs:6-112 | A named result is the key whose listed name was given, and a Windows-only key is returned only on Windows. A character result comes from a string of exactly one byte, and every such string gives that character. |
| Simulation.StringToKeyOfName | src/simulation.rs:61-103 | A listed name gives its key, except that the number-pad and number-row names give nothing off Windows. |
| Simulation.MultiByteCharacterIsNoKey | src/simulation.rs:105-110 | A single character that takes more than one byte in UTF-8 is not a key. |
| Simulation.KeyDirection | src/simulation.rs:143-157 | An action word is accepted exactly when it is `press`, `release` or `tap`, which select Press, Release and Click. |
| Simulation.HandleKeyEvent | src/simulation.rs:140-165 | An unsupported key is only reported, and even a given delay is not slept. For a supported key the actions are exactly one action followed by the delay, if any. That action is the key action for a known action word and an unknown-action diagnostic otherwise. |
| Simulation.ListedKeyCommand | src/simulation.rs:140-165 | A key command naming any listed key that exists on the platform, with a known action word, acts on exactly that key in the selected direction and then pauses. |
| Simulation.ParseButton | src/simulation.rs:177-185 | `left`, `right` and `middle` select the left, right and middle button. Any other name, or none, selects the left button and is flagged invalid. |
| Simulation.ButtonDirection | src/simulation.rs:176-211 | A mouse action word is a button action exactly when it is `click`, `press` or `release`, which select Click, Press and Release. |
| Simulation.MouseActions | src/simulation.rs:168-225 | No mouse command's main actions include a pause. |
| Simulation.MoveActions | src/simulation.rs:169-175 | A move with both coordinates moves to them; otherwise it is only reported. |
| Simulation.ButtonCommandActions | src/simulation.rs:176-211 | A click, press or release does exactly one button action, on the parsed button. That action is preceded by an invalid-button diagnostic exactly when the name was not recognised, and nothing else is done. |
| Simulation.ScrollCommandActions | src/simulation.rs:212-220 | A scroll issues the horizontal amount and then the vertical one, each only when given, and nothing else. |
| Simulation.UnknownMouseActionIsReported | src/simulation.rs:221-224 | Any other action word is only reported. |
| Simulation.HandleMouseEvent | src/simulation.rs:167-230 | A mouse command performs its main actions and then sleeps its delay, whatever the action word, including an unknown one. |
| Simulation.MouseIgnoresAnimation | src/simulation.rs:167-230 | The duration and easing fields of a mouse command never change what it does. |
| Simulation.CapturedButtonNames | src/simulation.rs:177-185 | A button name printed by the pointer capture selects the same button when given back as a command. A numbered button falls back to the left button with a diagnostic. |

## Left out

- Listening, printing and the thread that blocks in the capture library are not modelled. Each capture callback is a step function whose printed records are its result.
- The locks around the shared state are not modelled. Each callback holds every lock for its whole run, so events are handled one at a time, and the model's sequential fold relies on exactly that.
- The wall-clock read is a parameter of each step. Streams may carry times in any order.
- Key names come from the capture library's debug formatting, which is not part of this model. They are the parameter `nameOf`.
- JSON encoding and decoding are not modelled. Only the field names and their order (`Models.Fields`) and the command tag (`Models.KindOfTag`) are. A line that fails to decode only produces a diagnostic.
- The floating-point pointer coordinates of move events, and their cast to `i32`, are not modelled. Move events carry 32-bit integers directly.
- `src/main.rs` (mode selection) and `src/lib.rs` are not part of this model.
- Text commands are not modelled. The command loop in `src/simulation.rs` does not handle the `text` variant of the command type, so the source gives no behaviour for it.
- The synthesis back-end's effects, and the errors it returns (which the code ignores), are not modelled. Each back-end call is an `Action`.
- The `target_os = "windows"` configuration is the parameter `windows` of `Simulation.StringToKey`.
- HoldRelease.Step: the duration subtraction is modelled as in a release build, where `u64` subtraction wraps. A debug build checks for overflow and panics instead when the closing release is stamped before the span's start; that panic is not modelled.

## Findings

| source | as written | input that shows it | evidently intended | confidence | as-written member | corrected member |
|---|---|---|---|---|---|---|
| src/complex.rs:57-85 | The released key's name is removed from the combination before the `release` guard tests that the combination is non-empty. The combination only ever holds names of held keys, so it is always empty at the last release and the `release` record is never printed. | press A, press B, release A, release B: the last release prints only the direct record of B | After the last release, a `release` record with the combination as it stood before the removal (`[B]`), then the combination is cleared | not executed | Complex.NeverReleases | Complex.IntendedReleaseCarriesLastKey |
