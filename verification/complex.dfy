/** The combination tracker: the set of held keys and the names of the held
    keys in press order. Each key event goes through one step that updates
    the state and yields the records printed for it, in print order. */
module Complex {
  import Wrappers
  import opened Ints
  import opened Seqs
  import opened Events
  import opened Models

  datatype State<K> = State(pressed: set<K>, combination: seq<string>)

  /** The state after one event and the records printed for it. */
  datatype Transition<K> = Transition(next: State<K>, emitted: seq<Record>)

  function Initial<K>(): State<K>
  {
    State({}, [])
  }

  function DirectRecord(name: string, pressed: bool, now: U64): Record
  {
    Direct(KeyEvent(name, "direct", pressed, now))
  }

  function ClassRecord(keys: seq<string>, tag: string, now: U64): Record
  {
    Classified(ComplexKeyEvent(keys, tag, now))
  }

  predicate IsRelease(r: Record)
  {
    r.Classified? && r.complex.eventType == "release"
  }

  /** One event, as the program handles it. `nameOf` gives a key's printed
      name; `now` is the wall-clock time read for the event. */
  function Step<K(==)>(s: State<K>, ev: Event<K>, now: U64, nameOf: K -> string): (r: Transition<K>)
    ensures !ev.IsKeyboard() ==> r == Transition(s, [])
    ensures ev.KeyPress? && ev.key in s.pressed ==> r == Transition(s, [])
    ensures ev.KeyRelease? && ev.key !in s.pressed ==> r == Transition(s, [])
    ensures ev.KeyPress? && ev.key !in s.pressed ==>
      var name := nameOf(ev.key);
      && r.next.pressed == s.pressed + {ev.key}
      && s.combination <= r.next.combination
      && name in r.next.combination
      && (name in s.combination ==> r.next.combination == s.combination)
      && (name !in s.combination ==> r.next.combination == s.combination + [name])
      && |r.emitted| == 2
      && r.emitted[0] == DirectRecord(name, true, now)
      && r.emitted[1].Classified?
      && r.emitted[1].complex.keys == r.next.combination
      && r.emitted[1].complex.timestamp == now
      && (r.emitted[1].complex.eventType == "press" <==> s.pressed == {})
      && (r.emitted[1].complex.eventType == "combination" <==> s.pressed != {})
    ensures ev.KeyRelease? && ev.key in s.pressed ==>
      var name := nameOf(ev.key);
      && r.next.pressed == s.pressed - {ev.key}
      && 1 <= |r.emitted| <= 2
      && r.emitted[0] == DirectRecord(name, false, now)
      && (NoDup(s.combination) && r.next.pressed != {} ==>
            r.next.combination == Without(s.combination, name))
      && (r.next.pressed != {} ==>
            r.emitted == [r.emitted[0], ClassRecord(r.next.combination, "combination", now)])
      && (r.next.pressed == {} ==> r.next.combination == [])
      && (r.next.pressed == {} ==>
            (|r.emitted| == 2 <==> RemoveFirst(s.combination, name) != []))
    ensures NoDup(s.combination) ==> NoDup(r.next.combination)
  {
    match ev
    case KeyPress(k) =>
      if k in s.pressed then Transition(s, [])
      else
        var name := nameOf(k);
        var combination := if name in s.combination then s.combination else s.combination + [name];
        assert NoDup(s.combination) ==> NoDup(combination);
        var tag := if s.pressed == {} then "press" else "combination";
        Transition(State(s.pressed + {k}, combination),
                   [DirectRecord(name, true, now), ClassRecord(combination, tag, now)])
    case KeyRelease(k) =>
      if k !in s.pressed then Transition(s, [])
      else
        var name := nameOf(k);
        var pressed := s.pressed - {k};
        var combination := RemoveFirst(s.combination, name);
        var direct := DirectRecord(name, false, now);
        if pressed == {} && combination != [] then
          Transition(State(pressed, []), [direct, ClassRecord(combination, "release", now)])
        else if pressed != {} then
          Transition(State(pressed, combination), [direct, ClassRecord(combination, "combination", now)])
        else
          Transition(State(pressed, combination), [direct])
    case _ => Transition(s, [])
  }

  /** The step the comments at the final release describe: the `release`
      record carries the combination as it stood before the released key's
      name was removed, and only then is the combination cleared. The
      correction never changes the state the tracker reaches, and it
      changes the printed records only at the release that empties the
      held set. */
  function StepIntended<K(==)>(s: State<K>, ev: Event<K>, now: U64, nameOf: K -> string): (r: Transition<K>)
    ensures r.next == Step(s, ev, now, nameOf).next
    ensures Step(s, ev, now, nameOf).emitted != [] ==>
      r.emitted != [] && r.emitted[0] == Step(s, ev, now, nameOf).emitted[0]
    ensures !(ev.KeyRelease? && s.pressed == {ev.key}) ==> r.emitted == Step(s, ev, now, nameOf).emitted
  {
    if ev.KeyRelease? && s.pressed == {ev.key} then
      var direct := DirectRecord(nameOf(ev.key), false, now);
      if s.combination != [] then
        Transition(Initial(), [direct, ClassRecord(s.combination, "release", now)])
      else
        Transition(Initial(), [direct])
    else Step(s, ev, now, nameOf)
  }

  function Names<K>(keys: set<K>, nameOf: K -> string): set<string>
  {
    set k | k in keys :: nameOf(k)
  }

  /** What every reachable state satisfies, whatever the naming: no name
      twice, and only names of keys still held. */
  ghost predicate Sound<K>(s: State<K>, nameOf: K -> string)
  {
    NoDup(s.combination) && Elems(s.combination) <= Names(s.pressed, nameOf)
  }

  lemma StepSound<K>(s: State<K>, ev: Event<K>, now: U64, nameOf: K -> string)
    requires Sound(s, nameOf)
    ensures Sound(Step(s, ev, now, nameOf).next, nameOf)
    ensures Sound(StepIntended(s, ev, now, nameOf).next, nameOf)
  {
    var r := Step(s, ev, now, nameOf);
    match ev
    case KeyPress(k) =>
      if k !in s.pressed {
        assert Elems(r.next.combination) <= Elems(s.combination) + {nameOf(k)};
        assert nameOf(k) in Names(r.next.pressed, nameOf);
      }
    case KeyRelease(k) =>
      if k in s.pressed && r.next.pressed != {} {
        var name := nameOf(k);
        forall n | n in Elems(r.next.combination)
          ensures n in Names(r.next.pressed, nameOf)
        {
          assert n in Elems(s.combination) && n != name;
          var j :| j in s.pressed && nameOf(j) == n;
          assert j != k;
        }
      }
    case _ =>
  }

  /** In a sound state the program never prints a `release` record: when
      the last key goes, its name was the only one left, and removing it
      leaves the combination empty before the guard reads it. */
  lemma SoundStepNeverReleases<K>(s: State<K>, ev: Event<K>, now: U64, nameOf: K -> string)
    requires Sound(s, nameOf)
    ensures forall i :: 0 <= i < |Step(s, ev, now, nameOf).emitted| ==>
      !IsRelease(Step(s, ev, now, nameOf).emitted[i])
  {
    var r := Step(s, ev, now, nameOf);
    if ev.KeyRelease? && ev.key in s.pressed && r.next.pressed == {} {
      var k := ev.key;
      assert s.pressed == {k};
      var rest := Without(s.combination, nameOf(k));
      WithoutElems(s.combination, nameOf(k));
      assert Names(s.pressed, nameOf) == {nameOf(k)};
      assert Elems(rest) == {};
      EmptyElems(rest);
    }
  }

  /** In a sound state the corrected final release prints what the code
      prints, the direct record alone, followed by the `release` record of
      the combination before the removal, when that combination is not
      empty. */
  lemma SoundClosingRelease<K>(s: State<K>, k: K, now: U64, nameOf: K -> string)
    requires Sound(s, nameOf) && s.pressed == {k}
    ensures Step(s, KeyRelease(k), now, nameOf).emitted == [DirectRecord(nameOf(k), false, now)]
    ensures StepIntended(s, KeyRelease(k), now, nameOf).emitted
         == Step(s, KeyRelease(k), now, nameOf).emitted
            + (if s.combination != [] then [ClassRecord(s.combination, "release", now)] else [])
  {
    var rest := Without(s.combination, nameOf(k));
    WithoutElems(s.combination, nameOf(k));
    assert Names(s.pressed, nameOf) == {nameOf(k)};
    assert Elems(rest) == {};
    EmptyElems(rest);
  }

  /** The printed stream and final state for a whole event stream, handled
      by `Step` (as written) or by `StepIntended`. */
  function Run<K(==)>(t: seq<Stamped<K>>, nameOf: K -> string, intended: bool): (r: Transition<K>)
  {
    if t == [] then Transition(Initial(), [])
    else
      var before := Run(t[..|t| - 1], nameOf, intended);
      var e := t[|t| - 1];
      var x := if intended then StepIntended(before.next, e.event, e.time, nameOf)
               else Step(before.next, e.event, e.time, nameOf);
      Transition(x.next, before.emitted + x.emitted)
  }

  /** Both variants track exactly the keys held according to the stream. */
  lemma {:induction false} RunHeld<K>(t: seq<Stamped<K>>, nameOf: K -> string, intended: bool)
    ensures Run(t, nameOf, intended).next.pressed == Held(t)
    decreases |t|
  {
    if t != [] {
      RunHeld(t[..|t| - 1], nameOf, intended);
    }
  }

  /** Every state either variant reaches is sound. */
  lemma {:induction false} RunSound<K>(t: seq<Stamped<K>>, nameOf: K -> string, intended: bool)
    ensures Sound(Run(t, nameOf, intended).next, nameOf)
    decreases |t|
  {
    if t != [] {
      var p := t[..|t| - 1];
      var e := t[|t| - 1];
      RunSound(p, nameOf, intended);
      StepSound(Run(p, nameOf, intended).next, e.event, e.time, nameOf);
    }
  }

  /** Whatever the naming and whatever the stream, the program as written
      never prints a `release` record. */
  lemma {:induction false} NeverReleases<K>(t: seq<Stamped<K>>, nameOf: K -> string)
    ensures forall i :: 0 <= i < |Run(t, nameOf, false).emitted| ==>
      !IsRelease(Run(t, nameOf, false).emitted[i])
    decreases |t|
  {
    if t != [] {
      var p := t[..|t| - 1];
      var e := t[|t| - 1];
      NeverReleases(p, nameOf);
      RunSound(p, nameOf, false);
      SoundStepNeverReleases(Run(p, nameOf, false).next, e.event, e.time, nameOf);
    }
  }

  /** With distinct names for distinct keys, the combination is exactly the
      names of the held keys, in the order they were pressed, after every
      prefix of the stream (both variants share the same states). */
  lemma {:induction false} CombinationIsHeldOrder<K(!new)>(t: seq<Stamped<K>>, nameOf: K -> string, intended: bool)
    requires Injective(nameOf)
    ensures Run(t, nameOf, intended).next.combination == Map(nameOf, HeldOrder(t))
    decreases |t|
  {
    if t != [] {
      var p := t[..|t| - 1];
      var e := t[|t| - 1];
      CombinationIsHeldOrder(p, nameOf, intended);
      RunHeld(p, nameOf, intended);
      HeldOrderIsHeld(p);
      StepFollowsHeldOrder(Run(p, nameOf, intended).next, HeldOrder(p), e.event, e.time, nameOf);
    }
  }

  /** One step keeps the combination equal to the named reference order. */
  lemma StepFollowsHeldOrder<K(!new)>(s: State<K>, o: seq<K>, ev: Event<K>, now: U64, nameOf: K -> string)
    requires Injective(nameOf)
    requires NoDup(o) && s.pressed == Elems(o) && s.combination == Map(nameOf, o)
    ensures Step(s, ev, now, nameOf).next.combination == Map(nameOf, NextHeldOrder(o, ev))
    ensures StepIntended(s, ev, now, nameOf).next.combination == Map(nameOf, NextHeldOrder(o, ev))
  {
    match ev
    case KeyPress(k) =>
      MapIn(nameOf, o, k);
      if k !in o {
        assert Map(nameOf, o + [k]) == Map(nameOf, o) + [nameOf(k)];
      }
    case KeyRelease(k) =>
      MapWithout(nameOf, o, k);
      if k in s.pressed {
        MapNoDup(nameOf, o);
        if s.pressed == {k} {
          WithoutElems(o, k);
          assert Elems(Without(o, k)) == {};
          EmptyElems(Without(o, k));
        }
      }
    case _ =>
  }

  /** The corrected step keeps the promise of the comments: on any stream,
      with distinct names for distinct keys, releasing the last held key
      prints its direct record and then one `release` record carrying that
      key's name. */
  lemma IntendedReleaseCarriesLastKey<K(!new)>(t: seq<Stamped<K>>, k: K, now: U64, nameOf: K -> string)
    requires Injective(nameOf)
    requires Held(t) == {k}
    ensures StepIntended(Run(t, nameOf, true).next, KeyRelease(k), now, nameOf).emitted
         == [DirectRecord(nameOf(k), false, now), ClassRecord([nameOf(k)], "release", now)]
  {
    CombinationIsHeldOrder(t, nameOf, true);
    RunHeld(t, nameOf, true);
    HeldOrderIsHeld(t);
    var o := HeldOrder(t);
    NoDupCard(o);
    assert |o| == 1;
    assert o[0] in Elems(o);
    assert o == [k];
    assert Map(nameOf, o) == [nameOf(k)];
    var s := Run(t, nameOf, true).next;
    assert s.pressed == {k} && s.combination == [nameOf(k)];
  }

  lemma RunSnoc<K>(p: seq<Stamped<K>>, e: Stamped<K>, nameOf: K -> string, intended: bool)
    ensures var before := Run(p, nameOf, intended);
      var x := if intended then StepIntended(before.next, e.event, e.time, nameOf)
               else Step(before.next, e.event, e.time, nameOf);
      Run(p + [e], nameOf, intended) == Transition(x.next, before.emitted + x.emitted)
  {
    assert (p + [e])[..|p|] == p;
  }

  lemma ABStep1()
    ensures Step(Initial<string>(), KeyPress("A"), 0, Ident)
         == Transition(State({"A"}, ["A"]), [DirectRecord("A", true, 0), ClassRecord(["A"], "press", 0)])
    ensures StepIntended(Initial<string>(), KeyPress("A"), 0, Ident)
         == Step(Initial<string>(), KeyPress("A"), 0, Ident)
  {
    assert [] + ["A"] == ["A"];
  }

  lemma ABStep2()
    ensures Step(State({"A"}, ["A"]), KeyPress("B"), 1, Ident)
         == Transition(State({"A", "B"}, ["A", "B"]), [DirectRecord("B", true, 1), ClassRecord(["A", "B"], "combination", 1)])
    ensures StepIntended(State({"A"}, ["A"]), KeyPress("B"), 1, Ident)
         == Step(State({"A"}, ["A"]), KeyPress("B"), 1, Ident)
  {
    assert "B" !in ["A"];
    assert ["A"] + ["B"] == ["A", "B"];
  }

  lemma ABStep3()
    ensures Step(State({"A", "B"}, ["A", "B"]), KeyRelease("A"), 2, Ident)
         == Transition(State({"B"}, ["B"]), [DirectRecord("A", false, 2), ClassRecord(["B"], "combination", 2)])
    ensures StepIntended(State({"A", "B"}, ["A", "B"]), KeyRelease("A"), 2, Ident)
         == Step(State({"A", "B"}, ["A", "B"]), KeyRelease("A"), 2, Ident)
  {
    var s := State({"A", "B"}, ["A", "B"]);
    assert s.pressed - {"A"} == {"B"};
    assert s.pressed != {"A"} by {
      assert "B" in s.pressed;
    }
    assert RemoveFirst(s.combination, "A") == ["B"] by {
      assert IndexOf(s.combination, "A") == Wrappers.Some(0);
      assert s.combination[1..] == ["B"];
    }
  }

  lemma ABStep4()
    ensures Step(State({"B"}, ["B"]), KeyRelease("B"), 3, Ident)
         == Transition(State({}, []), [DirectRecord("B", false, 3)])
    ensures StepIntended(State({"B"}, ["B"]), KeyRelease("B"), 3, Ident)
         == Transition(State({}, []), [DirectRecord("B", false, 3), ClassRecord(["B"], "release", 3)])
  {
    assert {"B"} - {"B"} == {};
    assert RemoveFirst(["B"], "B") == [];
  }

  /** Pressing `A` on an idle keyboard prints its direct record and a
      `press` record. */
  lemma ABRun1(intended: bool)
    ensures Run(ABScenario()[..1], Ident, intended)
         == Transition(State({"A"}, ["A"]), [DirectRecord("A", true, 0), ClassRecord(["A"], "press", 0)])
  {
    var t := ABScenario();
    ABStep1();
    assert t[..1] == [] + [t[0]];
    RunSnoc([], t[0], Ident, intended);
  }

  /** Pressing `B` while `A` is held prints a `combination` record of both. */
  lemma ABRun2(intended: bool)
    ensures Run(ABScenario()[..2], Ident, intended)
         == Transition(State({"A", "B"}, ["A", "B"]),
                       Run(ABScenario()[..1], Ident, intended).emitted
                       + [DirectRecord("B", true, 1), ClassRecord(["A", "B"], "combination", 1)])
  {
    var t := ABScenario();
    ABRun1(intended);
    ABStep2();
    assert t[..2] == t[..1] + [t[1]];
    RunSnoc(t[..1], t[1], Ident, intended);
  }

  /** Releasing `A` while `B` is still held prints a `combination` record
      of what remains. */
  lemma ABRun3(intended: bool)
    ensures Run(ABScenario()[..3], Ident, intended)
         == Transition(State({"B"}, ["B"]),
                       Run(ABScenario()[..2], Ident, intended).emitted
                       + [DirectRecord("A", false, 2), ClassRecord(["B"], "combination", 2)])
  {
    var t := ABScenario();
    var before := Run(t[..2], Ident, intended);
    assert before.next == State({"A", "B"}, ["A", "B"]) by {
      ABRun2(intended);
    }
    var x := if intended then StepIntended(before.next, t[2].event, t[2].time, Ident)
             else Step(before.next, t[2].event, t[2].time, Ident);
    assert x == Transition(State({"B"}, ["B"]), [DirectRecord("A", false, 2), ClassRecord(["B"], "combination", 2)]) by {
      ABStep3();
    }
    assert t[..3] == t[..2] + [t[2]];
    RunSnoc(t[..2], t[2], Ident, intended);
  }

  /** As written, the last release prints only its direct record: the
      combination is already empty when the guard is read. */
  lemma ABScenarioAsWritten()
    ensures Run(ABScenario(), Ident, false).emitted
         == Run(ABScenario()[..3], Ident, false).emitted + [DirectRecord("B", false, 3)]
  {
    var t := ABScenario();
    var before := Run(t[..3], Ident, false);
    assert before.next == State({"B"}, ["B"]) by {
      ABRun3(false);
    }
    assert Step(before.next, t[3].event, t[3].time, Ident).emitted == [DirectRecord("B", false, 3)] by {
      assert t[3] == Stamped(KeyRelease("B"), 3);
      ABStep4();
    }
    assert t == t[..3] + [t[3]];
    RunSnoc(t[..3], t[3], Ident, false);
  }

  /** The corrected step ends the same scenario with `release` of `[B]`. */
  lemma ABScenarioIntended()
    ensures Run(ABScenario(), Ident, true).emitted
         == Run(ABScenario()[..3], Ident, true).emitted
            + [DirectRecord("B", false, 3), ClassRecord(["B"], "release", 3)]
  {
    var t := ABScenario();
    var before := Run(t[..3], Ident, true);
    assert before.next == State({"B"}, ["B"]) by {
      ABRun3(true);
    }
    assert StepIntended(before.next, t[3].event, t[3].time, Ident).emitted == [DirectRecord("B", false, 3), ClassRecord(["B"], "release", 3)] by {
      assert t[3] == Stamped(KeyRelease("B"), 3);
      ABStep4();
    }
    assert t == t[..3] + [t[3]];
    RunSnoc(t[..3], t[3], Ident, true);
  }
}
