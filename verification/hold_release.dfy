/** The hold-sequence tracker: from the first press after an idle keyboard
    to the release that leaves no key held, it collects the name of every
    key that took part, and at that release prints one `key_sequence`
    record with the span's start, end and duration. */
module HoldRelease {
  import opened Wrappers
  import opened Ints
  import opened Seqs
  import opened Events
  import opened Models

  datatype State<K> = State(pressed: set<K>, sequence: seq<string>, start: Option<U64>)

  /** The state after one event and the records printed for it. */
  datatype Transition<K> = Transition(next: State<K>, emitted: seq<KeySequenceEvent>)

  function Initial<K>(): State<K>
  {
    State({}, [], None)
  }

  /** The event releases the only held key, ending the span. */
  predicate Closes<K(==)>(s: State<K>, ev: Event<K>)
  {
    ev.KeyRelease? && s.pressed == {ev.key}
  }

  /** One event, as the program handles it. The duration is the unsigned
      subtraction of a release build: it wraps around if the clock went
      back below the span's start. */
  function Step<K(==)>(s: State<K>, ev: Event<K>, now: U64, nameOf: K -> string): (r: Transition<K>)
    ensures |r.emitted| <= 1
    ensures !ev.IsKeyboard() ==> r == Transition(s, [])
    ensures ev.KeyPress? && ev.key in s.pressed ==> r == Transition(s, [])
    ensures ev.KeyRelease? && ev.key !in s.pressed ==> r == Transition(s, [])
    ensures ev.KeyPress? && ev.key !in s.pressed ==>
      var name := nameOf(ev.key);
      && r.emitted == []
      && r.next.pressed == s.pressed + {ev.key}
      && (s.start.Some? ==> r.next.start == s.start)
      && (s.start.None? ==> r.next.start == Some(now))
      && s.sequence <= r.next.sequence
      && name in r.next.sequence
      && (name in s.sequence ==> r.next.sequence == s.sequence)
      && (name !in s.sequence ==> r.next.sequence == s.sequence + [name])
    ensures ev.KeyRelease? && ev.key in s.pressed && !Closes(s, ev) ==>
      r == Transition(State(s.pressed - {ev.key}, s.sequence, s.start), [])
    ensures Closes(s, ev) && s.start.Some? ==>
      && r.next == Initial()
      && r.emitted == [KeySequenceEvent(s.sequence, s.start.value, now, WrapSubU64(now, s.start.value), "key_sequence")]
    ensures NoDup(s.sequence) ==> NoDup(r.next.sequence)
  {
    match ev
    case KeyPress(k) =>
      if k in s.pressed then Transition(s, [])
      else
        var start := if s.start.None? then Some(now) else s.start;
        var name := nameOf(k);
        var sequence := if name in s.sequence then s.sequence else s.sequence + [name];
        assert NoDup(s.sequence) ==> NoDup(sequence);
        Transition(State(s.pressed + {k}, sequence, start), [])
    case KeyRelease(k) =>
      if k !in s.pressed then Transition(s, [])
      else
        var pressed := s.pressed - {k};
        if pressed == {} then
          match s.start
          case Some(st) =>
            var record := KeySequenceEvent(s.sequence, st, now, WrapSubU64(now, st), "key_sequence");
            Transition(State(pressed, [], None), [record])
          case None => Transition(State(pressed, s.sequence, s.start), [])
        else Transition(State(pressed, s.sequence, s.start), [])
    case _ => Transition(s, [])
  }

  /** What every reachable state satisfies: a start time is recorded
      exactly while a key is held, and exactly while the sequence is
      non-empty; no name is recorded twice; every held key is recorded. */
  ghost predicate Valid<K>(s: State<K>, nameOf: K -> string)
  {
    && (s.start.Some? <==> s.pressed != {})
    && (s.sequence != [] <==> s.pressed != {})
    && NoDup(s.sequence)
    && (forall k | k in s.pressed :: nameOf(k) in s.sequence)
  }

  lemma StepValid<K>(s: State<K>, ev: Event<K>, now: U64, nameOf: K -> string)
    requires Valid(s, nameOf)
    ensures Valid(Step(s, ev, now, nameOf).next, nameOf)
  {
    var r := Step(s, ev, now, nameOf);
    if ev.KeyPress? && ev.key !in s.pressed {
      forall k | k in r.next.pressed ensures nameOf(k) in r.next.sequence {
        if k in s.pressed {
          assert nameOf(k) in s.sequence;
        }
      }
    }
  }

  /** The printed records and final state for a whole event stream, in
      whatever order its times come. */
  function Run<K(==)>(t: seq<Stamped<K>>, nameOf: K -> string): (r: Transition<K>)
    ensures Valid(r.next, nameOf)
    ensures r.next.pressed == Held(t)
  {
    if t == [] then Transition(Initial(), [])
    else
      var p := t[..|t| - 1];
      var e := t[|t| - 1];
      var before := Run(p, nameOf);
      StepValid(before.next, e.event, e.time, nameOf);
      var x := Step(before.next, e.event, e.time, nameOf);
      Transition(x.next, before.emitted + x.emitted)
  }

  /** The printed names of the keys that joined a span, in joining order. */
  function JoinNames<K>(joins: seq<Join<K>>, nameOf: K -> string): seq<string>
  {
    Map((j: Join<K>) => nameOf(j.key), joins)
  }

  /** Against the reference span: the start time is that of the span's
      first joining press (never overwritten by later ones), and the
      sequence lists the name of every key that joined, once each, in
      first-press order, including keys already released again. */
  lemma {:induction false} RunFollowsSpan<K>(t: seq<Stamped<K>>, nameOf: K -> string)
    ensures var s := Run(t, nameOf).next;
      && s.start == (if SpanJoins(t) == [] then None else Some(SpanJoins(t)[0].time))
      && FirstOccurrenceOrder(s.sequence, JoinNames(SpanJoins(t), nameOf))
    decreases |t|
  {
    if t == [] {
      assert FirstOccurrenceOrder([], JoinNames([], nameOf));
    } else {
      var p := t[..|t| - 1];
      var e := t[|t| - 1];
      RunFollowsSpan(p, nameOf);
      SpanJoinsWhileHeld(p);
      var s := Run(p, nameOf).next;
      var js := SpanJoins(p);
      match e.event
      case KeyPress(k) =>
        if k !in s.pressed {
          assert JoinNames(js + [Join(k, e.time)], nameOf) == JoinNames(js, nameOf) + [nameOf(k)];
          FirstOccurrenceAppend(s.sequence, JoinNames(js, nameOf), nameOf(k));
        }
      case KeyRelease(k) =>
        if s.pressed == {k} {
          assert JoinNames([], nameOf) == [];
        }
      case _ =>
    }
  }

  /** The release that ends a span prints exactly one `key_sequence`
      record: the span's keys in first-press order, the time of its first
      press, the release time, and their difference (wrapped around if the
      clock went back below the start); the tracker is then back in its
      initial state. */
  lemma ClosingRecord<K>(t: seq<Stamped<K>>, e: Stamped<K>, nameOf: K -> string)
    requires e.event.KeyRelease? && Held(t) == {e.event.key}
    ensures SpanJoins(t) != []
    ensures SpanJoins(t) != [] &&
      var s := Run(t, nameOf).next;
      var st := SpanJoins(t)[0].time;
      && FirstOccurrenceOrder(s.sequence, JoinNames(SpanJoins(t), nameOf))
      && Run(t + [e], nameOf)
         == Transition(Initial(), Run(t, nameOf).emitted
                                  + [KeySequenceEvent(s.sequence, st, e.time, WrapSubU64(e.time, st), "key_sequence")])
  {
    ClosingSpan(t, e, nameOf);
    var before := Run(t, nameOf);
    var st := SpanJoins(t)[0].time;
    var record := KeySequenceEvent(before.next.sequence, st, e.time, WrapSubU64(e.time, st), "key_sequence");
    assert Step(before.next, e.event, e.time, nameOf) == Transition(Initial(), [record]) by {
      ClosingStep(before.next, e.event, e.time, nameOf);
    }
    RunSnoc(t, e, nameOf);
  }

  /** Before the closing release, the tracker holds the span's start. */
  lemma ClosingSpan<K>(t: seq<Stamped<K>>, e: Stamped<K>, nameOf: K -> string)
    requires e.event.KeyRelease? && Held(t) == {e.event.key}
    ensures SpanJoins(t) != []
    ensures SpanJoins(t) != [] &&
      var s := Run(t, nameOf).next;
      && Closes(s, e.event)
      && s.start == Some(SpanJoins(t)[0].time)
      && FirstOccurrenceOrder(s.sequence, JoinNames(SpanJoins(t), nameOf))
  {
    RunFollowsSpan(t, nameOf);
    SpanJoinsWhileHeld(t);
  }

  /** The closing release itself, from any state with a start time. */
  lemma ClosingStep<K>(s: State<K>, ev: Event<K>, now: U64, nameOf: K -> string)
    requires Closes(s, ev) && s.start.Some?
    ensures Step(s, ev, now, nameOf)
         == Transition(Initial(), [KeySequenceEvent(s.sequence, s.start.value, now, WrapSubU64(now, s.start.value), "key_sequence")])
  {
  }

  /** A release that leaves other keys held prints nothing and changes
      only the held set. */
  lemma PartialReleaseIsSilent<K>(s: State<K>, k: K, now: U64, nameOf: K -> string)
    requires k in s.pressed && s.pressed != {k}
    ensures Step(s, KeyRelease(k), now, nameOf) == Transition(State(s.pressed - {k}, s.sequence, s.start), [])
  {
  }

  lemma ABStep1()
    ensures Step(Initial<string>(), KeyPress("A"), 0, Ident) == Transition(State({"A"}, ["A"], Some(0)), [])
  {
    assert [] + ["A"] == ["A"];
  }

  lemma ABStep2()
    ensures Step(State({"A"}, ["A"], Some(0)), KeyPress("B"), 1, Ident)
         == Transition(State({"A", "B"}, ["A", "B"], Some(0)), [])
  {
    assert "B" !in ["A"];
    assert ["A"] + ["B"] == ["A", "B"];
  }

  lemma ABStep3()
    ensures Step(State({"A", "B"}, ["A", "B"], Some(0)), KeyRelease("A"), 2, Ident)
         == Transition(State({"B"}, ["A", "B"], Some(0)), [])
  {
    assert {"A", "B"} - {"A"} == {"B"};
  }

  lemma ABStep4()
    ensures Step(State({"B"}, ["A", "B"], Some(0)), KeyRelease("B"), 3, Ident)
         == Transition(State({}, [], None), [KeySequenceEvent(["A", "B"], 0, 3, 3, "key_sequence")])
  {
    assert {"B"} - {"B"} == {};
  }

  lemma RunSnoc<K>(p: seq<Stamped<K>>, e: Stamped<K>, nameOf: K -> string)
    ensures var before := Run(p, nameOf);
      var x := Step(before.next, e.event, e.time, nameOf);
      Run(p + [e], nameOf) == Transition(x.next, before.emitted + x.emitted)
  {
    assert (p + [e])[..|p|] == p;
  }

  lemma ABRun1()
    ensures Run([Stamped(KeyPress("A"), 0)], Ident) == Transition(State({"A"}, ["A"], Some(0)), [])
  {
    ABStep1();
    RunSnoc([], Stamped(KeyPress("A"), 0), Ident);
  }

  lemma ABRun2()
    ensures Run(ABScenario()[..2], Ident) == Transition(State({"A", "B"}, ["A", "B"], Some(0)), [])
  {
    var t := ABScenario();
    var p1 := [Stamped(KeyPress("A"), 0)];
    assert t[..2] == p1 + [t[1]];
    ABRun1();
    ABStep2();
    RunSnoc(p1, t[1], Ident);
  }

  lemma ABRun3()
    ensures Run(ABScenario()[..3], Ident) == Transition(State({"B"}, ["A", "B"], Some(0)), [])
  {
    var t := ABScenario();
    assert t[..3] == t[..2] + [t[2]];
    ABRun2();
    ABStep3();
    RunSnoc(t[..2], t[2], Ident);
  }

  /** Hold A, hold B, let go of A, let go of B: one record listing A and B,
      although A was let go before the span ended. */
  lemma ABScenarioRecord()
    ensures Run(ABScenario(), Ident).emitted == [KeySequenceEvent(["A", "B"], 0, 3, 3, "key_sequence")]
  {
    var t := ABScenario();
    var p, e := t[..3], t[3];
    var record := KeySequenceEvent(["A", "B"], 0, 3, 3, "key_sequence");
    assert t == p + [e];
    ABRun3();
    var before := Run(p, Ident);
    assert before.emitted == [];
    assert Step(before.next, e.event, e.time, Ident).emitted == [record] by {
      assert before.next == State({"B"}, ["A", "B"], Some(0));
      assert e == Stamped(KeyRelease("B"), 3);
      ABStep4();
    }
    RunSnoc(p, e, Ident);
  }

  /** A clock that went back below the span's start: holding A from time 5
      to time 3 prints a duration wrapped around 2^64. */
  lemma ClockBackwardsWraps()
    ensures Run([Stamped(KeyPress("A"), 5), Stamped(KeyRelease("A"), 3)], Ident).emitted
         == [KeySequenceEvent(["A"], 5, 3, TWO_64 - 2, "key_sequence")]
  {
    var press, release := Stamped(KeyPress("A"), 5), Stamped(KeyRelease("A"), 3);
    assert Run([press], Ident) == Transition(State({"A"}, ["A"], Some(5)), []) by {
      assert [] + ["A"] == ["A"];
      RunSnoc([], press, Ident);
    }
    assert [press, release] == [press] + [release];
    RunSnoc([press], release, Ident);
  }
}
