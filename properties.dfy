/** Properties of the recording state machine that relate several steps or
    hold of every input. */
module Properties {
  import opened Lists
  import opened Ladder
  import opened Classifier
  import opened Machine

  // ---- Emission order ----

  /** The `i`-th key's pair of edits sits at positions 2i and 2i+1. */
  lemma {:induction false} KeyOpsAt(keys: seq<int>, x: int, velocity: int, length: Length, i: nat)
    requires i < |keys|
    ensures KeyOps(keys, x, velocity, length)[2 * i] == ClearStep(x, keys[i])
    ensures KeyOps(keys, x, velocity, length)[2 * i + 1] == SetStep(x, keys[i], velocity, length)
    decreases |keys|
  {
    var init := keys[..|keys| - 1];
    if i < |keys| - 1 {
      KeyOpsAt(init, x, velocity, length, i);
      assert init[i] == keys[i];
    }
  }

  /** Rewriting the chord clears and rewrites every held key in the order
      the keys were pressed, each cell cleared just before it is written,
      and ends with the cursor marker written and then cleared. */
  lemma EmissionOrder(s: State, p: Prefs)
    ensures var ops := SetNoteSteps(s, p);
      var n := |s.keys|;
      |ops| == 2 * n + 2
      && (forall i :: 0 <= i < n ==>
            ops[2 * i] == ClearStep(s.step, s.keys[i])
            && ops[2 * i + 1] == SetStep(s.step, s.keys[i], p.velocity,
                                         ScaledBars(s.stepSize * s.duration, p.scaling)))
      && ops[2 * n] == SetStep(s.step, 0, 0, Bars(s.stepSize * (if s.duration > 0 then s.duration else 1)))
      && ops[2 * n + 1] == ClearStep(s.step, 0)
  {
    var length := ScaledBars(s.stepSize * s.duration, p.scaling);
    forall i | 0 <= i < |s.keys|
      ensures SetNoteSteps(s, p)[2 * i] == ClearStep(s.step, s.keys[i])
      ensures SetNoteSteps(s, p)[2 * i + 1] == SetStep(s.step, s.keys[i], p.velocity, length)
    {
      KeyOpsAt(s.keys, s.step, p.velocity, length, i);
    }
  }

  // ---- Cursor and duration navigation ----

  /** `k` Forward commands in a row. */
  function Forwards(s: State, k: nat, p: Prefs): State
    decreases k
  {
    if k == 0 then s else Forwards(ForwardTimeRange(s, p).state, k - 1, p)
  }

  /** `k` Rewind commands in a row. */
  function Rewinds(s: State, k: nat, p: Prefs): State
    decreases k
  {
    if k == 0 then s else Rewinds(RewindTimeRange(s, p).state, k - 1, p)
  }

  /** Forward never saturates: each one adds exactly one step, to the chord
      when keys are held and to the cursor otherwise. */
  lemma {:induction false} ForwardsAccumulate(s: State, k: nat, p: Prefs)
    ensures s.keys != [] ==> Forwards(s, k, p) == s.(duration := s.duration + k)
    ensures s.keys == [] ==> Forwards(s, k, p) == s.(step := s.step + k)
    decreases k
  {
    if k > 0 {
      ForwardsAccumulate(ForwardTimeRange(s, p).state, k - 1, p);
    }
  }

  /** Repeated Rewinds stop at the floors: the cursor at step 0 when no key
      is held, the chord at one step while keys are held. */
  lemma {:induction false} RewindsFloor(s: State, k: nat, p: Prefs)
    requires s.step >= 0 && (s.keys != [] ==> s.duration >= 1)
    ensures s.keys == [] ==> Rewinds(s, k, p) == s.(step := if s.step >= k then s.step - k else 0)
    ensures s.keys != [] ==> Rewinds(s, k, p) == s.(duration := if s.duration > k then s.duration - k else 1)
    decreases k
  {
    if k > 0 {
      RewindsFloor(RewindTimeRange(s, p).state, k - 1, p);
    }
  }

  /** From the initial state any number of Rewinds leaves the cursor at 0. */
  lemma RewindsStayAtOrigin(k: nat, p: Prefs)
    ensures Rewinds(Initial(), k, p) == Initial()
  {
    RewindsFloor(Initial(), k, p);
  }

  /** Rewind undoes Forward, except on a held chord whose duration a step
      size change has truncated to zero: Forward brings it to one step and
      Rewind does not go below one. */
  lemma ForwardThenRewind(s: State, p: Prefs)
    requires Inv(s)
    ensures s.keys == [] || s.duration >= 1 ==>
      RewindTimeRange(ForwardTimeRange(s, p).state, p).state == s
    ensures s.keys != [] && s.duration == 0 ==>
      RewindTimeRange(ForwardTimeRange(s, p).state, p).state == s.(duration := 1)
  {
  }

  // ---- Step size changes ----

  /** At either end of the ladder a further step-size change in that
      direction changes nothing and emits nothing. */
  lemma StepSizeChangeAtEndsIsNoop(s: State)
    ensures s.stepSize == StepSizes[0] ==> ChangeStepSize(s, -1) == Outcome(s, [])
    ensures s.stepSize == StepSizes[|StepSizes| - 1] ==> ChangeStepSize(s, 1) == Outcome(s, [])
  {
    ShiftFrom(0, -1);
    ShiftFrom(|StepSizes| - 1, 1);
  }

  /** A move the ladder allows sets the new size and rescales both counters. */
  lemma MovedState(s: State, d: int, size: nat)
    requires Shift(s.stepSize, d) == Some(size)
    ensures ChangeStepSize(s, d).state
      == State(Rescale(s.step, s.stepSize, size), Rescale(s.duration, s.stepSize, size), size, s.keys)
  {
  }

  /** Halving the step size doubles the count and doubling it back halves
      the count again, exactly. */
  lemma RescaleByTwo(x: nat, fine: nat)
    requires fine > 0
    ensures Rescale(x, 2 * fine, fine) == 2 * x
    ensures Rescale(2 * x, fine, 2 * fine) == x
  {
    var a := Rescale(x, 2 * fine, fine);
    assert x * (2 * fine) == (2 * x) * fine;
    QuotientUnique(a, 2 * x, fine);
    var b := Rescale(2 * x, fine, 2 * fine);
    assert (2 * x) * fine == x * (2 * fine);
    QuotientUnique(b, x, 2 * fine);
  }

  /** A truncated quotient is determined by its bounds. */
  lemma QuotientUnique(r: int, q: int, d: nat)
    requires d > 0 && r * d <= q * d < (r + 1) * d
    ensures r == q
  {
  }

  /** From 1/2 bar or coarser, moving one notch finer and back restores the
      cursor, the pending duration and the step size exactly. */
  lemma DecreaseThenIncreaseRestores(s: State)
    requires Inv(s) && s.stepSize >= StepSizes[3]
    ensures ChangeStepSize(ChangeStepSize(s, -1).state, 1).state == s
  {
    var i :| 3 <= i <= 6 && StepSizes[i] == s.stepSize;
    FinerAndBack(s.step, s.duration, s.keys, i);
  }

  /** The position-based core of the lemma above, at ladder position `i`. */
  lemma FinerAndBack(x: nat, y: nat, keys: seq<int>, i: nat)
    requires 3 <= i <= 6
    ensures var s := State(x, y, StepSizes[i], keys);
      ChangeStepSize(ChangeStepSize(s, -1).state, 1).state == s
  {
    var s := State(x, y, StepSizes[i], keys);
    var fine := StepSizes[i - 1];
    Doubling(i);
    RescaleByTwo(x, fine);
    RescaleByTwo(y, fine);
    ShiftFrom(i, -1);
    MovedState(s, -1, fine);
    var t := State(2 * x, 2 * y, fine, keys);
    assert ChangeStepSize(s, -1).state == t;
    ShiftFrom(i - 1, 1);
    MovedState(t, 1, StepSizes[i]);
  }

  /** From 1/4 bar up to 2 bars, moving one notch coarser and back restores
      a cursor and a pending duration that are both even; the example is a
      cursor of 4 at 1/4 bar, which becomes 2 at 1/2 bar and 4 again. */
  lemma IncreaseThenDecreaseRestoresEven(s: State)
    requires Inv(s) && StepSizes[2] <= s.stepSize <= StepSizes[5]
    requires s.step % 2 == 0 && s.duration % 2 == 0
    ensures ChangeStepSize(ChangeStepSize(s, 1).state, -1).state == s
  {
    var i :| 2 <= i <= 5 && StepSizes[i] == s.stepSize;
    var x, y := s.step / 2, s.duration / 2;
    assert s.step == 2 * x && s.duration == 2 * y;
    CoarserAndBack(x, y, s.keys, i);
  }

  /** The position-based core of the lemma above: counts `2 * x` and
      `2 * y` at ladder position `i`. */
  lemma CoarserAndBack(x: nat, y: nat, keys: seq<int>, i: nat)
    requires 2 <= i <= 5
    ensures var s := State(2 * x, 2 * y, StepSizes[i], keys);
      ChangeStepSize(ChangeStepSize(s, 1).state, -1).state == s
  {
    var s := State(2 * x, 2 * y, StepSizes[i], keys);
    var fine, coarse := StepSizes[i], StepSizes[i + 1];
    Doubling(i + 1);
    RescaleByTwo(x, fine);
    RescaleByTwo(y, fine);
    ShiftFrom(i, 1);
    MovedState(s, 1, coarse);
    var t := State(x, y, coarse, keys);
    assert ChangeStepSize(s, 1).state == t;
    ShiftFrom(i + 1, -1);
    MovedState(t, -1, fine);
  }

  /** Around the triplet size the round trip loses position: cursor 1 at
      1/6 bar becomes 1 at 1/8 bar and then 0 back at 1/6 bar. */
  lemma TripletRoundTripLoses()
    ensures var s := State(1, 0, StepSizes[1], []);
      var t := ChangeStepSize(s, -1).state;
      t.step == 1 && ChangeStepSize(t, 1).state.step == 0
  {
    ShiftFrom(1, -1);
    ShiftFrom(0, 1);
  }

  /** Below 1/4 bar even counts do not survive a coarser round trip: cursor
      2 at 1/8 bar becomes 1 at 1/6 bar and stays 1 back at 1/8 bar. */
  lemma CoarserRoundTripLosesAtEighth()
    ensures var t := ChangeStepSize(State(2, 0, StepSizes[0], []), 1).state;
      t.step == 1 && ChangeStepSize(t, -1).state.step == 1
  {
    ShiftFrom(0, 1);
    ShiftFrom(1, -1);
  }

  /** Likewise cursor 2 at 1/6 bar becomes 1 at 1/4 bar and stays 1 back at
      1/6 bar. */
  lemma CoarserRoundTripLosesAtSixth()
    ensures var t := ChangeStepSize(State(2, 0, StepSizes[1], []), 1).state;
      t.step == 1 && ChangeStepSize(t, -1).state.step == 1
  {
    ShiftFrom(1, 1);
    ShiftFrom(2, -1);
  }

  /** Truncation can leave a held chord with no duration: one step at 1/4
      bar becomes zero steps at 1/2 bar, the key still held. So only "no key
      held implies no duration" holds, not its converse. */
  lemma HeldChordCanLoseItsDuration()
    ensures var s := State(0, 1, StepSizes[2], [60]);
      Inv(s) && ChangeStepSize(s, 1).state == State(0, 0, StepSizes[3], [60])
  {
    ShiftFrom(2, 1);
  }

  // ---- Classification ----

  /** A note-off for a key that is not held changes nothing and emits
      nothing. */
  lemma UnheldNoteOffIsIgnored(s: State, m: Message, p: Prefs)
    requires m.kind == NoteOff && m.data1 !in s.keys
    ensures OnMidiIn(s, m, p) == Outcome(s, [])
  {
  }

  /** Notes whose pitch class is 1, 3, 8 or 10 are never held, whatever
      arrives. */
  lemma ReservedNotesNeverHeld(s: State, m: Message, p: Prefs, note: int)
    requires Inv(s) && IsReserved(note)
    ensures note !in OnMidiIn(s, m, p).state.keys
  {
  }

  // ---- Recording a note ----

  /** A note-on of a playable key is a press, whatever is held. */
  lemma PressIsAddNote(s: State, n: DataByte, v: DataByte, p: Prefs)
    requires IsNoteKey(n)
    ensures OnMidiIn(s, Message(NoteOn, n, v), p) == AddNote(s, n, p)
  {
    assert Classify(Message(NoteOn, n, v), s.keys) == KeyDown(n);
  }

  /** A note-off of a held key is a release. */
  lemma ReleaseIsFinishNote(s: State, n: DataByte, v: DataByte, p: Prefs)
    requires n in s.keys
    ensures OnMidiIn(s, Message(NoteOff, n, v), p) == Machine.FinishNote(s, n)
  {
    assert Classify(Message(NoteOff, n, v), s.keys) == KeyUp(n);
  }

  /** From idle, pressing a playable key, pressing Forward `k` times and
      releasing the key leaves nothing held and no duration pending, and
      advances the cursor by the 1 + k steps the note lasted. */
  lemma SingleNoteRoundTrip(s: State, n: DataByte, k: nat, on: DataByte, off: DataByte, p: Prefs)
    requires Inv(s) && s.keys == [] && IsNoteKey(n)
    ensures var held := OnMidiIn(s, Message(NoteOn, n, on), p).state;
      var lengthened := Forwards(held, k, p);
      var released := OnMidiIn(lengthened, Message(NoteOff, n, off), p).state;
      held.keys == [n] && lengthened.duration == 1 + k
      && released == s.(step := s.step + 1 + k)
  {
    var held := OnMidiIn(s, Message(NoteOn, n, on), p).state;
    assert held == s.(duration := 1, keys := [n]) by {
      PressIsAddNote(s, n, on, p);
    }
    var lengthened := Forwards(held, k, p);
    assert lengthened == s.(duration := 1 + k, keys := [n]) by {
      ForwardsAccumulate(held, k, p);
    }
    var released := OnMidiIn(lengthened, Message(NoteOff, n, off), p).state;
    assert released == s.(step := s.step + 1 + k) by {
      ReleaseIsFinishNote(lengthened, n, off, p);
      assert RemoveFirst([n], n) == [];
    }
  }

  /** A key pressed twice is held twice, so the first release records
      nothing and only the second one moves the cursor. */
  lemma DoublePressNeedsTwoReleases(n: DataByte, v: DataByte, p: Prefs)
    requires IsNoteKey(n)
    ensures var s0 := Initial();
      var s2 := OnMidiIn(OnMidiIn(s0, Message(NoteOn, n, v), p).state, Message(NoteOn, n, v), p).state;
      var r1 := OnMidiIn(s2, Message(NoteOff, n, v), p);
      var r2 := OnMidiIn(r1.state, Message(NoteOff, n, v), p);
      s2.keys == [n, n] && r1 == Outcome(s2.(keys := [n]), []) && r2.state == s0.(step := 1)
  {
    var s0 := Initial();
    PressIsAddNote(s0, n, v, p);
    var s1 := OnMidiIn(s0, Message(NoteOn, n, v), p).state;
    assert s1 == State(0, 1, 6, [n]);
    PressIsAddNote(s1, n, v, p);
    var s2 := OnMidiIn(s1, Message(NoteOn, n, v), p).state;
    assert s2 == State(0, 1, 6, [n, n]);
    ReleaseIsFinishNote(s2, n, v, p);
    assert RemoveFirst([n, n], n) == [n];
    var r1 := OnMidiIn(s2, Message(NoteOff, n, v), p);
    assert r1 == Outcome(State(0, 1, 6, [n]), []);
    ReleaseIsFinishNote(r1.state, n, v, p);
    assert RemoveFirst([n], n) == [];
  }

  /** Key 60 pressed from the initial state, lengthened by Forward and
      released: its note is written at step 0 over one and then two steps
      of 1/4 bar, each time with the marker written and cleared at step 0,
      and the release edits only step 2, the new cursor. */
  lemma RecordOneNote(v: DataByte, p: Prefs)
    ensures var down := OnMidiIn(Initial(), Message(NoteOn, 60, v), p);
      var fwd := OnMidiIn(down.state, Message(NoteOn, 3, v), p);
      var up := OnMidiIn(fwd.state, Message(NoteOff, 60, v), p);
      down.ops == [ClearStep(0, 60), SetStep(0, 60, p.velocity, ScaledBars(6, p.scaling)),
                   SetStep(0, 0, 0, Bars(6)), ClearStep(0, 0)]
      && fwd.ops == [ClearStep(0, 60), SetStep(0, 60, p.velocity, ScaledBars(12, p.scaling)),
                     SetStep(0, 0, 0, Bars(12)), ClearStep(0, 0)]
      && up == Outcome(State(2, 0, 6, []), [SetStep(2, 0, 0, Bars(6)), ClearStep(2, 0)])
  {
    var s1 := State(0, 1, 6, [60]);
    assert Classify(Message(NoteOn, 60, v), []) == KeyDown(60);
    assert OnMidiIn(Initial(), Message(NoteOn, 60, v), p) == AddNote(Initial(), 60, p);
    assert SetNoteSteps(s1, p) == [ClearStep(0, 60), SetStep(0, 60, p.velocity, ScaledBars(6, p.scaling)),
                                   SetStep(0, 0, 0, Bars(6)), ClearStep(0, 0)];
    var s2 := State(0, 2, 6, [60]);
    assert Classify(Message(NoteOn, 3, v), [60]) == Forward;
    assert OnMidiIn(s1, Message(NoteOn, 3, v), p) == ForwardTimeRange(s1, p);
    assert SetNoteSteps(s2, p) == [ClearStep(0, 60), SetStep(0, 60, p.velocity, ScaledBars(12, p.scaling)),
                                   SetStep(0, 0, 0, Bars(12)), ClearStep(0, 0)];
    assert Classify(Message(NoteOff, 60, v), [60]) == KeyUp(60);
    assert OnMidiIn(s2, Message(NoteOff, 60, v), p) == Machine.FinishNote(s2, 60);
    assert RemoveFirst([60], 60) == [];
  }
}
