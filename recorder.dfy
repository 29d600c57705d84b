/** The extension object: the recorder's fields updated in place by one
    handler per command, each handler returning the clip edits it sends, in
    order. Every handler is proved to do exactly what the corresponding
    transition of `Machine` describes. */
module Recorder {
  import opened Lists
  import opened Ladder
  import opened Classifier
  import opened Machine

  /** The callback's chain of tests selects the same transition as
      classifying the message and applying the command. */
  lemma Dispatch(s: State, m: Message, p: Prefs)
    ensures IsClear(m) ==> Machine.OnMidiIn(s, m, p) == Machine.ClearStepsAtTime(s)
    ensures !IsClear(m) && IsReset(m) ==> Machine.OnMidiIn(s, m, p) == Machine.ResetTimeRange(s)
    ensures !IsClear(m) && !IsReset(m) && IsRewind(m) ==>
      Machine.OnMidiIn(s, m, p) == Machine.RewindTimeRange(s, p)
    ensures !IsClear(m) && !IsReset(m) && !IsRewind(m) && IsForward(m) ==>
      Machine.OnMidiIn(s, m, p) == Machine.ForwardTimeRange(s, p)
    ensures !IsClear(m) && !IsReset(m) && !IsRewind(m) && !IsForward(m) && IsDecreaseStepSize(m) ==>
      Machine.OnMidiIn(s, m, p) == Machine.ChangeStepSize(s, -1)
    ensures !IsClear(m) && !IsReset(m) && !IsRewind(m) && !IsForward(m) && !IsDecreaseStepSize(m)
            && IsIncreaseStepSize(m) ==>
      Machine.OnMidiIn(s, m, p) == Machine.ChangeStepSize(s, 1)
    ensures m.kind == NoteOn && !IsReserved(m.data1) ==>
      Machine.OnMidiIn(s, m, p) == Machine.AddNote(s, m.data1, p)
    ensures m.kind == NoteOff && m.data1 in s.keys ==>
      Machine.OnMidiIn(s, m, p) == Machine.FinishNote(s, m.data1)
    ensures !IsClear(m) && !IsReset(m) && m.kind != NoteOn && !(m.kind == NoteOff && m.data1 in s.keys) ==>
      Machine.OnMidiIn(s, m, p) == Outcome(s, [])
  {
    var c := Classify(m, s.keys);
    assert Machine.OnMidiIn(s, m, p) == Apply(s, c, p);
    if IsClear(m) {
      assert c == Clear;
      assert Apply(s, c, p) == Machine.ClearStepsAtTime(s);
    } else if IsReset(m) {
      assert c == Reset;
      assert Apply(s, c, p) == Machine.ResetTimeRange(s);
    } else if IsRewind(m) {
      assert c == Rewind;
      assert Apply(s, c, p) == Machine.RewindTimeRange(s, p);
    } else if IsForward(m) {
      assert c == Forward;
      assert Apply(s, c, p) == Machine.ForwardTimeRange(s, p);
    } else if IsDecreaseStepSize(m) {
      assert c == Command.DecreaseStepSize;
      assert Apply(s, c, p) == Machine.ChangeStepSize(s, -1);
    } else if IsIncreaseStepSize(m) {
      assert c == Command.IncreaseStepSize;
      assert Apply(s, c, p) == Machine.ChangeStepSize(s, 1);
    } else if m.kind == NoteOn {
      assert c == KeyDown(m.data1);
      assert Apply(s, c, p) == Machine.AddNote(s, m.data1, p);
    } else if m.kind == NoteOff && m.data1 in s.keys {
      assert c == KeyUp(m.data1);
      assert Apply(s, c, p) == Machine.FinishNote(s, m.data1);
    } else {
      assert c == Ignore;
      assert Apply(s, c, p) == Outcome(s, []);
    }
  }

  class StepRecorder {
    var stepSize: nat
    var previewStepSize: nat
    var step: int
    var pressingKeys: seq<int>
    var duration: int

    /** The recorder's state as a value. */
    function Snapshot(): State
      reads this
    {
      State(step, duration, stepSize, pressingKeys)
    }

    ghost predicate Valid()
      reads this
    {
      Inv(Snapshot())
    }

    constructor ()
      ensures Valid() && Snapshot() == Initial() && previewStepSize == InitialStepSize
    {
      stepSize := InitialStepSize;
      previewStepSize := InitialStepSize;
      step := 0;
      pressingKeys := [];
      duration := 0;
    }

    /** The MIDI callback: the first matching test selects the handler. */
    method OnMidiIn(m: Message, p: Prefs) returns (ops: seq<GridOp>)
      requires Valid()
      modifies this
      ensures Valid()
      ensures Outcome(Snapshot(), ops) == Machine.OnMidiIn(old(Snapshot()), m, p)
      ensures stepSize != old(stepSize) ==> previewStepSize == old(stepSize)
      ensures stepSize == old(stepSize) ==> previewStepSize == old(previewStepSize)
    {
      ghost var s := Snapshot();
      Dispatch(s, m, p);
      if IsClear(m) {
        ops := ClearStepsAtTime();
      } else if IsReset(m) {
        ops := ResetTimeRange();
      } else if IsRewind(m) {
        ops := RewindTimeRange(p);
      } else if IsForward(m) {
        ops := ForwardTimeRange(p);
      } else if IsDecreaseStepSize(m) {
        ops := DecreaseStepSize();
        if Shift(s.stepSize, -1).Some? { ShiftInverse(s.stepSize, -1); }
      } else if IsIncreaseStepSize(m) {
        ops := IncreaseStepSize();
        if Shift(s.stepSize, 1).Some? { ShiftInverse(s.stepSize, 1); }
      } else if m.kind == NoteOn {
        ops := AddNote(m.data1, p);
      } else if m.kind == NoteOff && m.data1 in pressingKeys {
        ops := FinishNote(m.data1);
      } else {
        ops := [];
      }
    }

    method FinishNote(note: int) returns (ops: seq<GridOp>)
      requires Valid()
      modifies this`pressingKeys, this`step, this`duration
      ensures Valid()
      ensures Outcome(Snapshot(), ops) == Machine.FinishNote(old(Snapshot()), note)
    {
      ghost var o := Machine.FinishNote(Snapshot(), note);
      pressingKeys := RemoveFirst(pressingKeys, note);
      ops := [];
      if pressingKeys == [] {
        step := step + duration;
        duration := 0;
        ops := SetTimeRange();
      }
      assert Snapshot() == o.state;
    }

    method AddNote(note: DataByte, p: Prefs) returns (ops: seq<GridOp>)
      requires Valid()
      modifies this`pressingKeys, this`duration
      ensures !IsReserved(note) ==> Valid()
      ensures Outcome(Snapshot(), ops) == Machine.AddNote(old(Snapshot()), note, p)
    {
      if duration == 0 {
        duration := 1;
      }
      pressingKeys := pressingKeys + [note];
      ops := SetNoteSteps(p);
    }

    /** Clears the cursor column; reads the state and changes nothing. */
    method ClearStepsAtTime() returns (ops: seq<GridOp>)
      ensures Outcome(Snapshot(), ops) == Machine.ClearStepsAtTime(Snapshot())
    {
      ops := [ClearStepsAt(step)];
    }

    method ResetTimeRange() returns (ops: seq<GridOp>)
      requires Valid()
      modifies this`pressingKeys, this`step, this`duration
      ensures Valid()
      ensures Outcome(Snapshot(), ops) == Machine.ResetTimeRange(old(Snapshot()))
    {
      pressingKeys := [];
      step := 0;
      duration := 0;
      ops := SetTimeRange();
    }

    method ForwardTimeRange(p: Prefs) returns (ops: seq<GridOp>)
      requires Valid()
      modifies this`step, this`duration
      ensures Valid()
      ensures Outcome(Snapshot(), ops) == Machine.ForwardTimeRange(old(Snapshot()), p)
    {
      if pressingKeys != [] {
        duration := duration + 1;
        ops := SetNoteSteps(p);
      } else {
        step := step + 1;
        ops := SetTimeRange();
      }
    }

    method RewindTimeRange(p: Prefs) returns (ops: seq<GridOp>)
      requires Valid()
      modifies this`step, this`duration
      ensures Valid()
      ensures Outcome(Snapshot(), ops) == Machine.RewindTimeRange(old(Snapshot()), p)
    {
      ops := [];
      if pressingKeys != [] {
        if duration > 1 {
          duration := duration - 1;
          ops := SetNoteSteps(p);
        }
      } else {
        if step > 0 {
          step := step - 1;
        }
        ops := SetTimeRange();
      }
    }

    method DecreaseStepSize() returns (ops: seq<GridOp>)
      requires Valid()
      modifies this`stepSize, this`previewStepSize, this`step, this`duration
      ensures Valid()
      ensures Outcome(Snapshot(), ops) == Machine.ChangeStepSize(old(Snapshot()), -1)
      ensures ops == [] ==> previewStepSize == old(previewStepSize)
      ensures ops != [] ==> previewStepSize == old(stepSize)
    {
      ops := ChangeStepSize(-1);
    }

    method IncreaseStepSize() returns (ops: seq<GridOp>)
      requires Valid()
      modifies this`stepSize, this`previewStepSize, this`step, this`duration
      ensures Valid()
      ensures Outcome(Snapshot(), ops) == Machine.ChangeStepSize(old(Snapshot()), 1)
      ensures ops == [] ==> previewStepSize == old(previewStepSize)
      ensures ops != [] ==> previewStepSize == old(stepSize)
    {
      ops := ChangeStepSize(1);
    }

    method ChangeStepSize(addIndex: int) returns (ops: seq<GridOp>)
      requires Valid()
      modifies this`stepSize, this`previewStepSize, this`step, this`duration
      ensures Valid()
      ensures Outcome(Snapshot(), ops) == Machine.ChangeStepSize(old(Snapshot()), addIndex)
      ensures ops == [] ==> previewStepSize == old(previewStepSize)
      ensures ops != [] ==> previewStepSize == old(stepSize)
    {
      ghost var s := Snapshot();
      var index := IndexOf(StepSizes, stepSize) + addIndex;
      if index < 0 || index >= |StepSizes| {
        assert Shift(s.stepSize, addIndex) == None;
        return [];
      }
      assert Shift(s.stepSize, addIndex) == Some(StepSizes[index]);
      previewStepSize := stepSize;
      stepSize := StepSizes[index];
      step := Rescale(step, previewStepSize, stepSize);
      duration := Rescale(duration, previewStepSize, stepSize);
      assert Snapshot() == Machine.ChangeStepSize(s, addIndex).state;
      var marker := SetTimeRange();
      ops := [SetStepSize(stepSize)] + marker;
    }

    /** The cursor marker; reads the state and changes nothing. */
    method SetTimeRange() returns (ops: seq<GridOp>)
      ensures ops == Machine.SetTimeRange(Snapshot())
    {
      var range := 1;
      if duration > 0 {
        range := duration;
      }
      ops := [SetStep(step, 0, 0, Bars(stepSize * range)), ClearStep(step, 0)];
    }

    /** Rewrites every held key, in order, then the marker; reads the state
        and changes nothing. */
    method SetNoteSteps(p: Prefs) returns (ops: seq<GridOp>)
      ensures ops == Machine.SetNoteSteps(Snapshot(), p)
    {
      var length := ScaledBars(stepSize * duration, p.scaling);
      ops := [];
      for i := 0 to |pressingKeys|
        invariant ops == KeyOps(pressingKeys[..i], step, p.velocity, length)
      {
        var key := pressingKeys[i];
        assert pressingKeys[..i + 1][..i] == pressingKeys[..i];
        ops := ops + [ClearStep(step, key), SetStep(step, key, p.velocity, length)];
      }
      assert pressingKeys[..|pressingKeys|] == pressingKeys;
      var marker := SetTimeRange();
      ops := ops + marker;
    }
  }
}
