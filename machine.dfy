/** The recording state machine as pure transitions. Each handler of the
    extension becomes a function from the old state to the new state and the
    ordered list of edits it sends to the clip. */
module Machine {
  import opened Lists
  import opened Ladder
  import opened Classifier

  /** A note length: whole 1/24-bar units, or whole units multiplied by the
      duration-scaling preference (a real the model does not interpret). */
  datatype Length = Bars(units: int) | ScaledBars(units: int, scaling: real)

  /** The edits sent to the clip, in the order they are sent. */
  datatype GridOp =
    | ClearStepsAt(x: int)                                  // every key at step x
    | ClearStep(x: int, y: int)                             // the cell at step x, key y
    | SetStep(x: int, y: int, velocity: int, length: Length) // a note at step x, key y
    | SetStepSize(size: nat)                                // the clip's quantization

  /** The two preference values read when notes are written. */
  datatype Prefs = Prefs(velocity: int, scaling: real)

  /** `step` is the cursor, `duration` the length (in steps) of the chord
      being recorded, `stepSize` the quantization in 1/24 bar and `keys`
      the held keys in the order they were pressed. */
  datatype State = State(step: int, duration: int, stepSize: nat, keys: seq<int>)

  datatype Outcome = Outcome(state: State, ops: seq<GridOp>)

  /** What every reachable state satisfies: the counters are never
      negative, the step size is on the ladder, nothing is pending when no
      key is held, and only playable keys are held. */
  predicate Inv(s: State) {
    s.step >= 0 && s.duration >= 0 && s.stepSize in StepSizes
    && (s.keys == [] ==> s.duration == 0)
    && forall i :: 0 <= i < |s.keys| ==> IsNoteKey(s.keys[i])
  }

  function Initial(): (s: State)
    ensures Inv(s) && s.keys == [] && s.stepSize == StepSizes[2]
    ensures s.step == 0 && s.duration == 0
  {
    State(0, 0, InitialStepSize, [])
  }

  /** The column an edit touches, if any. */
  predicate Touches(op: GridOp, x: int) {
    match op
    case ClearStepsAt(x') => x' == x
    case ClearStep(x', _) => x' == x
    case SetStep(x', _, _, _) => x' == x
    case SetStepSize(_) => false
  }

  /** Every edit in `ops` that touches a column touches column `x`. */
  predicate OnlyColumn(ops: seq<GridOp>, x: int) {
    forall i :: 0 <= i < |ops| && !ops[i].SetStepSize? ==> Touches(ops[i], x)
  }

  /** The cursor marker: a silent lane-0 note of `duration` steps (at least
      one) written at the cursor, then that same cell cleared. */
  function SetTimeRange(s: State): (ops: seq<GridOp>)
    ensures |ops| == 2 && OnlyColumn(ops, s.step)
    ensures ops[0].SetStep? && ops[0].y == 0 && ops[0].velocity == 0
    ensures ops[1] == ClearStep(ops[0].x, ops[0].y)
    ensures ops[0].x == s.step
    ensures ops[0].length == Bars(s.stepSize * (if s.duration > 0 then s.duration else 1))
  {
    var range := if s.duration > 0 then s.duration else 1;
    [SetStep(s.step, 0, 0, Bars(s.stepSize * range)), ClearStep(s.step, 0)]
  }

  /** Clear-then-write for each key of `keys` in order, all at step `x`. */
  function KeyOps(keys: seq<int>, x: int, velocity: int, length: Length): (ops: seq<GridOp>)
    ensures |ops| == 2 * |keys| && OnlyColumn(ops, x)
    decreases |keys|
  {
    if keys == [] then []
    else
      var k := keys[|keys| - 1];
      KeyOps(keys[..|keys| - 1], x, velocity, length)
        + [ClearStep(x, k), SetStep(x, k, velocity, length)]
  }

  /** Every held key rewritten at the cursor with the pending duration,
      then the cursor marker. */
  function SetNoteSteps(s: State, p: Prefs): (ops: seq<GridOp>)
    ensures |ops| == 2 * |s.keys| + 2 && OnlyColumn(ops, s.step)
  {
    KeyOps(s.keys, s.step, p.velocity, ScaledBars(s.stepSize * s.duration, p.scaling))
      + SetTimeRange(s)
  }

  /** Releasing `note`: one occurrence leaves the chord; when the chord is
      then empty the cursor jumps past the recorded chord. */
  function FinishNote(s: State, note: int): (o: Outcome)
    ensures o.state.keys == RemoveFirst(s.keys, note)
    ensures multiset(o.state.keys) == multiset(s.keys) - multiset{note}
    ensures o.state.stepSize == s.stepSize
    ensures o.state.keys == [] ==> o.state.step == s.step + s.duration && o.state.duration == 0
    ensures o.state.keys == [] ==> o.ops == SetTimeRange(o.state)
    ensures o.state.keys != [] ==> o == Outcome(s.(keys := o.state.keys), [])
    ensures Inv(s) ==> Inv(o.state)
  {
    var keys := RemoveFirst(s.keys, note);
    if keys == [] then
      var t := State(s.step + s.duration, 0, s.stepSize, []);
      Outcome(t, SetTimeRange(t))
    else
      assert forall k :: k in keys ==> k in s.keys by {
        forall k | k in keys ensures k in s.keys {
          assert k in multiset(keys);
        }
      }
      Outcome(s.(keys := keys), [])
  }

  /** Pressing `note`: it is appended to the chord (even when already
      held), a new chord starts with one step, and the chord is rewritten. */
  function AddNote(s: State, note: int, p: Prefs): (o: Outcome)
    ensures o.state.keys == s.keys + [note]
    ensures o.state.step == s.step && o.state.stepSize == s.stepSize
    ensures s.duration >= 0 ==> o.state.duration >= 1
    ensures s.duration == 0 ==> o.state.duration == 1
    ensures s.duration != 0 ==> o.state.duration == s.duration
    ensures o.ops == SetNoteSteps(o.state, p)
    ensures Inv(s) && IsNoteKey(note) ==> Inv(o.state)
  {
    var t := s.(duration := if s.duration == 0 then 1 else s.duration, keys := s.keys + [note]);
    Outcome(t, SetNoteSteps(t, p))
  }

  /** Clearing the cursor column changes no state. */
  function ClearStepsAtTime(s: State): (o: Outcome)
    ensures o.state == s && o.ops == [ClearStepsAt(s.step)]
  {
    Outcome(s, [ClearStepsAt(s.step)])
  }

  /** Reset drops the chord and returns to the start, keeping the step size. */
  function ResetTimeRange(s: State): (o: Outcome)
    ensures o.state == Initial().(stepSize := s.stepSize)
    ensures o.ops == SetTimeRange(o.state) && o.ops[0].x == 0
    ensures Inv(s) ==> Inv(o.state)
  {
    var t := s.(keys := [], step := 0, duration := 0);
    Outcome(t, SetTimeRange(t))
  }

  /** Forward lengthens the held chord by one step, or moves the cursor one
      step when nothing is held. */
  function ForwardTimeRange(s: State, p: Prefs): (o: Outcome)
    ensures o.state.keys == s.keys && o.state.stepSize == s.stepSize
    ensures s.keys != [] ==> o.state == s.(duration := s.duration + 1)
    ensures s.keys == [] ==> o.state == s.(step := s.step + 1)
    ensures s.keys != [] ==> o.ops == SetNoteSteps(o.state, p)
    ensures s.keys == [] ==> o.ops == SetTimeRange(o.state)
    ensures Inv(s) ==> Inv(o.state)
  {
    if s.keys != [] then
      var t := s.(duration := s.duration + 1);
      Outcome(t, SetNoteSteps(t, p))
    else
      var t := s.(step := s.step + 1);
      Outcome(t, SetTimeRange(t))
  }

  /** Rewind shortens the held chord by one step but not below one step,
      or moves the cursor back one step but not below zero. */
  function RewindTimeRange(s: State, p: Prefs): (o: Outcome)
    ensures o.state.keys == s.keys && o.state.stepSize == s.stepSize
    ensures s.keys != [] && s.duration <= 1 ==> o == Outcome(s, [])
    ensures s.keys != [] && s.duration > 1 ==> o.state == s.(duration := s.duration - 1)
    ensures s.keys == [] && s.step > 0 ==> o.state == s.(step := s.step - 1)
    ensures s.keys == [] && s.step <= 0 ==> o.state == s
    ensures s.keys != [] && s.duration > 1 ==> o.ops == SetNoteSteps(o.state, p)
    ensures s.keys == [] ==> o.ops == SetTimeRange(o.state)
    ensures Inv(s) ==> Inv(o.state)
  {
    if s.keys != [] then
      if s.duration > 1 then
        var t := s.(duration := s.duration - 1);
        Outcome(t, SetNoteSteps(t, p))
      else
        Outcome(s, [])
    else
      var t := if s.step > 0 then s.(step := s.step - 1) else s;
      Outcome(t, SetTimeRange(t))
  }

  /** Moves the step size `addIndex` notches along the ladder, rescaling
      the cursor and the pending duration by old size / new size, truncated;
      past either end of the ladder nothing happens. */
  function ChangeStepSize(s: State, addIndex: int): (o: Outcome)
    ensures o.state.keys == s.keys
    ensures Shift(s.stepSize, addIndex).None? ==> o == Outcome(s, [])
    ensures Shift(s.stepSize, addIndex).Some? ==>
      var size := Shift(s.stepSize, addIndex).value;
      o.state.stepSize == size
      && o.state.step == Rescale(s.step, s.stepSize, size)
      && o.state.duration == Rescale(s.duration, s.stepSize, size)
      && o.ops == [SetStepSize(size)] + SetTimeRange(o.state)
    ensures Inv(s) ==> Inv(o.state)
    ensures OnlyColumn(o.ops, o.state.step)
  {
    match Shift(s.stepSize, addIndex)
    case None => Outcome(s, [])
    case Some(size) =>
      var t := State(Rescale(s.step, s.stepSize, size), Rescale(s.duration, s.stepSize, size), size, s.keys);
      Outcome(t, [SetStepSize(size)] + SetTimeRange(t))
  }

  /** One classified command. A command the classifier can produce keeps
      the invariant, and Ignore changes nothing. */
  function Apply(s: State, c: Command, p: Prefs): (o: Outcome)
    ensures Inv(s) && (c.KeyDown? ==> IsNoteKey(c.note)) ==> Inv(o.state)
    ensures c == Ignore ==> o == Outcome(s, [])
    ensures OnlyColumn(o.ops, o.state.step)
  {
    match c
    case Clear => ClearStepsAtTime(s)
    case Reset => ResetTimeRange(s)
    case Rewind => RewindTimeRange(s, p)
    case Forward => ForwardTimeRange(s, p)
    case DecreaseStepSize => ChangeStepSize(s, -1)
    case IncreaseStepSize => ChangeStepSize(s, 1)
    case KeyDown(note) => AddNote(s, note, p)
    case KeyUp(note) => FinishNote(s, note)
    case Ignore => Outcome(s, [])
  }

  /** One incoming MIDI message: classified against the held keys, then
      applied. Every reachable state stays reachable, and every edit lands
      in the column of the new cursor. */
  function OnMidiIn(s: State, m: Message, p: Prefs): (o: Outcome)
    ensures Inv(s) ==> Inv(o.state)
    ensures OnlyColumn(o.ops, o.state.step)
  {
    Apply(s, Classify(m, s.keys), p)
  }
}
