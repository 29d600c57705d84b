# Step recorder: a verified model

This project models the recording core of a Bitwig Studio controller
extension, the step recorder. The extension turns MIDI key presses and
transport keys into edits on a step grid (the launcher clip). Three parts
are modelled:

- **The classifier.** Each MIDI short message becomes one of Clear, Reset,
  Rewind, Forward, DecreaseStepSize, IncreaseStepSize, KeyDown, KeyUp or
  Ignore (module `Classifier`). Pitch-bend messages with data 0/0 and
  127/127 are Clear and Reset. Note-ons with pitch class 1, 3, 8 and 10 are
  Rewind, Forward and the two step-size changes. The first matching test
  wins.
- **The recorder state.** This is the cursor `step`, the pending `duration`
  of the held chord, the `stepSize` and the list of held keys. Each handler
  updates it and sends an ordered list of clip edits. Module `Machine`
  states each handler as a pure transition from the old state to the new
  state and the edits. Class `Recorder.StepRecorder` keeps the same fields
  and updates them in place. Each of its methods is proved to produce
  exactly the state and edits of the matching transition.
- **The quantization ladder.** The ladder is 1/8, 1/6, 1/4, 1/2, 1, 2 and
  4 bars (module `Ladder`). It is written in whole 1/24-bar units as 3, 4,
  6, 12, 24, 48 and 96, so the triplet size is exact. A step-size change
  looks the current size up in the ladder and moves one notch. It rescales
  the cursor and the duration by old size / new size, truncated toward
  zero.

Module `Lists` gives the two list operations the recorder uses: `indexOf`
and `remove(Object)`. Module `Properties` holds the lemmas that relate
several steps.

Clip edits are values of `Machine.GridOp`:
- `ClearStepsAt(x)` is `clearStepsAtX(0, x)`.
- `ClearStep(x, y)` is `clearStep`.
- `SetStep(x, y, velocity, length)` is `setStep` on channel 0.
- `SetStepSize(size)` is the clip's `setStepSize`.

A note length is a whole number of 1/24-bar units. For recorded notes it
also carries the scaling preference, which the model does not interpret.

## Behaviour of the code worth knowing

The model follows the code in each of these cases:
- A key pressed while already held is appended again, so a chord is a
  list rather than a set. `addNote` does not check membership. A release
  removes one occurrence, so a double press needs two releases
  (`Properties.DoublePressNeedsTwoReleases`).
- Every key press, and every Forward or Rewind that changes the length
  of a held chord, rewrites every held key, not only the new one. A
  step-size change also rescales the duration, but it sends only the new
  quantization and the marker, and no key is rewritten.
- The cursor marker is written on lane 0 and that same cell is cleared
  in the same message. Every edit of a message lands in the column of
  the new cursor (`Machine.OnMidiIn`), so no message edits a column the
  cursor has left. After a note is recorded, the release sends edits only
  at step 2, its new cursor (`Properties.RecordOneNote`).
- Truncation on a step-size change can leave a held chord with zero
  duration (`Properties.HeldChordCanLoseItsDuration`). So "no key held
  implies no duration" is an invariant, but its converse is not.
- Rescaling truncates toward zero. Moving finer and back is exact from
  1/2 bar up. Moving coarser and back is exact for even counts from 1/4
  bar to 2 bars (`Properties.IncreaseThenDecreaseRestoresEven`); at 1/8
  and 1/6 bar a cursor of 2 comes back as 1
  (`Properties.CoarserRoundTripLosesAtEighth`,
  `Properties.CoarserRoundTripLosesAtSixth`). Around the triplet
  size it also loses position (`Properties.TripletRoundTripLoses`).

## Model

| member | source | states |
|---|---|---|
| `Lists.IndexOf` | src/main/java/com/github/lsetzl/StepRecorderExtension.java:138 | The result is the first position holding the value, or -1 exactly when the value is absent |
| `Lists.RemoveFirst` | src/main/java/com/github/lsetzl/StepRecorderExtension.java:82 | The first occurrence of the released key leaves the list and the other keys keep their order; the list is unchanged when the key is absent |
| `Ladder.Ascending` | src/main/java/com/github/lsetzl/StepRecorderExtension.java:17 | The ladder is positive and strictly ascending, so each size occurs once |
| `Ladder.IndexOfLadder` | src/main/java/com/github/lsetzl/StepRecorderExtension.java:138 | Looking up a ladder size gives back its own position |
| `Ladder.ShiftFrom` | src/main/java/com/github/lsetzl/StepRecorderExtension.java:137-142 | A move by d from position i lands on position i + d when it exists; a move past either end is refused |
| `Ladder.ShiftInverse` | src/main/java/com/github/lsetzl/StepRecorderExtension.java:137-142 | The opposite move undoes a successful move, and a non-zero move always changes the size |
| `Ladder.Shift` | src/main/java/com/github/lsetzl/StepRecorderExtension.java:138-139 | A move always lands on a ladder size, which is positive |
| `Ladder.Rescale` | src/main/java/com/github/lsetzl/StepRecorderExtension.java:143-144 | The result is count × old / new truncated toward zero (bounded on both sides), and zero stays zero |
| `Classifier.IsClear` | src/main/java/com/github/lsetzl/StepRecorderExtension.java:166-168 | A clear message is a pitch bend and never a reset (data1 is not 127) |
| `Classifier.IsReset` | src/main/java/com/github/lsetzl/StepRecorderExtension.java:170-172 | A reset message is a pitch bend and never a clear (data1 is not 0) |
| `Classifier.IsRewind` | src/main/java/com/github/lsetzl/StepRecorderExtension.java:174-176 | A rewind message is a note-on of a reserved pitch class |
| `Classifier.IsForward` | src/main/java/com/github/lsetzl/StepRecorderExtension.java:178-180 | A forward message is a note-on of a reserved pitch class |
| `Classifier.IsDecreaseStepSize` | src/main/java/com/github/lsetzl/StepRecorderExtension.java:182-184 | A step-size decrease is a note-on of a reserved pitch class |
| `Classifier.IsIncreaseStepSize` | src/main/java/com/github/lsetzl/StepRecorderExtension.java:186-188 | A step-size increase is a note-on of a reserved pitch class |
| `Classifier.Classify` | src/main/java/com/github/lsetzl/StepRecorderExtension.java:62-78 | KeyDown exactly for note-ons outside pitch classes 1, 3, 8, 10; KeyUp exactly for note-offs of a held key; Ignore exactly for the remaining messages |
| `Classifier.ClassifyMatchesTable` | src/main/java/com/github/lsetzl/StepRecorderExtension.java:166-188 | The ordered tests agree with a table keyed by message kind and pitch class |
| `Classifier.ControlTestsExclusive` | src/main/java/com/github/lsetzl/StepRecorderExtension.java:166-188 | No message satisfies two of the six control tests |
| `Machine.Initial` | src/main/java/com/github/lsetzl/StepRecorderExtension.java:26-30 | The initial state has the cursor at 0, no duration, no keys held and 1/4 bar, and satisfies the invariant |
| `Machine.SetTimeRange` | src/main/java/com/github/lsetzl/StepRecorderExtension.java:149-156 | The marker is a silent lane-0 note at the cursor, max(duration, 1) steps of the current size long, followed by a clear of that same cell; nothing else is touched |
| `Machine.KeyOps` | src/main/java/com/github/lsetzl/StepRecorderExtension.java:159-162 | Two edits per held key, all in the cursor column |
| `Machine.SetNoteSteps` | src/main/java/com/github/lsetzl/StepRecorderExtension.java:158-164 | Two edits per held key plus the marker, all in the cursor column |
| `Machine.FinishNote` | src/main/java/com/github/lsetzl/StepRecorderExtension.java:81-88 | The first occurrence leaves the chord and the rest keep their order. When the chord empties, the cursor advances by the duration, the duration returns to 0 and the marker is sent at the new cursor. Otherwise nothing else changes and nothing is emitted. The invariant is kept |
| `Machine.AddNote` | src/main/java/com/github/lsetzl/StepRecorderExtension.java:90-94 | The key is appended. A new chord gets exactly one step and a running chord keeps its duration. The whole chord is rewritten and the marker sent. The invariant is kept for a playable key |
| `Machine.ClearStepsAtTime` | src/main/java/com/github/lsetzl/StepRecorderExtension.java:96-98 | Clear changes no state and sends exactly one edit, the clear of the cursor column |
| `Machine.ResetTimeRange` | src/main/java/com/github/lsetzl/StepRecorderExtension.java:100-105 | Reset returns to cursor 0 with no chord and no duration, keeps the step size, and sends the marker at step 0 |
| `Machine.ForwardTimeRange` | src/main/java/com/github/lsetzl/StepRecorderExtension.java:107-115 | Exactly one counter grows by one: the duration while keys are held, else the cursor. The chord is rewritten while keys are held, otherwise the marker is sent. The invariant is kept |
| `Machine.RewindTimeRange` | src/main/java/com/github/lsetzl/StepRecorderExtension.java:117-127 | The held chord shrinks by one step and is rewritten, but never below one step; at one step nothing changes and nothing is emitted. With no keys held the cursor moves back but never below 0, and the marker is sent at the (possibly unchanged) cursor. The invariant is kept |
| `Machine.ChangeStepSize` | src/main/java/com/github/lsetzl/StepRecorderExtension.java:137-147 | Past a ladder end it is a no-op with no edits. Otherwise the size moves, both counters are rescaled by old/new, and the clip's quantization is set before the marker, whose edits stay in the new cursor's column. The invariant is kept |
| `Machine.Apply` | src/main/java/com/github/lsetzl/StepRecorderExtension.java:62-78 | Every command the classifier can produce keeps the invariant, every command edits only the column of the new cursor, and Ignore changes nothing and emits nothing |
| `Machine.OnMidiIn` | src/main/java/com/github/lsetzl/StepRecorderExtension.java:58-79 | Every message keeps the invariant (counters non-negative, size on the ladder, nothing pending without keys, only playable keys held), and every edit lands in the new cursor's column |
| `Properties.KeyOpsAt` | src/main/java/com/github/lsetzl/StepRecorderExtension.java:159-162 | The i-th held key's clear and write sit at positions 2i and 2i+1 |
| `Properties.EmissionOrder` | src/main/java/com/github/lsetzl/StepRecorderExtension.java:149-164 | For each held key in press order, its cell is cleared and then written with the preference velocity and the duration length. Then the marker of max(duration, 1) steps is written and its cell cleared |
| `Properties.ForwardsAccumulate` | src/main/java/com/github/lsetzl/StepRecorderExtension.java:107-115 | k Forwards add exactly k: to the duration while keys are held, to the cursor otherwise |
| `Properties.RewindsFloor` | src/main/java/com/github/lsetzl/StepRecorderExtension.java:117-127 | From any state with a non-negative cursor and, while keys are held, a duration of at least one, k Rewinds subtract k but stop at cursor 0 (no keys held) or at duration 1 (keys held) |
| `Properties.RewindsStayAtOrigin` | src/main/java/com/github/lsetzl/StepRecorderExtension.java:124-125 | From the initial state any number of Rewinds leaves the cursor at 0 |
| `Properties.ForwardThenRewind` | src/main/java/com/github/lsetzl/StepRecorderExtension.java:107-127 | Rewind undoes Forward, except on a held chord whose duration was truncated to 0; there it ends at 1 |
| `Properties.StepSizeChangeAtEndsIsNoop` | src/main/java/com/github/lsetzl/StepRecorderExtension.java:137-139 | Decreasing at 1/8 bar and increasing at 4 bars change nothing and emit nothing |
| `Properties.RescaleByTwo` | src/main/java/com/github/lsetzl/StepRecorderExtension.java:143-144 | Halving the size doubles a count exactly, and doubling it halves the count back exactly |
| `Properties.DecreaseThenIncreaseRestores` | src/main/java/com/github/lsetzl/StepRecorderExtension.java:137-147 | From 1/2 bar or coarser, one notch finer and back restores the whole state |
| `Properties.IncreaseThenDecreaseRestoresEven` | src/main/java/com/github/lsetzl/StepRecorderExtension.java:137-147 | From 1/4 to 2 bars, one notch coarser and back restores the whole state when the cursor and duration are even |
| `Properties.TripletRoundTripLoses` | src/main/java/com/github/lsetzl/StepRecorderExtension.java:137-147 | At 1/6 bar, cursor 1 goes finer and back and ends at 0 |
| `Properties.CoarserRoundTripLosesAtEighth` | src/main/java/com/github/lsetzl/StepRecorderExtension.java:137-147 | At 1/8 bar, cursor 2 goes one notch coarser and back and ends at 1 |
| `Properties.CoarserRoundTripLosesAtSixth` | src/main/java/com/github/lsetzl/StepRecorderExtension.java:137-147 | At 1/6 bar, cursor 2 goes one notch coarser and back and ends at 1 |
| `Properties.HeldChordCanLoseItsDuration` | src/main/java/com/github/lsetzl/StepRecorderExtension.java:144 | A held chord of one step at 1/4 bar has zero steps at 1/2 bar |
| `Properties.UnheldNoteOffIsIgnored` | src/main/java/com/github/lsetzl/StepRecorderExtension.java:76-78 | A note-off for a key that is not held changes nothing and emits nothing |
| `Properties.ReservedNotesNeverHeld` | src/main/java/com/github/lsetzl/StepRecorderExtension.java:62-78 | After any message, no key of pitch class 1, 3, 8 or 10 is held |
| `Properties.SingleNoteRoundTrip` | src/main/java/com/github/lsetzl/StepRecorderExtension.java:81-94 | From idle, press, k Forwards and release leave nothing held and no duration pending. The cursor advances by 1 + k |
| `Properties.DoublePressNeedsTwoReleases` | src/main/java/com/github/lsetzl/StepRecorderExtension.java:81-94 | A key pressed twice is held twice. The first release changes only the held list and emits nothing. The second release advances the cursor |
| `Properties.RecordOneNote` | src/main/java/com/github/lsetzl/StepRecorderExtension.java:81-164 | The exact edits for pressing key 60, one Forward and the release from the initial state. The release puts the marker at step 2 and leaves step 0 untouched |
| `Recorder.Dispatch` | src/main/java/com/github/lsetzl/StepRecorderExtension.java:62-78 | Each branch of the callback's test chain selects the transition that classify-then-apply selects |
| `Recorder.StepRecorder.constructor` | src/main/java/com/github/lsetzl/StepRecorderExtension.java:26-30 | The fields start at the initial state, with the preview size at 1/4 bar |
| `Recorder.StepRecorder.OnMidiIn` | src/main/java/com/github/lsetzl/StepRecorderExtension.java:58-79 | The new fields and the edits equal `Machine.OnMidiIn` of the old fields. The invariant is kept. The preview size records the old size exactly when the size changed |
| `Recorder.StepRecorder.FinishNote` | src/main/java/com/github/lsetzl/StepRecorderExtension.java:81-88 | Updates the fields as `Machine.FinishNote` does and keeps the invariant |
| `Recorder.StepRecorder.AddNote` | src/main/java/com/github/lsetzl/StepRecorderExtension.java:90-94 | Updates the fields as `Machine.AddNote` does; keeps the invariant when the key is not a reserved control key, which the callback guarantees |
| `Recorder.StepRecorder.ClearStepsAtTime` | src/main/java/com/github/lsetzl/StepRecorderExtension.java:96-98 | Changes nothing and returns the single column clear |
| `Recorder.StepRecorder.ResetTimeRange` | src/main/java/com/github/lsetzl/StepRecorderExtension.java:100-105 | Updates the fields as `Machine.ResetTimeRange` does |
| `Recorder.StepRecorder.ForwardTimeRange` | src/main/java/com/github/lsetzl/StepRecorderExtension.java:107-115 | Updates the fields as `Machine.ForwardTimeRange` does |
| `Recorder.StepRecorder.RewindTimeRange` | src/main/java/com/github/lsetzl/StepRecorderExtension.java:117-127 | Updates the fields as `Machine.RewindTimeRange` does |
| `Recorder.StepRecorder.DecreaseStepSize` | src/main/java/com/github/lsetzl/StepRecorderExtension.java:129-131 | One notch finer, as `Machine.ChangeStepSize` with -1 |
| `Recorder.StepRecorder.IncreaseStepSize` | src/main/java/com/github/lsetzl/StepRecorderExtension.java:133-135 | One notch coarser, as `Machine.ChangeStepSize` with +1 |
| `Recorder.StepRecorder.ChangeStepSize` | src/main/java/com/github/lsetzl/StepRecorderExtension.java:137-147 | Looks the size up with `IndexOf` and updates the fields as `Machine.ChangeStepSize` does. The preview size holds the old size after a change and is untouched after a refusal |
| `Recorder.StepRecorder.SetTimeRange` | src/main/java/com/github/lsetzl/StepRecorderExtension.java:149-156 | Returns the marker edits for the current fields without changing them |
| `Recorder.StepRecorder.SetNoteSteps` | src/main/java/com/github/lsetzl/StepRecorderExtension.java:158-164 | Its loop over the held keys returns exactly `Machine.SetNoteSteps` of the current fields, without changing them |

## Left out

- Host lifecycle (`init`, `exit`, `flush`), the MIDI callback registration, logging and popup notifications. They are host calls with no logic. The `setStepSize` call made in `init` goes with them.
- `StepRecorderExtensionDefinition.java` is not part of this model. It holds only metadata: name, UUID, API version and port counts.
- The clip itself. Edits are emitted as a trace and never applied, so the model says nothing about grid contents.
- Preferences. The velocity (already cast to an integer) and the scaling value are inputs to each message. Scaling is carried in note lengths but not interpreted.
- MIDI status decoding. `isNoteOn`, `isNoteOff` and `isPitchBend` belong to the host library, so the message kind is an input.
- Floating point. Step sizes are exact 1/24-bar integers, and the model assumes the double arithmetic of the rescale truncates to the same integer as exact rational arithmetic. The double value `0.5 / 3` is not modelled.
- Machine.ChangeStepSize: does not model the `(int)` cast saturating at `Integer.MAX_VALUE`, because `Ladder.Rescale` works on unbounded integers; a rescale that would exceed the 32-bit range is not capped.
- Ladder.Rescale: truncates toward zero without the cap at `Integer.MAX_VALUE` that the double-to-`int` cast applies, because counts are unbounded integers.
- Machine.ForwardTimeRange: does not model 32-bit `int` wrap-around of `step` and `duration`, because counters are unbounded integers.
- Machine.FinishNote: does not model 32-bit `int` wrap-around when the duration is added to the cursor, for the same reason.
- Failure of a clip call part-way through a handler. The source does not handle it, and the model assumes every edit succeeds.
