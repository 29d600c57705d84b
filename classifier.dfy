/** Sorting incoming MIDI short messages into recorder commands. The status
    byte is decoded by the host library; here it arrives already reduced to
    its kind. */
module Classifier {

  datatype Kind = NoteOn | NoteOff | PitchBend | OtherKind

  /** A MIDI data byte. */
  type DataByte = b: int | 0 <= b < 128

  datatype Message = Message(kind: Kind, data1: DataByte, data2: DataByte)

  datatype Command =
    | Clear
    | Reset
    | Rewind
    | Forward
    | DecreaseStepSize
    | IncreaseStepSize
    | KeyDown(note: int)
    | KeyUp(note: int)
    | Ignore

  const OctaveKeys: int := 12

  predicate IsClear(m: Message)
    ensures IsClear(m) ==> m.kind == PitchBend && m.data1 != 127
  {
    m.kind == PitchBend && m.data1 == 0 && m.data2 == 0
  }

  predicate IsReset(m: Message)
    ensures IsReset(m) ==> m.kind == PitchBend && m.data1 != 0
  {
    m.kind == PitchBend && m.data1 == 127 && m.data2 == 127
  }

  predicate IsRewind(m: Message)
    ensures IsRewind(m) ==> m.kind == NoteOn && IsReserved(m.data1)
  {
    m.kind == NoteOn && m.data1 % OctaveKeys == 1
  }

  predicate IsForward(m: Message)
    ensures IsForward(m) ==> m.kind == NoteOn && IsReserved(m.data1)
  {
    m.kind == NoteOn && m.data1 % OctaveKeys == 3
  }

  predicate IsDecreaseStepSize(m: Message)
    ensures IsDecreaseStepSize(m) ==> m.kind == NoteOn && IsReserved(m.data1)
  {
    m.kind == NoteOn && m.data1 % OctaveKeys == 8
  }

  predicate IsIncreaseStepSize(m: Message)
    ensures IsIncreaseStepSize(m) ==> m.kind == NoteOn && IsReserved(m.data1)
  {
    m.kind == NoteOn && m.data1 % OctaveKeys == 10
  }

  /** The note numbers a note-on turns into a transport command. */
  predicate IsReserved(note: int) {
    var pc := note % OctaveKeys;
    pc == 1 || pc == 3 || pc == 8 || pc == 10
  }

  /** A note number that can be held as part of a chord. */
  predicate IsNoteKey(note: int) {
    0 <= note < 128 && !IsReserved(note)
  }

  /** The dispatch of the MIDI callback: the tests are tried in order and
      the first that matches wins; a note-off counts only for a key that is
      held. */
  function Classify(m: Message, held: seq<int>): (c: Command)
    ensures c.KeyDown? <==> m.kind == NoteOn && !IsReserved(m.data1)
    ensures c.KeyDown? ==> c.note == m.data1 && IsNoteKey(c.note)
    ensures c.KeyUp? <==> m.kind == NoteOff && m.data1 in held
    ensures c.KeyUp? ==> c.note == m.data1 && c.note in held
    ensures c == Ignore <==>
      m.kind == OtherKind
      || (m.kind == PitchBend && !IsClear(m) && !IsReset(m))
      || (m.kind == NoteOff && m.data1 !in held)
  {
    if IsClear(m) then Clear
    else if IsReset(m) then Reset
    else if IsRewind(m) then Rewind
    else if IsForward(m) then Forward
    else if IsDecreaseStepSize(m) then DecreaseStepSize
    else if IsIncreaseStepSize(m) then IncreaseStepSize
    else if m.kind == NoteOn then KeyDown(m.data1)
    else if m.kind == NoteOff && m.data1 in held then KeyUp(m.data1)
    else Ignore
  }

  /** The transport command of each reserved pitch class, as a table. */
  const ControlKeys: map<int, Command> :=
    map[1 := Rewind, 3 := Forward, 8 := DecreaseStepSize, 10 := IncreaseStepSize]

  /** An independent, table-driven statement of the same mapping: the kind
      selects the family, then the data bytes (or the held keys) select the
      command. */
  function ClassifyByKind(m: Message, held: seq<int>): Command {
    match m.kind
    case PitchBend =>
      if m.data1 == 0 && m.data2 == 0 then Clear
      else if m.data1 == 127 && m.data2 == 127 then Reset
      else Ignore
    case NoteOn =>
      var pc := m.data1 % OctaveKeys;
      if pc in ControlKeys then ControlKeys[pc] else KeyDown(m.data1)
    case NoteOff => if m.data1 in held then KeyUp(m.data1) else Ignore
    case OtherKind => Ignore
  }

  /** The ordered tests never overlap: trying them in any order would give
      the same command as the table. */
  lemma ClassifyMatchesTable(m: Message, held: seq<int>)
    ensures Classify(m, held) == ClassifyByKind(m, held)
  {
  }

  /** At most one of the six control tests holds of any message. */
  lemma ControlTestsExclusive(m: Message)
    ensures (if IsClear(m) then 1 else 0) + (if IsReset(m) then 1 else 0)
          + (if IsRewind(m) then 1 else 0) + (if IsForward(m) then 1 else 0)
          + (if IsDecreaseStepSize(m) then 1 else 0) + (if IsIncreaseStepSize(m) then 1 else 0) <= 1
  {
  }
}
