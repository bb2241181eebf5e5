/**
 * `PatternCursor.move` (app/VoodooTrackerX/VoodooTrackerXTests/VoodooTrackerXTests.swift):
 * the pattern editor's cursor, a row, a channel and one of the five fields of
 * a cell. A move first clamps row and channel into the pattern, then applies
 * one navigation command; horizontal moves step through the fields and wrap
 * into the neighbouring channel. Swift's `Int` is taken as unbounded.
 */
module Cursor {
  import opened Bytes

  datatype Command = Up | Down | PageUp | PageDown | Home | End | Left | Right

  /** `PatternCursorField`, with raw values 0 to 4 from left to right. */
  datatype Field = Note | Instrument | Volume | EffectType | EffectParam
  {
    function Raw(): int
    {
      match this
      case Note => 0
      case Instrument => 1
      case Volume => 2
      case EffectType => 3
      case EffectParam => 4
    }
  }

  /** `PatternCursorField(rawValue:)`: the field with that raw value, if any. */
  function FieldFromRaw(raw: int): (f: Option<Field>)
    ensures f.Some? <==> 0 <= raw <= 4
    ensures f.Some? ==> f.value.Raw() == raw
  {
    if raw == 0 then Some(Note)
    else if raw == 1 then Some(Instrument)
    else if raw == 2 then Some(Volume)
    else if raw == 3 then Some(EffectType)
    else if raw == 4 then Some(EffectParam)
    else None
  }

  /** A field's raw value reads back as the field. */
  lemma FieldRawRoundTrip(f: Field)
    ensures FieldFromRaw(f.Raw()) == Some(f)
  {
  }

  datatype CursorState = CursorState(row: int, channel: int, field: Field)

  /** The cursor lies inside a pattern of `rowCount` rows and `channelCount` channels (an empty one counts as one). */
  predicate InBounds(s: CursorState, rowCount: int, channelCount: int)
  {
    0 <= s.row <= Max(0, rowCount - 1) && 0 <= s.channel <= Max(0, channelCount - 1)
  }

  /** The cursor after `move`: clamp row and channel, then apply the command. */
  function Moved(s: CursorState, command: Command, rowCount: int, channelCount: int, pageStep: int): (m: CursorState)
    ensures 0 <= m.channel <= Max(0, channelCount - 1)
    ensures command == Left || command == Right ==> InBounds(m, rowCount, channelCount)
  {
    var lastRow := Max(0, rowCount - 1);
    var row := Min(Max(0, s.row), lastRow);
    var channel := Min(Max(0, s.channel), Max(0, channelCount - 1));
    match command
    case Up => CursorState(Max(0, row - 1), channel, s.field)
    case Down => CursorState(Min(lastRow, row + 1), channel, s.field)
    case PageUp => CursorState(Max(0, row - pageStep), channel, s.field)
    case PageDown => CursorState(Min(lastRow, row + pageStep), channel, s.field)
    case Home => CursorState(0, channel, s.field)
    case End => CursorState(lastRow, channel, s.field)
    case Left =>
      var previous := FieldFromRaw(s.field.Raw() - 1);
      if previous.Some? then CursorState(row, channel, previous.value)
      else if channel > 0 then CursorState(row, channel - 1, EffectParam)
      else CursorState(row, channel, s.field)
    case Right =>
      var next := FieldFromRaw(s.field.Raw() + 1);
      if next.Some? then CursorState(row, channel, next.value)
      else if channel < channelCount - 1 then CursorState(row, channel + 1, Note)
      else CursorState(row, channel, s.field)
  }

  class PatternCursor {
    var row: int
    var channel: int
    var field: Field

    function State(): CursorState
      reads this
    {
      CursorState(row, channel, field)
    }

    constructor(row: int, channel: int, field: Field)
      ensures State() == CursorState(row, channel, field)
    {
      this.row := row;
      this.channel := channel;
      this.field := field;
    }

    /** `move(_:rowCount:channelCount:pageStep:)`; the source's default page step is 16. */
    method Move(command: Command, rowCount: int, channelCount: int, pageStep: int)
      modifies this
      ensures State() == Moved(old(State()), command, rowCount, channelCount, pageStep)
    {
      row := Min(Max(0, row), Max(0, rowCount - 1));
      channel := Min(Max(0, channel), Max(0, channelCount - 1));

      match command {
        case Up =>
          row := Max(0, row - 1);
        case Down =>
          row := Min(Max(0, rowCount - 1), row + 1);
        case PageUp =>
          row := Max(0, row - pageStep);
        case PageDown =>
          row := Min(Max(0, rowCount - 1), row + pageStep);
        case Home =>
          row := 0;
        case End =>
          row := Max(0, rowCount - 1);
        case Left =>
          var previousField := FieldFromRaw(field.Raw() - 1);
          if previousField.Some? {
            field := previousField.value;
          } else if channel > 0 {
            channel := channel - 1;
            field := EffectParam;
          }
        case Right =>
          var nextField := FieldFromRaw(field.Raw() + 1);
          if nextField.Some? {
            field := nextField.value;
          } else if channel < channelCount - 1 {
            channel := channel + 1;
            field := Note;
          }
      }
    }
  }

  /**
   * After any move the cursor is inside the pattern, whatever it was before,
   * as long as the page step is not negative (a negative step would move
   * PageUp down and PageDown up, past the clamps).
   */
  lemma MovedStaysInBounds(s: CursorState, command: Command, rowCount: int, channelCount: int, pageStep: int)
    requires pageStep >= 0
    ensures InBounds(Moved(s, command, rowCount, channelCount, pageStep), rowCount, channelCount)
  {
  }

  /** Why `MovedStaysInBounds` needs its precondition: PageUp by -100 from row 0 leaves a 64-row pattern. */
  lemma NegativePageStepEscapes()
    ensures var m := Moved(CursorState(0, 0, Note), PageUp, 64, 4, -100);
      m.row == 100 && !InBounds(m, 64, 4)
  {
  }

  /**
   * Vertical moves change only the row: the channel is the clamped one (the
   * same when the cursor was inside) and the field is kept.
   */
  lemma VerticalMovesKeepColumn(s: CursorState, command: Command, rowCount: int, channelCount: int, pageStep: int)
    requires command != Left && command != Right
    ensures var m := Moved(s, command, rowCount, channelCount, pageStep);
      && m.field == s.field
      && m.channel == Min(Max(0, s.channel), Max(0, channelCount - 1))
      && (InBounds(s, rowCount, channelCount) ==> m.channel == s.channel)
  {
  }

  /**
   * Horizontal moves never change the row of a cursor inside the pattern;
   * inside a cell they step to the neighbouring field and keep the channel.
   */
  lemma HorizontalMovesWithinCell(s: CursorState, rowCount: int, channelCount: int, pageStep: int)
    requires InBounds(s, rowCount, channelCount)
    ensures Moved(s, Left, rowCount, channelCount, pageStep).row == s.row
    ensures Moved(s, Right, rowCount, channelCount, pageStep).row == s.row
    ensures s.field != Note ==> var m := Moved(s, Left, rowCount, channelCount, pageStep);
      m.channel == s.channel && m.field.Raw() == s.field.Raw() - 1
    ensures s.field != EffectParam ==> var m := Moved(s, Right, rowCount, channelCount, pageStep);
      m.channel == s.channel && m.field.Raw() == s.field.Raw() + 1
  {
  }

  /**
   * Stepping left off the note field enters the effect parameter of the
   * previous channel; stepping right off the effect parameter enters the note
   * of the next channel. At the first and last channel those moves change nothing.
   */
  lemma HorizontalMovesWrap(s: CursorState, rowCount: int, channelCount: int, pageStep: int)
    requires InBounds(s, rowCount, channelCount)
    ensures s.field == Note && s.channel > 0 ==>
      Moved(s, Left, rowCount, channelCount, pageStep) == CursorState(s.row, s.channel - 1, EffectParam)
    ensures s.field == Note && s.channel == 0 ==>
      Moved(s, Left, rowCount, channelCount, pageStep) == s
    ensures s.field == EffectParam && s.channel < channelCount - 1 ==>
      Moved(s, Right, rowCount, channelCount, pageStep) == CursorState(s.row, s.channel + 1, Note)
    ensures s.field == EffectParam && s.channel == Max(0, channelCount - 1) ==>
      Moved(s, Right, rowCount, channelCount, pageStep) == s
  {
  }

  /**
   * Left and right undo each other inside the pattern, except at the two ends
   * where the move changes nothing.
   */
  lemma LeftUndoesRight(s: CursorState, rowCount: int, channelCount: int, pageStep: int)
    requires InBounds(s, rowCount, channelCount)
    requires !(s.field == EffectParam && s.channel == Max(0, channelCount - 1))
    ensures Moved(Moved(s, Right, rowCount, channelCount, pageStep), Left, rowCount, channelCount, pageStep) == s
  {
  }

  /**
   * The test case: four horizontal moves in a 64-row, 4-channel pattern, each
   * made through the class; the results are the cursors the test expects.
   */
  method HorizontalMovesScenario() returns (first: CursorState, second: CursorState, third: CursorState, fourth: CursorState)
    ensures first == CursorState(10, 0, Note)
    ensures second == CursorState(10, 1, Note)
    ensures third == CursorState(10, 2, EffectParam)
    ensures fourth == CursorState(10, 3, EffectParam)
  {
    var cursor := new PatternCursor(10, 0, Note);
    cursor.Move(Left, 64, 4, 16);
    first := cursor.State();

    cursor := new PatternCursor(10, 0, EffectParam);
    cursor.Move(Right, 64, 4, 16);
    second := cursor.State();

    cursor := new PatternCursor(10, 3, Note);
    cursor.Move(Left, 64, 4, 16);
    third := cursor.State();

    cursor := new PatternCursor(10, 3, EffectParam);
    cursor.Move(Right, 64, 4, 16);
    fourth := cursor.State();
  }
}
