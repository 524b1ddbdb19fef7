/**
 * The records the layout algorithms work on (include/lomse_system_layouter.h):
 * LineEntry (one staff object with its measured width and the spaces
 * assigned after it), LineTable (the entries of one line of a column),
 * ColumnStorage (the lines of a column) and the timed / non-timed tests
 * with which LineSpacer and TimeGridLineExplorer walk a line.
 * Logical units (LUnits) and time positions are `real`.
 */
module LineTables {

  /** Identity of the staff object and of the shape an entry refers to (not owned). */
  type StaffObjRef = nat
  type ShapeRef = nat

  // ---------------------------------------------------------------------
  // LineEntry
  // ---------------------------------------------------------------------

  class LineEntry {
    var isBarlineEntry: bool
    const staffObj: StaffObjRef
    const shape: ShapeRef
    const isProlog: bool
    /** Time position; negative for an object not anchored in time. */
    const timepos: real
    var xLeft: real
    var anchor: real
    var xFinal: real
    var size: real
    var fixedSpace: real
    var variableSpace: real

    /** The constructor's body is not part of this model: measurements start at zero. */
    constructor (so: StaffObjRef, sh: ShapeRef, prolog: bool, time: real)
      ensures staffObj == so && shape == sh && isProlog == prolog && timepos == time
      ensures !isBarlineEntry
      ensures xLeft == 0.0 && anchor == 0.0 && xFinal == 0.0
      ensures size == 0.0 && fixedSpace == 0.0 && variableSpace == 0.0
    {
      staffObj, shape, isProlog, timepos := so, sh, prolog, time;
      isBarlineEntry := false;
      xLeft, anchor, xFinal := 0.0, 0.0, 0.0;
      size, fixedSpace, variableSpace := 0.0, 0.0, 0.0;
    }

    /** get_total_size: the shape's width plus the fixed and the variable space after it. */
    function GetTotalSize(): (t: real)
      reads this
      ensures t == size + fixedSpace + variableSpace
    {
      size + fixedSpace + variableSpace
    }

    /** The entry's right edge, with its trailing space, is where its final position says. */
    predicate IsPlaced()
      reads this
    {
      xFinal == xLeft + GetTotalSize()
    }

    /** get_duration: always 0 (the source has not implemented it yet). */
    function GetDuration(): (d: real)
      ensures d == 0.0
    {
      0.0
    }

    /** set_variable_space: changes that field only (the frame is this one field). */
    method SetVariableSpace(space: real)
      modifies this`variableSpace
      ensures variableSpace == space
      ensures GetTotalSize() == old(GetTotalSize()) - old(variableSpace) + space
    {
      variableSpace := space;
    }

    /** set_fixed_space */
    method SetFixedSpace(space: real)
      modifies this`fixedSpace
      ensures fixedSpace == space
      ensures GetTotalSize() == old(GetTotalSize()) - old(fixedSpace) + space
    {
      fixedSpace := space;
    }

    /** set_size */
    method SetSize(width: real)
      modifies this`size
      ensures size == width
      ensures GetTotalSize() == old(GetTotalSize()) - old(size) + width
    {
      size := width;
    }

    /** set_position: moves the left edge; the final position is not updated. */
    method SetPosition(pos: real)
      modifies this`xLeft
      ensures xLeft == pos
      ensures GetTotalSize() == old(GetTotalSize())
    {
      xLeft := pos;
    }

    /** mark_as_barline_entry (idempotent: marking again changes nothing). */
    method MarkAsBarlineEntry()
      modifies this`isBarlineEntry
      ensures isBarlineEntry
      ensures old(isBarlineEntry) ==> unchanged(this)
    {
      isBarlineEntry := true;
    }

    /** update_x_final: re-establishes xFinal = xLeft + total size; no other field changes. */
    method UpdateXFinal()
      modifies this`xFinal
      ensures IsPlaced()
      ensures xFinal == xLeft + size + fixedSpace + variableSpace
      ensures old(IsPlaced()) ==> xFinal == old(xFinal)
    {
      xFinal := xLeft + GetTotalSize();
    }
  }

  // ---------------------------------------------------------------------
  // LineTable
  // ---------------------------------------------------------------------

  /** is_line_for_voice: a line with no voice (0) takes every voice. */
  predicate LineForVoice(lineVoice: int, v: int)
  {
    lineVoice == 0 || lineVoice == v
  }

  /** A line whose voice is defined takes exactly that voice; one without takes all. */
  lemma VoiceMatching(lineVoice: int, v: int)
    ensures lineVoice != 0 ==> (LineForVoice(lineVoice, v) <==> v == lineVoice)
    ensures lineVoice == 0 ==> LineForVoice(lineVoice, v)
  {
  }

  class LineTable {
    var entries: seq<LineEntry>
    const line: int
    const instr: int
    var voice: int
    const lineStart: real
    const initialSpace: real

    /** The constructor's body is not part of this model: the line starts empty and with no voice. */
    constructor (l: int, nInstr: int, uxStart: real, uSpace: real)
      ensures entries == [] && line == l && instr == nInstr && voice == 0
      ensures lineStart == uxStart && initialSpace == uSpace
    {
      entries := [];
      line, instr, voice := l, nInstr, 0;
      lineStart, initialSpace := uxStart, uSpace;
    }

    /** size */
    function Size(): (n: nat)
      reads this
      ensures n == |entries|
      ensures n == 0 <==> entries == []
    {
      |entries|
    }

    /** front (a non-empty line only) */
    function Front(): (e: LineEntry)
      reads this
      requires |entries| > 0
      ensures e == entries[0]
    {
      entries[0]
    }

    /** back, get_last_entry (a non-empty line only) */
    function Back(): (e: LineEntry)
      reads this
      requires |entries| > 0
      ensures e == entries[|entries| - 1]
    {
      entries[|entries| - 1]
    }

    /** item(i) */
    function Item(i: int): (e: LineEntry)
      reads this
      requires 0 <= i < |entries|
      ensures e == entries[i]
      ensures i == 0 ==> e == Front()
      ensures i == |entries| - 1 ==> e == Back()
    {
      entries[i]
    }

    /** push_back: the entry becomes the last one; earlier entries stay. */
    method PushBack(e: LineEntry)
      modifies this`entries
      ensures entries == old(entries) + [e]
      ensures Size() == old(Size()) + 1 && Back() == e
      ensures forall i :: 0 <= i < old(Size()) ==> Item(i) == old(Item(i))
    {
      entries := entries + [e];
    }

    /** clear */
    method Clear()
      modifies this`entries
      ensures entries == [] && Size() == 0
    {
      entries := [];
    }

    /** is_for_line: the line number matches. */
    function IsForLine(l: int): (b: bool)
      reads this
      ensures b <==> line == l
    {
      line == l
    }

    /** is_line_for_instrument: the instrument number matches. */
    function IsLineForInstrument(nInstr: int): (b: bool)
      reads this
      ensures b <==> instr == nInstr
    {
      instr == nInstr
    }

    /** is_line_for_voice: a line with a voice takes only that voice; one without takes every voice. */
    function IsLineForVoice(v: int): (b: bool)
      reads this
      ensures voice != 0 ==> (b <==> v == voice)
      ensures voice == 0 ==> b
    {
      voice == 0 || voice == v
    }

    /** is_voiced_defined: false exactly when the line takes every voice. */
    function IsVoicedDefined(): (b: bool)
      reads this
      ensures !b ==> forall v :: LineForVoice(voice, v)
      ensures b ==> !LineForVoice(voice, voice + 1)
    {
      voice != 0
    }

    /** get_voice: the line always takes its own voice. */
    function GetVoice(): (v: int)
      reads this
      ensures v == voice && LineForVoice(voice, v)
    {
      voice
    }

    /** set_voice: afterwards get_voice is the new voice and the line takes that voice. */
    method SetVoice(v: int)
      modifies this`voice
      ensures GetVoice() == v && IsLineForVoice(v)
      ensures IsVoicedDefined() <==> v != 0
    {
      voice := v;
    }
  }

  // ---------------------------------------------------------------------
  // ColumnStorage
  // ---------------------------------------------------------------------

  /** An iterator into a vector is modelled by its index; the end iterator is the length. */
  class ColumnStorage {
    var lines: seq<LineTable>

    constructor ()
      ensures lines == []
    {
      lines := [];
    }

    /** size: the number of lines. */
    function Size(): (n: nat)
      reads this
      ensures n == |lines|
      ensures n == 0 <==> lines == []
    {
      |lines|
    }

    /** end(): the position just past the last line. */
    function End(): (e: nat)
      reads this
      ensures e == |lines| && e == Size()
    {
      |lines|
    }

    /** get_last_line: end() stepped back once (a non-empty storage only). */
    function GetLastLine(): (it: nat)
      reads this
      requires |lines| > 0
      ensures it < |lines| && it + 1 == End()
    {
      End() - 1
    }

    /** is_end_of_table: the iterator is end(); a valid line position never is. */
    function IsEndOfTable(it: nat): (b: bool)
      reads this
      ensures b <==> it == End()
      ensures it < Size() ==> !b
    {
      it == |lines|
    }
  }

  /** The last line is never the end, and stepping past it is. */
  lemma LastLineIsNotEnd(cs: ColumnStorage)
    requires |cs.lines| > 0
    ensures !cs.IsEndOfTable(cs.GetLastLine()) && cs.IsEndOfTable(cs.GetLastLine() + 1)
    ensures cs.lines[cs.GetLastLine()] == cs.lines[|cs.lines| - 1]
  {
  }

  // ---------------------------------------------------------------------
  // Timed and non-timed positions in a line
  // ---------------------------------------------------------------------

  /** An entry position (iterator index, end = |entries|) holds a timed object. */
  predicate TimedAt(entries: seq<LineEntry>, it: nat)
  {
    it < |entries| && entries[it].timepos >= 0.0
  }

  /** An entry position holds a non-timed object (negative time position). */
  predicate NonTimedAt(entries: seq<LineEntry>, it: nat)
  {
    it < |entries| && entries[it].timepos < 0.0
  }

  /** Before the end a position is exactly one of timed and non-timed; at the end it is neither. */
  lemma TimedClassification(entries: seq<LineEntry>, it: nat)
    requires it <= |entries|
    ensures !(TimedAt(entries, it) && NonTimedAt(entries, it))
    ensures it == |entries| ==> !TimedAt(entries, it) && !NonTimedAt(entries, it)
    ensures it < |entries| ==> (TimedAt(entries, it) || NonTimedAt(entries, it))
  {
  }

  /** The cursor state LineSpacer keeps over its line (the spacing itself is not modelled). */
  class LineSpacer {
    const table: LineTable
    var cur: nat

    constructor (t: LineTable)
      ensures table == t && cur == 0
    {
      table, cur := t, 0;
    }

    /** is_non_timed_object: not at the end, and the entry's time position is negative. */
    function IsNonTimedObject(it: nat): (b: bool)
      reads this, table
      ensures b <==> it < |table.entries| && !TimedAt(table.entries, it)
    {
      it < |table.entries| && table.entries[it].timepos < 0.0
    }

    /** is_timed_object: not at the end, and the entry's time position is not negative. */
    function IsTimedObject(it: nat): (b: bool)
      reads this, table
      ensures b <==> it < |table.entries| && !NonTimedAt(table.entries, it)
    {
      it < |table.entries| && table.entries[it].timepos >= 0.0
    }

    /** is_current_object_non_timed: the test at the cursor. */
    function IsCurrentObjectNonTimed(): (b: bool)
      reads this, table
      ensures b <==> NonTimedAt(table.entries, cur)
    {
      IsNonTimedObject(cur)
    }

    /** are_there_more_objects: a cursor within the line is at an object, timed or not. */
    function AreThereMoreObjects(): (b: bool)
      reads this, table
      ensures cur <= |table.entries| ==> (b <==> TimedAt(table.entries, cur) || NonTimedAt(table.entries, cur))
    {
      cur != |table.entries|
    }
  }

  /** The cursor state TimeGridLineExplorer keeps over its line. */
  class TimeGridLineExplorer {
    const table: LineTable
    var cur: nat

    constructor (t: LineTable)
      ensures table == t && cur == 0
    {
      table, cur := t, 0;
    }

    /** there_are_objects: a cursor within the line is at an object, timed or not. */
    function ThereAreObjects(): (b: bool)
      reads this, table
      ensures cur <= |table.entries| ==> (b <==> TimedAt(table.entries, cur) || NonTimedAt(table.entries, cur))
    {
      cur != |table.entries|
    }

    /** is_current_object_non_timed: not at the end, and the time position is negative. */
    function IsCurrentObjectNonTimed(): (b: bool)
      reads this, table
      ensures b <==> cur < |table.entries| && !TimedAt(table.entries, cur)
    {
      cur < |table.entries| && table.entries[cur].timepos < 0.0
    }

    /** current_object_is_timed: not at the end, and the time position is not negative. */
    function CurrentObjectIsTimed(): (b: bool)
      reads this, table
      ensures b <==> cur < |table.entries| && !NonTimedAt(table.entries, cur)
    {
      cur < |table.entries| && table.entries[cur].timepos >= 0.0
    }
  }

  /** While objects remain, the explorer's current object is either timed or non-timed, never both. */
  lemma ExplorerClassification(x: TimeGridLineExplorer)
    requires x.cur <= |x.table.entries|
    ensures x.ThereAreObjects() <==> (x.CurrentObjectIsTimed() || x.IsCurrentObjectNonTimed())
    ensures !(x.CurrentObjectIsTimed() && x.IsCurrentObjectNonTimed())
  {
    TimedClassification(x.table.entries, x.cur);
  }

  /** The spacer's predicates agree with the explorer's on the same line and position. */
  lemma SpacerAgreesWithExplorer(s: LineSpacer, x: TimeGridLineExplorer)
    requires s.table == x.table && s.cur == x.cur
    ensures s.IsCurrentObjectNonTimed() == x.IsCurrentObjectNonTimed()
    ensures s.IsTimedObject(s.cur) == x.CurrentObjectIsTimed()
    ensures s.AreThereMoreObjects() == x.ThereAreObjects()
  {
  }
}
