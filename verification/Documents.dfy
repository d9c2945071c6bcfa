/** The text of open documents: UTF-16 positions, incremental changes, and the
    overlay store the client pump keeps. */
module Documents {
  import opened Utf8
  import opened Options

  /** A position as the editor sends it; JSON numbers may be negative. */
  datatype Position = Position(line: int, character: int)
  datatype Range = Range(start: Position, end: Position)
  datatype Change = Change(range: Option<Range>, text: seq<Byte>)

  function Utf16CodeUnits(r: int): nat {
    if r <= 0xFFFF then 1 else 2
  }

  /** Where a cursor at p stands after c. */
  function Past(p: Position, c: Cell): Position {
    if c.rune == NEWLINE then Position(p.line + 1, 0)
    else Position(p.line, p.character + Utf16CodeUnits(c.rune))
  }

  /** Where a cursor at p stands after all of cells. */
  function Advance(p: Position, cells: seq<Cell>): Position {
    if cells == [] then p
    else Past(Advance(p, cells[..|cells| - 1]), cells[|cells| - 1])
  }

  const ORIGIN: Position := Position(0, 0)

  /** Boundary k of the text is at position p. */
  ghost predicate At(cells: seq<Cell>, k: nat, p: Position) {
    k <= |cells| && Advance(ORIGIN, cells[..k]) == p
  }

  predicate Before(p: Position, q: Position) {
    p.line < q.line || (p.line == q.line && p.character < q.character)
  }

  // ---- positions and boundaries --------------------------------------------

  lemma AdvanceStep(p: Position, cells: seq<Cell>, k: nat)
    requires k < |cells|
    ensures Advance(p, cells[..k + 1]) == Past(Advance(p, cells[..k]), cells[k])
  {
    assert cells[..k + 1][..k] == cells[..k];
  }

  lemma {:induction false} AdvanceConcat(p: Position, a: seq<Cell>, b: seq<Cell>)
    ensures Advance(p, a + b) == Advance(Advance(p, a), b)
  {
    if b == [] {
      assert a + b == a;
    } else {
      var front := b[..|b| - 1];
      assert (a + b)[..|a + b| - 1] == a + front;
      AdvanceConcat(p, a, front);
    }
  }

  /** Later boundaries have later positions, so a position names at most one. */
  lemma {:induction false} PositionsIncrease(cells: seq<Cell>, j: nat, k: nat)
    requires j < k <= |cells|
    ensures Before(Advance(ORIGIN, cells[..j]), Advance(ORIGIN, cells[..k]))
    decreases k
  {
    AdvanceStep(ORIGIN, cells, k - 1);
    if j < k - 1 {
      PositionsIncrease(cells, j, k - 1);
    }
  }

  lemma PositionIsUnique(cells: seq<Cell>, j: nat, k: nat, p: Position)
    requires At(cells, j, p) && At(cells, k, p)
    ensures j == k
  {
    if j < k {
      PositionsIncrease(cells, j, k);
    } else if k < j {
      PositionsIncrease(cells, k, j);
    }
  }

  /** The byte offset a position names: the end of the unique run of code points
      that holds `line` newlines and `character` UTF-16 units after the last. */
  ghost function OffsetOf(text: seq<Byte>, p: Position): (o: Option<nat>)
    ensures o.Some? ==> o.value <= |text|
  {
    if exists k :: At(Scan(text), k, p) then
      var k: nat :| At(Scan(text), k, p);
      ScanFrom(text, Scan(text), k);
      Some(Width(Scan(text)[..k]))
    else None
  }

  lemma OffsetAt(text: seq<Byte>, k: nat, p: Position)
    requires At(Scan(text), k, p)
    ensures OffsetOf(text, p) == Some(Width(Scan(text)[..k]))
  {
    var j: nat :| At(Scan(text), j, p) && OffsetOf(text, p) == Some(Width(Scan(text)[..j]));
    PositionIsUnique(Scan(text), j, k, p);
  }

  /** No boundary lies between two neighbours. */
  lemma NothingBetween(text: seq<Byte>, k: nat, p: Position)
    requires k <= |Scan(text)|
    requires Before(Advance(ORIGIN, Scan(text)[..k]), p)
    requires k < |Scan(text)| ==> Before(p, Advance(ORIGIN, Scan(text)[..k + 1]))
    ensures OffsetOf(text, p) == None
  {
    var cells := Scan(text);
    forall j: nat | At(cells, j, p) ensures false {
      if j < k {
        PositionsIncrease(cells, j, k);
      } else if k + 1 < j {
        PositionsIncrease(cells, k + 1, j);
      }
    }
  }

  lemma {:induction false} PositionsAreNatural(cells: seq<Cell>, k: nat)
    requires k <= |cells|
    ensures Advance(ORIGIN, cells[..k]).line >= 0 && Advance(ORIGIN, cells[..k]).character >= 0
  {
    if k > 0 {
      AdvanceStep(ORIGIN, cells, k - 1);
      PositionsAreNatural(cells, k - 1);
    }
  }

  lemma NegativeIsNowhere(text: seq<Byte>, p: Position)
    requires p.line < 0 || p.character < 0
    ensures OffsetOf(text, p) == None
  {
    forall j: nat | At(Scan(text), j, p) ensures false {
      PositionsAreNatural(Scan(text), j);
    }
  }

  lemma BoundaryStep(cells: seq<Cell>, k: nat)
    requires k < |cells|
    ensures Width(cells[..k + 1]) == Width(cells[..k]) + cells[k].width
    ensures Advance(ORIGIN, cells[..k + 1]) == Past(Advance(ORIGIN, cells[..k]), cells[k])
  {
    AdvanceStep(ORIGIN, cells, k);
    assert cells[..k + 1] == cells[..k] + [cells[k]];
    WidthConcat(cells[..k], [cells[k]]);
    assert Width([cells[k]]) == cells[k].width;
  }

  lemma {:induction false} NewlineIsOneByte(s: seq<Byte>, k: nat)
    requires k < |Scan(s)| && Scan(s)[k].rune == NEWLINE
    ensures Scan(s)[k].width == 1
  {
    var cells := Scan(s);
    ScanFrom(s, cells, k);
    var rest := s[Width(cells[..k])..];
    assert Scan(rest)[0] == cells[k];
  }

  predicate NoNewline(cells: seq<Cell>) {
    forall c <- cells :: c.rune != NEWLINE
  }

  /** The UTF-16 length of cells. */
  function Units(cells: seq<Cell>): nat {
    if cells == [] then 0
    else Units(cells[..|cells| - 1]) + Utf16CodeUnits(cells[|cells| - 1].rune)
  }

  lemma UnitsStep(cells: seq<Cell>, k: nat)
    requires k < |cells|
    ensures Units(cells[..k + 1]) == Units(cells[..k]) + Utf16CodeUnits(cells[k].rune)
    ensures Width(cells[..k + 1]) == Width(cells[..k]) + cells[k].width
    ensures NoNewline(cells[..k + 1]) <==> NoNewline(cells[..k]) && cells[k].rune != NEWLINE
  {
    assert cells[..k + 1][..k] == cells[..k];
    BoundaryStep(cells, k);
    assert cells[..k + 1] == cells[..k] + [cells[k]];
  }

  lemma {:induction false} UnitsIncrease(cells: seq<Cell>, j: nat, k: nat)
    requires j < k <= |cells|
    ensures Units(cells[..j]) < Units(cells[..k])
    ensures NoNewline(cells[..k]) ==> NoNewline(cells[..j])
  {
    UnitsStep(cells, k - 1);
    if j < k - 1 {
      UnitsIncrease(cells, j, k - 1);
    }
  }

  /** Within one line the column is the UTF-16 length so far; past a newline
      the line number is larger. */
  lemma {:induction false} AdvanceInLine(p: Position, cells: seq<Cell>)
    ensures NoNewline(cells) ==> Advance(p, cells) == Position(p.line, p.character + Units(cells))
    ensures !NoNewline(cells) ==> Advance(p, cells).line > p.line
  {
    if cells != [] {
      var front, c := cells[..|cells| - 1], cells[|cells| - 1];
      AdvanceInLine(p, front);
      assert cells == front + [c];
    }
  }

  /** Boundary j of a line's code points is on the line, at the given column. */
  ghost predicate ColumnAt(line: seq<Cell>, j: nat, character: int) {
    j <= |line| && NoNewline(line[..j]) && Units(line[..j]) == character
  }

  lemma OnLine(cells: seq<Cell>, first: nat, j: nat, line: int)
    requires At(cells, first, Position(line, 0)) && first + j <= |cells|
    ensures Width(cells[..first + j]) == Width(cells[..first]) + Width(cells[first..][..j])
    ensures NoNewline(cells[first..][..j]) ==> At(cells, first + j, Position(line, Units(cells[first..][..j])))
    ensures !NoNewline(cells[first..][..j]) ==> Advance(ORIGIN, cells[..first + j]).line > line
  {
    var mid := cells[first..][..j];
    assert cells[..first + j] == cells[..first] + mid;
    WidthConcat(cells[..first], mid);
    AdvanceConcat(ORIGIN, cells[..first], mid);
    AdvanceInLine(Position(line, 0), mid);
  }

  lemma ColumnFound(text: seq<Byte>, first: nat, rest: seq<Cell>, j: nat, line: int, character: int)
    requires At(Scan(text), first, Position(line, 0)) && rest == Scan(text)[first..]
    requires ColumnAt(rest, j, character)
    ensures OffsetOf(text, Position(line, character)) == Some(Width(Scan(text)[..first]) + Width(rest[..j]))
  {
    OnLine(Scan(text), first, j, line);
    OffsetAt(text, first + j, Position(line, character));
  }

  lemma ColumnMissing(text: seq<Byte>, first: nat, rest: seq<Cell>, line: int, character: int)
    requires At(Scan(text), first, Position(line, 0)) && rest == Scan(text)[first..] && 0 <= character
    requires forall j: nat :: !ColumnAt(rest, j, character)
    ensures OffsetOf(text, Position(line, character)) == None
  {
    hide Scan, Advance, Units, NoNewline;
    var cells := Scan(text);
    forall k: nat | k <= |cells| ensures !At(cells, k, Position(line, character)) {
      if k < first {
        PositionsIncrease(cells, k, first);
      } else {
        OnLine(cells, first, k - first, line);
        assert !ColumnAt(rest, k - first, character);
      }
    }
  }

  /** Byte offsets follow the order of positions. */
  lemma OffsetsAreMonotone(text: seq<Byte>, p: Position, q: Position)
    requires OffsetOf(text, p).Some? && OffsetOf(text, q).Some?
    ensures Before(p, q) <==> OffsetOf(text, p).value < OffsetOf(text, q).value
  {
    var j := BoundaryOf(text, p);
    var k := BoundaryOf(text, q);
    CellsAreNonempty(text);
    if j < k {
      PositionsIncrease(Scan(text), j, k);
      WidthIsPositive(Scan(text), j, k);
    } else if k < j {
      PositionsIncrease(Scan(text), k, j);
      WidthIsPositive(Scan(text), k, j);
    }
  }

  /** The middle of a surrogate pair and a column past the end of a line are
      rejected, not rounded or clamped. */
  lemma OnlyBoundariesResolve(text: seq<Byte>, k: nat, beyond: int)
    requires k < |Scan(text)|
    requires var p, c := Advance(ORIGIN, Scan(text)[..k]), Scan(text)[k];
             p.character < beyond && (c.rune == NEWLINE || beyond < p.character + Utf16CodeUnits(c.rune))
    ensures OffsetOf(text, Position(Advance(ORIGIN, Scan(text)[..k]).line, beyond)) == None
  {
    BoundaryStep(Scan(text), k);
    NothingBetween(text, k, Position(Advance(ORIGIN, Scan(text)[..k]).line, beyond));
  }

  // ---- byteOffsetForUTF16Position ------------------------------------------

  /** The byte offset of a UTF-16 position: found exactly when the position is
      a code-point boundary of the text. `Scan(s)` is what ranging over s yields. */
  method ByteOffsetForUTF16Position(text: seq<Byte>, line: int, character: int) returns (offset: nat, ok: bool)
    ensures OffsetOf(text, Position(line, character)) == if ok then Some(offset) else None
    ensures !ok ==> offset == 0
  {
    if line < 0 || character < 0 {
      NegativeIsNowhere(text, Position(line, character));
      return 0, false;
    }
    var lineStart, onLine, first := LineStart(text, line, character);
    if !onLine {
      return 0, false;
    }
    ScanFrom(text, Scan(text), first);
    var tail := Scan(text[lineStart..]);
    var column, found, end := ColumnOffset(tail, character);
    if !found {
      ColumnMissing(text, first, tail, line, character);
      return 0, false;
    }
    ColumnFound(text, first, tail, end, line, character);
    return lineStart + column, true;
  }

  /** The first loop: the offset of the line, boundary `first` of the text. */
  method LineStart(text: seq<Byte>, line: nat, ghost character: int)
      returns (lineStart: nat, ok: bool, ghost first: nat)
    ensures ok ==> At(Scan(text), first, Position(line, 0)) && lineStart == Width(Scan(text)[..first])
    ensures !ok ==> OffsetOf(text, Position(line, character)) == None
  {
    var cells := Scan(text);
    var currentLine, i, k: nat := 0, 0, 0;
    lineStart, first := 0, 0;
    while k < |cells|
      invariant first <= k <= |cells| && i == Width(cells[..k])
      invariant currentLine <= line && Advance(ORIGIN, cells[..k]).line == currentLine
      invariant At(cells, first, Position(currentLine, 0)) && lineStart == Width(cells[..first])
    {
      if currentLine == line {
        break;
      }
      BoundaryStep(cells, k);
      if cells[k].rune == NEWLINE {
        currentLine := currentLine + 1;
        NewlineIsOneByte(text, k);
        lineStart := i + 1;
        first := k + 1;
      }
      i := i + cells[k].width;
      k := k + 1;
    }
    ok := currentLine == line;
    if !ok {
      NothingBetween(text, k, Position(line, character));
    }
  }

  /** The second and third loops of byteOffsetForUTF16Position, over the code
      points from the start of the line on. */
  method ColumnOffset(cells: seq<Cell>, character: int) returns (offset: nat, ok: bool, ghost end: nat)
    requires 0 <= character
    ensures ok ==> ColumnAt(cells, end, character) && offset == Width(cells[..end])
    ensures !ok ==> forall j: nat :: !ColumnAt(cells, j, character)
  {
    var col, i, k: nat := 0, 0, 0;
    while k < |cells|
      invariant k <= |cells| && i == Width(cells[..k]) && col == Units(cells[..k]) <= character
      invariant NoNewline(cells[..k])
    {
      if cells[k].rune == NEWLINE {
        break;
      }
      if col == character {
        return i, true, k;
      }
      UnitsStep(cells, k);
      col := col + Utf16CodeUnits(cells[k].rune);
      if col > character {
        ColumnSkipped(cells, k, character);
        return 0, false, 0;
      }
      i := i + cells[k].width;
      k := k + 1;
    }
    if col != character {
      ColumnSkipped(cells, k, character);
      return 0, false, 0;
    }
    end := k;
    i, k := 0, 0;
    while k < |cells|
      invariant k <= end && i == Width(cells[..k])
    {
      if k < end {
        assert cells[..end][k] in cells[..end];
      }
      if cells[k].rune == NEWLINE {
        return i, true, end;
      }
      UnitsStep(cells, k);
      i := i + cells[k].width;
      k := k + 1;
    }
    assert cells[..k] == cells;
    return i, true, end;
  }

  lemma ColumnSkipped(cells: seq<Cell>, k: nat, character: int)
    requires k <= |cells| && Units(cells[..k]) < character
    requires k < |cells| ==> cells[k].rune == NEWLINE || Units(cells[..k + 1]) > character
    ensures forall j: nat :: !ColumnAt(cells, j, character)
  {
    forall j: nat | j <= |cells| && NoNewline(cells[..j]) ensures Units(cells[..j]) != character {
      if j < k {
        UnitsIncrease(cells, j, k);
      } else if k < j {
        assert cells[k] in cells[..j];
        if k + 1 < j {
          UnitsIncrease(cells, k + 1, j);
        }
      }
    }
  }

  // ---- applyContentChanges -------------------------------------------------

  /** The text after one change, or None when its range does not resolve. */
  ghost function Applied(text: seq<Byte>, change: Change): (r: Option<seq<Byte>>) {
    match change.range
    case None => Some(change.text)
    case Some(range) =>
      var start, end := OffsetOf(text, range.start), OffsetOf(text, range.end);
      if start.None? || end.None? || end.value < start.value then None
      else Some(text[..start.value] + change.text + text[end.value..])
  }

  /** The text after changes up to the first that fails, and whether none did. */
  ghost function AppliedAll(text: seq<Byte>, changes: seq<Change>): (seq<Byte>, bool)
    decreases changes
  {
    if changes == [] then (text, true)
    else match Applied(text, changes[0])
      case None => (text, false)
      case Some(next) => AppliedAll(next, changes[1..])
  }

  method ApplyContentChanges(original: seq<Byte>, changes: seq<Change>) returns (text: seq<Byte>, ok: bool)
    ensures (text, ok) == AppliedAll(original, changes)
  {
    text := original;
    for i := 0 to |changes|
      invariant AppliedAll(original, changes) == AppliedAll(text, changes[i..])
    {
      var ch := changes[i];
      assert changes[i..][1..] == changes[i + 1..];
      if ch.range == None {
        text := ch.text;
        continue;
      }
      var start, startOk := ByteOffsetForUTF16Position(text, ch.range.value.start.line, ch.range.value.start.character);
      if !startOk {
        return text, false;
      }
      var end, endOk := ByteOffsetForUTF16Position(text, ch.range.value.end.line, ch.range.value.end.character);
      if !endOk || end < start {
        return text, false;
      }
      text := text[..start] + ch.text + text[end..];
    }
    return text, true;
  }

  // ---- undo ----------------------------------------------------------------

  /** The change an editor sends to undo `change` on `text`: put the removed text
      back over the range the inserted text now occupies. */
  ghost function Inverse(text: seq<Byte>, change: Change): Change
    requires Applied(text, change).Some?
  {
    match change.range
    case None => Change(None, text)
    case Some(range) =>
      Change(Some(Range(range.start, Advance(range.start, Scan(change.text)))),
             text[OffsetOf(text, range.start).value..OffsetOf(text, range.end).value])
  }

  /** The undo of a whole notification: inverses in the opposite order. */
  ghost function InverseAll(text: seq<Byte>, changes: seq<Change>): seq<Change>
    requires AppliedAll(text, changes).1
    decreases changes
  {
    if changes == [] then []
    else InverseAll(Applied(text, changes[0]).value, changes[1..]) + [Inverse(text, changes[0])]
  }

  /** The boundary a resolving position names. */
  lemma BoundaryOf(text: seq<Byte>, p: Position) returns (k: nat)
    requires OffsetOf(text, p).Some?
    ensures At(Scan(text), k, p) && OffsetOf(text, p) == Some(Width(Scan(text)[..k]))
  {
    k :| At(Scan(text), k, p);
    OffsetAt(text, k, p);
  }

  lemma OffsetsFollowBoundaries(cells: seq<Cell>, j: nat, k: nat)
    requires j <= k <= |cells|
    ensures Width(cells[..k]) == Width(cells[..j]) + Width(cells[j..k])
  {
    assert cells[..k] == cells[..j] + cells[j..k];
    WidthConcat(cells[..j], cells[j..k]);
  }

  lemma {:induction false} WidthIsPositive(cells: seq<Cell>, j: nat, k: nat)
    requires j < k <= |cells|
    requires forall c <- cells :: c.width >= 1
    ensures Width(cells[..j]) < Width(cells[..k])
  {
    BoundaryStep(cells, k - 1);
    if j < k - 1 {
      WidthIsPositive(cells, j, k - 1);
    }
  }

  lemma {:induction false} CellsAreNonempty(s: seq<Byte>)
    ensures forall c <- Scan(s) :: c.width >= 1
    decreases |s|
  {
    if s != [] {
      CellsAreNonempty(s[DecodeRune(s).width..]);
    }
  }

  /** What replacing bytes start..end of a valid text by valid text does to its
      code points. */
  lemma Spliced(text: seq<Byte>, j: nat, k: nat, inserted: seq<Byte>)
    requires Valid(text) && Valid(inserted) && j <= k <= |Scan(text)|
    ensures Width(Scan(text)[..j]) <= Width(Scan(text)[..k]) <= |text|
    ensures var after := text[..Width(Scan(text)[..j])] + inserted + text[Width(Scan(text)[..k])..];
            Valid(after) && Scan(after) == Scan(text)[..j] + Scan(inserted) + Scan(text)[k..]
  {
    var cells := Scan(text);
    OffsetsFollowBoundaries(cells, j, k);
    ScanCut(text, j);
    ScanCut(text, k);
    ScanFrom(text, cells, k);
    var head, tail := text[..Width(cells[..j])], text[Width(cells[..k])..];
    ValidConcat(head, inserted);
    ScanConcat(head, inserted);
    ValidConcat(head + inserted, tail);
    ScanConcat(head + inserted, tail);
  }

  /** Undoing one change restores the document exactly. */
  lemma UndoRestores(text: seq<Byte>, change: Change)
    requires Valid(text) && Valid(change.text)
    requires Applied(text, change).Some?
    ensures Valid(Applied(text, change).value) && Valid(Inverse(text, change).text)
    ensures Applied(Applied(text, change).value, Inverse(text, change)) == Some(text)
  {
    match change.range
    case None =>
    case Some(range) =>
      var j := BoundaryOf(text, range.start);
      var k := BoundaryOf(text, range.end);
      if k < j {
        CellsAreNonempty(text);
        WidthIsPositive(Scan(text), k, j);
      }
      UndoBetween(text, j, k, change.text);
      RemovedIsValid(text, j, k);
  }

  lemma UndoBetween(text: seq<Byte>, j: nat, k: nat, inserted: seq<Byte>)
    requires Valid(text) && Valid(inserted) && j <= k <= |Scan(text)|
    ensures Width(Scan(text)[..j]) <= Width(Scan(text)[..k]) <= |text|
    ensures var start, end := Width(Scan(text)[..j]), Width(Scan(text)[..k]);
            var after, p := text[..start] + inserted + text[end..], Advance(ORIGIN, Scan(text)[..j]);
            && Valid(after)
            && Applied(after, Change(Some(Range(p, Advance(p, Scan(inserted)))), text[start..end])) == Some(text)
  {
    Spliced(text, j, k, inserted);
    var start, end := Width(Scan(text)[..j]), Width(Scan(text)[..k]);
    var after := text[..start] + inserted + text[end..];
    InsertedSpan(after, Scan(text)[..j], Scan(inserted), Scan(text)[k..]);
    ScanCoversAll(inserted);
    SpliceBack(text, start, end, inserted);
  }

  lemma Regroup(head: seq<Cell>, inserted: seq<Cell>, tail: seq<Cell>)
    ensures head + inserted + tail == head + (inserted + tail)
  {
  }

  /** Inserted code points lie between the end of what precedes them and the
      position they advance that to. */
  lemma InsertedSpan(after: seq<Byte>, head: seq<Cell>, inserted: seq<Cell>, tail: seq<Cell>)
    requires Scan(after) == head + inserted + tail
    ensures OffsetOf(after, Advance(ORIGIN, head)) == Some(Width(head))
    ensures OffsetOf(after, Advance(Advance(ORIGIN, head), inserted)) == Some(Width(head) + Width(inserted))
  {
    Regroup(head, inserted, tail);
    PrefixOffset(after, head, inserted + tail);
    SpanEnd(after, head, inserted, head + inserted, tail);
  }

  lemma SpanEnd(after: seq<Byte>, head: seq<Cell>, inserted: seq<Cell>, both: seq<Cell>, tail: seq<Cell>)
    requires both == head + inserted && Scan(after) == both + tail
    ensures OffsetOf(after, Advance(Advance(ORIGIN, head), inserted)) == Some(Width(head) + Width(inserted))
  {
    hide Scan, Advance, Width, OffsetOf;
    PrefixOffset(after, both, tail);
    AdvanceConcat(ORIGIN, head, inserted);
    WidthConcat(head, inserted);
  }

  lemma SpliceBack(text: seq<Byte>, start: nat, end: nat, inserted: seq<Byte>)
    requires start <= end <= |text|
    ensures var after := text[..start] + inserted + text[end..];
            after[..start] + text[start..end] + after[start + |inserted|..] == text
  {
  }

  lemma RemovedIsValid(text: seq<Byte>, j: nat, k: nat)
    requires Valid(text) && j <= k <= |Scan(text)|
    ensures Width(Scan(text)[..j]) <= Width(Scan(text)[..k]) <= |text|
    ensures Valid(text[Width(Scan(text)[..j])..Width(Scan(text)[..k])])
  {
    var cells := Scan(text);
    OffsetsFollowBoundaries(cells, j, k);
    ScanCut(text, k);
    var head := text[..Width(cells[..k])];
    assert Scan(head)[..j] == cells[..j];
    ScanCut(head, j);
    assert head[Width(cells[..j])..] == text[Width(cells[..j])..Width(cells[..k])];
  }

  /** A run of leading code points ends where its own extent says. */
  lemma PrefixOffset(text: seq<Byte>, head: seq<Cell>, tail: seq<Cell>)
    requires Scan(text) == head + tail
    ensures OffsetOf(text, Advance(ORIGIN, head)) == Some(Width(head))
  {
    assert (head + tail)[..|head|] == head;
    OffsetAt(text, |head|, Advance(ORIGIN, head));
  }

  lemma {:induction false} AppliedAllConcat(text: seq<Byte>, a: seq<Change>, b: seq<Change>)
    requires AppliedAll(text, a).1
    ensures AppliedAll(text, a + b) == AppliedAll(AppliedAll(text, a).0, b)
    decreases a
  {
    if a == [] {
      assert a + b == b;
    } else {
      assert (a + b)[1..] == a[1..] + b;
      AppliedAllConcat(Applied(text, a[0]).value, a[1..], b);
    }
  }

  /** Undoing a whole notification, however many changes it carries, restores
      the document exactly. */
  lemma {:induction false} UndoAllRestores(text: seq<Byte>, changes: seq<Change>)
    requires Valid(text) && forall c <- changes :: Valid(c.text)
    requires AppliedAll(text, changes).1
    ensures Valid(AppliedAll(text, changes).0)
    ensures AppliedAll(AppliedAll(text, changes).0, InverseAll(text, changes)) == (text, true)
    decreases changes
  {
    if changes != [] {
      var next, rest := Applied(text, changes[0]).value, changes[1..];
      UndoRestores(text, changes[0]);
      UndoAllRestores(next, rest);
      var last := [Inverse(text, changes[0])];
      AppliedAllConcat(AppliedAll(next, rest).0, InverseAll(next, rest), last);
      assert last[1..] == [];
    }
  }

  /** Validity cannot be dropped, although no text that JSON decoding delivers lacks
      it: on a truncated sequence the inserted bytes fuse with the text before them
      and the undo no longer resolves. */
  lemma UndoNeedsValidText()
    ensures var text, change := [0xE4], Change(Some(Range(Position(0, 1), Position(0, 1))), [0xBD, 0xA0]);
            && !Valid(text)
            && Applied(text, change) == Some([0xE4, 0xBD, 0xA0])
            && Applied([0xE4, 0xBD, 0xA0], Inverse(text, change)) == None
  {
    var lead: seq<Byte> := [0xE4];
    var text: seq<Byte> := [0xBD, 0xA0];
    SingleBadByte(0xE4);
    assert Scan(lead) == Scan(lead) + [];
    PrefixOffset(lead, Scan(lead), []);
    ScanCoversAll(lead);
    assert Scan(lead)[0] in Scan(lead);
    assert lead[..1] + text + lead[1..] == [0xE4, 0xBD, 0xA0];
    TwoBadBytes(0xBD, 0xA0);
    FusedText();
  }

  lemma SingleBadByte(b: Byte)
    requires 0x80 <= b
    ensures Scan([b]) == [Cell(RUNE_ERROR, 1)]
    ensures Advance(ORIGIN, Scan([b])) == Position(0, 1)
  {
    assert [b][1..] == [];
    assert Advance(ORIGIN, [Cell(RUNE_ERROR, 1)][..0]) == ORIGIN;
  }

  lemma TwoBadBytes(a: Byte, b: Byte)
    requires 0x80 <= a < 0xC0 && 0x80 <= b < 0xC0
    ensures Advance(Position(0, 1), Scan([a, b])) == Position(0, 3)
  {
    var bad := Cell(RUNE_ERROR, 1);
    assert [a, b][1..] == [b];
    SingleBadByte(b);
    assert Scan([a, b]) == [bad] + [bad];
    AdvanceConcat(Position(0, 1), [bad], [bad]);
    assert [bad][..0] == [];
    assert Advance(Position(0, 1), [bad]) == Position(0, 2);
    assert Advance(Position(0, 2), [bad]) == Position(0, 3);
  }

  lemma FusedText()
    ensures OffsetOf([0xE4, 0xBD, 0xA0], Position(0, 3)) == None
  {
    var after: seq<Byte> := [0xE4, 0xBD, 0xA0];
    var c := DecodeRune(after);
    assert Bits(after, 0, 4) == 4;
    assert Bits(after, 1, 4) == 4 * 0x40 + 0x3D;
    assert Bits(after, 2, 4) == 0x4F60;
    assert after[3..] == [] && Scan(after) == [c];
    assert [c][..0] == [] && [c][..1] == [c];
    assert Advance(ORIGIN, [c]) == Position(0, 1);
    NothingBetween(after, 1, Position(0, 3));
  }

  // ---- the overlay store ---------------------------------------------------

  datatype Doc = Doc(uri: string, languageId: string, version: int, text: seq<Byte>)

  /** Whether trackDidOpen keeps a document; isGoPath is its path's suffix test. */
  predicate Tracked(uri: string, languageId: string, isGoPath: bool) {
    uri != "" && (languageId == "go" || isGoPath)
  }

  function OpenedDocs(docs: map<string, Doc>, doc: Doc, isGoPath: bool): map<string, Doc> {
    if Tracked(doc.uri, doc.languageId, isGoPath)
    then docs[doc.uri := doc.(languageId := if doc.languageId == "" then "go" else doc.languageId)]
    else docs
  }

  ghost function ChangedDocs(docs: map<string, Doc>, uri: string, version: int, changes: seq<Change>)
      : map<string, Doc>
  {
    if uri == "" || uri !in docs || !AppliedAll(docs[uri].text, changes).1 then docs
    else docs[uri := docs[uri].(text := AppliedAll(docs[uri].text, changes).0, version := version)]
  }

  function ClosedDocs(docs: map<string, Doc>, uri: string): map<string, Doc> {
    docs - {uri}
  }

  /** What each notification does to the tracked documents: opening tracks a named Go
      document, "go" standing for an absent language, with its text and version; a change
      gives a tracked one the edited text and the new version, unless one of its edits
      does not resolve; closing forgets it; and every other document stays. */
  lemma TrackingIsExact(docs: map<string, Doc>, doc: Doc, isGoPath: bool, uri: string, version: int,
                        changes: seq<Change>, u: string)
    ensures var after := OpenedDocs(docs, doc, isGoPath);
            if u == doc.uri && doc.uri != "" && (doc.languageId == "go" || isGoPath)
            then u in after && after[u] == doc.(languageId := if doc.languageId == "" then "go" else doc.languageId)
            else (u in after <==> u in docs) && (u in docs ==> after[u] == docs[u])
    ensures var changed := ChangedDocs(docs, uri, version, changes);
            && (u in changed <==> u in docs)
            && (u in docs ==>
                  changed[u] == if u == uri && uri != "" && AppliedAll(docs[u].text, changes).1
                                then Doc(docs[u].uri, docs[u].languageId, version, AppliedAll(docs[u].text, changes).0)
                                else docs[u])
    ensures var closed := ClosedDocs(docs, uri);
            (u in closed <==> u in docs && u != uri) && (u in closed ==> closed[u] == docs[u])
  {
    hide AppliedAll;
  }

  ghost predicate AllValid(docs: map<string, Doc>) {
    forall u <- docs :: Valid(docs[u].text)
  }

  lemma {:induction false} ChangesKeepValid(text: seq<Byte>, changes: seq<Change>)
    requires Valid(text) && forall c <- changes :: Valid(c.text)
    ensures Valid(AppliedAll(text, changes).0)
    decreases changes
  {
    hide Valid, Applied;
    if changes != [] && Applied(text, changes[0]).Some? {
      UndoRestores(text, changes[0]);
      ChangesKeepValid(Applied(text, changes[0]).value, changes[1..]);
    }
  }

  /** Notifications decoded from JSON carry valid UTF-8, and then so does every tracked
      text: an opened document's, an edited one's, and what closing leaves. */
  lemma TrackingKeepsValid(docs: map<string, Doc>, doc: Doc, isGoPath: bool, uri: string, version: int,
                           changes: seq<Change>)
    requires AllValid(docs) && Valid(doc.text) && forall c <- changes :: Valid(c.text)
    ensures AllValid(OpenedDocs(docs, doc, isGoPath)) && AllValid(ClosedDocs(docs, uri))
    ensures AllValid(ChangedDocs(docs, uri, version, changes))
  {
    hide Valid, AppliedAll;
    if uri in docs {
      ChangesKeepValid(docs[uri].text, changes);
    }
  }

  /** So an edit notification of a tracked document, followed by the notification that
      undoes it, leaves the tracked documents as they were. */
  lemma TrackedEditsUndo(docs: map<string, Doc>, uri: string, version: int, changes: seq<Change>)
    requires AllValid(docs) && uri in docs && uri != "" && forall c <- changes :: Valid(c.text)
    requires AppliedAll(docs[uri].text, changes).1
    ensures var undo := InverseAll(docs[uri].text, changes);
            ChangedDocs(ChangedDocs(docs, uri, version, changes), uri, docs[uri].version, undo) == docs
  {
    hide Valid, AppliedAll, InverseAll;
    UndoAllRestores(docs[uri].text, changes);
    assert docs[uri := docs[uri]] == docs;
  }

  /** The overlays the proxy tracks for its worker processes. */
  class DocStore {
    var openDocs: map<string, Doc>

    constructor ()
      ensures openDocs == map[]
    {
      openDocs := map[];
    }

    method TrackDidOpen(doc: Doc, isGoPath: bool)
      modifies this
      ensures openDocs == OpenedDocs(old(openDocs), doc, isGoPath)
    {
      if doc.uri == "" {
        return;
      }
      if doc.languageId != "go" && !isGoPath {
        return;
      }
      var tracked := doc;
      if tracked.languageId == "" {
        tracked := tracked.(languageId := "go");
      }
      openDocs := openDocs[tracked.uri := tracked];
    }

    method TrackDidChange(uri: string, version: int, changes: seq<Change>)
      requires forall u <- openDocs :: openDocs[u].uri == u
      modifies this
      ensures openDocs == ChangedDocs(old(openDocs), uri, version, changes)
      ensures forall u <- openDocs :: openDocs[u].uri == u
    {
      if uri == "" || uri !in openDocs {
        return;
      }
      var doc := openDocs[uri];
      var text, ok := ApplyContentChanges(doc.text, changes);
      if ok {
        doc := doc.(text := text, version := version);
        openDocs := openDocs[doc.uri := doc];
      }
    }

    method TrackDidClose(uri: string)
      modifies this
      ensures openDocs == if uri == "" then old(openDocs) else ClosedDocs(old(openDocs), uri)
    {
      if uri == "" {
        return;
      }
      openDocs := openDocs - {uri};
    }
  }
}
