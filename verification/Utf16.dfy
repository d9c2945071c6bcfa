/** Code points and their two encodings, as the Unicode standard gives them, against
    what the scanner decodes and what positions count. */
module Utf16 {
  import opened Options
  import opened Utf8
  import opened Documents

  // ---- code points ---------------------------------------------------------

  /** A Unicode scalar value. */
  predicate Scalar(r: int) {
    0 <= r < 0xD800 || 0xE000 <= r <= 0x10FFFF
  }

  predicate Scalars(rs: seq<int>) {
    forall i | 0 <= i < |rs| :: Scalar(rs[i])
  }

  /** One unit below 0x10000, else a high and a low surrogate. */
  function Units16(r: int): seq<int> {
    if r < 0x10000 then [r]
    else [0xD800 + (r - 0x10000) / 0x400, 0xDC00 + (r - 0x10000) % 0x400]
  }

  function Encode16(rs: seq<int>): seq<int> {
    if rs == [] then [] else Units16(rs[0]) + Encode16(rs[1..])
  }

  function Decode16(units: seq<int>): seq<int> {
    if units == [] then []
    else if |units| >= 2 && 0xD800 <= units[0] < 0xDC00 && 0xDC00 <= units[1] < 0xE000 then
      [0x10000 + (units[0] - 0xD800) * 0x400 + (units[1] - 0xDC00)] + Decode16(units[2..])
    else [units[0]] + Decode16(units[1..])
  }

  /** Decoding UTF-16 inverts encoding. */
  lemma {:induction false} Decode16Inverts(rs: seq<int>)
    requires Scalars(rs)
    ensures Decode16(Encode16(rs)) == rs
  {
    if rs != [] {
      Decode16Inverts(rs[1..]);
      var first, rest := Units16(rs[0]), Encode16(rs[1..]);
      assert Scalar(rs[0]);
      assert (first + rest)[|first|..] == rest;
      assert rs == [rs[0]] + rs[1..];
    }
  }

  function Bytes8(r: int): seq<Byte> {
    if r < 0x80 then [r]
    else if r < 0x800 then [0xC0 + r / 0x40, 0x80 + r % 0x40]
    else if r < 0x10000 then [0xE0 + r / 0x1000, 0x80 + r / 0x40 % 0x40, 0x80 + r % 0x40]
    else [0xF0 + r / 0x40000, 0x80 + r / 0x1000 % 0x40, 0x80 + r / 0x40 % 0x40, 0x80 + r % 0x40]
  }

  function Encode8(rs: seq<int>): seq<Byte> {
    if rs == [] then [] else Bytes8(rs[0]) + Encode8(rs[1..])
  }

  lemma BitsOf(s: seq<Byte>, lead: int)
    requires lead >= 0
    ensures |s| >= 2 && s[1] >= 0x80 ==> Bits(s, 1, lead) == lead * 0x40 + (s[1] - 0x80)
    ensures |s| >= 3 && s[1] >= 0x80 && s[2] >= 0x80 ==>
              Bits(s, 2, lead) == (lead * 0x40 + (s[1] - 0x80)) * 0x40 + (s[2] - 0x80)
    ensures |s| >= 4 && s[1] >= 0x80 && s[2] >= 0x80 && s[3] >= 0x80 ==>
              Bits(s, 3, lead) == ((lead * 0x40 + (s[1] - 0x80)) * 0x40 + (s[2] - 0x80)) * 0x40 + (s[3] - 0x80)
  {
    if |s| >= 2 && s[1] >= 0x80 {
      assert Bits(s, 0, lead) == lead;
      if |s| >= 3 && s[2] >= 0x80 {
        assert Bits(s, 2, lead) == Bits(s, 1, lead) * 0x40 + (s[2] - 0x80);
      }
    }
  }

  /** Ranging over the UTF-8 of a code point yields it, whatever follows. */
  lemma DecodesWhatIsEncoded(r: int, rest: seq<Byte>)
    requires Scalar(r)
    ensures DecodeRune(Bytes8(r) + rest) == Cell(r, |Bytes8(r)|)
  {
    var s := Bytes8(r) + rest;
    if r < 0x80 {
    } else if r < 0x800 {
      BitsOf(s, s[0] - 0xC0);
    } else if r < 0x10000 {
      ThreeBytes(r, rest);
    } else {
      FourBytes(r, rest);
    }
  }

  lemma ThreeBytes(r: int, rest: seq<Byte>)
    requires Scalar(r) && 0x800 <= r < 0x10000
    ensures DecodeRune(Bytes8(r) + rest) == Cell(r, 3)
  {
    var s := Bytes8(r) + rest;
    var a, b, c := r / 0x1000, r / 0x40 % 0x40, r % 0x40;
    assert r == (a * 0x40 + b) * 0x40 + c;
    assert s[0] == 0xE0 + a && s[1] == 0x80 + b && s[2] == 0x80 + c;
    BitsOf(s, a);
  }

  lemma FourDigits(r: int)
    requires 0 <= r
    ensures r == ((r / 0x40000 * 0x40 + r / 0x1000 % 0x40) * 0x40 + r / 0x40 % 0x40) * 0x40 + r % 0x40
  {
    var x, y, z := r / 0x40, r / 0x1000, r / 0x40000;
    assert r == x * 0x40 + r % 0x40;
    assert x == y * 0x40 + x % 0x40 by { assert y == x / 0x40; }
    assert y == z * 0x40 + y % 0x40 by { assert z == y / 0x40; }
  }

  lemma FourBytes(r: int, rest: seq<Byte>)
    requires Scalar(r) && 0x10000 <= r
    ensures DecodeRune(Bytes8(r) + rest) == Cell(r, 4)
  {
    var s := Bytes8(r) + rest;
    var a, b, c, d := r / 0x40000, r / 0x1000 % 0x40, r / 0x40 % 0x40, r % 0x40;
    FourDigits(r);
    assert s[0] == 0xF0 + a && s[1] == 0x80 + b && s[2] == 0x80 + c && s[3] == 0x80 + d;
    BitsOf(s, a);
  }

  /** What ranging yields is a scalar value, and the bytes of one it accepts are that
      value's UTF-8. */
  lemma AcceptsOnlyEncodings(s: seq<Byte>)
    requires s != []
    ensures Scalar(DecodeRune(s).rune)
    ensures WellFormed(DecodeRune(s)) ==> s[..DecodeRune(s).width] == Bytes8(DecodeRune(s).rune)
  {
    var c := DecodeRune(s);
    if c.width == 2 {
      BitsOf(s, s[0] - 0xC0);
    } else if c.width == 3 {
      AcceptsThree(s);
    } else if c.width == 4 {
      AcceptsFour(s);
    }
  }

  /** Ranging accepts a code point's UTF-8 and nothing else: where there is none it yields
      U+FFFD for a single byte. */
  lemma AcceptsExactlyEncodings(s: seq<Byte>)
    requires s != []
    ensures forall r | Scalar(r) && Bytes8(r) <= s :: DecodeRune(s) == Cell(r, |Bytes8(r)|)
    ensures (forall r | Scalar(r) :: !(Bytes8(r) <= s)) ==> DecodeRune(s) == Cell(0xFFFD, 1)
  {
    AcceptsOnlyEncodings(s);
    forall r | Scalar(r) && Bytes8(r) <= s ensures DecodeRune(s) == Cell(r, |Bytes8(r)|) {
      var rest := s[|Bytes8(r)|..];
      assert s == Bytes8(r) + rest;
      DecodesWhatIsEncoded(r, rest);
    }
  }

  lemma AcceptsThree(s: seq<Byte>)
    requires s != [] && DecodeRune(s).width == 3
    ensures Scalar(DecodeRune(s).rune) && s[..3] == Bytes8(DecodeRune(s).rune)
  {
    var a, b, c := s[0] - 0xE0, s[1] - 0x80, s[2] - 0x80;
    BitsOf(s, a);
    var r := (a * 0x40 + b) * 0x40 + c;
    assert DecodeRune(s).rune == r && 0x800 <= r < 0x10000;
    assert r / 0x1000 == a && r / 0x40 == a * 0x40 + b && r % 0x40 == c;
    assert r / 0x40 % 0x40 == b;
  }

  lemma AcceptsFour(s: seq<Byte>)
    requires s != [] && DecodeRune(s).width == 4
    ensures Scalar(DecodeRune(s).rune) && s[..4] == Bytes8(DecodeRune(s).rune)
  {
    var a, b, c, d := s[0] - 0xF0, s[1] - 0x80, s[2] - 0x80, s[3] - 0x80;
    BitsOf(s, a);
    var r := ((a * 0x40 + b) * 0x40 + c) * 0x40 + d;
    assert DecodeRune(s).rune == r && 0x10000 <= r <= 0x10FFFF;
    assert r / 0x40 == (a * 0x40 + b) * 0x40 + c && r % 0x40 == d;
    assert r / 0x1000 == a * 0x40 + b && r / 0x40 % 0x40 == c;
    assert r / 0x40000 == a && r / 0x1000 % 0x40 == b;
  }

  /** One code point for each range iteration over encoded text. */
  function CellsOf(rs: seq<int>): (cells: seq<Cell>)
    ensures |cells| == |rs|
  {
    if rs == [] then [] else [Cell(rs[0], |Bytes8(rs[0])|)] + CellsOf(rs[1..])
  }

  lemma {:induction false} ScanOfText(rs: seq<int>)
    requires Scalars(rs)
    ensures Scan(Encode8(rs)) == CellsOf(rs) && Width(CellsOf(rs)) == |Encode8(rs)|
  {
    hide DecodeRune, Bytes8;
    if rs != [] {
      assert Scalar(rs[0]);
      ScanOfText(rs[1..]);
      var head, tail := Bytes8(rs[0]), Encode8(rs[1..]);
      DecodesWhatIsEncoded(rs[0], tail);
      assert (head + tail)[|head|..] == tail;
      assert head != [] by { SomeBytes(rs[0]); }
    }
  }

  lemma SomeBytes(r: int)
    ensures Bytes8(r) != []
  {
  }

  // ---- positions -----------------------------------------------------------

  /** How many lines the code points end. */
  function Lines(rs: seq<int>): nat {
    if rs == [] then 0 else Lines(rs[..|rs| - 1]) + if rs[|rs| - 1] == 0x0A then 1 else 0
  }

  /** The code points after the last newline. */
  function LastLine(rs: seq<int>): seq<int> {
    if rs == [] || rs[|rs| - 1] == 0x0A then [] else LastLine(rs[..|rs| - 1]) + [rs[|rs| - 1]]
  }

  /** Where the Language Server Protocol puts a cursor after the code points: the line,
      and the length in UTF-16 of what precedes it on its line. */
  function PositionAfter(rs: seq<int>): Position {
    Position(Lines(rs), |Encode16(LastLine(rs))|)
  }

  lemma {:induction false} EncodeSnoc(rs: seq<int>, r: int)
    ensures Encode16(rs + [r]) == Encode16(rs) + Units16(r)
  {
    if rs == [] {
      assert ([] + [r])[1..] == [] && ([] + [r])[0] == r;
      assert Encode16([]) == [];
    } else {
      assert (rs + [r])[1..] == rs[1..] + [r];
      EncodeSnoc(rs[1..], r);
    }
  }

  /** What the code counts for a code point is the length of its UTF-16 encoding. */
  lemma CodeUnitsAreUtf16(r: int)
    ensures Utf16CodeUnits(r) == |Units16(r)|
  {
  }

  function Runes(cells: seq<Cell>): (rs: seq<int>)
    ensures |rs| == |cells| && forall i | 0 <= i < |cells| :: rs[i] == cells[i].rune
  {
    seq(|cells|, i requires 0 <= i < |cells| => cells[i].rune)
  }

  /** A cursor's position counts lines and, on its own line, UTF-16 units. */
  lemma {:induction false} PositionsAreUtf16(cells: seq<Cell>)
    ensures Advance(ORIGIN, cells) == PositionAfter(Runes(cells))
    decreases |cells|
  {
    if cells != [] {
      var n := |cells| - 1;
      PositionsAreUtf16(cells[..n]);
      assert Runes(cells)[..n] == Runes(cells[..n]);
      CodeUnitsAreUtf16(cells[n].rune);
      EncodeSnoc(LastLine(Runes(cells[..n])), cells[n].rune);
    }
  }

  lemma {:induction false} RunesOfCells(rs: seq<int>)
    ensures Runes(CellsOf(rs)) == rs
  {
    if rs != [] {
      RunesOfCells(rs[1..]);
      assert rs == [rs[0]] + rs[1..];
      forall i | 0 <= i < |rs| ensures Runes(CellsOf(rs))[i] == rs[i] {
        assert i > 0 ==> CellsOf(rs)[i] == CellsOf(rs[1..])[i - 1] && Runes(CellsOf(rs[1..]))[i - 1] == rs[1..][i - 1];
      }
    }
  }

  lemma {:induction false} CellsOfPrefix(rs: seq<int>, k: nat)
    requires k <= |rs|
    ensures CellsOf(rs)[..k] == CellsOf(rs[..k])
  {
    if k > 0 {
      CellsOfPrefix(rs[1..], k - 1);
      assert rs[..k][1..] == rs[1..][..k - 1];
    }
  }

  /** On any text of code points, positions and byte offsets name the same places: the
      position the protocol gives the cursor after the first k code points resolves to the
      length of their UTF-8, and nothing else resolves at all. */
  lemma PositionsResolve(rs: seq<int>, p: Position, offset: nat)
    requires Scalars(rs)
    ensures OffsetOf(Encode8(rs), p) == Some(offset) <==>
              exists k: nat | k <= |rs| :: p == PositionAfter(rs[..k]) && offset == |Encode8(rs[..k])|
  {
    var text := Encode8(rs);
    ScanOfText(rs);
    forall k: nat | k <= |rs|
      ensures Advance(ORIGIN, Scan(text)[..k]) == PositionAfter(rs[..k])
      ensures Width(Scan(text)[..k]) == |Encode8(rs[..k])|
    {
      CellsOfPrefix(rs, k);
      PositionsAreUtf16(CellsOf(rs[..k]));
      RunesOfCells(rs[..k]);
      ScanOfText(rs[..k]);
    }
    hide Scan, Encode8, PositionAfter, CellsOf, Width, Advance;
    if OffsetOf(text, p) == Some(offset) {
      var k := BoundaryOf(text, p);
      assert k <= |rs|;
    }
    if exists k: nat | k <= |rs| :: p == PositionAfter(rs[..k]) && offset == |Encode8(rs[..k])| {
      var k: nat :| k <= |rs| && p == PositionAfter(rs[..k]) && offset == |Encode8(rs[..k])|;
      OffsetAt(text, k, p);
    }
  }

  /** Every valid text is one of code points. */
  lemma {:induction false} ValidTextIsCodePoints(text: seq<Byte>)
    requires Valid(text)
    ensures Scalars(Runes(Scan(text))) && Encode8(Runes(Scan(text))) == text
    decreases |text|
  {
    hide DecodeRune, Bytes8, WellFormed, Valid, Scalar, Scan;
    ScanEmpty();
    if text != [] {
      var c := DecodeRune(text);
      var rest := text[c.width..];
      ValidStep(text);
      AcceptsOnlyEncodings(text);
      ValidTextIsCodePoints(rest);
      ScanStep(text);
      assert Runes(Scan(text)) == [c.rune] + Runes(Scan(rest));
      assert text == text[..c.width] + rest;
      assert ([c.rune] + Runes(Scan(rest)))[1..] == Runes(Scan(rest));
    }
  }

  // ---- whole documents -----------------------------------------------------

  /** A change without a range, last in a list that applies, is all the text there is. */
  lemma FullTextReplaces(text: seq<Byte>, changes: seq<Change>, full: seq<Byte>)
    requires AppliedAll(text, changes).1
    ensures AppliedAll(text, changes + [Change(None, full)]) == (full, true)
  {
    AppliedAllConcat(text, changes, [Change(None, full)]);
    assert [Change(None, full)][1..] == [];
  }

  /** A change with a range puts its text between what precedes the range's first position
      and what follows its last, in code points. */
  lemma EditSplices(rs: seq<int>, j: nat, k: nat, inserted: seq<int>)
    requires Scalars(rs) && Scalars(inserted) && j <= k <= |rs|
    ensures var range := Range(PositionAfter(rs[..j]), PositionAfter(rs[..k]));
            Applied(Encode8(rs), Change(Some(range), Encode8(inserted)))
            == Some(Encode8(rs[..j] + inserted + rs[k..]))
  {
    hide PositionAfter, OffsetOf, Encode8, Scalar;
    PositionsResolve(rs, PositionAfter(rs[..j]), |Encode8(rs[..j])|);
    PositionsResolve(rs, PositionAfter(rs[..k]), |Encode8(rs[..k])|);
    assert rs == rs[..j] + rs[j..] && rs == rs[..k] + rs[k..];
    assert rs[..k] == rs[..j] + rs[j..k];
    Encode8Concat(rs[..j], rs[j..]);
    Encode8Concat(rs[..k], rs[k..]);
    Encode8Concat(rs[..j], rs[j..k]);
    Encode8Concat(rs[..j], inserted);
    Encode8Concat(rs[..j] + inserted, rs[k..]);
    var text := Encode8(rs);
    assert text[..|Encode8(rs[..j])|] == Encode8(rs[..j]);
    assert text[|Encode8(rs[..k])|..] == Encode8(rs[k..]);
  }

  lemma {:induction false} Encode8Concat(a: seq<int>, b: seq<int>)
    ensures Encode8(a + b) == Encode8(a) + Encode8(b)
  {
    hide Bytes8;
    if a == [] {
      assert a + b == b;
    } else {
      assert (a + b)[1..] == a[1..] + b;
      Encode8Concat(a[1..], b);
    }
  }
}
