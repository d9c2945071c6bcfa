/** Bytes and the code points a Go `range` loop over a string yields. */
module Utf8 {
  /** A byte of a string. Only 0..255 occur, but nothing below needs the bound:
      any other value decodes as an error. */
  type Byte = int

  const NEWLINE: Byte := 0x0A
  const RUNE_ERROR: int := 0xFFFD

  /** One iteration of a range loop: the decoded rune and the bytes it takes. */
  datatype Cell = Cell(rune: int, width: nat)

  predicate InRange(s: seq<Byte>, i: nat, lo: int, hi: int) {
    i < |s| && lo <= s[i] <= hi
  }

  /** The code point whose leading bits are lead, continued by bytes 1..n of s. */
  function Bits(s: seq<Byte>, n: nat, lead: int): (r: int)
    requires n < |s|
    requires 0 <= lead && forall i :: 1 <= i <= n ==> 0x80 <= s[i]
    ensures r >= lead
    ensures n > 0 && lead > 0 ==> r >= 0x40
    ensures n > 1 && s[1] >= 0x90 ==> r >= 0x40
  {
    if n == 0 then lead
    else Bits(s, n - 1, lead) * 0x40 + (s[n] as int - 0x80)
  }

  /** The bounds of the second byte of a three- or four-byte sequence led by b. */
  function SecondLow(b: int): int {
    if b == 0xE0 then 0xA0 else if b == 0xF0 then 0x90 else 0x80
  }

  function SecondHigh(b: int): int {
    if b == 0xED then 0x9F else if b == 0xF4 then 0x8F else 0xBF
  }

  /** The first code point of s, as Go decodes it. A byte that does not start a well-formed
      sequence decodes as RUNE_ERROR and takes one byte. */
  function DecodeRune(s: seq<Byte>): (c: Cell)
    requires s != []
    ensures 1 <= c.width <= |s|
    ensures c.rune == NEWLINE <==> s[0] == NEWLINE
    ensures c.rune == NEWLINE ==> c.width == 1
  {
    var b: int := s[0];
    if 0 <= b < 0x80 then
      Cell(b, 1)
    else if 0xC2 <= b <= 0xDF && InRange(s, 1, 0x80, 0xBF) then
      Cell(Bits(s, 1, b - 0xC0), 2)
    else if 0xE0 <= b <= 0xEF && InRange(s, 1, SecondLow(b), SecondHigh(b)) && InRange(s, 2, 0x80, 0xBF) then
      Cell(Bits(s, 2, b - 0xE0), 3)
    else if 0xF0 <= b <= 0xF4 && InRange(s, 1, SecondLow(b), SecondHigh(b)) && InRange(s, 2, 0x80, 0xBF)
            && InRange(s, 3, 0x80, 0xBF) then
      Cell(Bits(s, 3, b - 0xF0), 4)
    else
      Cell(RUNE_ERROR, 1)
  }

  predicate WellFormed(c: Cell) {
    c != Cell(RUNE_ERROR, 1)
  }

  lemma {:induction false} BitsAreLocal(s: seq<Byte>, t: seq<Byte>, n: nat, lead: int)
    requires n < |s| && n < |t| && 0 <= lead
    requires forall i :: 1 <= i <= n ==> 0x80 <= s[i] && s[i] == t[i]
    ensures Bits(s, n, lead) == Bits(t, n, lead)
  {
    if n > 0 {
      BitsAreLocal(s, t, n - 1, lead);
    }
  }

  /** A well-formed sequence is decoded from its own bytes alone. */
  lemma DecodeIsLocal(s: seq<Byte>, t: seq<Byte>)
    requires s != [] && t != []
    requires WellFormed(DecodeRune(s))
    requires DecodeRune(s).width <= |t| && s[..DecodeRune(s).width] == t[..DecodeRune(s).width]
    ensures DecodeRune(t) == DecodeRune(s)
  {
    var w := DecodeRune(s).width;
    forall i | 0 <= i < w ensures s[i] == t[i] {
      assert s[..w][i] == t[..w][i];
    }
    var b: int := s[0];
    if w == 2 {
      BitsAreLocal(s, t, 1, b - 0xC0);
    } else if w == 3 {
      BitsAreLocal(s, t, 2, b - 0xE0);
    } else if w == 4 {
      BitsAreLocal(s, t, 3, b - 0xF0);
    }
  }

  /** Every iteration of a range loop over s. */
  function Scan(s: seq<Byte>): seq<Cell> {
    if s == [] then [] else
      var c := DecodeRune(s);
      [c] + Scan(s[c.width..])
  }

  function Width(cells: seq<Cell>): nat {
    if cells == [] then 0 else cells[0].width + Width(cells[1..])
  }

  /** Valid UTF-8: no range iteration reports an encoding error. */
  predicate Valid(s: seq<Byte>) {
    forall c <- Scan(s) :: WellFormed(c)
  }

  lemma {:induction false} WidthConcat(a: seq<Cell>, b: seq<Cell>)
    ensures Width(a + b) == Width(a) + Width(b)
  {
    if a == [] {
      assert a + b == b;
    } else {
      assert (a + b)[1..] == a[1..] + b;
      WidthConcat(a[1..], b);
    }
  }

  lemma ScanStep(s: seq<Byte>)
    requires s != []
    ensures Scan(s) == [DecodeRune(s)] + Scan(s[DecodeRune(s).width..])
  {
  }

  lemma WidthOfNone()
    ensures Width([]) == 0
  {
  }

  lemma WidthStep(c: Cell, front: seq<Cell>)
    ensures Width([c] + front) == c.width + Width(front)
  {
    assert ([c] + front)[1..] == front;
  }

  lemma NonEmptyScan(s: seq<Byte>)
    requires Scan(s) != []
    ensures s != []
  {
  }

  lemma DropTwice(s: seq<Byte>, m: nat, n: nat)
    requires m + n <= |s|
    ensures s[m..][n..] == s[m + n..]
  {
  }

  /** Range iterations tile the string: the first k of them end at byte
      Width(cells[..k]), and a range loop started there yields the others. */
  lemma {:induction false} ScanFrom(s: seq<Byte>, cells: seq<Cell>, k: nat)
    requires cells == Scan(s) && k <= |cells|
    ensures Width(cells[..k]) <= |s|
    ensures Scan(s[Width(cells[..k])..]) == cells[k..]
    decreases k
  {
    hide *;
    if k == 0 {
      assert s[0..] == s && cells[0..] == cells && cells[..0] == [];
      WidthOfNone();
    } else {
      NonEmptyScan(s);
      var c := DecodeRune(s);
      var tail, rest := s[c.width..], cells[1..];
      ScanStep(s);
      ScanFrom(tail, rest, k - 1);
      var front := rest[..k - 1];
      assert cells[..k] == [c] + front;
      WidthStep(c, front);
      DropTwice(s, c.width, Width(front));
      assert cells[k..] == rest[k - 1..];
    }
  }

  lemma {:induction false} ScanCoversAll(s: seq<Byte>)
    ensures Width(Scan(s)) == |s|
    decreases |s|
  {
    if s != [] {
      ScanStep(s);
      ScanCoversAll(s[DecodeRune(s).width..]);
      assert Scan(s)[1..] == Scan(s[DecodeRune(s).width..]);
    }
  }

  lemma ValidStep(s: seq<Byte>)
    requires s != [] && Valid(s)
    ensures WellFormed(DecodeRune(s)) && Valid(s[DecodeRune(s).width..])
  {
    hide DecodeRune, WellFormed;
    ScanStep(s);
    var rest := Scan(s[DecodeRune(s).width..]);
    assert DecodeRune(s) in Scan(s);
    assert forall x :: x in rest ==> x in Scan(s);
  }

  lemma ConcatStep(a: seq<Byte>, b: seq<Byte>)
    requires a != [] && Valid(a)
    ensures DecodeRune(a + b) == DecodeRune(a)
    ensures (a + b)[DecodeRune(a).width..] == a[DecodeRune(a).width..] + b
  {
    ValidStep(a);
    var w := DecodeRune(a).width;
    assert a[..w] == (a + b)[..w];
    DecodeIsLocal(a, a + b);
  }

  lemma ScanEmpty()
    ensures Scan([]) == []
  {
  }

  /** Scanning a valid string is unaffected by what follows it. */
  lemma {:induction false} ScanConcat(a: seq<Byte>, b: seq<Byte>)
    requires Valid(a)
    ensures Scan(a + b) == Scan(a) + Scan(b)
    decreases |a|
  {
    hide *;
    if a == [] {
      assert a + b == b;
      ScanEmpty();
    } else {
      var c := DecodeRune(a);
      var rest := a[c.width..];
      ValidStep(a);
      ConcatStep(a, b);
      ScanConcat(rest, b);
      ScanStep(a);
      ScanStep(a + b);
      Regroup([c], Scan(rest), Scan(b));
    }
  }

  lemma Regroup<T>(x: seq<T>, y: seq<T>, z: seq<T>)
    ensures x + (y + z) == (x + y) + z
  {
  }

  /** The first range iteration of a non-empty cut. */
  lemma CutStep(s: seq<Byte>, n: nat)
    requires s != [] && Valid(s) && DecodeRune(s).width + n <= |s|
    ensures DecodeRune(s[..DecodeRune(s).width + n]) == DecodeRune(s)
    ensures s[..DecodeRune(s).width + n][DecodeRune(s).width..] == s[DecodeRune(s).width..][..n]
  {
    ValidStep(s);
    var w := DecodeRune(s).width;
    var head := s[..w + n];
    assert s[..w] == head[..w];
    DecodeIsLocal(s, head);
  }

  /** Cutting a valid string at an iteration boundary cuts its iterations there. */
  lemma {:induction false} ScanHead(s: seq<Byte>, cells: seq<Cell>, k: nat)
    requires Valid(s) && cells == Scan(s) && k <= |cells|
    ensures Width(cells[..k]) <= |s|
    ensures Scan(s[..Width(cells[..k])]) == cells[..k]
    decreases k
  {
    hide *;
    if k == 0 {
      assert s[..0] == [] && cells[..0] == [];
      WidthOfNone();
      ScanEmpty();
    } else {
      NonEmptyScan(s);
      var c := DecodeRune(s);
      var tail, rest := s[c.width..], cells[1..];
      ScanStep(s);
      ValidStep(s);
      ScanHead(tail, rest, k - 1);
      var front := rest[..k - 1];
      assert cells[..k] == [c] + front;
      WidthStep(c, front);
      CutStep(s, Width(front));
      ScanStep(s[..c.width + Width(front)]);
    }
  }

  /** Both halves of such a cut are valid. */
  lemma ScanCut(s: seq<Byte>, k: nat)
    requires Valid(s) && k <= |Scan(s)|
    ensures Width(Scan(s)[..k]) <= |s|
    ensures Scan(s[..Width(Scan(s)[..k])]) == Scan(s)[..k]
    ensures Valid(s[..Width(Scan(s)[..k])]) && Valid(s[Width(Scan(s)[..k])..])
  {
    hide Scan, DecodeRune, WellFormed, Width;
    ScanHead(s, Scan(s), k);
    ScanFrom(s, Scan(s), k);
    assert forall x :: x in Scan(s)[..k] || x in Scan(s)[k..] ==> x in Scan(s);
  }

  lemma ValidConcat(a: seq<Byte>, b: seq<Byte>)
    requires Valid(a) && Valid(b)
    ensures Valid(a + b)
  {
    ScanConcat(a, b);
  }
}
