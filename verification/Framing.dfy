/** The base protocol's frames: header lines, a blank line, a counted body. */
module Framing {
  import opened Utf8
  import opened Options

  const CR: Byte := 13
  const LF: Byte := 10
  const COLON: Byte := 58
  const ZERO: Byte := 48
  const PLUS: Byte := 43
  const MINUS: Byte := 45

  /** "Content-Length", lower-cased. */
  const CONTENT_LENGTH: seq<Byte> :=
    [99, 111, 110, 116, 101, 110, 116, 45, 108, 101, 110, 103, 116, 104]

  /** "Content-Length" as it is written. */
  const WRITTEN_NAME: seq<Byte> :=
    [67, 111, 110, 116, 101, 110, 116, 45, 76, 101, 110, 103, 116, 104]

  /** The range of Go's int, which also bounds every length. */
  const MAX_INT: int := 0x7FFF_FFFF_FFFF_FFFF

  // ---- decimal numbers -----------------------------------------------------

  predicate IsDigit(b: Byte) {
    ZERO <= b <= 57
  }

  /** n in decimal, as %d prints it. */
  function Decimal(n: nat): (s: seq<Byte>)
    ensures s != [] && forall b <- s :: IsDigit(b)
  {
    if n < 10 then [ZERO + n] else Decimal(n / 10) + [ZERO + n % 10]
  }

  /** The value of a digit string. */
  function DigitsValue(s: seq<Byte>): nat
    requires forall b <- s :: IsDigit(b)
  {
    if s == [] then 0
    else
      assert IsDigit(s[|s| - 1]);
      DigitsValue(s[..|s| - 1]) * 10 + (s[|s| - 1] - ZERO)
  }

  lemma {:induction false} DecimalValue(n: nat)
    ensures DigitsValue(Decimal(n)) == n
  {
    if n < 10 {
      assert Decimal(n)[..0] == [];
    } else {
      var front := Decimal(n / 10);
      assert (front + [ZERO + n % 10])[..|front|] == front;
      DecimalValue(n / 10);
    }
  }

  /** The leading digits of s. */
  function DigitRun(s: seq<Byte>): (r: seq<Byte>)
    ensures r <= s && forall b <- r :: IsDigit(b)
  {
    if s == [] || !IsDigit(s[0]) then [] else [s[0]] + DigitRun(s[1..])
  }

  lemma {:induction false} DigitRunOfDigits(s: seq<Byte>)
    requires forall b <- s :: IsDigit(b)
    ensures DigitRun(s) == s
  {
    if s != [] {
      DigitRunOfDigits(s[1..]);
    }
  }

  /** What scanning s with %d stores, or None when it stores nothing: an optional
      sign, at least one digit, and a value an int can hold. */
  function ScanInt(s: seq<Byte>): Option<int> {
    var signed := s != [] && (s[0] == PLUS || s[0] == MINUS);
    var digits := DigitRun(if signed then s[1..] else s);
    if digits == [] then None
    else
      var magnitude: int := DigitsValue(digits);
      var value := if signed && s[0] == MINUS then -magnitude else magnitude;
      if -MAX_INT - 1 <= value <= MAX_INT then Some(value) else None
  }

  // ---- header lines --------------------------------------------------------

  predicate IsSpace(b: Byte) {
    b == 32 || 9 <= b <= 13
  }

  function TrimLeft(s: seq<Byte>): seq<Byte> {
    if s != [] && IsSpace(s[0]) then TrimLeft(s[1..]) else s
  }

  function TrimRight(s: seq<Byte>): seq<Byte> {
    if s != [] && IsSpace(s[|s| - 1]) then TrimRight(s[..|s| - 1]) else s
  }

  function TrimSpace(s: seq<Byte>): seq<Byte> {
    TrimRight(TrimLeft(s))
  }

  /** s without the line ends at its right. */
  function TrimLineEnd(s: seq<Byte>): seq<Byte> {
    if s != [] && (s[|s| - 1] == CR || s[|s| - 1] == LF) then TrimLineEnd(s[..|s| - 1]) else s
  }

  function ToLower(b: Byte): Byte {
    if 65 <= b <= 90 then b + 32 else b
  }

  predicate EqualFold(s: seq<Byte>, t: seq<Byte>) {
    |s| == |t| && forall i :: 0 <= i < |s| ==> ToLower(s[i]) == ToLower(t[i])
  }

  /** The first index of b in s, or |s|. */
  function IndexOf(s: seq<Byte>, b: Byte): (i: nat)
    ensures i <= |s|
    ensures i < |s| ==> s[i] == b
    ensures forall j :: 0 <= j < i ==> s[j] != b
  {
    if s == [] || s[0] == b then 0 else 1 + IndexOf(s[1..], b)
  }

  /** The length after one header line; lines that name another header, or whose
      value does not scan, leave it alone. */
  function LengthAfter(line: seq<Byte>, length: int): int {
    var colon := IndexOf(line, COLON);
    if colon == |line| || !EqualFold(TrimSpace(line[..colon]), CONTENT_LENGTH) then length
    else match ScanInt(TrimSpace(line[colon + 1..]))
      case Some(v) => v
      case None => length
  }

  // ---- frames --------------------------------------------------------------

  /** Reading from a stream: a frame, or an error; either way, what is left. */
  datatype Read = Frame(body: seq<Byte>, rest: seq<Byte>) | Failed(rest: seq<Byte>)

  /** readFrame on a stream that holds exactly input before its end. */
  function ReadFrom(input: seq<Byte>, length: int): Read
    decreases |input|
  {
    var lf := IndexOf(input, LF);
    if lf == |input| then Failed([])
    else
      var line, rest := TrimLineEnd(input[..lf + 1]), input[lf + 1..];
      if line != [] then ReadFrom(rest, LengthAfter(line, length))
      else if length <= 0 then Failed(rest)
      else if |rest| < length then Failed([])
      else Frame(rest[..length], rest[length..])
  }

  function Written(body: seq<Byte>): seq<Byte> {
    WRITTEN_NAME + [COLON, 32] + Decimal(|body|) + [CR, LF, CR, LF] + body
  }

  /** A buffered byte stream with one writer side and one reader side. */
  class Stream {
    var pending: seq<Byte>

    constructor ()
      ensures pending == []
    {
      pending := [];
    }

    method Write(body: seq<Byte>)
      modifies this
      ensures pending == old(pending) + Written(body)
    {
      pending := pending + WRITTEN_NAME + [COLON, 32] + Decimal(|body|) + [CR, LF, CR, LF];
      pending := pending + body;
    }

    method ReadString(delimiter: Byte) returns (line: seq<Byte>, ok: bool)
      modifies this
      ensures ok == (delimiter in old(pending))
      ensures line + pending == old(pending)
      ensures if ok then |line| == IndexOf(old(pending), delimiter) + 1 else pending == []
    {
      var i := IndexOf(pending, delimiter);
      ok := i < |pending|;
      var taken := if ok then i + 1 else i;
      line, pending := pending[..taken], pending[taken..];
    }

    method ReadFrame() returns (body: Option<seq<Byte>>)
      modifies this
      ensures ReadFrom(old(pending), 0) ==
                match body { case Some(b) => Frame(b, pending) case None => Failed(pending) }
    {
      var length := 0;
      while true
        invariant ReadFrom(old(pending), 0) == ReadFrom(pending, length)
        decreases |pending|
      {
        ghost var before := pending;
        var line, ok := ReadString(LF);
        if !ok {
          return None;
        }
        assert line == before[..IndexOf(before, LF) + 1] && pending == before[IndexOf(before, LF) + 1..];
        line := TrimLineEnd(line);
        if line == [] {
          break;
        }
        length := LengthAfter(line, length);
      }
      if length <= 0 {
        return None;
      }
      if |pending| < length {
        pending := [];
        return None;
      }
      body, pending := Some(pending[..length]), pending[length..];
    }
  }

  // ---- header lines as clients may spell them ------------------------------

  /** Blanks as the source trims them. */
  predicate Blank(s: seq<Byte>) {
    forall i | 0 <= i < |s| :: s[i] == 32 || s[i] == 9 || s[i] == 10 || s[i] == 11 || s[i] == 12 || s[i] == 13
  }

  /** "Content-Length" with each letter in either case. */
  predicate Spelled(name: seq<Byte>) {
    |name| == 14 && forall i | 0 <= i < 14 ::
      name[i] == CONTENT_LENGTH[i] || (97 <= CONTENT_LENGTH[i] <= 122 && name[i] == CONTENT_LENGTH[i] - 32)
  }

  lemma {:induction false} TrimLeftPast(a: seq<Byte>, s: seq<Byte>)
    requires Blank(a) && (s != [] ==> !IsSpace(s[0]))
    ensures TrimLeft(a + s) == s
    decreases a
  {
    if a == [] {
      assert a + s == s;
    } else {
      assert (a + s)[1..] == a[1..] + s;
      TrimLeftPast(a[1..], s);
    }
  }

  /** Trimming at the right stops at a byte that is no blank, at the latest. */
  lemma {:induction false} TrimRightUpTo(s: seq<Byte>, tail: seq<Byte>)
    requires s != [] && !IsSpace(s[|s| - 1])
    ensures s <= TrimRight(s + tail) <= s + tail
    ensures Blank(tail) ==> TrimRight(s + tail) == s
    decreases tail
  {
    if tail == [] {
      assert s + tail == s;
    } else {
      var front := tail[..|tail| - 1];
      assert (s + tail)[..|s + tail| - 1] == s + front;
      TrimRightUpTo(s, front);
      assert s + front <= s + tail;
    }
  }

  lemma {:induction false} DigitRunStops(digits: seq<Byte>, tail: seq<Byte>)
    requires (forall b <- digits :: IsDigit(b)) && (tail != [] ==> !IsDigit(tail[0]))
    ensures DigitRun(digits + tail) == digits
    decreases digits
  {
    if digits == [] {
      assert digits + tail == tail;
    } else {
      assert (digits + tail)[1..] == digits[1..] + tail;
      DigitRunStops(digits[1..], tail);
    }
  }

  /** A number of digits with the sign that precedes it. */
  function Signed(sign: seq<Byte>, digits: seq<Byte>): int
    requires forall b <- digits :: IsDigit(b)
  {
    var magnitude: int := DigitsValue(digits);
    if sign == [MINUS] then -magnitude else magnitude
  }

  lemma SignedScans(sign: seq<Byte>, digits: seq<Byte>, tail: seq<Byte>)
    requires sign == [] || sign == [PLUS] || sign == [MINUS]
    requires digits != [] && (forall b <- digits :: IsDigit(b)) && (tail != [] ==> !IsDigit(tail[0]))
    ensures var v := Signed(sign, digits);
            ScanInt(sign + digits + tail) == if -MAX_INT - 1 <= v <= MAX_INT then Some(v) else None
  {
    hide DigitsValue, DigitRun;
    var s := sign + digits + tail;
    DigitRunStops(digits, tail);
    assert IsDigit(digits[0]) && s[|sign|..] == digits + tail;
    if sign == [] {
      assert s[0] == digits[0] && s == digits + tail;
      UnsignedScans(s, digits);
    } else {
      assert s[0] == sign[0];
      SignScans(s, digits);
    }
  }

  lemma UnsignedScans(s: seq<Byte>, digits: seq<Byte>)
    requires s != [] && IsDigit(s[0]) && digits != [] && (forall b <- digits :: IsDigit(b)) && DigitRun(s) == digits
    ensures var v := Signed([], digits); ScanInt(s) == if -MAX_INT - 1 <= v <= MAX_INT then Some(v) else None
  {
    hide DigitsValue, DigitRun;
  }

  lemma SignScans(s: seq<Byte>, digits: seq<Byte>)
    requires s != [] && (s[0] == PLUS || s[0] == MINUS)
    requires digits != [] && (forall b <- digits :: IsDigit(b)) && DigitRun(s[1..]) == digits
    ensures var v := Signed([s[0]], digits); ScanInt(s) == if -MAX_INT - 1 <= v <= MAX_INT then Some(v) else None
  {
    hide DigitsValue, DigitRun;
  }

  lemma SpelledTrims(a: seq<Byte>, name: seq<Byte>, b: seq<Byte>)
    requires Spelled(name) && Blank(a) && Blank(b)
    ensures TrimSpace(a + name + b) == name && EqualFold(name, CONTENT_LENGTH) && COLON !in a + name + b
  {
    assert CONTENT_LENGTH[0] == 99 && CONTENT_LENGTH[13] == 104;
    assert a + name + b == a + (name + b);
    TrimLeftPast(a, name + b);
    TrimRightUpTo(name, b);
    forall i | 0 <= i < 14 ensures ToLower(name[i]) == ToLower(CONTENT_LENGTH[i]) && name[i] != COLON {
      assert CONTENT_LENGTH[i] == 45 || 97 <= CONTENT_LENGTH[i] <= 122;
    }
  }

  lemma NumberTrims(c: seq<Byte>, number: seq<Byte>, tail: seq<Byte>) returns (kept: seq<Byte>)
    requires Blank(c) && number != [] && !IsSpace(number[0]) && !IsSpace(number[|number| - 1])
    ensures kept <= tail && TrimSpace(c + number + tail) == number + kept
  {
    assert c + number + tail == c + (number + tail);
    TrimLeftPast(c, number + tail);
    TrimRightUpTo(number, tail);
    kept := TrimRight(number + tail)[|number|..];
    assert kept <= tail by {
      assert (number + tail)[|number|..] == tail;
    }
  }

  /** However a client spells the length header, in whatever case, with blanks around the
      name and the value, a sign, and anything after the digits, its number counts if a Go
      int holds it; otherwise the header leaves the length alone. */
  lemma AnySpellingCounts(a: seq<Byte>, name: seq<Byte>, b: seq<Byte>, c: seq<Byte>, sign: seq<Byte>,
                          digits: seq<Byte>, tail: seq<Byte>, length: int)
    requires Spelled(name) && Blank(a) && Blank(b) && Blank(c)
    requires sign == [] || sign == [PLUS] || sign == [MINUS]
    requires digits != [] && (forall d <- digits :: IsDigit(d)) && (tail != [] ==> !IsDigit(tail[0]))
    ensures var v := Signed(sign, digits);
            LengthAfter(a + name + b + [COLON] + (c + (sign + digits) + tail), length)
            == if -MAX_INT - 1 <= v <= MAX_INT then v else length
  {
    var head, value := a + name + b, c + (sign + digits) + tail;
    var line := head + [COLON] + value;
    SpelledTrims(a, name, b);
    IndexAfter(head, COLON, value);
    assert line[..|head|] == head && line[|head| + 1..] == value;
    assert IsDigit(digits[|digits| - 1]) && (sign + digits)[|sign + digits| - 1] == digits[|digits| - 1];
    assert IsDigit(digits[0]);
    var kept := NumberTrims(c, sign + digits, tail);
    SignedScans(sign, digits, kept);
  }

  // ---- reading what was written --------------------------------------------

  lemma {:induction false} IndexAfter(a: seq<Byte>, b: Byte, t: seq<Byte>)
    requires b !in a
    ensures IndexOf(a + [b] + t, b) == |a|
  {
    if a != [] {
      assert (a + [b] + t)[1..] == a[1..] + [b] + t;
      IndexAfter(a[1..], b, t);
    }
  }

  /** Reading one header line, whatever it holds, moves past it. */
  lemma LineStep(line: seq<Byte>, rest: seq<Byte>, length: int)
    requires LF !in line && TrimLineEnd(line + [LF]) != []
    ensures ReadFrom(line + [LF] + rest, length) == ReadFrom(rest, LengthAfter(TrimLineEnd(line + [LF]), length))
  {
    var input := line + [LF] + rest;
    IndexAfter(line, LF, rest);
    assert input[..|line| + 1] == line + [LF];
    assert input[|line| + 1..] == rest;
  }

  /** The line Write puts before the blank one, without its line end. */
  function LengthLine(n: nat): seq<Byte> {
    WRITTEN_NAME + [COLON, 32] + Decimal(n)
  }

  lemma LengthLineScans(n: nat, length: int)
    requires n <= MAX_INT
    ensures LengthAfter(LengthLine(n), length) == n
  {
    hide TrimSpace, Decimal, IndexOf, DigitRun, DigitsValue;
    LengthLineParts(n);
    NameMatches();
    DigitsTrim(Decimal(n));
    DecimalScans(n);
  }

  lemma LengthLineParts(n: nat)
    ensures var line := LengthLine(n);
            && IndexOf(line, COLON) == 14 && |line| > 14
            && line[..14] == WRITTEN_NAME && line[15..] == [32] + Decimal(n)
  {
    hide Decimal;
    var line := LengthLine(n);
    assert line == WRITTEN_NAME + [COLON] + ([32] + Decimal(n));
    IndexAfter(WRITTEN_NAME, COLON, [32] + Decimal(n));
  }

  lemma DecimalScans(n: nat)
    requires n <= MAX_INT
    ensures ScanInt(Decimal(n)) == Some(n)
  {
    hide Decimal;
    var digits := Decimal(n);
    assert IsDigit(digits[0]);
    DigitRunOfDigits(digits);
    DecimalValue(n);
  }

  lemma NameMatches()
    ensures EqualFold(TrimSpace(WRITTEN_NAME), CONTENT_LENGTH)
  {
    var name := WRITTEN_NAME;
    assert name[0] == 67 && name[13] == 104 && |name| == 14;
    assert TrimLeft(name) == name;
    assert TrimRight(name) == name;
  }

  lemma DigitsTrim(digits: seq<Byte>)
    requires digits != [] && forall b <- digits :: IsDigit(b)
    ensures TrimSpace([32] + digits) == digits
  {
    assert IsDigit(digits[0]) && IsDigit(digits[|digits| - 1]);
    var padded: seq<Byte> := [32] + digits;
    assert padded[1..] == digits;
    assert TrimLeft(digits) == digits && TrimRight(digits) == digits;
  }

  lemma LengthLineEnds(n: nat)
    ensures LF !in LengthLine(n) + [CR]
    ensures TrimLineEnd(LengthLine(n) + [CR] + [LF]) == LengthLine(n)
  {
    var line, digits := LengthLine(n), Decimal(n);
    assert IsDigit(digits[|digits| - 1]);
    assert line[|line| - 1] == digits[|digits| - 1];
    assert (line + [CR] + [LF])[..|line| + 1] == line + [CR];
    assert (line + [CR])[..|line|] == line;
    assert TrimLineEnd(line) == line;
    assert TrimLineEnd(line + [CR]) == line;
    assert LF !in WRITTEN_NAME;
  }

  /** A header line other than Content-Length. */
  predicate OtherHeader(line: seq<Byte>) {
    var text := TrimLineEnd(line + [LF]);
    var colon := IndexOf(text, COLON);
    LF !in line && text != [] && (colon == |text| || !EqualFold(TrimSpace(text[..colon]), CONTENT_LENGTH))
  }

  function Lines(lines: seq<seq<Byte>>): seq<Byte> {
    if lines == [] then [] else lines[0] + [LF] + Lines(lines[1..])
  }

  lemma {:induction false} OtherHeadersAreSkipped(lines: seq<seq<Byte>>, rest: seq<Byte>, length: int)
    requires forall l <- lines :: OtherHeader(l)
    ensures ReadFrom(Lines(lines) + rest, length) == ReadFrom(rest, length)
    decreases lines
  {
    if lines == [] {
      assert Lines(lines) + rest == rest;
    } else {
      assert OtherHeader(lines[0]);
      assert Lines(lines) + rest == lines[0] + [LF] + (Lines(lines[1..]) + rest);
      LineStep(lines[0], Lines(lines[1..]) + rest, length);
      OtherHeadersAreSkipped(lines[1..], rest, length);
    }
  }

  /** The blank line and the body. */
  lemma BodyStep(body: seq<Byte>, rest: seq<Byte>)
    ensures ReadFrom([CR, LF] + body + rest, |body|) == if body == [] then Failed(rest) else Frame(body, rest)
  {
    var input := [CR, LF] + body + rest;
    assert input == [CR] + [LF] + (body + rest);
    IndexAfter([CR], LF, body + rest);
    assert input[..2] == [CR, LF] && input[2..] == body + rest;
    var end: seq<Byte> := [CR, LF];
    assert end[..1] == [CR] && end[..1][..0] == [];
    assert TrimLineEnd(end[..1]) == [];
    assert TrimLineEnd(end) == [];
    assert (body + rest)[..|body|] == body && (body + rest)[|body|..] == rest;
  }

  /** A frame with any other headers around its length line. */
  function WithHeaders(before: seq<seq<Byte>>, after: seq<seq<Byte>>, body: seq<Byte>): seq<Byte> {
    Lines(before) + (LengthLine(|body|) + [CR] + [LF] + (Lines(after) + ([CR, LF] + body)))
  }

  /** Reading a written frame yields its body and leaves exactly what followed,
      whatever other headers a client puts around the length; it does so if and
      only if the body is not empty. */
  lemma FrameReads(before: seq<seq<Byte>>, after: seq<seq<Byte>>, body: seq<Byte>, rest: seq<Byte>)
    requires |body| <= MAX_INT
    requires (forall l <- before :: OtherHeader(l)) && (forall l <- after :: OtherHeader(l))
    ensures ReadFrom(WithHeaders(before, after, body) + rest, 0) == Frame(body, rest) <==> body != []
    ensures body == [] ==> ReadFrom(WithHeaders(before, after, body) + rest, 0) == Failed(rest)
  {
    var n := |body|;
    var blank := [CR, LF] + body + rest;
    var tail := Lines(after) + blank;
    var line := LengthLine(n) + [CR];
    assert WithHeaders(before, after, body) + rest == Lines(before) + (line + [LF] + tail);
    OtherHeadersAreSkipped(before, line + [LF] + tail, 0);
    LengthLineEnds(n);
    LineStep(line, tail, 0);
    LengthLineScans(n, 0);
    OtherHeadersAreSkipped(after, blank, n);
    BodyStep(body, rest);
  }

  lemma ShortBody(length: nat, part: seq<Byte>)
    requires |part| < length
    ensures ReadFrom([CR, LF] + part, length) == Failed([])
  {
    var input := [CR, LF] + part;
    assert input == [CR] + [LF] + part;
    IndexAfter([CR], LF, part);
    assert input[..2] == [CR, LF] && input[2..] == part;
    var end: seq<Byte> := [CR, LF];
    assert end[..1] == [CR] && end[..1][..0] == [];
    assert TrimLineEnd(end[..1]) == [];
    assert TrimLineEnd(end) == [];
  }

  /** A stream that ends inside a body yields no frame. */
  lemma TruncatedFrameFails(before: seq<seq<Byte>>, after: seq<seq<Byte>>, length: nat, part: seq<Byte>)
    requires |part| < length <= MAX_INT
    requires (forall l <- before :: OtherHeader(l)) && (forall l <- after :: OtherHeader(l))
    ensures ReadFrom(Lines(before) + (LengthLine(length) + [CR] + [LF] + (Lines(after) + ([CR, LF] + part))), 0)
         == Failed([])
  {
    hide ReadFrom;
    var blank := [CR, LF] + part;
    var tail := Lines(after) + blank;
    var line := LengthLine(length) + [CR];
    OtherHeadersAreSkipped(before, line + [LF] + tail, 0);
    LengthLineEnds(length);
    LineStep(line, tail, 0);
    LengthLineScans(length, 0);
    OtherHeadersAreSkipped(after, blank, length);
    ShortBody(length, part);
  }

  lemma WrittenReads(body: seq<Byte>, rest: seq<Byte>)
    requires |body| <= MAX_INT && body != []
    ensures ReadFrom(Written(body) + rest, 0) == Frame(body, rest)
  {
    assert Written(body) == WithHeaders([], [], body);
    FrameReads([], [], body, rest);
  }

  /** Reading frames until one fails. */
  function ReadAll(input: seq<Byte>): (seq<seq<Byte>>, seq<Byte>)
    decreases |input|
  {
    match ReadFrom(input, 0)
    case Failed(rest) => ([], rest)
    case Frame(body, rest) =>
      FrameShrinks(input, 0);
      var (bodies, left) := ReadAll(rest);
      ([body] + bodies, left)
  }

  lemma {:induction false} FrameShrinks(input: seq<Byte>, length: int)
    requires ReadFrom(input, length).Frame?
    ensures |ReadFrom(input, length).rest| < |input|
    decreases |input|
  {
    hide TrimLineEnd, LengthAfter;
    var lf := IndexOf(input, LF);
    var line, rest := TrimLineEnd(input[..lf + 1]), input[lf + 1..];
    if line != [] {
      FrameShrinks(rest, LengthAfter(line, length));
    }
  }

  /** Reading the input yields these bodies, and nothing is left over. */
  predicate ReadsAs(input: seq<Byte>, bodies: seq<seq<Byte>>) {
    ReadAll(input) == (bodies, [])
  }

  function WrittenAll(bodies: seq<seq<Byte>>): seq<Byte> {
    if bodies == [] then [] else Written(bodies[0]) + WrittenAll(bodies[1..])
  }

  /** One frame, byte by byte. */
  lemma FrameOnTheWire()
    ensures Written([123, 125]) == [67, 111, 110, 116, 101, 110, 116, 45, 76, 101, 110, 103, 116, 104, 58, 32, 50,
                                    13, 10, 13, 10, 123, 125]
  {
    assert Decimal(2) == [50];
  }

  /** Any number of written non-empty bodies is read back in order, with nothing
      left over. */
  lemma {:induction false} RoundTrip(bodies: seq<seq<Byte>>)
    requires forall b <- bodies :: b != [] && |b| <= MAX_INT
    ensures ReadsAs(WrittenAll(bodies), bodies)
    decreases bodies
  {
    hide Written;
    if bodies != [] {
      RoundTrip(bodies[1..]);
      ReadAllStep(bodies[0], WrittenAll(bodies[1..]), bodies[1..]);
      assert bodies == [bodies[0]] + bodies[1..];
    }
  }

  lemma ReadAllStep(body: seq<Byte>, rest: seq<Byte>, bodies: seq<seq<Byte>>)
    requires body != [] && |body| <= MAX_INT && ReadAll(rest) == (bodies, [])
    ensures ReadAll(Written(body) + rest) == ([body] + bodies, [])
  {
    WrittenReads(body, rest);
  }
}
