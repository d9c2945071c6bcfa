/** Moving a cached driver response from one checkout to another: a textual
    replacement of quoted roots, specified by what it does to each string. */
module RootRewrite {
  import opened Options

  const QUOTE: char := '\"'

  /** A marshaled response: text outside strings, and string contents. */
  datatype Piece = Raw(text: string) | Str(text: string)

  function Quoted(s: string): string {
    [QUOTE] + s + [QUOTE]
  }

  function Render(pieces: seq<Piece>): string {
    if pieces == [] then ""
    else (match pieces[0] case Raw(t) => t case Str(t) => Quoted(t)) + Render(pieces[1..])
  }

  /** No string holds a quote, and JSON punctuation holds neither a quote nor a
      path separator. */
  predicate WellFormed(p: Piece) {
    QUOTE !in p.text && (p.Raw? ==> '/' !in p.text)
  }

  predicate AllWellFormed(pieces: seq<Piece>) {
    forall p <- pieces :: WellFormed(p)
  }

  /** bytes.ReplaceAll: leftmost, non-overlapping. */
  function ReplaceAll(s: string, pattern: string, repl: string): string
    requires pattern != ""
  {
    if s == "" then ""
    else if pattern <= s then repl + ReplaceAll(s[|pattern|..], pattern, repl)
    else [s[0]] + ReplaceAll(s[1..], pattern, repl)
  }

  function BelowPattern(root: string): string {
    [QUOTE] + root + "/"
  }

  function RewriteRoot(resp: string, oldRoot: string, newRoot: string): string {
    var below := ReplaceAll(resp, BelowPattern(oldRoot), BelowPattern(newRoot));
    ReplaceAll(below, Quoted(oldRoot), Quoted(newRoot))
  }

  // ---- the structural meaning ----------------------------------------------

  predicate Below(path: string, root: string) {
    root + "/" <= path
  }

  predicate AtOrBelow(path: string, root: string) {
    path == root || Below(path, root)
  }

  function Moved(path: string, oldRoot: string, newRoot: string): string {
    if AtOrBelow(path, oldRoot) then newRoot + path[|oldRoot|..] else path
  }

  function MovedPiece(p: Piece, oldRoot: string, newRoot: string): Piece {
    if p.Str? then Str(Moved(p.text, oldRoot, newRoot)) else p
  }

  function MovedPieces(pieces: seq<Piece>, oldRoot: string, newRoot: string): seq<Piece> {
    if pieces == [] then []
    else [MovedPiece(pieces[0], oldRoot, newRoot)] + MovedPieces(pieces[1..], oldRoot, newRoot)
  }

  /** An absolute, quote-free path. */
  predicate Root(path: string) {
    path != "" && path[0] == '/' && QUOTE !in path
  }

  // ---- one pass ------------------------------------------------------------

  /** A pattern that opens with a quote is not found in text without one. */
  lemma {:induction false} QuoteFreeIsKept(a: string, t: string, pattern: string, repl: string)
    requires QUOTE !in a && pattern != "" && pattern[0] == QUOTE
    ensures ReplaceAll(a + t, pattern, repl) == a + ReplaceAll(t, pattern, repl)
  {
    if a == "" {
      assert a + t == t;
    } else {
      assert (a + t)[0] == a[0] && a[0] in a;
      assert (a + t)[1..] == a[1..] + t;
      QuoteFreeIsKept(a[1..], t, pattern, repl);
      assert [a[0]] + (a[1..] + ReplaceAll(t, pattern, repl)) == a + ReplaceAll(t, pattern, repl);
    }
  }

  lemma ReplaceAtHit(pattern: string, tail: string, repl: string)
    requires pattern != ""
    ensures ReplaceAll(pattern + tail, pattern, repl) == repl + ReplaceAll(tail, pattern, repl)
  {
    assert (pattern + tail)[|pattern|..] == tail;
  }

  lemma ReplaceAtMiss(c: char, tail: string, pattern: string, repl: string)
    requires pattern != "" && !(pattern <= [c] + tail)
    ensures ReplaceAll([c] + tail, pattern, repl) == [c] + ReplaceAll(tail, pattern, repl)
  {
    assert ([c] + tail)[1..] == tail;
  }

  /** A closing quote starts no match, as no root follows it. */
  lemma ClosingQuote(t: string, pattern: string, repl: string)
    requires [QUOTE, '/'] <= pattern && (t != "" ==> t[0] != '/')
    ensures ReplaceAll([QUOTE] + t, pattern, repl) == [QUOTE] + ReplaceAll(t, pattern, repl)
  {
    assert pattern[1] == '/' && (t != "" ==> ([QUOTE] + t)[1] == t[0]);
    ReplaceAtMiss(QUOTE, t, pattern, repl);
  }

  /** A string that is not matched at its opening quote is kept. */
  lemma StringIsKept(s: string, t: string, pattern: string, repl: string)
    requires QUOTE !in s && [QUOTE, '/'] <= pattern && (t != "" ==> t[0] != '/')
    requires !(pattern <= Quoted(s) + t)
    ensures ReplaceAll(Quoted(s) + t, pattern, repl) == Quoted(s) + ReplaceAll(t, pattern, repl)
  {
    hide ReplaceAll;
    var close := [QUOTE] + t;
    assert Quoted(s) + t == [QUOTE] + (s + close);
    ReplaceAtMiss(QUOTE, s + close, pattern, repl);
    QuoteFreeIsKept(s, close, pattern, repl);
    ClosingQuote(t, pattern, repl);
  }

  lemma BelowHit(rest: string, t: string, pattern: string, repl: string)
    requires QUOTE !in rest && [QUOTE, '/'] <= pattern && (t != "" ==> t[0] != '/')
    ensures ReplaceAll(pattern + (rest + ([QUOTE] + t)), pattern, repl)
            == repl + (rest + ([QUOTE] + ReplaceAll(t, pattern, repl)))
  {
    var close := [QUOTE] + t;
    ReplaceAtHit(pattern, rest + close, repl);
    QuoteFreeIsKept(rest, close, pattern, repl);
    ClosingQuote(t, pattern, repl);
  }

  lemma BelowShape(s: string, rest: string, t: string, root: string)
    requires s == root + "/" + rest
    ensures Quoted(s) + t == BelowPattern(root) + (rest + ([QUOTE] + t))
  {
  }

  /** The first pass on one string: paths below the old root are moved. */
  lemma BelowPass(s: string, t: string, oldRoot: string, newRoot: string)
    requires Root(oldRoot) && QUOTE !in s && (t != "" ==> t[0] != '/')
    ensures ReplaceAll(Quoted(s) + t, BelowPattern(oldRoot), BelowPattern(newRoot))
            == Quoted(if Below(s, oldRoot) then newRoot + s[|oldRoot|..] else s)
               + ReplaceAll(t, BelowPattern(oldRoot), BelowPattern(newRoot))
  {
    var pattern, repl := BelowPattern(oldRoot), BelowPattern(newRoot);
    BelowMatches(s, t, oldRoot);
    if Below(s, oldRoot) {
      var rest := s[|oldRoot| + 1..];
      BelowShape(s, rest, t, oldRoot);
      BelowHit(rest, t, pattern, repl);
      BelowShape(newRoot + "/" + rest, rest, ReplaceAll(t, pattern, repl), newRoot);
      assert newRoot + s[|oldRoot|..] == newRoot + "/" + rest;
    } else {
      StringIsKept(s, t, pattern, repl);
    }
  }

  lemma ShortPrefix(path: string, s: string, t: string)
    requires path <= s + t
    ensures |path| <= |s| ==> path <= s
  {
    if |path| <= |s| {
      assert (s + t)[..|path|] == s[..|path|];
    }
  }

  /** A prefix that reaches past the content of a string holds its quote. */
  lemma ReachingQuoteShows(path: string, s: string, t: string)
    requires path <= s + [QUOTE] + t && !(path <= s)
    ensures QUOTE in path
  {
    var u := s + [QUOTE] + t;
    ShortPrefix(path, s, [QUOTE] + t);
    assert u == s + ([QUOTE] + t);
    assert path[|s|] == u[|s|] == QUOTE;
  }

  lemma PrefixPastQuote(x: string, y: string)
    ensures [QUOTE] + x <= [QUOTE] + y <==> x <= y
  {
    var u, v := [QUOTE] + x, [QUOTE] + y;
    assert u[1..] == x && v[1..] == y;
    if u <= v {
      assert v[..|u|][1..] == y[..|x|];
    }
    if x <= y {
      assert v[..|u|] == [QUOTE] + y[..|x|];
    }
  }

  lemma BelowMatches(s: string, t: string, oldRoot: string)
    requires QUOTE !in oldRoot && QUOTE !in s
    ensures BelowPattern(oldRoot) <= Quoted(s) + t <==> Below(s, oldRoot)
  {
    var path := oldRoot + "/";
    assert BelowPattern(oldRoot) == [QUOTE] + path;
    assert Quoted(s) + t == [QUOTE] + (s + [QUOTE] + t);
    PrefixPastQuote(path, s + [QUOTE] + t);
    if path <= s + [QUOTE] + t && !(path <= s) {
      ReachingQuoteShows(path, s, t);
    }
  }

  /** The second pass on one string: exactly the old root itself is moved. */
  lemma EqualPass(s: string, t: string, oldRoot: string, newRoot: string)
    requires Root(oldRoot) && QUOTE !in s && (t != "" ==> t[0] != '/')
    ensures ReplaceAll(Quoted(s) + t, Quoted(oldRoot), Quoted(newRoot))
            == Quoted(if s == oldRoot then newRoot else s) + ReplaceAll(t, Quoted(oldRoot), Quoted(newRoot))
  {
    EqualMatches(s, t, oldRoot);
    if s == oldRoot {
      ReplaceAtHit(Quoted(oldRoot), t, Quoted(newRoot));
    } else {
      StringIsKept(s, t, Quoted(oldRoot), Quoted(newRoot));
    }
  }

  lemma PrefixIsWhole(a: string, s: string, t: string)
    requires a <= s && QUOTE !in s && (s + [QUOTE] + t)[|a|] == QUOTE
    ensures a == s
  {
    assert forall i :: 0 <= i < |s| ==> (s + [QUOTE] + t)[i] == s[i] && s[i] in s;
  }

  lemma EqualMatches(s: string, t: string, oldRoot: string)
    requires QUOTE !in oldRoot && QUOTE !in s
    ensures Quoted(oldRoot) <= Quoted(s) + t <==> s == oldRoot
  {
    var u := s + [QUOTE] + t;
    assert Quoted(s) + t == [QUOTE] + u;
    assert Quoted(oldRoot) == [QUOTE] + (oldRoot + [QUOTE]);
    PrefixPastQuote(oldRoot + [QUOTE], u);
    if oldRoot + [QUOTE] <= u {
      assert oldRoot <= u;
      if !(oldRoot <= s) {
        ReachingQuoteShows(oldRoot, s, t);
      } else {
        assert u[|oldRoot|] == (oldRoot + [QUOTE])[|oldRoot|];
        PrefixIsWhole(oldRoot, s, t);
      }
    }
  }

  // ---- whole responses -----------------------------------------------------

  lemma RenderStart(pieces: seq<Piece>)
    requires AllWellFormed(pieces)
    ensures Render(pieces) != "" ==> Render(pieces)[0] != '/'
  {
    if pieces != [] {
      assert WellFormed(pieces[0]);
      var t := pieces[0].text;
      if pieces[0].Raw? {
        if t == "" {
          assert Render(pieces) == Render(pieces[1..]);
          RenderStart(pieces[1..]);
        } else {
          assert t[0] in t;
        }
      }
    }
  }

  function BelowMoved(p: Piece, oldRoot: string, newRoot: string): Piece {
    if p.Str? && Below(p.text, oldRoot) then Str(newRoot + p.text[|oldRoot|..]) else p
  }

  function EqualMoved(p: Piece, oldRoot: string, newRoot: string): Piece {
    if p.Str? && p.text == oldRoot then Str(newRoot) else p
  }

  function BelowMovedAll(pieces: seq<Piece>, oldRoot: string, newRoot: string): seq<Piece> {
    if pieces == [] then []
    else [BelowMoved(pieces[0], oldRoot, newRoot)] + BelowMovedAll(pieces[1..], oldRoot, newRoot)
  }

  function EqualMovedAll(pieces: seq<Piece>, oldRoot: string, newRoot: string): seq<Piece> {
    if pieces == [] then []
    else [EqualMoved(pieces[0], oldRoot, newRoot)] + EqualMovedAll(pieces[1..], oldRoot, newRoot)
  }

  lemma HeadAndTail(pieces: seq<Piece>)
    requires pieces != [] && AllWellFormed(pieces)
    ensures WellFormed(pieces[0]) && AllWellFormed(pieces[1..])
    ensures Render(pieces[1..]) != "" ==> Render(pieces[1..])[0] != '/'
  {
    RenderStart(pieces[1..]);
  }

  lemma {:induction false} BelowPassAll(pieces: seq<Piece>, oldRoot: string, newRoot: string)
    requires AllWellFormed(pieces) && Root(oldRoot) && Root(newRoot)
    ensures ReplaceAll(Render(pieces), BelowPattern(oldRoot), BelowPattern(newRoot))
            == Render(BelowMovedAll(pieces, oldRoot, newRoot))
    ensures AllWellFormed(BelowMovedAll(pieces, oldRoot, newRoot))
  {
    if pieces != [] {
      HeadAndTail(pieces);
      BelowPassAll(pieces[1..], oldRoot, newRoot);
      var p, t := pieces[0], Render(pieces[1..]);
      if p.Raw? {
        QuoteFreeIsKept(p.text, t, BelowPattern(oldRoot), BelowPattern(newRoot));
      } else {
        BelowPass(p.text, t, oldRoot, newRoot);
      }
    }
  }

  lemma {:induction false} EqualPassAll(pieces: seq<Piece>, oldRoot: string, newRoot: string)
    requires AllWellFormed(pieces) && Root(oldRoot)
    ensures ReplaceAll(Render(pieces), Quoted(oldRoot), Quoted(newRoot))
            == Render(EqualMovedAll(pieces, oldRoot, newRoot))
  {
    if pieces != [] {
      HeadAndTail(pieces);
      EqualPassAll(pieces[1..], oldRoot, newRoot);
      var p, t := pieces[0], Render(pieces[1..]);
      if p.Raw? {
        QuoteFreeIsKept(p.text, t, Quoted(oldRoot), Quoted(newRoot));
      } else {
        EqualPass(p.text, t, oldRoot, newRoot);
      }
    }
  }

  /** The two passes together, as the code runs them. */
  lemma RewritePasses(pieces: seq<Piece>, oldRoot: string, newRoot: string)
    requires AllWellFormed(pieces) && Root(oldRoot) && Root(newRoot)
    ensures RewriteRoot(Render(pieces), oldRoot, newRoot)
            == Render(EqualMovedAll(BelowMovedAll(pieces, oldRoot, newRoot), oldRoot, newRoot))
  {
    BelowPassAll(pieces, oldRoot, newRoot);
    EqualPassAll(BelowMovedAll(pieces, oldRoot, newRoot), oldRoot, newRoot);
  }

  /** A path moved by the first pass is the old root again only if the old root
      lies below the new one. */
  lemma SecondPassMisses(path: string, oldRoot: string, newRoot: string)
    requires Below(path, oldRoot) && newRoot + path[|oldRoot|..] == oldRoot
    ensures Below(oldRoot, newRoot)
  {
    var rest := path[|oldRoot|..];
    assert path[..|oldRoot| + 1] == oldRoot + "/";
    assert rest[0] == '/';
    assert oldRoot[..|newRoot| + 1] == newRoot + "/";
  }

  lemma {:induction false} PassesCompose(pieces: seq<Piece>, oldRoot: string, newRoot: string)
    requires !Below(oldRoot, newRoot)
    ensures EqualMovedAll(BelowMovedAll(pieces, oldRoot, newRoot), oldRoot, newRoot)
            == MovedPieces(pieces, oldRoot, newRoot)
  {
    if pieces != [] {
      PassesCompose(pieces[1..], oldRoot, newRoot);
      var p := pieces[0];
      if p.Str? && Below(p.text, oldRoot) && newRoot + p.text[|oldRoot|..] == oldRoot {
        SecondPassMisses(p.text, oldRoot, newRoot);
      }
      assert p.text[|p.text|..] == "" && newRoot + "" == newRoot;
    }
  }

  /** The byte-level rewrite moves exactly the strings at or below the old root,
      on every response, if and only if the old root is not below the new one. */
  lemma RewriteIsStructural(oldRoot: string, newRoot: string)
    requires Root(oldRoot) && Root(newRoot)
    ensures (forall pieces :: AllWellFormed(pieces) ==>
               RewriteRoot(Render(pieces), oldRoot, newRoot) == Render(MovedPieces(pieces, oldRoot, newRoot)))
            <==> !Below(oldRoot, newRoot)
  {
    if !Below(oldRoot, newRoot) {
      forall pieces | AllWellFormed(pieces)
        ensures RewriteRoot(Render(pieces), oldRoot, newRoot) == Render(MovedPieces(pieces, oldRoot, newRoot))
      {
        RewritePasses(pieces, oldRoot, newRoot);
        PassesCompose(pieces, oldRoot, newRoot);
      }
    } else {
      MovedTwice(oldRoot, newRoot);
    }
  }

  /** Under a root that lies below the new one, this path is moved twice. */
  lemma MovedTwice(oldRoot: string, newRoot: string)
    requires Root(oldRoot) && Root(newRoot) && Below(oldRoot, newRoot)
    ensures var pieces := [Str(oldRoot + oldRoot[|newRoot|..])];
            && AllWellFormed(pieces)
            && RewriteRoot(Render(pieces), oldRoot, newRoot) == Quoted(newRoot)
            && Render(MovedPieces(pieces, oldRoot, newRoot)) == Quoted(oldRoot)
            && Quoted(newRoot) != Quoted(oldRoot)
  {
    hide RewriteRoot;
    var rest := oldRoot[|newRoot|..];
    var path := oldRoot + rest;
    var pieces := [Str(path)];
    assert (newRoot + "/")[|newRoot|] == '/' && rest[0] == '/';
    assert path[..|oldRoot| + 1] == oldRoot + "/";
    assert path[|oldRoot|..] == rest && newRoot + rest == oldRoot;
    assert forall c :: c in rest ==> c in oldRoot;
    assert AllWellFormed(pieces);
    RewritePasses(pieces, oldRoot, newRoot);
    assert pieces[1..] == [];
    var once := BelowMovedAll(pieces, oldRoot, newRoot);
    assert once == [Str(oldRoot)] && once[1..] == [];
    var twice := EqualMovedAll(once, oldRoot, newRoot);
    assert twice == [Str(newRoot)];
    SingleString(newRoot);
    assert MovedPieces(pieces, oldRoot, newRoot) == [Str(oldRoot)];
    SingleString(oldRoot);
    assert |Quoted(oldRoot)| > |Quoted(newRoot)|;
  }

  lemma SingleString(s: string)
    ensures Render([Str(s)]) == Quoted(s)
  {
    assert [Str(s)][1..] == [];
  }

  // ---- there and back ------------------------------------------------------

  /** Neither root is the other or lies below it. */
  predicate Apart(a: string, b: string) {
    a != b && !Below(a, b) && !Below(b, a)
  }

  lemma NotUnderBoth(path: string, a: string, b: string)
    requires AtOrBelow(path, a) && AtOrBelow(path, b)
    ensures !Apart(a, b)
  {
    if |a| < |b| {
      if path == b {
        assert Below(b, a);
      } else {
        assert path[..|b| + 1] == b + "/";
        assert b == path[..|b|];
        assert a + "/" == path[..|a| + 1] == b[..|a| + 1];
      }
    } else if |b| < |a| {
      if path == a {
        assert Below(a, b);
      } else {
        assert path[..|a| + 1] == a + "/";
        assert a == path[..|a|];
        assert b + "/" == path[..|b| + 1] == a[..|b| + 1];
      }
    } else {
      assert a == path[..|a|] && b == path[..|b|];
    }
  }

  lemma MovedIsUnderNew(path: string, oldRoot: string, newRoot: string)
    requires AtOrBelow(path, oldRoot)
    ensures AtOrBelow(Moved(path, oldRoot, newRoot), newRoot)
    ensures Moved(path, oldRoot, newRoot)[|newRoot|..] == path[|oldRoot|..]
  {
    var rest := path[|oldRoot|..];
    if path == oldRoot {
      assert newRoot + rest == newRoot;
    } else {
      assert path[..|oldRoot| + 1] == oldRoot + "/";
      assert (newRoot + rest)[..|newRoot| + 1] == newRoot + "/";
    }
  }

  lemma MovedBack(path: string, a: string, b: string)
    requires Apart(a, b)
    ensures Moved(Moved(path, a, b), b, a) == path <==> !AtOrBelow(path, b)
  {
    if AtOrBelow(path, a) {
      MovedIsUnderNew(path, a, b);
      assert path == a + path[|a|..];
      if AtOrBelow(path, b) {
        NotUnderBoth(path, a, b);
      }
    } else if AtOrBelow(path, b) {
      MovedIsUnderNew(path, b, a);
    }
  }

  /** Pieces that differ at most in what their strings hold. */
  predicate SameShape(p: seq<Piece>, q: seq<Piece>) {
    |p| == |q| && forall i :: 0 <= i < |p| ==> p[i].Str? == q[i].Str? && (p[i].Raw? ==> p[i] == q[i])
  }

  lemma QuotedIsInjective(s: string, x: string, t: string, y: string)
    requires QUOTE !in s && QUOTE !in t && Quoted(s) + x == Quoted(t) + y
    ensures s == t && x == y
  {
    assert Quoted(s) + x == [QUOTE] + (s + [QUOTE] + x);
    assert Quoted(t) + y == [QUOTE] + (t + [QUOTE] + y);
    assert ([QUOTE] + (s + [QUOTE] + x))[1..] == s + [QUOTE] + x;
    assert ([QUOTE] + (t + [QUOTE] + y))[1..] == t + [QUOTE] + y;
    EqualMatches(s, x, t);
    assert Quoted(t) <= Quoted(t) + y;
    assert (Quoted(s) + x)[|Quoted(s)|..] == x;
    assert (Quoted(t) + y)[|Quoted(t)|..] == y;
  }

  lemma {:induction false} RenderIsInjective(p: seq<Piece>, q: seq<Piece>)
    requires AllWellFormed(p) && AllWellFormed(q) && SameShape(p, q)
    requires Render(p) == Render(q)
    ensures p == q
  {
    if p != [] {
      HeadAndTail(p);
      HeadAndTail(q);
      var x, y := Render(p[1..]), Render(q[1..]);
      if p[0].Raw? {
        assert (p[0].text + x)[|p[0].text|..] == x;
        assert (q[0].text + y)[|q[0].text|..] == y;
      } else {
        QuotedIsInjective(p[0].text, x, q[0].text, y);
      }
      RenderIsInjective(p[1..], q[1..]);
      assert p == [p[0]] + p[1..] && q == [q[0]] + q[1..];
    }
  }

  lemma MovedPieceShape(p: Piece, oldRoot: string, newRoot: string)
    requires WellFormed(p) && Root(newRoot)
    ensures WellFormed(MovedPiece(p, oldRoot, newRoot)) && SameShape([p], [MovedPiece(p, oldRoot, newRoot)])
  {
  }

  lemma {:induction false} MovedPiecesShape(pieces: seq<Piece>, oldRoot: string, newRoot: string)
    requires AllWellFormed(pieces) && Root(newRoot)
    ensures SameShape(pieces, MovedPieces(pieces, oldRoot, newRoot))
    ensures AllWellFormed(MovedPieces(pieces, oldRoot, newRoot))
    ensures forall i :: 0 <= i < |pieces| ==>
              MovedPieces(pieces, oldRoot, newRoot)[i] == MovedPiece(pieces[i], oldRoot, newRoot)
  {
    if pieces != [] {
      HeadAndTail(pieces);
      MovedPiecesShape(pieces[1..], oldRoot, newRoot);
      MovedPieceShape(pieces[0], oldRoot, newRoot);
      hide MovedPiece, WellFormed, Root;
      var rest := MovedPieces(pieces[1..], oldRoot, newRoot);
      assert MovedPieces(pieces, oldRoot, newRoot) == [MovedPiece(pieces[0], oldRoot, newRoot)] + rest;
      forall i | 0 < i < |pieces|
        ensures MovedPieces(pieces, oldRoot, newRoot)[i] == MovedPiece(pieces[i], oldRoot, newRoot)
      {
        assert pieces[1..][i - 1] == pieces[i] && rest[i - 1] == MovedPiece(pieces[i], oldRoot, newRoot);
      }
    }
  }

  lemma MovedThereAndBack(pieces: seq<Piece>, a: string, b: string)
    requires AllWellFormed(pieces) && Root(a) && Root(b) && Apart(a, b)
    ensures var back := MovedPieces(MovedPieces(pieces, a, b), b, a);
            && AllWellFormed(back) && SameShape(back, pieces)
            && (back == pieces <==> forall p :: p in pieces && p.Str? ==> !AtOrBelow(p.text, b))
  {
    var there := MovedPieces(pieces, a, b);
    var back := MovedPieces(there, b, a);
    MovedPiecesShape(pieces, a, b);
    MovedPiecesShape(there, b, a);
    forall i | 0 <= i < |pieces|
      ensures back[i] == pieces[i] <==> (pieces[i].Str? ==> !AtOrBelow(pieces[i].text, b))
    {
      MovedBack(pieces[i].text, a, b);
    }
  }

  lemma RewriteBytes(pieces: seq<Piece>, oldRoot: string, newRoot: string)
    requires AllWellFormed(pieces) && Root(oldRoot) && Root(newRoot) && !Below(oldRoot, newRoot)
    ensures RewriteRoot(Render(pieces), oldRoot, newRoot) == Render(MovedPieces(pieces, oldRoot, newRoot))
    ensures AllWellFormed(MovedPieces(pieces, oldRoot, newRoot))
  {
    RewriteIsStructural(oldRoot, newRoot);
    MovedPiecesShape(pieces, oldRoot, newRoot);
  }

  /** For roots apart, rewriting there and back restores the bytes of a response
      if and only if it held no string at or below the new root before. */
  lemma RewritingBackRestores(pieces: seq<Piece>, a: string, b: string)
    requires AllWellFormed(pieces) && Root(a) && Root(b) && Apart(a, b)
    ensures RewriteRoot(RewriteRoot(Render(pieces), a, b), b, a) == Render(pieces)
            <==> forall p :: p in pieces && p.Str? ==> !AtOrBelow(p.text, b)
  {
    RewriteBytes(pieces, a, b);
    RewriteBytes(MovedPieces(pieces, a, b), b, a);
    MovedThereAndBack(pieces, a, b);
    var back := MovedPieces(MovedPieces(pieces, a, b), b, a);
    if Render(back) == Render(pieces) {
      RenderIsInjective(back, pieces);
    }
  }

  // ---- retargetGraph -------------------------------------------------------

  /** A cached graph as the disk holds it; Resp stands for its bytes. */
  datatype SavedGraph = SavedGraph(resp: string, dir: string, root: string)

  function OldRoot(saved: SavedGraph): string {
    if saved.root == "" then saved.dir else saved.root
  }

  /** The response and build directory for the current root, or None when the
      saved directory is not inside the saved root. */
  function RetargetGraph(saved: SavedGraph, root: string): Option<(string, string)> {
    var oldRoot := OldRoot(saved);
    if root == "" || oldRoot == root then Some((saved.resp, saved.dir))
    else if saved.dir == oldRoot then Some((RewriteRoot(saved.resp, oldRoot, root), root))
    else if Below(saved.dir, oldRoot) then
      Some((RewriteRoot(saved.resp, oldRoot, root), root + saved.dir[|oldRoot|..]))
    else None
  }

  /** A graph saved in one checkout and retargeted to another serves there the
      moved paths, from the moved build directory. */
  lemma RetargetMoves(pieces: seq<Piece>, dir: string, oldRoot: string, root: string)
    requires AllWellFormed(pieces) && Root(oldRoot) && Root(root) && !Below(oldRoot, root)
    ensures RetargetGraph(SavedGraph(Render(pieces), dir, oldRoot), root)
            == if oldRoot != root && !AtOrBelow(dir, oldRoot) then None
               else Some((Render(MovedPieces(pieces, oldRoot, root)), Moved(dir, oldRoot, root)))
  {
    RewriteIsStructural(oldRoot, root);
    if oldRoot == root {
      MovedInPlace(pieces, root);
    } else if dir == oldRoot {
      assert root + dir[|oldRoot|..] == root;
    }
  }

  /** A cache that names no root is taken to be of the directory it was built in; and
      without a current root nothing is moved. */
  lemma RootlessRetargetMoves(pieces: seq<Piece>, dir: string, oldRoot: string, root: string)
    requires AllWellFormed(pieces) && Root(dir) && Root(root) && !Below(dir, root)
    ensures RetargetGraph(SavedGraph(Render(pieces), dir, ""), root)
         == Some((Render(MovedPieces(pieces, dir, root)), Moved(dir, dir, root)))
    ensures RetargetGraph(SavedGraph(Render(pieces), dir, oldRoot), "") == Some((Render(pieces), dir))
  {
    RewriteIsStructural(dir, root);
    assert root + dir[|dir|..] == root;
    if dir == root {
      MovedInPlace(pieces, root);
    }
  }

  lemma {:induction false} MovedInPlace(pieces: seq<Piece>, root: string)
    ensures MovedPieces(pieces, root, root) == pieces
    ensures forall path :: Moved(path, root, root) == path
  {
    forall path ensures Moved(path, root, root) == path {
      if AtOrBelow(path, root) {
        assert path == path[..|root|] + path[|root|..];
        if path != root {
          assert path[..|root| + 1] == root + "/";
          assert path[..|root|] == root;
        }
      }
    }
    if pieces != [] {
      MovedInPlace(pieces[1..], root);
      assert pieces == [pieces[0]] + pieces[1..];
    }
  }

  /** Saving in the second checkout and going back gives the first its own bytes
      and directory again. */
  lemma RetargetRoundTrip(pieces: seq<Piece>, dir: string, a: string, b: string)
    requires AllWellFormed(pieces) && Root(a) && Root(b) && Apart(a, b) && AtOrBelow(dir, a)
    requires forall p :: p in pieces && p.Str? ==> !AtOrBelow(p.text, b)
    ensures var there := RetargetGraph(SavedGraph(Render(pieces), dir, a), b);
            there.Some? && RetargetGraph(SavedGraph(there.value.0, there.value.1, b), a) == Some((Render(pieces), dir))
  {
    RetargetMoves(pieces, dir, a, b);
    MovedPiecesShape(pieces, a, b);
    MovedIsUnderNew(dir, a, b);
    RetargetMoves(MovedPieces(pieces, a, b), Moved(dir, a, b), b, a);
    MovedBack(dir, a, b);
    if AtOrBelow(dir, b) {
      NotUnderBoth(dir, a, b);
    }
    RewriteIsStructural(a, b);
    RewriteIsStructural(b, a);
    RewritingBackRestores(pieces, a, b);
  }
}
