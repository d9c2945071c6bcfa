/** Slash-separated paths: strings as the source handles them, and the segment
    lists they stand for. */
module Paths {
  /** A clean absolute path as its segments; [] is the file system root. */
  type Path = seq<string>

  predicate CleanSegment(s: string) {
    s != "" && '/' !in s && s != "." && s != ".."
  }

  predicate Clean(p: Path) {
    forall s <- p :: CleanSegment(s)
  }

  function JoinSlash(segs: seq<string>): string {
    if segs == [] then ""
    else if |segs| == 1 then segs[0]
    else segs[0] + "/" + JoinSlash(segs[1..])
  }

  /** The first slash of s, or its length. */
  function FirstSlash(s: string): (i: nat)
    ensures i <= |s|
  {
    if s == "" || s[0] == '/' then 0 else 1 + FirstSlash(s[1..])
  }

  function SplitSlash(s: string): (r: seq<string>)
    ensures r != []
    decreases |s|
  {
    var i := FirstSlash(s);
    if i == |s| then [s] else [s[..i]] + SplitSlash(s[i + 1..])
  }

  predicate SlashFree(segs: seq<string>) {
    forall s <- segs :: '/' !in s
  }

  lemma {:induction false} FirstSlashAfter(a: string, t: string)
    requires '/' !in a && (t != "" ==> t[0] == '/')
    ensures FirstSlash(a + t) == |a|
  {
    if a == "" {
      assert a + t == t;
    } else {
      assert (a + t)[1..] == a[1..] + t;
      FirstSlashAfter(a[1..], t);
    }
  }

  lemma {:induction false} SplitOfJoin(segs: seq<string>)
    requires segs != [] && SlashFree(segs)
    ensures SplitSlash(JoinSlash(segs)) == segs
  {
    assert '/' !in segs[0];
    if |segs| == 1 {
      FirstSlashAfter(segs[0], "");
      assert segs[0] + "" == segs[0];
    } else {
      var tail := "/" + JoinSlash(segs[1..]);
      var s := JoinSlash(segs);
      assert s == segs[0] + tail;
      FirstSlashAfter(segs[0], tail);
      assert s[|segs[0]| + 1..] == JoinSlash(segs[1..]);
      SplitOfJoin(segs[1..]);
      assert segs == [segs[0]] + segs[1..];
    }
  }

  /** A directory relative to one of its ancestors, given the segments between. */
  function RelString(segs: seq<string>): string {
    if segs == [] then "." else JoinSlash(segs)
  }

  lemma JoinIsPlain(segs: seq<string>)
    requires segs != [] && Clean(segs)
    ensures JoinSlash(segs) != "." && JoinSlash(segs) != ""
  {
    assert "."[1..] == "" && FirstSlash(".") == 1;
    assert SplitSlash(".") == ["."] && SplitSlash("") == [""];
    SplitOfJoin(segs);
    assert CleanSegment(segs[0]);
  }

  lemma {:induction false} JoinConcat(a: seq<string>, b: seq<string>)
    requires a != [] && b != []
    ensures JoinSlash(a + b) == JoinSlash(a) + "/" + JoinSlash(b)
  {
    assert (a + b)[1..] == a[1..] + b;
    if |a| > 1 {
      JoinConcat(a[1..], b);
    } else {
      assert a[1..] + b == b;
    }
  }

  // ---- absolute paths as strings -------------------------------------------

  function Slashed(p: Path): string {
    if p == [] then "" else "/" + p[0] + Slashed(p[1..])
  }

  function AbsString(p: Path): string {
    if p == [] then "/" else Slashed(p)
  }

  lemma SlashedStart(p: Path)
    ensures Slashed(p) != "" ==> Slashed(p)[0] == '/'
    ensures (Slashed(p) + "/")[0] == '/'
  {
  }

  lemma PrefixTail(a: string, x: string, b: string, y: string)
    requires |a| == |b|
    ensures a + x <= b + y <==> a == b && x <= y
  {
    if a + x <= b + y {
      assert (a + x)[..|a|] == a && (b + y)[..|b|] == b;
      assert (a + x)[|a|..] == x && (b + y)[|b|..] == y;
      assert (b + y)[..|a + x|][|a|..] == y[..|x|];
    }
    if a == b && x <= y {
      assert (b + y)[..|a + x|] == b + y[..|x|];
    }
  }

  /** The string test for "strictly inside" is the segment test. */
  lemma {:induction false} SlashedPrefix(root: Path, path: Path)
    requires Clean(root) && Clean(path)
    ensures Slashed(root) + "/" <= Slashed(path) <==> root < path
  {
    if root == [] {
      assert Slashed(root) + "/" == "/";
      SlashedStart(path);
    } else if path != [] {
      SlashedPrefix(root[1..], path[1..]);
      FirstSegments(root, path);
      HeadPrefix(root, path);
    }
  }

  lemma SlashedSplits(p: Path)
    requires p != []
    ensures Slashed(p) == "/" + (p[0] + Slashed(p[1..]))
    ensures Slashed(p) + "/" == "/" + (p[0] + (Slashed(p[1..]) + "/"))
  {
  }

  lemma SlashedHeads(x: string, a: string, s: string, y: string, b: string, t: string)
    requires x == "/" + (a + s) && y == "/" + (b + t)
    requires '/' !in a && '/' !in b && s != "" && s[0] == '/' && (t != "" ==> t[0] == '/')
    ensures x <= y <==> a == b && s <= t
  {
    PrefixTail("/", a + s, "/", b + t);
    HeadSegments(a, s, b, t);
  }

  /** Past a common first segment the test is the same test further down. */
  lemma FirstSegments(root: Path, path: Path)
    requires Clean(root) && Clean(path) && root != [] && path != []
    ensures Slashed(root) + "/" <= Slashed(path) <==>
              root[0] == path[0] && Slashed(root[1..]) + "/" <= Slashed(path[1..])
  {
    assert CleanSegment(root[0]) && CleanSegment(path[0]);
    hide Slashed, Clean;
    SlashedSplits(root);
    SlashedSplits(path);
    SlashedStart(root[1..]);
    SlashedStart(path[1..]);
    SlashedHeads(Slashed(root) + "/", root[0], Slashed(root[1..]) + "/", Slashed(path), path[0], Slashed(path[1..]));
  }

  lemma HeadPrefix(root: Path, path: Path)
    requires root != [] && path != []
    ensures root < path <==> root[0] == path[0] && root[1..] < path[1..]
  {
    if root[0] == path[0] && root[1..] < path[1..] {
      assert root == [root[0]] + root[1..] && path == [path[0]] + path[1..];
    }
    if root < path {
      assert path[..|root|][1..] == path[1..][..|root| - 1];
    }
  }

  lemma HeadSegments(a: string, s: string, b: string, t: string)
    requires '/' !in a && '/' !in b && s != "" && s[0] == '/' && (t != "" ==> t[0] == '/')
    ensures a + s <= b + t <==> a == b && s <= t
  {
    if a + s <= b + t {
      SlashPrefixHeads(a, s, b, t);
    }
    if a == b {
      PrefixTail(a, s, b, t);
    }
  }

  lemma SlashPrefixHeads(a: string, s: string, b: string, t: string)
    requires '/' !in a && '/' !in b && s != "" && s[0] == '/' && (t != "" ==> t[0] == '/')
    requires a + s <= b + t
    ensures a == b
  {
    FirstSlashAfter(a, s);
    FirstSlashAfter(b, t);
    FirstSlashOfPrefix(a + s, b + t);
    assert (a + s)[..|a|] == (b + t)[..|b|];
  }

  lemma {:induction false} FirstSlashOfPrefix(x: string, y: string)
    requires x <= y && FirstSlash(x) < |x|
    ensures FirstSlash(y) == FirstSlash(x)
  {
    if x[0] != '/' {
      FirstSlashOfPrefix(x[1..], y[1..]);
    }
  }

  /** strings.HasPrefix(path, root + "/"): path lies strictly inside root. No path
      passes it for the file system root, whose own string ends in a slash. */
  lemma InsideTest(root: Path, path: Path)
    requires Clean(root) && Clean(path)
    ensures AbsString(root) + "/" <= AbsString(path) <==> root != [] && root < path
  {
    SlashedPrefix(root, path);
    if root == [] && path != [] {
      assert CleanSegment(path[0]);
      assert AbsString(path)[1] == path[0][0] && path[0][0] in path[0];
    }
  }

  predicate Inside(path: Path, root: Path) {
    root != [] && root < path
  }

  function Dir(p: Path): Path {
    if p == [] then [] else p[..|p| - 1]
  }

  lemma {:induction false} SlashedIsInjective(p: Path, q: Path)
    requires Clean(p) && Clean(q) && Slashed(p) == Slashed(q)
    ensures p == q
  {
    if p != [] && q != [] {
      assert CleanSegment(p[0]) && CleanSegment(q[0]);
      SlashedStart(p[1..]);
      SlashedStart(q[1..]);
      FirstSlashAfter(p[0], Slashed(p[1..]));
      FirstSlashAfter(q[0], Slashed(q[1..]));
      var s := Slashed(p)[1..];
      assert s == p[0] + Slashed(p[1..]) && s == q[0] + Slashed(q[1..]);
      assert s[..|p[0]|] == p[0] && s[..|q[0]|] == q[0];
      assert s[|p[0]|..] == Slashed(p[1..]) && s[|q[0]|..] == Slashed(q[1..]);
      SlashedIsInjective(p[1..], q[1..]);
      assert p == [p[0]] + p[1..] && q == [q[0]] + q[1..];
    }
  }

  lemma AbsStringIsInjective(p: Path, q: Path)
    requires Clean(p) && Clean(q)
    ensures AbsString(p) == AbsString(q) <==> p == q
  {
    if p != [] {
      assert CleanSegment(p[0]) && |AbsString(p)| > 1;
    }
    if q != [] {
      assert CleanSegment(q[0]) && |AbsString(q)| > 1;
    }
    if AbsString(p) == AbsString(q) && p != [] {
      SlashedIsInjective(p, q);
    }
  }
}
