/** The string keys graph slots are looked up by. */
module CacheKey {
  const NUL: char := '\0'
  const MARKER: string := [NUL, NUL] + "flags" + [NUL]
  const NESTED_BASE: string := "nested:all"

  /** The items with one NUL between neighbours. */
  function Join(items: seq<string>): string {
    if items == [] then ""
    else if |items| == 1 then items[0]
    else items[0] + [NUL] + Join(items[1..])
  }

  function BuildFlagsSuffix(buildFlags: seq<string>): string {
    if buildFlags == [] then "" else MARKER + Join(buildFlags)
  }

  function CanonicalKey(patterns: seq<string>, buildFlags: seq<string>): string {
    Join(patterns) + BuildFlagsSuffix(buildFlags)
  }

  function NestedModuleCacheKey(buildFlags: seq<string>): string {
    NESTED_BASE + BuildFlagsSuffix(buildFlags)
  }

  predicate NulFree(items: seq<string>) {
    forall s <- items :: NUL !in s
  }

  predicate Patterns(items: seq<string>) {
    NulFree(items) && "" !in items
  }

  // ---- joins ---------------------------------------------------------------

  /** The first NUL of s, or its length. */
  function FirstNul(s: string): nat {
    if s == "" || s[0] == NUL then 0 else 1 + FirstNul(s[1..])
  }

  lemma {:induction false} FirstNulAfter(a: string, s: string)
    requires NUL !in a && (s != "" ==> s[0] == NUL)
    ensures FirstNul(a + s) == |a|
  {
    if a == "" {
      assert a + s == s;
    } else {
      assert (a + s)[1..] == a[1..] + s;
      FirstNulAfter(a[1..], s);
    }
  }

  /** The first NUL of a join ends its first item. */
  lemma JoinHead(items: seq<string>)
    requires items != [] && NulFree(items)
    ensures FirstNul(Join(items)) == |items[0]| <= |Join(items)|
    ensures |items| == 1 <==> |items[0]| == |Join(items)|
    ensures Join(items)[..|items[0]|] == items[0]
    ensures |items| > 1 ==> Join(items)[|items[0]| + 1..] == Join(items[1..])
  {
    assert NUL !in items[0];
    if |items| == 1 {
      FirstNulAfter(items[0], "");
      assert items[0] + "" == items[0];
    } else {
      var tail := [NUL] + Join(items[1..]);
      assert Join(items) == items[0] + tail;
      FirstNulAfter(items[0], tail);
    }
  }

  lemma {:induction false} JoinIsInjective(a: seq<string>, b: seq<string>)
    requires NulFree(a) && NulFree(b) && a != [] && b != []
    requires Join(a) == Join(b)
    ensures a == b
  {
    JoinHead(a);
    JoinHead(b);
    assert a[0] == b[0];
    if |a| > 1 {
      JoinIsInjective(a[1..], b[1..]);
      assert a == [a[0]] + a[1..] && b == [b[0]] + b[1..];
    }
  }

  /** No two neighbouring NULs, and none at the end. */
  predicate SingleNuls(s: string) {
    forall i :: 0 <= i < |s| && s[i] == NUL ==> i + 1 < |s| && s[i + 1] != NUL
  }

  lemma {:induction false} JoinHasSingleNuls(items: seq<string>)
    requires Patterns(items)
    ensures SingleNuls(Join(items))
    ensures items != [] ==> Join(items) != "" && Join(items)[0] != NUL
  {
    if items != [] {
      assert NUL !in items[0] && items[0] != "";
      forall i | 0 <= i < |items[0]| ensures items[0][i] != NUL {
        assert items[0][i] in items[0];
      }
      if |items| > 1 {
        JoinHasSingleNuls(items[1..]);
        var s, tail := Join(items), Join(items[1..]);
        forall i | 0 <= i < |s| && s[i] == NUL ensures i + 1 < |s| && s[i + 1] != NUL {
          assert i >= |items[0]|;
          if i > |items[0]| {
            assert s[i] == tail[i - |items[0]| - 1];
          } else {
            assert s[i + 1] == tail[0];
          }
        }
      }
    }
  }

  lemma SuffixShape(buildFlags: seq<string>)
    ensures buildFlags == [] <==> BuildFlagsSuffix(buildFlags) == ""
    ensures buildFlags != [] ==> [NUL, NUL] <= BuildFlagsSuffix(buildFlags)
  {
  }

  lemma SuffixIsInjective(f: seq<string>, g: seq<string>)
    requires NulFree(f) && NulFree(g)
    requires BuildFlagsSuffix(f) == BuildFlagsSuffix(g)
    ensures f == g
  {
    SuffixShape(f);
    SuffixShape(g);
    if f != [] {
      assert (MARKER + Join(f))[|MARKER|..] == Join(f);
      assert (MARKER + Join(g))[|MARKER|..] == Join(g);
      JoinIsInjective(f, g);
    }
  }

  /** A key prefix that reaches past another key's marker holds double NULs. */
  lemma ReachingMarkerShows(a: string, s: string, b: string, t: string)
    requires [NUL, NUL] <= s && a + s == b + t
    requires |a| < |b|
    ensures !SingleNuls(b)
  {
    var k := a + s;
    assert k[|a|] == s[0] == NUL && k[|a| + 1] == s[1] == NUL;
    assert b[|a|] == k[|a|];
    assert |a| + 1 < |b| ==> b[|a| + 1] == k[|a| + 1];
  }

  lemma SplitsEqual(a: string, s: string, b: string, t: string)
    requires a + s == b + t && |a| == |b|
    ensures a == b && s == t
  {
    assert (a + s)[..|a|] == a && (b + t)[..|b|] == b;
    assert (a + s)[|a|..] == s && (b + t)[|b|..] == t;
  }

  /** Queries that differ in patterns or build flags never share a key. */
  lemma CanonicalKeyIsInjective(p: seq<string>, f: seq<string>, q: seq<string>, g: seq<string>)
    requires Patterns(p) && Patterns(q) && NulFree(f) && NulFree(g)
    requires CanonicalKey(p, f) == CanonicalKey(q, g)
    ensures p == q && f == g
  {
    var a, s, b, t := Join(p), BuildFlagsSuffix(f), Join(q), BuildFlagsSuffix(g);
    JoinHasSingleNuls(p);
    JoinHasSingleNuls(q);
    SuffixShape(f);
    SuffixShape(g);
    if |a| < |b| && s != "" {
      ReachingMarkerShows(a, s, b, t);
    }
    if |b| < |a| && t != "" {
      ReachingMarkerShows(b, t, a, s);
    }
    assert |a + s| == |b + t|;
    SplitsEqual(a, s, b, t);
    SuffixIsInjective(f, g);
    if p != [] {
      JoinIsInjective(p, q);
    }
  }

  lemma {:induction false} JoinConcat(a: seq<string>, b: seq<string>)
    requires a != [] && b != []
    ensures Join(a + b) == Join(a) + [NUL] + Join(b)
  {
    assert (a + b)[1..] == a[1..] + b;
    if |a| > 1 {
      JoinConcat(a[1..], b);
    } else {
      assert a[1..] + b == b;
    }
  }

  /** An empty pattern lets the marker be spelled by the patterns themselves: any
      patterns and flags then share a key with patterns alone. */
  lemma EmptyPatternCollides(patterns: seq<string>, buildFlags: seq<string>)
    requires patterns != [] && buildFlags != []
    ensures CanonicalKey(patterns + ["", "flags"] + buildFlags, []) == CanonicalKey(patterns, buildFlags)
  {
    hide Join;
    var spelled := ["", "flags"] + buildFlags;
    assert patterns + ["", "flags"] + buildFlags == patterns + spelled;
    JoinConcat(patterns, spelled);
    MarkerSpelled(buildFlags);
    var p, f := Join(patterns), Join(buildFlags);
    assert p + [NUL] + ([NUL] + "flags" + [NUL] + f) == p + (MARKER + f);
  }

  lemma MarkerSpelled(buildFlags: seq<string>)
    requires buildFlags != []
    ensures Join(["", "flags"] + buildFlags) == [NUL] + "flags" + [NUL] + Join(buildFlags)
  {
    JoinConcat(["", "flags"], buildFlags);
    assert Join(["", "flags"]) == [NUL] + "flags" by {
      assert ["", "flags"][1..] == ["flags"];
    }
  }

  lemma NestedKeyIsInjective(f: seq<string>, g: seq<string>)
    requires NulFree(f) && NulFree(g)
    requires NestedModuleCacheKey(f) == NestedModuleCacheKey(g)
    ensures f == g
  {
    SplitsEqual(NESTED_BASE, BuildFlagsSuffix(f), NESTED_BASE, BuildFlagsSuffix(g));
    SuffixIsInjective(f, g);
  }
}
