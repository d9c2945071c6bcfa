/** Scope units: the directories gopls is asked to load. */
module ScopeUnits {
  import opened Options
  import opened Paths
  import opened ModRoot

  function Min(a: nat, b: nat): nat {
    if a < b then a else b
  }

  /** rel cut to at most n leading segments. */
  function ScopeUnit(rel: string, n: nat): string {
    var segs := SplitSlash(rel);
    JoinSlash(if |segs| > n then segs[..n] else segs)
  }

  /** Cutting the string cuts the segments. */
  lemma ScopeUnitCuts(segs: seq<string>, n: nat)
    requires Clean(segs) && n >= 1
    ensures ScopeUnit(RelString(segs), n) == RelString(segs[..Min(n, |segs|)])
  {
    if segs == [] {
      assert "."[1..] == "" && SplitSlash(".") == ["."];
    } else {
      assert SlashFree(segs) by {
        forall s | s in segs ensures '/' !in s {
          assert CleanSegment(s);
        }
      }
      SplitOfJoin(segs);
      assert segs[..|segs|] == segs;
    }
  }

  function PrefixUnit(prefix: string, unit: string): string {
    if unit == "." then prefix else prefix + "/" + unit
  }

  lemma PrefixUnitJoins(prefix: seq<string>, segs: seq<string>)
    requires prefix != [] && Clean(prefix) && Clean(segs)
    ensures PrefixUnit(RelString(prefix), RelString(segs)) == RelString(prefix + segs)
  {
    if segs == [] {
      assert prefix + segs == prefix;
    } else {
      JoinIsPlain(segs);
      JoinConcat(prefix, segs);
    }
  }

  lemma InsideDir(path: Path, root: Path)
    requires Inside(path, root)
    ensures root <= Dir(path)
  {
    assert root == path[..|root|] == Dir(path)[..|root|];
  }

  /** The scope unit of a file, or None outside the workspace. root is [] until
      initialize names one; gomods are the directories holding a go.mod. */
  function UnitFor(path: Path, root: Path, gomods: set<Path>, granularity: nat): Option<string> {
    if !Inside(path, root) then None
    else
      var dir := Dir(path);
      InsideDir(path, root);
      WalkInWorkspace(dir, root, gomods);
      var modRoot := Walk(dir, root, gomods);
      var base := if modRoot.Some? then modRoot.value else root;
      var rel := RelString(dir[|base|..]);
      if ".." <= rel then None
      else
        var unit := if rel != "." then ScopeUnit(rel, granularity) else ".";
        if modRoot.None? then Some(unit)
        else Some(PrefixUnit(RelString(modRoot.value[|root|..]), unit))
  }
}
