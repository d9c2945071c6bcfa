/** The units a cross-reference publishes against the units files map to. */
module UnitAgreement {
  import opened Options
  import opened Paths
  import opened ModRoot
  import opened Strings
  import opened ScopeUnits
  import opened RevIndex

  /** The module root a definition's directory is relative to. */
  function Base(root: Path, modRoot: Option<Path>): Path {
    if modRoot.Some? then modRoot.value else root
  }

  /** A directory of the module is one whose relative name the source accepts. */
  predicate InModule(dir: Path, base: Path) {
    base <= dir && !(".." <= RelString(dir[|base|..]))
  }

  function Prefixed(units: seq<string>, prefix: string): (r: seq<string>)
    ensures |r| == |units| && forall i :: 0 <= i < |r| ==> r[i] == PrefixUnit(prefix, units[i])
  {
    seq(|units|, i requires 0 <= i < |units| => PrefixUnit(prefix, units[i]))
  }

  /** What a cross-reference to a definition in dir puts in scope. */
  ghost function Published(m: Importers, root: Path, dir: Path, modRoot: Option<Path>, granularity: nat): seq<string>
    requires InModule(dir, Base(root, modRoot)) && root <= Base(root, modRoot)
  {
    var relDir := RelString(dir[|Base(root, modRoot)|..]);
    var units := SortedSeq(UnitsOf(Closure(m, relDir), granularity));
    if modRoot.None? then units else Prefixed(units, RelString(modRoot.value[|root|..]))
  }

  method ClosureUnitsForModule(idx: RevIndex, root: Path, defPath: Path, defModRoot: Option<Path>, granularity: nat)
      returns (units: seq<string>, relDir: string, ok: bool)
    requires root <= Base(root, defModRoot)
    ensures ok <==> InModule(Dir(defPath), Base(root, defModRoot))
    ensures ok ==> relDir == RelString(Dir(defPath)[|Base(root, defModRoot)|..])
    ensures ok ==> units == Published(idx.importers, root, Dir(defPath), defModRoot, granularity)
    ensures !ok ==> units == [] && relDir == ""
  {
    var base := root;
    if defModRoot.Some? {
      base := defModRoot.value;
    }
    if !(base <= Dir(defPath)) || ".." <= RelString(Dir(defPath)[|base|..]) {
      return [], "", false;
    }
    relDir := RelString(Dir(defPath)[|base|..]);
    ok := true;
    units := idx.ClosureUnits(relDir, granularity);
    if defModRoot.None? {
      return;
    }
    var prefix := RelString(defModRoot.value[|root|..]);
    ghost var plain := units;
    for i := 0 to |units|
      invariant |units| == |plain|
      invariant forall j :: 0 <= j < i ==> units[j] == PrefixUnit(prefix, plain[j])
      invariant forall j :: i <= j < |units| ==> units[j] == plain[j]
    {
      units := units[i := PrefixUnit(prefix, units[i])];
    }
    assert units == Prefixed(plain, prefix);
  }

  /** A file's unit names exactly this many leading segments of its directory. */
  function UnitDepth(dir: Path, root: Path, gomods: set<Path>, granularity: nat): nat
    requires root <= dir
  {
    WalkInWorkspace(dir, root, gomods);
    var base := Base(root, Walk(dir, root, gomods));
    |base| - |root| + Min(granularity, |dir| - |base|)
  }

  /** A unit is a segment prefix of its file's directory, cut at the granularity
      below the file's own module root. */
  lemma UnitIsADirectoryPrefix(path: Path, root: Path, gomods: set<Path>, granularity: nat)
    requires Clean(path) && Inside(path, root) && granularity >= 1
    requires UnitFor(path, root, gomods, granularity).Some?
    ensures root <= Dir(path)
    ensures var below, k := Dir(path)[|root|..], UnitDepth(Dir(path), root, gomods, granularity);
            k <= |below| && UnitFor(path, root, gomods, granularity) == Some(RelString(below[..k]))
  {
    hide Walk, ScopeUnit, JoinSlash, PrefixUnit;
    var dir := Dir(path);
    InsideDir(path, root);
    WalkInWorkspace(dir, root, gomods);
    var modRoot := Walk(dir, root, gomods);
    var base := Base(root, modRoot);
    var segs, below := dir[|base|..], dir[|root|..];
    CleanSlices(path, |base|);
    ScopeUnitCuts(segs, granularity);
    var cut := segs[..Min(granularity, |segs|)];
    RelIsDot(segs);
    if modRoot.Some? {
      var prefix := base[|root|..];
      assert base == dir[..|base|];
      assert forall s <- prefix :: s in path;
      PrefixUnitJoins(prefix, cut);
      assert below[..|prefix| + |cut|] == prefix + cut;
    }
  }

  lemma CleanSlices(path: Path, from: nat)
    requires Clean(path) && from <= |Dir(path)|
    ensures Clean(Dir(path)[from..])
  {
    assert forall s <- Dir(path)[from..] :: s in path;
  }

  lemma RelIsDot(segs: seq<string>)
    requires Clean(segs)
    ensures RelString(segs) == "." <==> segs == []
  {
    if segs != [] {
      JoinIsPlain(segs);
    }
  }

  /** A file has a unit exactly when it lies in the workspace, in a directory of its
      module whose relative name does not begin with two dots. */
  lemma UnitExists(path: Path, root: Path, gomods: set<Path>, granularity: nat)
    ensures UnitFor(path, root, gomods, granularity).Some? <==>
              root != [] && root < path && InModule(Dir(path), Base(root, Walk(Dir(path), root, gomods)))
  {
    if Inside(path, root) {
      InsideDir(path, root);
      WalkInWorkspace(Dir(path), root, gomods);
    }
  }

  /** The unit "." that drops every filter arises exactly for files directly in
      the workspace root. */
  lemma RootUnitIsTheRoot(path: Path, root: Path, gomods: set<Path>, granularity: nat)
    requires Clean(path) && Inside(path, root) && granularity >= 1
    ensures UnitFor(path, root, gomods, granularity) == Some(".") <==> Dir(path) == root
  {
    var dir := Dir(path);
    InsideDir(path, root);
    WalkInWorkspace(dir, root, gomods);
    if UnitFor(path, root, gomods, granularity).Some? {
      UnitIsADirectoryPrefix(path, root, gomods, granularity);
      CleanSlices(path, |root|);
      var below := dir[|root|..];
      var k := UnitDepth(dir, root, gomods, granularity);
      assert forall s <- below[..k] :: s in below;
      RelIsDot(below[..k]);
    }
  }

  /** End to end: a file of the definition's own module, in a directory that
      transitively imports the definition's package, is in a published unit. */
  lemma ReferencesArePublished(m: Importers, root: Path, gomods: set<Path>, def: Path, file: Path, granularity: nat)
    requires Clean(file) && Clean(def) && Inside(def, root) && Inside(file, root) && granularity >= 1
    requires root <= Dir(def) && Walk(Dir(file), root, gomods) == Walk(Dir(def), root, gomods)
    requires var base := Base(root, Walk(Dir(def), root, gomods));
             && InModule(Dir(def), base) && InModule(Dir(file), base)
             && Reaches(m, RelString(Dir(def)[|base|..]), RelString(Dir(file)[|base|..]))
    ensures root <= Base(root, Walk(Dir(def), root, gomods))
    ensures UnitFor(file, root, gomods, granularity).Some?
    ensures UnitFor(file, root, gomods, granularity).value in
              Published(m, root, Dir(def), Walk(Dir(def), root, gomods), granularity)
  {
    var dir, modRoot := Dir(file), Walk(Dir(def), root, gomods);
    var base := Base(root, modRoot);
    InsideDir(file, root);
    WalkInWorkspace(Dir(def), root, gomods);
    var relDir, rel := RelString(Dir(def)[|base|..]), RelString(dir[|base|..]);
    var dirs := Closure(m, relDir);
    var plain := SortedSeq(UnitsOf(dirs, granularity));
    assert ScopeUnit(rel, granularity) in Elements(plain);
    CleanSlices(file, |base|);
    RelIsDot(dir[|base|..]);
    ScopeUnitCuts(dir[|base|..], granularity);
    var i :| 0 <= i < |plain| && plain[i] == ScopeUnit(rel, granularity);
    if modRoot.Some? {
      assert Prefixed(plain, RelString(base[|root|..]))[i] == PrefixUnit(RelString(base[|root|..]), plain[i]);
    }
  }

  /** And nothing else is published: each unit published is that of a directory of the
      module that transitively imports the definition's package. */
  lemma PublishedAreReached(m: Importers, root: Path, dir: Path, modRoot: Option<Path>, granularity: nat, unit: string)
    requires InModule(dir, Base(root, modRoot)) && root <= Base(root, modRoot)
    ensures unit in Published(m, root, dir, modRoot, granularity) <==>
              exists d :: Reaches(m, RelString(dir[|Base(root, modRoot)|..]), d)
                && unit == if modRoot.None? then ScopeUnit(d, granularity)
                           else PrefixUnit(RelString(modRoot.value[|root|..]), ScopeUnit(d, granularity))
  {
    var relDir := RelString(dir[|Base(root, modRoot)|..]);
    var dirs := Closure(m, relDir);
    var plain := SortedSeq(UnitsOf(dirs, granularity));
    assert forall u :: u in plain <==> u in Elements(plain);
    if modRoot.Some? {
      var prefix := RelString(modRoot.value[|root|..]);
      var published := Prefixed(plain, prefix);
      if unit in published {
        var i :| 0 <= i < |published| && published[i] == unit;
        assert plain[i] in plain;
      }
      if d :| d in dirs && unit == PrefixUnit(prefix, ScopeUnit(d, granularity)) {
        assert ScopeUnit(d, granularity) in plain;
        var i :| 0 <= i < |plain| && plain[i] == ScopeUnit(d, granularity);
        assert published[i] == unit;
      }
    }
  }
}
