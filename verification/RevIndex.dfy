/** The reverse-import index: grow-only edges, and the closure of a package. */
module RevIndex {
  import opened Options
  import opened Paths
  import opened Strings
  import opened ScopeUnits

  type Importers = map<string, set<string>>

  /** Directory dir holds a file that was seen to import the package in imp. */
  predicate Edge(m: Importers, imp: string, dir: string) {
    imp in m && dir in m[imp]
  }

  function AddEdge(m: Importers, imp: string, dir: string): Importers {
    m[imp := (if imp in m then m[imp] else {}) + {dir}]
  }

  function AddEdges(m: Importers, internal: seq<string>, dir: string): Importers
    decreases internal
  {
    if internal == [] then m else AddEdges(AddEdge(m, internal[0], dir), internal[1..], dir)
  }

  lemma {:induction false} AddEdgesIsExact(m: Importers, internal: seq<string>, dir: string)
    ensures forall imp, d :: Edge(AddEdges(m, internal, dir), imp, d) <==>
              Edge(m, imp, d) || (imp in internal && d == dir)
    ensures (forall imp <- m :: m[imp] != {}) ==>
              forall imp <- AddEdges(m, internal, dir) :: AddEdges(m, internal, dir)[imp] != {}
    decreases internal
  {
    if internal != [] {
      AddEdgesIsExact(AddEdge(m, internal[0], dir), internal[1..], dir);
    }
  }

  /** What parsing one source file yields: every import and embed directive, and
      the imports that name packages of the module, as relative directories. */
  datatype Parsed = Parsed(all: seq<string>, internal: seq<string>)

  /** A file given to UpdateFile: its path, and its parse, or None when it cannot be
      read. */
  datatype File = File(path: Path, source: Option<Parsed>)

  /** An index over the files below root. */
  class RevIndex {
    var root: Option<Path>
    var modPath: string
    var fileImports: map<string, seq<string>>
    var importers: Importers

    constructor ()
      ensures importers == map[] && fileImports == map[] && modPath == "" && root == None
    {
      root, modPath := None, "";
      fileImports, importers := map[], map[];
    }

    /** Indexes one file; source is its parse, or None when it cannot be read. */
    method UpdateFile(path: Path, source: Option<Parsed>) returns (changed: bool)
      modifies this`fileImports, this`importers
      ensures !Indexable(root, modPath, path) ==>
                !changed && importers == old(importers) && fileImports == old(fileImports)
      ensures Indexable(root, modPath, path) && source == None ==>
                changed && importers == old(importers) && fileImports == old(fileImports)
      ensures Indexable(root, modPath, path) && source.Some? ==>
                var rel := RelString(path[|root.value|..]);
                && importers == AddEdges(old(importers), source.value.internal, FileDir(root.value, path))
                && fileImports == old(fileImports)[rel := source.value.all]
                && (changed <==> (if rel in old(fileImports) then old(fileImports)[rel] else []) != source.value.all)
      ensures importers == AfterUpdates(old(importers), UpdatesOf(root, modPath, [File(path, source)]))
      ensures Indexable(root, modPath, path) && source.Some? && root.value != path ==>
                forall imp, d :: Edge(importers, imp, d) <==>
                  Edge(old(importers), imp, d)
                  || (imp in source.value.internal && d == RelString(Dir(path)[|root.value|..]))
    {
      if root == None || modPath == "" {
        return false;
      }
      if !(root.value <= path) || ".." <= RelString(path[|root.value|..]) {
        return false;
      }
      var rel := RelString(path[|root.value|..]);
      if source == None {
        return true;
      }
      var all, internal := source.value.all, source.value.internal;
      var dir := FileDir(root.value, path);
      var previous := if rel in fileImports then fileImports[rel] else [];
      changed := previous != all;
      fileImports := fileImports[rel := all];
      MergeEdges(internal, dir);
      AddEdgesIsExact(old(importers), internal, dir);
      if root.value != path {
        DirOfRelative(root.value, path);
      }
    }

    /** The files Build's workers take from their channel, in whatever order they do. */
    method UpdateFiles(files: seq<File>)
      modifies this`fileImports, this`importers
      ensures importers == AfterUpdates(old(importers), UpdatesOf(root, modPath, files))
    {
      for i := 0 to |files|
        invariant importers == AfterUpdates(old(importers), UpdatesOf(root, modPath, files[..i]))
      {
        var _ := UpdateFile(files[i].path, files[i].source);
        assert files[..i + 1] == files[..i] + [files[i]];
        UpdatesConcat(root, modPath, files[..i], [files[i]]);
        AfterConcat(old(importers), UpdatesOf(root, modPath, files[..i]), UpdatesOf(root, modPath, [files[i]]));
      }
      assert files[..|files|] == files;
    }

    method MergeEdges(internal: seq<string>, dir: string)
      modifies this`importers
      ensures importers == AddEdges(old(importers), internal, dir)
    {
      for i := 0 to |internal|
        invariant AddEdges(importers, internal[i..], dir) == AddEdges(old(importers), internal, dir)
      {
        ghost var before := importers;
        assert internal[i..][0] == internal[i] && internal[i..][1..] == internal[i + 1..];
        if internal[i] !in importers {
          importers := importers[internal[i] := {}];
        }
        importers := importers[internal[i] := importers[internal[i]] + {dir}];
        assert importers == AddEdge(before, internal[i], dir);
      }
    }

    /** The scope units of every directory that transitively imports relDir. */
    method ClosureUnits(relDir: string, granularity: nat) returns (out: seq<string>)
      ensures out == SortedSeq(UnitsOf(Closure(importers, relDir), granularity))
    {
      var seen := Search(relDir);
      var units := UnitSet(seen, granularity);
      out := AnyOrder(units);
      out := SortStrings(out);
    }

    /** The queue loop of ClosureUnits. */
    method Search(relDir: string) returns (seen: set<string>)
      ensures seen == Closure(importers, relDir)
    {
      ghost var all := Directories(importers) + {relDir};
      seen := {relDir};
      var queue := [relDir];
      SelfReaches(importers, relDir);
      while queue != []
        invariant seen <= all && relDir in seen && Elements(queue) <= seen
        invariant seen <= Closure(importers, relDir)
        invariant forall d <- seen :: d in queue || Successors(importers, d) <= seen
        decreases |all - seen|, |queue|
      {
        var d := queue[0];
        assert d in Elements(queue);
        ghost var before, rest := seen, queue[1..];
        seen, queue := Visit(relDir, d, seen, queue[1..], all);
        Shrinks(all, before, seen);
      }
      ClosedSetHoldsClosure(importers, relDir, seen);
    }

    /** The inner loop: enqueues the importers of d not seen before. */
    method Visit(relDir: string, d: string, before: set<string>, rest: seq<string>, ghost all: set<string>)
        returns (seen: set<string>, queue: seq<string>)
      requires all == Directories(importers) + {relDir}
      requires before <= all && Elements(rest) <= before && d in before
      requires before <= Closure(importers, relDir)
      ensures before <= seen <= all && Elements(queue) <= seen && seen <= Closure(importers, relDir)
      ensures seen == before + Successors(importers, d)
      ensures forall x :: x in rest || x in seen - before ==> x in queue
      ensures seen == before ==> queue == rest
    {
      seen, queue := before, rest;
      var todo := Successors(importers, d);
      ghost var done := {};
      while todo != {}
        invariant todo + done == Successors(importers, d)
        invariant seen == before + done && seen <= all && Elements(queue) <= seen
        invariant seen <= Closure(importers, relDir)
        invariant forall x :: x in rest || x in seen - before ==> x in queue
        invariant seen == before ==> queue == rest
        decreases todo
      {
        var imp :| imp in todo;
        todo, done := todo - {imp}, done + {imp};
        ReachesNext(importers, relDir, d, imp);
        if imp !in seen {
          seen := seen + {imp};
          ElementsOfSnoc(queue, imp);
          queue := queue + [imp];
        }
      }
    }
  }

  function UnitsOf(dirs: set<string>, granularity: nat): set<string> {
    set d | d in dirs :: ScopeUnit(d, granularity)
  }

  /** The loop of ClosureUnits that collects units. */
  method UnitSet(seen: set<string>, granularity: nat) returns (units: set<string>)
    ensures units == UnitsOf(seen, granularity)
  {
    units := {};
    var dirs := seen;
    ghost var mapped := {};
    while dirs != {}
      invariant dirs !! mapped && dirs + mapped == seen
      invariant units == UnitsOf(mapped, granularity)
      decreases dirs
    {
      var d :| d in dirs;
      units := units + {ScopeUnit(d, granularity)};
      dirs, mapped := dirs - {d}, mapped + {d};
    }
    assert mapped == seen;
  }

  /** Whether an update of path has any effect. */
  predicate Indexable(root: Option<Path>, modPath: string, path: Path) {
    root.Some? && modPath != "" && root.value <= path && !(".." <= RelString(path[|root.value|..]))
  }

  /** The directory of a file, relative to the index root. */
  function FileDir(root: Path, path: Path): string
    requires root <= path
  {
    RelString(Dir(path[|root|..]))
  }

  // ---- reachability --------------------------------------------------------

  function Successors(m: Importers, d: string): set<string> {
    if d in m then m[d] else {}
  }

  ghost function Directories(m: Importers): set<string> {
    set p, d | p in m && d in m[p] :: d
  }

  /** path lists directories, each importing the one before it. */
  ghost predicate Chain(m: Importers, path: seq<string>) {
    path != [] && forall i :: 0 <= i < |path| - 1 ==> Edge(m, path[i], path[i + 1])
  }

  /** d transitively imports the package in p. */
  ghost predicate Reaches(m: Importers, p: string, d: string) {
    exists path :: Chain(m, path) && path[0] == p && path[|path| - 1] == d
  }

  lemma SelfReaches(m: Importers, p: string)
    ensures Reaches(m, p, p)
  {
    assert Chain(m, [p]);
  }

  lemma ReachesNext(m: Importers, p: string, d: string, imp: string)
    requires Reaches(m, p, d) && imp in Successors(m, d)
    ensures Reaches(m, p, imp) && imp in Directories(m)
  {
    var path :| Chain(m, path) && path[0] == p && path[|path| - 1] == d;
    assert Chain(m, path + [imp]);
    assert (path + [imp])[0] == p;
  }

  lemma {:induction false} ReachedIsListed(m: Importers, path: seq<string>)
    requires Chain(m, path)
    ensures path[|path| - 1] in Directories(m) + {path[0]}
  {
    if |path| > 1 {
      assert Edge(m, path[|path| - 2], path[|path| - 1]);
    }
  }

  /** Every directory that transitively imports p, and p itself. */
  ghost function Closure(m: Importers, p: string): (r: set<string>)
    ensures forall d :: d in r <==> Reaches(m, p, d)
  {
    var r := set d | d in Directories(m) + {p} && Reaches(m, p, d);
    assert forall d :: Reaches(m, p, d) ==> d in r by {
      forall d | Reaches(m, p, d) ensures d in r {
        var path :| Chain(m, path) && path[0] == p && path[|path| - 1] == d;
        ReachedIsListed(m, path);
      }
    }
    r
  }

  lemma ClosedSetHoldsClosure(m: Importers, p: string, seen: set<string>)
    requires p in seen && forall d <- seen :: Successors(m, d) <= seen
    ensures Closure(m, p) <= seen
  {
    forall d | d in Closure(m, p) ensures d in seen {
      var path :| Chain(m, path) && path[0] == p && path[|path| - 1] == d;
      ChainStays(m, path, seen);
    }
  }

  lemma {:induction false} ChainStays(m: Importers, path: seq<string>, seen: set<string>)
    requires Chain(m, path) && path[0] in seen && forall d <- seen :: Successors(m, d) <= seen
    ensures path[|path| - 1] in seen
  {
    if |path| > 1 {
      var front := path[..|path| - 1];
      ChainStays(m, front, seen);
      assert Edge(m, front[|front| - 1], path[|path| - 1]);
    }
  }

  lemma Shrinks(all: set<string>, before: set<string>, after: set<string>)
    requires before <= after <= all
    ensures |all - after| <= |all - before|
    ensures before != after ==> |all - after| < |all - before|
  {
    var lost := after - before;
    assert all - before == (all - after) + lost;
    assert |(all - after) + lost| == |all - after| + |lost|;
  }

  // ---- runs of updates -----------------------------------------------------

  /** One effective UpdateFile: the file's directory and its internal imports. */
  datatype Update = Update(dir: string, internal: seq<string>)

  function AfterUpdates(m: Importers, updates: seq<Update>): Importers
    decreases updates
  {
    if updates == [] then m
    else AfterUpdates(AddEdges(m, updates[0].internal, updates[0].dir), updates[1..])
  }

  /** The updates that indexing these files makes. */
  function UpdatesOf(root: Option<Path>, modPath: string, files: seq<File>): seq<Update>
    decreases files
  {
    if files == [] then []
    else (if Indexable(root, modPath, files[0].path) && files[0].source.Some?
          then [Update(FileDir(root.value, files[0].path), files[0].source.value.internal)] else [])
         + UpdatesOf(root, modPath, files[1..])
  }

  lemma {:induction false} UpdatesConcat(root: Option<Path>, modPath: string, a: seq<File>, b: seq<File>)
    ensures UpdatesOf(root, modPath, a + b) == UpdatesOf(root, modPath, a) + UpdatesOf(root, modPath, b)
    decreases a
  {
    if a == [] {
      assert a + b == b;
    } else {
      assert (a + b)[1..] == a[1..] + b;
      UpdatesConcat(root, modPath, a[1..], b);
    }
  }

  lemma {:induction false} AfterConcat(m: Importers, a: seq<Update>, b: seq<Update>)
    ensures AfterUpdates(m, a + b) == AfterUpdates(AfterUpdates(m, a), b)
    decreases a
  {
    if a == [] {
      assert a + b == b;
    } else {
      assert (a + b)[1..] == a[1..] + b;
      AfterConcat(AddEdges(m, a[0].internal, a[0].dir), a[1..], b);
    }
  }

  /** One of the files, in directory dir, readable and named below the root as the source
      accepts it, imports the package in imp. */
  ghost predicate ImportsFrom(root: Path, files: seq<File>, dir: Path, imp: string) {
    exists f <- files :: FileImports(root, f, dir, imp)
  }

  predicate FileImports(root: Path, f: File, dir: Path, imp: string) {
    && f.source.Some? && imp in f.source.value.internal
    && root < f.path && Dir(f.path) == dir && !(".." <= RelString(f.path[|root|..]))
  }

  lemma DirOfRelative(root: Path, path: Path)
    requires root < path
    ensures root <= Dir(path) && Dir(path[|root|..]) == Dir(path)[|root|..]
  {
  }

  lemma {:induction false} UpdateOfFile(root: Path, modPath: string, files: seq<File>, u: Update)
    ensures u in UpdatesOf(Some(root), modPath, files) <==>
              exists f <- files :: Indexable(Some(root), modPath, f.path) && f.source.Some?
                && u == Update(RelString(Dir(f.path[|root|..])), f.source.value.internal)
    decreases files
  {
    if files != [] {
      UpdateOfFile(root, modPath, files[1..], u);
      assert forall f :: f in files <==> f == files[0] || f in files[1..];
    }
  }

  lemma ImportIsRecorded(root: Path, modPath: string, files: seq<File>, dir: Path, imp: string)
    requires modPath != "" && ImportsFrom(root, files, dir, imp)
    ensures root <= dir && Indexed(UpdatesOf(Some(root), modPath, files), imp, RelString(dir[|root|..]))
  {
    var f :| f in files && FileImports(root, f, dir, imp);
    DirOfRelative(root, f.path);
    UpdateOfFile(root, modPath, files, Update(RelString(Dir(f.path[|root|..])), f.source.value.internal));
  }

  /** Indexing files records exactly this: each package of the module that one of them
      imports is imported by the directory that file lies in. The root itself is no
      file. */
  lemma FilesAreIndexed(root: Path, modPath: string, files: seq<File>, imp: string, dir: Path)
    requires modPath != "" && root <= dir && Clean(dir)
    requires forall f <- files :: Clean(f.path) && (f.path == root ==> f.source == None)
    ensures Edge(AfterUpdates(map[], UpdatesOf(Some(root), modPath, files)), imp, RelString(dir[|root|..]))
            <==> ImportsFrom(root, files, dir, imp)
  {
    var updates, rel := UpdatesOf(Some(root), modPath, files), RelString(dir[|root|..]);
    IndexIsExact(updates);
    assert Edge(AfterUpdates(map[], updates), imp, rel) <==> Indexed(updates, imp, rel);
    if Indexed(updates, imp, rel) {
      var u :| u in updates && imp in u.internal && u.dir == rel;
      UpdateOfFile(root, modPath, files, u);
      var f :| f in files && Indexable(Some(root), modPath, f.path) && f.source.Some?
               && u == Update(RelString(Dir(f.path[|root|..])), f.source.value.internal);
      SameRelative(root, f.path, dir);
      assert FileImports(root, f, dir, imp);
    }
    if ImportsFrom(root, files, dir, imp) {
      ImportIsRecorded(root, modPath, files, dir, imp);
    }
  }

  lemma SameRelative(root: Path, path: Path, dir: Path)
    requires root < path && root <= dir && Clean(path) && Clean(dir)
    requires RelString(Dir(path[|root|..])) == RelString(dir[|root|..])
    ensures Dir(path) == dir
  {
    DirOfRelative(root, path);
    assert forall s <- Dir(path)[|root|..] :: s in path;
    assert forall s <- dir[|root|..] :: s in dir;
    RelStringIsInjective(Dir(path)[|root|..], dir[|root|..]);
    assert Dir(path) == root + Dir(path)[|root|..] && dir == root + dir[|root|..];
  }

  lemma RelStringIsInjective(a: seq<string>, b: seq<string>)
    requires Clean(a) && Clean(b) && RelString(a) == RelString(b)
    ensures a == b
  {
    if a != [] {
      JoinIsPlain(a);
      CleanIsSlashFree(a);
      SplitOfJoin(a);
    }
    if b != [] {
      JoinIsPlain(b);
      CleanIsSlashFree(b);
      SplitOfJoin(b);
    }
  }

  lemma CleanIsSlashFree(segs: seq<string>)
    requires Clean(segs)
    ensures SlashFree(segs)
  {
    forall s | s in segs ensures '/' !in s {
      assert CleanSegment(s);
    }
  }

  predicate Indexed(updates: seq<Update>, imp: string, dir: string) {
    exists u <- updates :: imp in u.internal && u.dir == dir
  }

  lemma {:induction false} AfterUpdatesFrom(m: Importers, updates: seq<Update>)
    ensures forall imp, d :: Edge(AfterUpdates(m, updates), imp, d) <==> Edge(m, imp, d) || Indexed(updates, imp, d)
    ensures (forall imp <- m :: m[imp] != {}) ==>
              forall imp <- AfterUpdates(m, updates) :: AfterUpdates(m, updates)[imp] != {}
    decreases updates
  {
    if updates != [] {
      var u, rest := updates[0], updates[1..];
      AddEdgesIsExact(m, u.internal, u.dir);
      AfterUpdatesFrom(AddEdges(m, u.internal, u.dir), rest);
      forall imp, d
        ensures Indexed(updates, imp, d) <==> (imp in u.internal && u.dir == d) || Indexed(rest, imp, d)
      {
        assert forall x :: x in updates <==> x == u || x in rest;
      }
    }
  }

  /** The index holds exactly the import edges ever indexed. */
  lemma IndexIsExact(updates: seq<Update>)
    ensures forall imp, d :: Edge(AfterUpdates(map[], updates), imp, d) <==> Indexed(updates, imp, d)
  {
    AfterUpdatesFrom(map[], updates);
  }

  /** The workers of Build may finish in any order: any two orders, and any
      repetitions, of the same updates give the same index. */
  lemma IndexIgnoresOrder(a: seq<Update>, b: seq<Update>)
    requires forall u :: u in a <==> u in b
    ensures AfterUpdates(map[], a) == AfterUpdates(map[], b)
  {
    AfterUpdatesFrom(map[], a);
    AfterUpdatesFrom(map[], b);
    var m, n := AfterUpdates(map[], a), AfterUpdates(map[], b);
    forall imp, d ensures Edge(m, imp, d) <==> Edge(n, imp, d) {
      assert Indexed(a, imp, d) <==> Indexed(b, imp, d);
    }
    SameEdgesSameMap(m, n);
  }

  lemma SameEdgesSameMap(m: Importers, n: Importers)
    requires forall imp, d :: Edge(m, imp, d) <==> Edge(n, imp, d)
    requires (forall imp <- m :: m[imp] != {}) && (forall imp <- n :: n[imp] != {})
    ensures m == n
  {
    forall imp ensures imp in m <==> imp in n {
      if imp in m {
        var d :| d in m[imp];
        assert Edge(m, imp, d);
      }
      if imp in n {
        var d :| d in n[imp];
        assert Edge(n, imp, d);
      }
    }
    forall imp | imp in m ensures m[imp] == n[imp] {
      forall d ensures d in m[imp] <==> d in n[imp] {
        assert Edge(m, imp, d) <==> Edge(n, imp, d);
      }
    }
  }

  /** Further updates never lose a closure member. */
  lemma ClosureGrows(updates: seq<Update>, more: seq<Update>, p: string)
    ensures Closure(AfterUpdates(map[], updates), p) <= Closure(AfterUpdates(map[], updates + more), p)
  {
    var m, n := AfterUpdates(map[], updates), AfterUpdates(map[], updates + more);
    IndexIsExact(updates);
    IndexIsExact(updates + more);
    forall imp, d | Edge(m, imp, d) ensures Edge(n, imp, d) {
      var u :| u in updates && imp in u.internal && u.dir == d;
      assert u in updates + more;
    }
    forall d | d in Closure(m, p) ensures d in Closure(n, p) {
      var path :| Chain(m, path) && path[0] == p && path[|path| - 1] == d;
      assert Chain(n, path);
    }
  }

  /** The files indexed import, step by step, from the package in p to directory d. */
  ghost predicate Imports(updates: seq<Update>, p: string, d: string) {
    exists path :: ImportPath(updates, path) && path[0] == p && path[|path| - 1] == d
  }

  ghost predicate ImportPath(updates: seq<Update>, path: seq<string>) {
    path != [] && forall i :: 0 <= i < |path| - 1 ==> Indexed(updates, path[i], path[i + 1])
  }

  /** The closure of a package is exactly the directories from which the updates, in
      whatever order they came, recorded a chain of imports to it. */
  lemma ClosureIsImports(updates: seq<Update>, p: string, d: string)
    ensures d in Closure(AfterUpdates(map[], updates), p) <==> Imports(updates, p, d)
  {
    var m := AfterUpdates(map[], updates);
    IndexIsExact(updates);
    hide AfterUpdates, Indexed, Edge;
    forall path ensures Chain(m, path) <==> ImportPath(updates, path) {
      if path != [] {
        assert forall i | 0 <= i < |path| - 1 ::
          Edge(m, path[i], path[i + 1]) <==> Indexed(updates, path[i], path[i + 1]);
      }
    }
  }
}
