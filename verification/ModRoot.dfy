/** Detection of nested Go modules, and the cache in front of it. */
module ModRoot {
  import opened Options
  import opened Paths

  /** The upward walk: nearest directory with a go.mod before the workspace root
      or the file system root is passed. gomods are the directories with one. */
  function Walk(dir: Path, root: Path, gomods: set<Path>): Option<Path>
    decreases |dir|
  {
    if dir == root then None
    else if dir in gomods then Some(dir)
    else if dir == [] then None
    else Walk(Dir(dir), root, gomods)
  }

  method NestedModuleRoot(start: Path, root: Path, gomods: set<Path>) returns (r: Option<Path>)
    ensures r == Walk(start, root, gomods)
  {
    var dir := start;
    while dir != root
      invariant Walk(start, root, gomods) == Walk(dir, root, gomods)
      decreases |dir|
    {
      if dir in gomods {
        return Some(dir);
      }
      var parent := Dir(dir);
      if parent == dir {
        return None;
      }
      dir := parent;
    }
    return None;
  }

  /** m is at or above dir, has a go.mod, no deeper one does, and the workspace
      root does not lie on the way up to it. */
  ghost predicate Innermost(m: Path, dir: Path, root: Path, gomods: set<Path>) {
    && m <= dir && m in gomods
    && (forall n: Path :: m < n <= dir ==> n !in gomods)
    && !(m <= root <= dir)
  }

  lemma PrefixOfParent(n: Path, dir: Path)
    requires dir != [] && n <= dir
    ensures n == dir || n <= Dir(dir)
  {
    if |n| < |dir| {
      assert n == dir[..|n|] == Dir(dir)[..|n|];
    }
  }

  lemma {:induction false} WalkIsInnermost(m: Path, dir: Path, root: Path, gomods: set<Path>)
    ensures Walk(dir, root, gomods) == Some(m) <==> Innermost(m, dir, root, gomods)
    decreases |dir|
  {
    if dir != root && dir !in gomods && dir != [] {
      var up := Dir(dir);
      WalkIsInnermost(m, up, root, gomods);
      if Innermost(m, up, root, gomods) {
        forall n: Path | m < n <= dir ensures n !in gomods {
          PrefixOfParent(n, dir);
        }
        if m <= root <= dir {
          PrefixOfParent(root, dir);
        }
      }
      if Innermost(m, dir, root, gomods) {
        PrefixOfParent(m, dir);
        forall n: Path | m < n <= up ensures n !in gomods {
          assert n <= dir;
        }
        assert root <= up ==> root <= dir;
      }
    } else if dir == [] && m <= dir {
      assert m == dir;
    } else if dir == root {
    } else if dir in gomods && Innermost(m, dir, root, gomods) {
      assert m == dir || m < dir;
    }
  }

  /** For a directory of the workspace the result is the innermost go.mod ancestor
      strictly below the root, or nothing when there is none. */
  lemma WalkInWorkspace(dir: Path, root: Path, gomods: set<Path>)
    requires root <= dir
    ensures match Walk(dir, root, gomods)
            case Some(m) => root < m <= dir && m in gomods && (forall n: Path :: m < n <= dir ==> n !in gomods)
            case None => forall n: Path :: root < n <= dir ==> n !in gomods
  {
    match Walk(dir, root, gomods)
    case Some(m) =>
      WalkIsInnermost(m, dir, root, gomods);
      Comparable(m, root, dir);
    case None =>
      NoneBelow(dir, root, gomods);
  }

  lemma Comparable(a: Path, b: Path, dir: Path)
    requires a <= dir && b <= dir
    ensures a <= b || b < a
  {
    if |a| <= |b| {
      assert a == dir[..|a|] == b[..|a|];
    } else {
      assert b == dir[..|b|] == a[..|b|];
    }
  }

  lemma {:induction false} NoneBelow(dir: Path, root: Path, gomods: set<Path>)
    requires root <= dir && Walk(dir, root, gomods) == None
    ensures forall n: Path :: root < n <= dir ==> n !in gomods
    decreases |dir|
  {
    if dir != root {
      PrefixOfParent(root, dir);
      NoneBelow(Dir(dir), root, gomods);
      forall n: Path | root < n <= dir ensures n !in gomods {
        PrefixOfParent(n, dir);
      }
    }
  }

  // ---- the cache -----------------------------------------------------------

  class ModuleRootCache {
    var cache: map<Path, Option<Path>>

    constructor ()
      ensures cache == map[]
    {
      cache := map[];
    }

    /** gomods is what the file system holds during this call. */
    method RootFor(dir: Path, root: Path, gomods: set<Path>) returns (r: Option<Path>)
      modifies this
      ensures r == Answer(old(cache), dir, root, gomods)
      ensures cache == old(cache)[dir := r]
    {
      if dir in cache {
        return cache[dir];
      }
      r := NestedModuleRoot(dir, root, gomods);
      cache := cache[dir := r];
    }

    method Invalidate()
      modifies this
      ensures cache == map[]
    {
      cache := map[];
    }
  }

  function Answer(cache: map<Path, Option<Path>>, dir: Path, root: Path, gomods: set<Path>): Option<Path> {
    if dir in cache then cache[dir] else Walk(dir, root, gomods)
  }

  // ---- concurrent runs -----------------------------------------------------

  /** A lookup that missed: about to walk, or walked and about to store. */
  datatype Lookup = Walking(dir: Path) | Storing(dir: Path, result: Option<Path>)

  /** One run of the cache against a changing file system. `disturbed` is ghost:
      the lookups whose walk predates the latest go.mod change, and `suspect` the
      directories whose entry a disturbed lookup stored. */
  datatype State = State(
    gomods: set<Path>,
    pending: bool,
    cache: map<Path, Option<Path>>,
    lookups: map<nat, Lookup>,
    disturbed: set<nat>,
    suspect: set<Path>)

  datatype Step =
    | Begin(id: nat, dir: Path)
    | Walked(id: nat)
    | Store(id: nat)
    | Change(gomods: set<Path>)
    | Invalidate

  predicate Enabled(s: State, step: Step) {
    match step
    case Begin(id, dir) => id !in s.lookups && dir !in s.cache
    case Walked(id) => id in s.lookups && s.lookups[id].Walking?
    case Store(id) => id in s.lookups && s.lookups[id].Storing?
    case Change(_) => true
    case Invalidate => true
  }

  function Apply(s: State, step: Step, root: Path): State
    requires Enabled(s, step)
  {
    match step
    case Begin(id, dir) => s.(lookups := s.lookups[id := Walking(dir)], disturbed := s.disturbed - {id})
    case Walked(id) =>
      var dir := s.lookups[id].dir;
      s.(lookups := s.lookups[id := Storing(dir, Walk(dir, root, s.gomods))], disturbed := s.disturbed - {id})
    case Store(id) =>
      var l := s.lookups[id];
      s.(cache := s.cache[l.dir := l.result],
         lookups := s.lookups - {id},
         suspect := if id in s.disturbed then s.suspect + {l.dir} else s.suspect - {l.dir})
    case Change(gomods) =>
      s.(gomods := gomods, pending := true, disturbed := s.lookups.Keys)
    case Invalidate => s.(pending := false, cache := map[], suspect := {})
  }

  const START: State := State({}, false, map[], map[], {}, {})

  /** The state a run of steps ends in, or None if one of them cannot happen. */
  function Run(s: State, steps: seq<Step>, root: Path): Option<State>
    decreases steps
  {
    if steps == [] then Some(s)
    else if !Enabled(s, steps[0]) then None
    else Run(Apply(s, steps[0], root), steps[1..], root)
  }

  /** Entries stored by undisturbed lookups are exact unless an invalidation is
      still to come. */
  ghost predicate Exact(s: State, root: Path) {
    && (forall id <- s.lookups :: s.lookups[id].Storing? && id !in s.disturbed ==>
          s.lookups[id].result == Walk(s.lookups[id].dir, root, s.gomods))
    && (!s.pending ==> forall d <- s.cache :: d !in s.suspect ==> s.cache[d] == Walk(d, root, s.gomods))
  }

  lemma StepKeepsExact(s: State, step: Step, root: Path)
    requires Exact(s, root) && Enabled(s, step)
    ensures Exact(Apply(s, step, root), root)
  {
  }

  lemma {:induction false} RunsAreExact(s: State, steps: seq<Step>, root: Path)
    requires Exact(s, root) && Run(s, steps, root).Some?
    ensures Exact(Run(s, steps, root).value, root)
    decreases steps
  {
    if steps != [] {
      StepKeepsExact(s, steps[0], root);
      RunsAreExact(Apply(s, steps[0], root), steps[1..], root);
    }
  }

  /** In every run, once each go.mod change has been followed by its invalidation,
      the cache answers what the walk answers, except for a directory whose entry
      was stored by a lookup that walked before the change. */
  lemma MemoisedAnswersAreExact(steps: seq<Step>, root: Path, dir: Path)
    requires Run(START, steps, root).Some?
    ensures var s := Run(START, steps, root).value;
            !s.pending && dir !in s.suspect ==>
              Answer(s.cache, dir, root, s.gomods) == Walk(dir, root, s.gomods)
  {
    RunsAreExact(START, steps, root);
  }

  /** A run in which no lookup stores after a change has overtaken its walk. */
  predicate Undisturbed(s: State, steps: seq<Step>, root: Path)
    requires Run(s, steps, root).Some?
    decreases steps
  {
    steps == [] ||
    (!(steps[0].Store? && steps[0].id in s.disturbed) && Undisturbed(Apply(s, steps[0], root), steps[1..], root))
  }

  /** Without such a store every answer is exact. */
  lemma {:induction false} UndisturbedAnswersAreExact(s: State, steps: seq<Step>, root: Path, dir: Path)
    requires Exact(s, root) && s.suspect == {}
    requires Run(s, steps, root).Some? && Undisturbed(s, steps, root)
    ensures var t := Run(s, steps, root).value;
            !t.pending ==> Answer(t.cache, dir, root, t.gomods) == Walk(dir, root, t.gomods)
    decreases steps
  {
    if steps != [] {
      StepKeepsExact(s, steps[0], root);
      UndisturbedAnswersAreExact(Apply(s, steps[0], root), steps[1..], root, dir);
    }
  }

  /** The exception is real: a lookup that straddles a change and its invalidation
      leaves a stale answer behind. */
  lemma StraddlingLookupIsStale()
    ensures var root, dir := ["r"], ["r", "m"];
            var end := Run(START, [Begin(0, dir), Walked(0), Change({dir}), Invalidate, Store(0)], root);
            && end.Some? && !end.value.pending
            && Answer(end.value.cache, dir, root, end.value.gomods) == None
            && Walk(dir, root, end.value.gomods) == Some(dir)
  {
    var root, dir := ["r"], ["r", "m"];
    var steps := [Begin(0, dir), Walked(0), Change({dir}), Invalidate, Store(0)];
    assert Dir(dir) == root && Walk(dir, root, {}) == None;
    var s1 := Apply(START, steps[0], root);
    var s2 := Apply(s1, steps[1], root);
    var s3 := Apply(s2, steps[2], root);
    var s4 := Apply(s3, steps[3], root);
    assert Run(s4, steps[4..], root) == Some(Apply(s4, steps[4], root));
    assert Run(s3, steps[3..], root) == Run(s4, steps[4..], root);
    assert Run(s2, steps[2..], root) == Run(s3, steps[3..], root);
    assert Run(s1, steps[1..], root) == Run(s2, steps[2..], root);
  }
}
