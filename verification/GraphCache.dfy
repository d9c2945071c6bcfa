/** A slot of the package-graph cache: what each of its critical sections answers,
    starts and stores. */
module GraphCache {
  import opened Options
  import opened Paths
  import opened CacheKey

  /** A marshalled response and where it came from: the patterns and build flags it
      was loaded with, the directory it is for, and how many of this session's source
      changes it has seen, which nothing reads. */
  datatype Graph = Graph(resp: string, patterns: seq<string>, buildFlags: seq<string>, dir: string, seen: nat)

  datatype Query = Query(patterns: seq<string>, dir: string, buildFlags: seq<string>)

  /** The arguments of one buildSlot. */
  datatype Job = Job(patterns: seq<string>, dir: string, key: string, buildFlags: seq<string>)

  datatype Slot = Slot(
    graph: Option<Graph>,
    patternsKey: string,
    patterns: seq<string>,
    buildFlags: seq<string>,
    dir: string,
    building: bool,
    stale: bool,
    timer: bool)

  const EMPTY: Slot := Slot(None, "", [], [], "", false, false, false)

  // ---- dispatch tests ------------------------------------------------------

  predicate DirCompatible(dir: string, cachedDir: string) {
    dir == "" || cachedDir == "" || dir == cachedDir || cachedDir + "/" <= dir
  }

  /** On real directories: the same one or one below it. */
  lemma CompatibleIsInside(dir: Path, cachedDir: Path)
    requires Clean(dir) && Clean(cachedDir) && cachedDir != []
    ensures DirCompatible(AbsString(dir), AbsString(cachedDir)) <==> cachedDir <= dir
  {
    InsideTest(cachedDir, dir);
    AbsStringIsInjective(dir, cachedDir);
    assert AbsString(dir) != "" && AbsString(cachedDir) != "";
    assert cachedDir <= dir <==> cachedDir == dir || cachedDir < dir;
  }

  predicate EndsIn(s: string, suffix: string) {
    |suffix| <= |s| && s[|s| - |suffix|..] == suffix
  }

  predicate IsWorkspaceQuery(patterns: seq<string>) {
    exists p <- patterns :: EndsIn(p, "/...")
  }

  const FILE: string := "file="

  /** The files named by the patterns, in order. */
  function FileTargets(patterns: seq<string>): seq<string> {
    if patterns == [] then []
    else (if FILE <= patterns[0] then [patterns[0][|FILE|..]] else []) + FileTargets(patterns[1..])
  }

  /** The first module owning one of the files, "" for none. */
  function ModuleOfFiles(moduleOf: string -> string, dirOf: string -> string, files: seq<string>): string {
    if files == [] then ""
    else if moduleOf(dirOf(files[0])) != "" then moduleOf(dirOf(files[0]))
    else ModuleOfFiles(moduleOf, dirOf, files[1..])
  }

  /** resolveModRootForQuery; moduleOf is resolveModRoot, dirOf filepath.Dir. */
  function ModuleOfQuery(moduleOf: string -> string, dirOf: string -> string, q: Query): string {
    if moduleOf(q.dir) != "" then moduleOf(q.dir) else ModuleOfFiles(moduleOf, dirOf, FileTargets(q.patterns))
  }

  lemma {:induction false} ModuleOfFilesIsNone(moduleOf: string -> string, dirOf: string -> string, files: seq<string>)
    ensures ModuleOfFiles(moduleOf, dirOf, files) == "" <==> forall f <- files :: moduleOf(dirOf(f)) == ""
  {
    if files != [] {
      ModuleOfFilesIsNone(moduleOf, dirOf, files[1..]);
      assert forall f :: f in files <==> f == files[0] || f in files[1..];
    }
  }

  lemma {:induction false} FileTargetsAreNamed(patterns: seq<string>)
    ensures forall f :: f in FileTargets(patterns) <==> FILE + f in patterns
  {
    if patterns != [] {
      FileTargetsAreNamed(patterns[1..]);
      var p := patterns[0];
      if FILE <= p {
        assert p == FILE + p[|FILE|..];
      }
      forall f ensures FILE + f == p <==> FILE <= p && f == p[|FILE|..] {
        assert (FILE + f)[|FILE|..] == f;
      }
      assert forall x :: x in patterns <==> x == p || x in patterns[1..];
    }
  }

  /** A query goes to the main slot exactly when neither its directory nor any file
      it names belongs to a nested module. */
  lemma DispatchIsExact(moduleOf: string -> string, dirOf: string -> string, q: Query)
    ensures ModuleOfQuery(moduleOf, dirOf, q) == ""
            <==> moduleOf(q.dir) == "" && forall f | FILE + f in q.patterns :: moduleOf(dirOf(f)) == ""
  {
    ModuleOfFilesIsNone(moduleOf, dirOf, FileTargets(q.patterns));
    FileTargetsAreNamed(q.patterns);
  }

  method ResolveModRootForQuery(moduleOf: string -> string, dirOf: string -> string, q: Query) returns (modRoot: string)
    ensures modRoot == ModuleOfQuery(moduleOf, dirOf, q)
  {
    modRoot := moduleOf(q.dir);
    if modRoot != "" {
      return;
    }
    var files := QueryFileTargets(q.patterns);
    for i := 0 to |files|
      invariant ModuleOfFiles(moduleOf, dirOf, files) == ModuleOfFiles(moduleOf, dirOf, files[i..])
    {
      assert files[i..][0] == files[i] && files[i..][1..] == files[i + 1..];
      modRoot := moduleOf(dirOf(files[i]));
      if modRoot != "" {
        return;
      }
    }
    return "";
  }

  method QueryFileTargets(patterns: seq<string>) returns (files: seq<string>)
    ensures files == FileTargets(patterns)
  {
    files := [];
    for i := 0 to |patterns|
      invariant FileTargets(patterns) == files + FileTargets(patterns[i..])
    {
      assert patterns[i..][0] == patterns[i] && patterns[i..][1..] == patterns[i + 1..];
      if FILE <= patterns[i] {
        files := files + [patterns[i][|FILE|..]];
      }
    }
  }

  // ---- critical sections ---------------------------------------------------

  predicate HasCache(slot: Slot, key: string) {
    slot.graph.Some? && slot.patternsKey == key
  }

  /** A build for the query itself, when it is worth one and none is running. */
  function OwnBuild(slot: Slot, q: Query): (Slot, Option<Job>) {
    if IsWorkspaceQuery(q.patterns) && !slot.building
    then (slot.(building := true), Some(Job(q.patterns, q.dir, CanonicalKey(q.patterns, q.buildFlags), q.buildFlags)))
    else (slot, None)
  }

  /** A build of what the slot already holds. */
  function SlotJob(slot: Slot): Job {
    Job(slot.patterns, slot.dir, slot.patternsKey, slot.buildFlags)
  }

  /** answerSlot's critical section: the graph to serve, if any, and a build to
      start. */
  function Answered(slot: Slot, q: Query): (Slot, Option<Graph>, Option<Job>) {
    var key := CanonicalKey(q.patterns, q.buildFlags);
    if !HasCache(slot, key) || !DirCompatible(q.dir, slot.dir) then
      var (s, job) := OwnBuild(slot, q);
      (s, None, job)
    else if slot.stale && !slot.building then
      (slot.(building := true), slot.graph, Some(Job(slot.patterns, slot.dir, key, slot.buildFlags)))
    else (slot, slot.graph, None)
  }

  const NESTED_PATTERNS: seq<string> := ["all"]

  function NestedJob(modRoot: string, buildFlags: seq<string>): Job {
    Job(NESTED_PATTERNS, modRoot, NestedModuleCacheKey(buildFlags), buildFlags)
  }

  /** Whether the caller may start a build; if so one is now running. */
  function Claimed(slot: Slot): (Slot, bool) {
    (slot.(building := true), !slot.building)
  }

  /** The end of buildSlot. */
  function Stored(slot: Slot, job: Job, graph: Graph): Slot {
    slot.(graph := Some(graph), patterns := job.patterns, patternsKey := job.key, buildFlags := job.buildFlags,
          dir := job.dir, stale := false, building := false)
  }

  function BuildFailed(slot: Slot): Slot {
    slot.(building := false)
  }

  function Marked(slot: Slot): Slot {
    if slot.patternsKey == "" then slot else slot.(stale := true, timer := true)
  }

  /** The rebuild timer goes off: a build of what the slot holds, unless one is
      running. */
  function TimerWentOff(slot: Slot): (Slot, Option<Job>) {
    if slot.building then (slot.(timer := false), None)
    else (slot.(timer := false, building := true), Some(SlotJob(slot)))
  }

  class GraphSlot {
    var graph: Option<Graph>
    var patternsKey: string
    var patterns: seq<string>
    var buildFlags: seq<string>
    var dir: string
    var building: bool
    var stale: bool
    var timer: bool

    ghost function View(): Slot
      reads this
    {
      Slot(graph, patternsKey, patterns, buildFlags, dir, building, stale, timer)
    }

    constructor ()
      ensures View() == EMPTY
    {
      graph, patternsKey, patterns, buildFlags, dir := None, "", [], [], "";
      building, stale, timer := false, false, false;
    }

    method AnswerLocked(q: Query) returns (served: Option<Graph>, job: Option<Job>)
      modifies this
      ensures (View(), served, job) == Answered(old(View()), q)
      ensures served == if old(graph).Some? && old(patternsKey) == CanonicalKey(q.patterns, q.buildFlags)
                           && DirCompatible(q.dir, old(dir)) then old(graph) else None
    {
      var key := CanonicalKey(q.patterns, q.buildFlags);
      var hasCache := graph.Some? && key == patternsKey;
      served, job := None, None;
      if hasCache && !DirCompatible(q.dir, dir) {
        if IsWorkspaceQuery(q.patterns) && !building {
          building := true;
          job := Some(Job(q.patterns, q.dir, key, q.buildFlags));
        }
        return;
      }
      if !hasCache {
        if IsWorkspaceQuery(q.patterns) && !building {
          building := true;
          job := Some(Job(q.patterns, q.dir, key, q.buildFlags));
        }
        return;
      }
      if stale && !building {
        building := true;
        job := Some(Job(patterns, dir, key, buildFlags));
      }
      served := graph;
    }

    method Claim() returns (mine: bool)
      modifies this
      ensures (View(), mine) == Claimed(old(View()))
    {
      mine := !building;
      if !building {
        building := true;
      }
    }

    /** The critical section at the end of buildSlot; None is a failed load. */
    method FinishBuild(job: Job, built: Option<Graph>)
      modifies this
      ensures View() == match built
                        case None => BuildFailed(old(View()))
                        case Some(g) => Stored(old(View()), job, g)
    {
      if built == None {
        building := false;
        return;
      }
      graph, patterns, patternsKey := built, job.patterns, job.key;
      buildFlags, dir, stale, building := job.buildFlags, job.dir, false, false;
    }

    method MarkStale()
      modifies this
      ensures View() == Marked(old(View()))
    {
      if patternsKey == "" {
        return;
      }
      stale, timer := true, true;
    }

    method TimerFires() returns (job: Option<Job>)
      modifies this
      ensures (View(), job) == TimerWentOff(old(View()))
    {
      timer := false;
      if building {
        return None;
      }
      building := true;
      job := Some(Job(patterns, dir, patternsKey, buildFlags));
    }
  }

  /** The slots of nested modules. */
  class Subslots {
    var slots: map<string, GraphSlot>

    constructor ()
      ensures slots == map[]
    {
      slots := map[];
    }

    /** The module's slot, made empty the first time it is asked for. */
    method SubslotFor(modRoot: string) returns (slot: GraphSlot)
      modifies this
      ensures slots == old(slots)[modRoot := slot]
      ensures if modRoot in old(slots) then slot == old(slots)[modRoot] else fresh(slot) && slot.View() == EMPTY
    {
      if modRoot in slots {
        slot := slots[modRoot];
      } else {
        slot := new GraphSlot();
        slots := slots[modRoot := slot];
      }
      assert slots == old(slots)[modRoot := slot];
    }

    method RemoveSlot(modRoot: string)
      modifies this
      ensures slots == old(slots) - {modRoot}
    {
      slots := slots - {modRoot};
    }
  }
}
