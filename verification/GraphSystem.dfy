/** The graph server as a step system: one step for each critical section of g.mu,
    taken in any order by queries, builds, timers and the disk cache. */
module GraphSystem {
  import opened Options
  import opened CacheKey
  import opened GraphCache
  import RootRewrite

  /** The module owning a directory, "" for the workspace; filepath.Dir; the root. */
  datatype Layout = Layout(moduleOf: string -> string, dirOf: string -> string, root: string)

  function ModuleOf(cfg: Layout, q: Query): string {
    ModuleOfQuery(cfg.moduleOf, cfg.dirOf, q)
  }

  const MAIN: nat := 0

  /** A slot and the module it belongs to. `marked` is how many source changes there
      were when the slot was last asked to be marked. Since then, and since the last
      build was started, dropped says that the last rebuild to come, by the timer or
      the revalidation, fell into a build older than the mark, or that the mark itself
      did because the slot had never been built; failed that a build begun after the
      mark failed with no rebuild to come. No step reads the three. */
  datatype Place = Place(mod: string, slot: Slot, marked: nat, dropped: bool, failed: bool)

  datatype Build = Build(at: nat, job: Job, seen: nat)

  /** A driver query on its way: dispatched, with a graph in hand, about to start a
      refresh, missed, or waiting for the build it started. */
  datatype Ask =
    | Dispatched(q: Query, at: nat)
    | Holding(q: Query, at: nat, graph: Graph, stale: bool)
    | Refreshing(q: Query, at: nat, graph: Graph)
    | Missed(q: Query, at: nat)
    | Awaiting(q: Query, at: nat, build: nat)

  /** Graphs handed out: from the main slot, from a nested slot's cache, or after a
      nested build, then with the key the slot had. */
  datatype Served =
    | FromMain(q: Query, graph: Graph)
    | FromNested(q: Query, mod: string, graph: Graph)
    | AfterBuild(q: Query, mod: string, graph: Graph, key: string)

  datatype Saved = Saved(graph: Graph, job: Job, root: string)

  datatype Sys = Sys(
    places: map<nat, Place>,
    subslots: map<string, nat>,
    builds: map<nat, Build>,
    asks: map<nat, Ask>,
    served: seq<Served>,
    disk: Option<Saved>,
    toSave: set<Saved>,
    loaded: bool,
    revalidate: Option<Job>,
    edits: nat)

  function Initial(disk: Option<Saved>): Sys {
    Sys(map[MAIN := Place("", EMPTY, 0, false, false)], map[], map[], map[], [], disk, {}, false, None, 0)
  }

  function SetSlot(s: Sys, at: nat, slot: Slot): Sys
    requires at in s.places
  {
    s.(places := s.places[at := s.places[at].(slot := slot)])
  }

  /** The build, if any, is now running under a new number. */
  function Launch(s: Sys, at: nat, job: Option<Job>, build: nat): Sys
    requires at in s.places
  {
    if job.None? then s
    else s.(builds := s.builds[build := Build(at, job.value, s.edits)],
            places := s.places[at := s.places[at].(dropped := false, failed := false)])
  }

  /** The revalidation of the loaded cache, a build of the main slot, is still to come. */
  predicate Revalidating(revalidate: Option<Job>, at: nat) {
    at == MAIN && revalidate.Some?
  }

  /** A build of the slot is running that began after its last mark. */
  predicate Following(builds: map<nat, Build>, at: nat, marked: nat) {
    exists b <- builds :: builds[b].at == at && builds[b].seen >= marked
  }

  /** A build of the slot is running that began before its last mark. */
  predicate OlderRuns(builds: map<nat, Build>, at: nat, marked: nat) {
    exists b <- builds :: builds[b].at == at && builds[b].seen < marked
  }

  datatype QueryStep =
    | Arrive(id: nat, q: Query, newSlot: nat)
    | ReadMain(id: nat, build: nat)
    | ReadNested(id: nat)
    | CheckOverlay(id: nat, dirty: bool)
    | Refresh(id: nat, build: nat)
    | StartMiss(id: nat, build: nat)
    | Reread(id: nat)

  /** Queries the keys are made for. */
  predicate Askable(q: Query) {
    Patterns(q.patterns) && NulFree(q.buildFlags)
  }

  /** answer, up to the slot the query is dispatched to. */
  function ArriveNext(cfg: Layout, s: Sys, id: nat, q: Query, newSlot: nat): Option<Sys> {
    var mod := ModuleOf(cfg, q);
    if id in s.asks || !Askable(q) then None
    else if mod == "" then Some(s.(asks := s.asks[id := Dispatched(q, MAIN)]))
    else if mod in s.subslots then Some(s.(asks := s.asks[id := Dispatched(q, s.subslots[mod])]))
    else if newSlot in s.places then None
    else Some(s.(asks := s.asks[id := Dispatched(q, newSlot)], subslots := s.subslots[mod := newSlot],
                 places := s.places[newSlot := Place(mod, EMPTY, 0, false, false)]))
  }

  function Serve(s: Sys, id: nat, what: Served): Sys {
    s.(asks := s.asks - {id}, served := s.served + [what])
  }

  /** answerSlot and answerNestedSlot. */
  function QueryNext(s: Sys, step: QueryStep): Option<Sys> {
    if step.Arrive? || step.id !in s.asks || s.asks[step.id].at !in s.places then None
    else
      var id, ask := step.id, s.asks[step.id];
      var place := s.places[ask.at];
      match (step, ask)
      case (ReadMain(_, build), Dispatched(q, at)) =>
        if at != MAIN || build in s.builds then None
        else
          var (slot, graph, job) := GraphCache.Answered(place.slot, q);
          var t := Launch(SetSlot(s, at, slot), at, job, build);
          Some(t.(asks := if graph.Some? then s.asks[id := Holding(q, at, graph.value, false)] else s.asks - {id}))
      case (ReadNested(_), Dispatched(q, at)) =>
        if at == MAIN then None
        else if HasCache(place.slot, NestedModuleCacheKey(q.buildFlags))
        then Some(s.(asks := s.asks[id := Holding(q, at, place.slot.graph.value, place.slot.stale)]))
        else Some(s.(asks := s.asks[id := Missed(q, at)]))
      case (CheckOverlay(_, dirty), Holding(q, at, graph, stale)) =>
        if dirty then Some(s.(asks := s.asks - {id}))
        else if at == MAIN then Some(Serve(s, id, FromMain(q, graph)))
        else if !stale then Some(Serve(s, id, FromNested(q, place.mod, graph)))
        else Some(s.(asks := s.asks[id := Refreshing(q, at, graph)]))
      case (Refresh(_, build), Refreshing(q, at, graph)) =>
        if build in s.builds then None
        else
          var (slot, mine) := Claimed(place.slot);
          var job := if mine then Some(NestedJob(place.mod, q.buildFlags)) else None;
          Some(Serve(Launch(SetSlot(s, at, slot), at, job, build), id, FromNested(q, place.mod, graph)))
      case (StartMiss(_, build), Missed(q, at)) =>
        if build in s.builds then None
        else
          var (slot, mine) := Claimed(place.slot);
          if !mine then Some(s.(asks := s.asks - {id}))
          else Some(Launch(SetSlot(s, at, slot), at, Some(NestedJob(place.mod, q.buildFlags)), build)
                    .(asks := s.asks[id := Awaiting(q, at, build)]))
      case (Reread(_), Awaiting(q, at, build)) =>
        if build in s.builds then None
        else if place.slot.graph == None then Some(s.(asks := s.asks - {id}))
        else Some(Serve(s, id, AfterBuild(q, place.mod, place.slot.graph.value, place.slot.patternsKey)))
      case _ => None
  }

  datatype UpkeepStep =
    | Finish(build: nat, resp: string)
    | Fail(build: nat)
    | Edit
    | MarkStale(at: nat)
    | TimerFires(at: nat, build: nat)
    | RemoveSlot(mod: string)
    | Load
    | Revalidate(build: nat)
    | Save(saved: Saved)

  /** The end of buildSlot; the main slot's graph is also saved. */
  function FinishNext(cfg: Layout, s: Sys, step: UpkeepStep): Option<Sys> {
    match step
    case Finish(build, resp) =>
      if build !in s.builds || s.builds[build].at !in s.places then None
      else
        var Build(at, job, seen) := s.builds[build];
        var graph := Graph(resp, job.patterns, job.buildFlags, job.dir, seen);
        Some(SetSlot(s, at, Stored(s.places[at].slot, job, graph))
             .(builds := s.builds - {build},
               toSave := if at == MAIN then s.toSave + {Saved(graph, job, cfg.root)} else s.toSave))
    case Fail(build) =>
      if build !in s.builds || s.builds[build].at !in s.places then None
      else
        var at := s.builds[build].at;
        var place := s.places[at];
        var due := place.slot.timer || Revalidating(s.revalidate, at);
        var missed := s.builds[build].seen >= place.marked && !due;
        Some(s.(places := s.places[at := place.(slot := BuildFailed(place.slot), failed := place.failed || missed)],
                builds := s.builds - {build}))
    case _ => None
  }

  /** MarkStale and MarkStaleFor, and the rebuild timer. */
  function MarkNext(s: Sys, step: UpkeepStep): Option<Sys> {
    match step
    case Edit => Some(s.(edits := s.edits + 1))
    case MarkStale(at) =>
      if at !in s.places then None
      else if s.places[at].slot.patternsKey == "" then
        var place := s.places[at];
        var due := place.slot.timer || Revalidating(s.revalidate, at);
        var missed := !due && !Following(s.builds, at, s.edits);
        Some(s.(places := s.places[at := place.(marked := s.edits, dropped := missed, failed := false)]))
      else Some(s.(places := s.places[at := Place(s.places[at].mod, Marked(s.places[at].slot), s.edits, false, false)]))
    case TimerFires(at, build) =>
      if at !in s.places || !s.places[at].slot.timer || build in s.builds then None
      else
        var (slot, job) := TimerWentOff(s.places[at].slot);
        var due := Revalidating(s.revalidate, at);
        var missed := job.None? && !due && OlderRuns(s.builds, at, s.places[at].marked);
        var place := s.places[at].(slot := slot, dropped := s.places[at].dropped || missed);
        Some(Launch(s.(places := s.places[at := place]), at, job, build))
    case RemoveSlot(mod) => Some(s.(subslots := s.subslots - {mod}))
    case _ => None
  }

  /** The deferred revalidation of the loaded cache. */
  function RevalidateNext(s: Sys, build: nat): Option<Sys> {
    if s.revalidate == None || MAIN !in s.places || build in s.builds then None
    else
      var place := s.places[MAIN];
      if place.slot.building then
        var missed := !place.slot.timer && OlderRuns(s.builds, MAIN, place.marked);
        Some(s.(revalidate := None, places := s.places[MAIN := place.(dropped := place.dropped || missed)]))
      else
        var t := Launch(SetSlot(s, MAIN, place.slot.(building := true)), MAIN, s.revalidate, build);
        Some(t.(revalidate := None))
  }

  /** loadDiskCache, its deferred revalidation, and saveDiskCache. */
  function DiskNext(cfg: Layout, s: Sys, step: UpkeepStep): Option<Sys> {
    match step
    case Load =>
      if s.loaded || MAIN !in s.places then None else Some(Loaded(cfg, s))
    case Revalidate(build) => RevalidateNext(s, build)
    case Save(saved) => if saved !in s.toSave then None else Some(s.(disk := Some(saved)))
    case _ => None
  }

  /** The saved graph in the slot, for the directory it was retargeted to; it has seen
      no change of this session, and a build that is running goes on. */
  function LoadedSlot(slot: Slot, here: Job, graph: Graph, resp: string): Slot {
    Stored(slot, here, graph.(resp := resp, dir := here.dir, seen := 0)).(building := slot.building)
  }

  function Loaded(cfg: Layout, s: Sys): Sys
    requires MAIN in s.places
  {
    if s.disk == None || s.disk.value.graph.resp == "" || s.disk.value.job.key == "" || s.disk.value.job.dir == ""
    then s.(loaded := true)
    else
      var Saved(graph, job, root) := s.disk.value;
      match RootRewrite.RetargetGraph(RootRewrite.SavedGraph(graph.resp, job.dir, root), cfg.root)
      case None => s.(loaded := true)
      case Some((resp, dir)) =>
        var slot := s.places[MAIN].slot;
        var here := job.(dir := dir);
        var place := s.places[MAIN].(slot := LoadedSlot(slot, here, graph, resp), dropped := false, failed := false);
        s.(places := s.places[MAIN := place], loaded := true, revalidate := Some(here))
  }

  // ---- everything ----------------------------------------------------------

  datatype Step = QueryDoes(q: QueryStep) | UpkeepDoes(u: UpkeepStep)

  function Next(cfg: Layout, s: Sys, step: Step): Option<Sys> {
    match step
    case QueryDoes(q) => if q.Arrive? then ArriveNext(cfg, s, q.id, q.q, q.newSlot) else QueryNext(s, q)
    case UpkeepDoes(u) =>
      if u.Finish? || u.Fail? then FinishNext(cfg, s, u)
      else if u.Load? || u.Revalidate? || u.Save? then DiskNext(cfg, s, u)
      else MarkNext(s, u)
  }

  lemma StepCases(cfg: Layout, s: Sys, step: Step, t: Sys)
    requires Next(cfg, s, step) == Some(t)
    ensures match step
            case QueryDoes(q) =>
              if q.Arrive? then ArriveNext(cfg, s, q.id, q.q, q.newSlot) == Some(t) else QueryNext(s, q) == Some(t)
            case UpkeepDoes(u) =>
              if u.Finish? || u.Fail? then FinishNext(cfg, s, u) == Some(t)
              else if u.Load? || u.Revalidate? || u.Save? then DiskNext(cfg, s, u) == Some(t)
              else MarkNext(s, u) == Some(t)
  {
    hide ArriveNext, QueryNext, FinishNext, DiskNext, MarkNext;
  }

  function Run(cfg: Layout, s: Sys, steps: seq<Step>): Option<Sys>
    decreases steps
  {
    if steps == [] then Some(s)
    else match Next(cfg, s, steps[0])
      case None => None
      case Some(t) => Run(cfg, t, steps[1..])
  }

  /** s is the end of some run that began with the given disk cache. */
  ghost predicate Reachable(cfg: Layout, disk: Option<Saved>, s: Sys) {
    exists steps :: Run(cfg, Initial(disk), steps) == Some(s)
  }

  lemma {:induction false} RunsExtend(cfg: Layout, s: Sys, steps: seq<Step>, step: Step)
    requires Run(cfg, s, steps).Some?
    ensures Run(cfg, s, steps + [step]) == Next(cfg, Run(cfg, s, steps).value, step)
    decreases steps
  {
    hide Next;
    if steps == [] {
      var after := Next(cfg, s, step);
      assert after.Some? ==> Run(cfg, after.value, []) == after;
    } else {
      assert (steps + [step])[1..] == steps[1..] + [step];
      RunsExtend(cfg, Next(cfg, s, steps[0]).value, steps[1..], step);
    }
  }

  lemma StepReaches(cfg: Layout, disk: Option<Saved>, s: Sys, step: Step, t: Sys)
    requires Reachable(cfg, disk, s) && Next(cfg, s, step) == Some(t)
    ensures Reachable(cfg, disk, t)
  {
    hide Next, Run, Initial;
    var steps :| Run(cfg, Initial(disk), steps) == Some(s);
    RunsExtend(cfg, Initial(disk), steps, step);
  }

  lemma InitialIsReachable(cfg: Layout, disk: Option<Saved>)
    ensures Reachable(cfg, disk, Initial(disk))
  {
    assert Run(cfg, Initial(disk), []) == Some(Initial(disk));
  }
}
