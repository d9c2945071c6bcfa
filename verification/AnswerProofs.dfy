/** What queries to the graph server are answered with, and which builds they start. */
module AnswerProofs {
  import opened Options
  import opened CacheKey
  import opened GraphCache
  import opened GraphSystem
  import opened GraphProofs
  import RootRewrite

  // ---- one section ---------------------------------------------------------

  /** The slot holds a graph under the query's key, for its directory or one above, or
      one of the two directories is unknown. */
  predicate Holds(slot: Slot, q: Query) {
    && slot.graph.Some? && slot.patternsKey == CanonicalKey(q.patterns, q.buildFlags)
    && (q.dir == "" || slot.dir == "" || slot.dir == q.dir || slot.dir + "/" <= q.dir)
  }

  function OwnJob(q: Query): Job {
    Job(q.patterns, q.dir, CanonicalKey(q.patterns, q.buildFlags), q.buildFlags)
  }

  predicate Recursive(q: Query) {
    exists i | 0 <= i < |q.patterns| :: |q.patterns[i]| >= 4 && q.patterns[i][|q.patterns[i]| - 4..] == "/..."
  }

  lemma RecursiveIsWorkspace(q: Query)
    ensures IsWorkspaceQuery(q.patterns) <==> Recursive(q)
  {
    if IsWorkspaceQuery(q.patterns) {
      var p :| p in q.patterns && EndsIn(p, "/...");
      var i :| 0 <= i < |q.patterns| && q.patterns[i] == p;
    }
    if Recursive(q) {
      var i :| 0 <= i < |q.patterns| && |q.patterns[i]| >= 4 && q.patterns[i][|q.patterns[i]| - 4..] == "/...";
      assert EndsIn(q.patterns[i], "/...");
    }
  }

  /** What answerSlot yields: the slot's graph exactly when the slot holds one for the
      query, stale or not, building or not; and a build, unless one is running, of the
      same again when what it holds is stale, or of the query when it holds nothing for
      it and the query is recursive. */
  lemma AnsweredIsExact(slot: Slot, q: Query)
    ensures var (after, graph, job) := GraphCache.Answered(slot, q);
            && graph == (if Holds(slot, q) then slot.graph else None)
            && (job.Some? <==> !slot.building && if Holds(slot, q) then slot.stale else Recursive(q))
            && (job.Some? ==> job.value == if Holds(slot, q) then SlotJob(slot) else OwnJob(q))
            && after == slot.(building := slot.building || job.Some?)
  {
    hide CanonicalKey, IsWorkspaceQuery, Recursive;
    RecursiveIsWorkspace(q);
  }

  // ---- the main slot -------------------------------------------------------

  /** A main-slot query gets the slot's graph in hand, or none, and starts the build. */
  lemma ReadMainIsExact(cfg: Layout, s: Sys, id: nat, build: nat, t: Sys)
    requires Next(cfg, s, QueryDoes(ReadMain(id, build))) == Some(t)
    ensures id in s.asks && s.asks[id].Dispatched? && MAIN in s.places && MAIN in t.places
    ensures var slot, q := s.places[MAIN].slot, s.asks[id].q;
            && t.asks == (if Holds(slot, q) then s.asks[id := Holding(q, MAIN, slot.graph.value, false)]
                          else s.asks - {id})
            && (build in t.builds <==> !slot.building && if Holds(slot, q) then slot.stale else Recursive(q))
            && (build in t.builds ==> t.builds[build].at == MAIN && t.places[MAIN].slot.building)
            && (build in t.builds ==>
                  t.builds[build].job == if Holds(slot, q) then SlotJob(slot) else OwnJob(q))
            && t.served == s.served
  {
    assert QueryNext(s, ReadMain(id, build)) == Some(t);
    hide Next, GraphCache.Answered, Holds, Recursive;
    AnsweredIsExact(s.places[MAIN].slot, s.asks[id].q);
  }

  /** No step but its own moves a query. */
  lemma OthersLeaveAsk(cfg: Layout, s: Sys, step: Step, t: Sys, id: nat)
    requires Next(cfg, s, step) == Some(t) && id in s.asks
    requires step.QueryDoes? ==> step.q.id != id
    ensures id in t.asks && t.asks[id] == s.asks[id]
  {
    hide *;
    StepCases(cfg, s, step, t);
    match step
    case QueryDoes(q) =>
      if q.Arrive? {
        ArriveMovesOne(cfg, s, q.id, q.q, q.newSlot, t);
      } else {
        QueryMovesOne(s, q, t);
      }
    case UpkeepDoes(u) =>
      if u.Finish? || u.Fail? {
        FinishMovesNone(cfg, s, u, t);
      } else if u.Load? || u.Revalidate? || u.Save? {
        DiskMovesNone(cfg, s, u, t);
      } else {
        MarkMovesNone(s, u, t);
      }
  }

  lemma ArriveMovesOne(cfg: Layout, s: Sys, id: nat, q: Query, newSlot: nat, t: Sys)
    requires ArriveNext(cfg, s, id, q, newSlot) == Some(t)
    ensures id !in s.asks && id in t.asks && t.asks == s.asks[id := t.asks[id]]
    ensures t.asks[id].Dispatched? && t.asks[id].q == q && (t.asks[id].at == MAIN <== ModuleOf(cfg, q) == "")
  {
    hide ModuleOf, Askable;
  }

  lemma QueryMovesOne(s: Sys, step: QueryStep, t: Sys)
    requires QueryNext(s, step) == Some(t)
    ensures forall id | id != step.id :: (id in t.asks <==> id in s.asks) && (id in t.asks ==> t.asks[id] == s.asks[id])
  {
    hide GraphCache.Answered, HasCache, NestedModuleCacheKey;
  }

  lemma FinishMovesNone(cfg: Layout, s: Sys, step: UpkeepStep, t: Sys)
    requires FinishNext(cfg, s, step) == Some(t)
    ensures t.asks == s.asks
  {
    hide Stored, BuildFailed;
  }

  lemma DiskMovesNone(cfg: Layout, s: Sys, step: UpkeepStep, t: Sys)
    requires DiskNext(cfg, s, step) == Some(t)
    ensures t.asks == s.asks
  {
    hide RootRewrite.RetargetGraph, LoadedSlot, OlderRuns;
  }

  lemma MarkMovesNone(s: Sys, step: UpkeepStep, t: Sys)
    requires MarkNext(s, step) == Some(t)
    ensures t.asks == s.asks
  {
    hide OlderRuns, Following, Marked, TimerWentOff;
  }

  lemma {:induction false} RunLeavesAsk(cfg: Layout, s: Sys, steps: seq<Step>, t: Sys, id: nat)
    requires Run(cfg, s, steps) == Some(t) && id in s.asks
    requires forall step <- steps :: step.QueryDoes? ==> step.q.id != id
    ensures id in t.asks && t.asks[id] == s.asks[id]
    decreases steps
  {
    hide Next;
    if steps != [] {
      var next := Next(cfg, s, steps[0]).value;
      assert forall step <- steps[1..] :: step in steps;
      OthersLeaveAsk(cfg, s, steps[0], next, id);
      RunLeavesAsk(cfg, next, steps[1..], t, id);
    }
  }

  /** What the main slot holds answers its own query. */
  lemma OwnQueryIsHeld(cfg: Layout, disk: Option<Saved>, s: Sys, q: Query)
    requires Reachable(cfg, disk, s) && (disk.Some? ==> SavedOk(disk.value)) && MAIN in s.places
    requires s.places[MAIN].slot.graph.Some?
    requires var graph := s.places[MAIN].slot.graph.value;
             q.patterns == graph.patterns && q.buildFlags == graph.buildFlags && q.dir == graph.dir
    ensures Holds(s.places[MAIN].slot, q)
  {
    hide Reachable, SavedOk, SubslotsOk, BuildsOk, AsksOk, AllServedOk, DiskOk, CanonicalKey, Home, Patterns, NulFree;
    ReachableKeepsProvenance(cfg, disk, s);
    assert SlotOk(SettingOf(cfg, disk), s.places[MAIN].mod, s.places[MAIN].slot);
  }

  /** A main-slot query whose patterns, flags and directory are those of the graph in the
      slot is answered with that graph, stale or not, building or not, whatever happens
      before its overlay is found to change no imports. */
  lemma CachedQueryIsServed(cfg: Layout, disk: Option<Saved>, s: Sys, id: nat, build: nat, held: Sys,
                            steps: seq<Step>, u: Sys)
    requires Reachable(cfg, disk, s) && (disk.Some? ==> SavedOk(disk.value)) && MAIN in s.places
    requires id in s.asks && s.asks[id].Dispatched? && s.asks[id].at == MAIN && s.places[MAIN].slot.graph.Some?
    requires var graph, q := s.places[MAIN].slot.graph.value, s.asks[id].q;
             q.patterns == graph.patterns && q.buildFlags == graph.buildFlags && q.dir == graph.dir
    requires build !in s.builds && Next(cfg, s, QueryDoes(ReadMain(id, build))) == Some(held)
    requires Run(cfg, held, steps) == Some(u) && forall step <- steps :: step.QueryDoes? ==> step.q.id != id
    ensures var v := Next(cfg, u, QueryDoes(CheckOverlay(id, false)));
            v.Some? && v.value.served == u.served + [FromMain(s.asks[id].q, s.places[MAIN].slot.graph.value)]
  {
    hide Reachable, SavedOk, Run, Next, Holds, Recursive;
    OwnQueryIsHeld(cfg, disk, s, s.asks[id].q);
    ReadMainIsExact(cfg, s, id, build, held);
    RunLeavesAsk(cfg, held, steps, u, id);
    StepReaches(cfg, disk, s, QueryDoes(ReadMain(id, build)), held);
    MainStays(cfg, disk, held, steps, u);
    OverlayServes(cfg, u, id);
  }

  lemma MainStays(cfg: Layout, disk: Option<Saved>, s: Sys, steps: seq<Step>, t: Sys)
    requires Reachable(cfg, disk, s) && (disk.Some? ==> SavedOk(disk.value)) && Run(cfg, s, steps) == Some(t)
    ensures MAIN in t.places
  {
    hide Run, SavedOk, SubslotsOk, BuildsOk, AsksOk, AllServedOk, DiskOk, SlotOk;
    var before :| Run(cfg, Initial(disk), before) == Some(s);
    RunConcat(cfg, Initial(disk), before, s, steps);
    assert Reachable(cfg, disk, t);
    hide Reachable;
    ReachableKeepsProvenance(cfg, disk, t);
  }

  lemma OverlayServes(cfg: Layout, s: Sys, id: nat)
    requires id in s.asks && s.asks[id].Holding? && s.asks[id].at in s.places && s.asks[id].at == MAIN
    ensures Next(cfg, s, QueryDoes(CheckOverlay(id, false)))
         == Some(s.(asks := s.asks - {id}, served := s.served + [FromMain(s.asks[id].q, s.asks[id].graph)]))
  {
  }

  /** A query can always be read when it is its turn. */
  lemma ReadMainIsEnabled(cfg: Layout, s: Sys, id: nat, build: nat)
    requires id in s.asks && s.asks[id].Dispatched? && s.asks[id].at == MAIN && MAIN in s.places && build !in s.builds
    ensures Next(cfg, s, QueryDoes(ReadMain(id, build))).Some?
  {
    hide GraphCache.Answered;
  }

  // ---- builds --------------------------------------------------------------

  /** A finished build leaves its graph in the slot, unused, under the job's key; the main
      slot's is also to be saved. The slot then holds the answer to the query the build
      was for. */
  lemma FinishedBuildIsHeld(cfg: Layout, s: Sys, build: nat, resp: string, t: Sys)
    requires Next(cfg, s, UpkeepDoes(Finish(build, resp))) == Some(t)
    ensures build in s.builds && s.builds[build].at in t.places && t.builds == s.builds - {build}
    ensures var Build(at, job, seen) := s.builds[build];
            var slot, graph := t.places[at].slot, Graph(resp, job.patterns, job.buildFlags, job.dir, seen);
            && slot.graph == Some(graph) && slot.patternsKey == job.key && !slot.stale && !slot.building
            && SlotJob(slot) == job
            && t.toSave == (if at == MAIN then s.toSave + {Saved(graph, job, cfg.root)} else s.toSave)
            && (job.key == CanonicalKey(job.patterns, job.buildFlags) ==>
                  Holds(slot, Query(job.patterns, job.dir, job.buildFlags)))
  {
    hide CanonicalKey;
  }

  /** A build that fails leaves the slot as it was, stale if it was, and free for the next
      build. */
  lemma FailedBuildIsForgotten(cfg: Layout, s: Sys, build: nat, t: Sys)
    requires Next(cfg, s, UpkeepDoes(Fail(build))) == Some(t)
    ensures build in s.builds && s.builds[build].at in t.places && t.builds == s.builds - {build}
    ensures var at := s.builds[build].at;
            t.places[at].slot == s.places[at].slot.(building := false) && t.toSave == s.toSave
  {
  }

  /** A rebuild timer builds again what its slot holds, unless a build is running; either
      way it is spent, and the slot stays stale until a build is done. */
  lemma TimerRebuilds(cfg: Layout, s: Sys, at: nat, build: nat, t: Sys)
    requires Next(cfg, s, UpkeepDoes(TimerFires(at, build))) == Some(t)
    ensures at in s.places && s.places[at].slot.timer && build !in s.builds && at in t.places
    ensures t.places[at].slot == s.places[at].slot.(timer := false, building := true)
    ensures t.builds == if s.places[at].slot.building then s.builds
                        else s.builds[build := Build(at, SlotJob(s.places[at].slot), s.edits)]
  {
    hide OlderRuns;
  }

  /** Marking a slot that was ever built has the next query for what it holds start a
      rebuild of just that, while still answering with it. */
  lemma MarkedSlotIsRefreshed(cfg: Layout, s: Sys, marked: Sys, q: Query)
    requires MAIN in s.places && s.places[MAIN].slot.patternsKey != "" && !s.places[MAIN].slot.building
    requires Next(cfg, s, UpkeepDoes(MarkStale(MAIN))) == Some(marked) && Holds(s.places[MAIN].slot, q)
    ensures MAIN in marked.places
    ensures var (after, graph, job) := GraphCache.Answered(marked.places[MAIN].slot, q);
            graph == s.places[MAIN].slot.graph && job == Some(SlotJob(s.places[MAIN].slot)) && after.building
  {
    hide CanonicalKey, IsWorkspaceQuery;
    AnsweredIsExact(marked.places[MAIN].slot, q);
    hide GraphCache.Answered;
  }

  // ---- nested slots --------------------------------------------------------

  /** A nested query gets the slot's graph in hand exactly when that is of its flags, and
      otherwise misses. */
  lemma ReadNestedIsExact(cfg: Layout, disk: Option<Saved>, s: Sys, id: nat, t: Sys)
    requires Reachable(cfg, disk, s) && (disk.Some? ==> SavedOk(disk.value))
    requires Next(cfg, s, QueryDoes(ReadNested(id))) == Some(t)
    ensures id in s.asks && s.asks[id].at in s.places
    ensures var q, at := s.asks[id].q, s.asks[id].at;
            var slot := s.places[at].slot;
            t == s.(asks := s.asks[id := if slot.graph.Some? && slot.graph.value.buildFlags == q.buildFlags
                                         then Holding(q, at, slot.graph.value, slot.stale) else Missed(q, at)])
  {
    assert QueryNext(s, ReadNested(id)) == Some(t);
    hide Next, Reachable, SavedOk, SubslotsOk, BuildsOk, AllServedOk, DiskOk, NestedModuleCacheKey, NulFree, Patterns;
    ReachableKeepsProvenance(cfg, disk, s);
    var q, slot := s.asks[id].q, s.places[s.asks[id].at].slot;
    assert AskOk(SettingOf(cfg, disk), s.places, s.asks[id]);
    assert SlotOk(SettingOf(cfg, disk), s.places[s.asks[id].at].mod, slot);
    if slot.graph.Some? && slot.patternsKey == NestedModuleCacheKey(q.buildFlags) {
      NestedKeyIsInjective(slot.buildFlags, q.buildFlags);
    }
  }

  /** What a nested query with a graph in hand comes to: nothing if its overlay changes
      imports, else that graph, first starting a rebuild, unless one runs, if it was
      stale. */
  lemma NestedHitIsServed(cfg: Layout, s: Sys, id: nat, build: nat)
    requires id in s.asks && s.asks[id].Holding? && s.asks[id].at in s.places && s.asks[id].at != MAIN
    requires build !in s.builds
    ensures Next(cfg, s, QueryDoes(CheckOverlay(id, true))) == Some(s.(asks := s.asks - {id}))
    ensures var Holding(q, at, graph, stale) := s.asks[id];
            var checked := Next(cfg, s, QueryDoes(CheckOverlay(id, false)));
            && checked.Some?
            && var done := if stale then Next(cfg, checked.value, QueryDoes(Refresh(id, build))) else checked;
               && done.Some? && id !in done.value.asks
               && done.value.served == s.served + [FromNested(q, s.places[at].mod, graph)]
               && (build in done.value.builds <==> stale && !s.places[at].slot.building)
               && (build in done.value.builds ==>
                     done.value.builds[build].job == NestedJob(s.places[at].mod, q.buildFlags))
  {
    hide NestedJob;
    var Holding(q, at, graph, stale) := s.asks[id];
    if stale {
      var checked := s.(asks := s.asks[id := Refreshing(q, at, graph)]);
      assert QueryNext(s, CheckOverlay(id, false)) == Some(checked);
    }
  }

  /** A nested miss, unless a build is running, builds the module for its own flags and
      is answered with the result; if a build is running it is not handled. */
  lemma NestedMissIsBuilt(cfg: Layout, s: Sys, id: nat, build: nat, resp: string)
    requires id in s.asks && s.asks[id].Missed? && s.asks[id].at in s.places && s.asks[id].at != MAIN
    requires build !in s.builds
    ensures var Missed(q, at) := s.asks[id];
            var place := s.places[at];
            var started := Next(cfg, s, QueryDoes(StartMiss(id, build)));
            && started.Some?
            && if place.slot.building then id !in started.value.asks && started.value.served == s.served
               else
                 var built := Next(cfg, started.value, UpkeepDoes(Finish(build, resp)));
                 && built.Some?
                 && var read := Next(cfg, built.value, QueryDoes(Reread(id)));
                    && read.Some? && id !in read.value.asks
                    && var graph := Graph(resp, ["all"], q.buildFlags, place.mod, s.edits);
                       read.value.served
                       == s.served + [AfterBuild(q, place.mod, graph, NestedModuleCacheKey(q.buildFlags))]
    ensures NestedModuleCacheKey([]) == "nested:all"
  {
    hide NestedModuleCacheKey;
    assert NestedModuleCacheKey([]) == "nested:all" by { PlainNestedKey(); }
    var Missed(q, at) := s.asks[id];
    var place := s.places[at];
    if !place.slot.building {
      var job := NestedJob(place.mod, q.buildFlags);
      var a := Launch(SetSlot(s, at, place.slot.(building := true)), at, Some(job), build)
               .(asks := s.asks[id := Awaiting(q, at, build)]);
      assert QueryNext(s, StartMiss(id, build)) == Some(a);
      MissFinishes(cfg, a, id, build, resp);
    }
  }

  lemma PlainNestedKey()
    ensures NestedModuleCacheKey([]) == "nested:all"
  {
  }

  lemma MissFinishes(cfg: Layout, s: Sys, id: nat, build: nat, resp: string)
    requires id in s.asks && s.asks[id].Awaiting? && s.asks[id].build == build && s.asks[id].at in s.places
    requires build in s.builds && s.builds[build].at == s.asks[id].at
    ensures var Build(at, job, seen) := s.builds[build];
            var built := Next(cfg, s, UpkeepDoes(Finish(build, resp)));
            && built.Some?
            && var read := Next(cfg, built.value, QueryDoes(Reread(id)));
               && read.Some? && id !in read.value.asks
               && read.value.served == s.served + [AfterBuild(s.asks[id].q, s.places[at].mod,
                    Graph(resp, job.patterns, job.buildFlags, job.dir, seen), job.key)]
  {
    var m := FinishNext(cfg, s, Finish(build, resp)).value;
    assert Next(cfg, s, UpkeepDoes(Finish(build, resp))) == Some(m);
    assert m.asks == s.asks && m.served == s.served && build !in m.builds;
    hide FinishNext;
    assert QueryNext(m, Reread(id)).Some?;
  }

  /** A module's slot that is dropped starts over: its next query finds an empty one. */
  lemma DroppedSlotStartsOver(cfg: Layout, s: Sys, mod: string, t: Sys, id: nat, q: Query, slot: nat, u: Sys)
    requires Next(cfg, s, UpkeepDoes(RemoveSlot(mod))) == Some(t) && mod != "" && ModuleOf(cfg, q) == mod
    requires Next(cfg, t, QueryDoes(Arrive(id, q, slot))) == Some(u)
    ensures slot !in s.places && slot in u.places && u.places[slot].slot == EMPTY && u.places[slot].mod == mod
    ensures u.asks == s.asks[id := Dispatched(q, slot)]
  {
    hide ModuleOf, Askable;
  }

  // ---- the disk cache ------------------------------------------------------

  /** What a session saved is served by the next one in the same checkout from its first
      query on, with a rebuild to come. */
  lemma SavedGraphIsServedNextSession(cfg: Layout, saved: Saved, q: Query)
    requires SavedOk(saved) && saved.root == cfg.root && saved.graph.resp != "" && cfg.root != ""
    requires saved.job.key != "" && saved.job.dir != "" && saved.graph.patterns != []
    requires q == Query(saved.graph.patterns, saved.graph.dir, saved.graph.buildFlags) && ModuleOf(cfg, q) == ""
    ensures var loaded := Next(cfg, Initial(Some(saved)), UpkeepDoes(Load));
            && loaded.Some? && loaded.value.revalidate == Some(saved.job)
            && loaded.value.places[MAIN].slot.graph == Some(saved.graph.(seen := 0))
            && Holds(loaded.value.places[MAIN].slot, q) && !loaded.value.places[MAIN].slot.stale
            && Next(cfg, loaded.value, QueryDoes(Arrive(0, q, 1))).Some?
  {
    hide CanonicalKey, ModuleOf;
    var s := Initial(Some(saved));
    assert RootRewrite.RetargetGraph(RootRewrite.SavedGraph(saved.graph.resp, saved.job.dir, saved.root), cfg.root)
        == Some((saved.graph.resp, saved.job.dir));
    var here := saved.job.(dir := saved.job.dir);
    assert here == saved.job;
    var t := Loaded(cfg, s);
    assert Next(cfg, s, UpkeepDoes(Load)) == Some(t);
  }

  /** Otherwise nothing is loaded: no cache, an incomplete one, or one whose directory
      is not inside its own root. */
  lemma OtherDisksAreIgnored(cfg: Layout, s: Sys, t: Sys)
    requires Next(cfg, s, UpkeepDoes(Load)) == Some(t)
    requires s.disk == None || s.disk.value.graph.resp == "" || s.disk.value.job.key == "" || s.disk.value.job.dir == ""
             || LoadsAt(cfg, s.disk.value) == None
    ensures t == s.(loaded := true)
  {
    hide RootRewrite.RetargetGraph;
  }

  // ---- no query is stuck ---------------------------------------------------

  ghost predicate Leads(cfg: Layout, s: Sys, t: Sys) {
    exists steps :: Run(cfg, s, steps) == Some(t)
  }

  lemma {:induction false} RunConcat(cfg: Layout, s: Sys, a: seq<Step>, m: Sys, b: seq<Step>)
    requires Run(cfg, s, a) == Some(m)
    ensures Run(cfg, s, a + b) == Run(cfg, m, b)
    decreases a
  {
    hide Next;
    if a == [] {
      assert a + b == b;
    } else {
      assert (a + b)[1..] == a[1..] + b;
      RunConcat(cfg, Next(cfg, s, a[0]).value, a[1..], m, b);
    }
  }

  lemma Then(cfg: Layout, s: Sys, step: Step, m: Sys, t: Sys)
    requires Next(cfg, s, step) == Some(m) && Leads(cfg, m, t)
    ensures Leads(cfg, s, t)
  {
    hide Next;
    assert [step][1..] == [];
    assert Run(cfg, m, []) == Some(m);
    assert Run(cfg, s, [step]) == Some(m);
    var b :| Run(cfg, m, b) == Some(t);
    RunConcat(cfg, s, [step], m, b);
  }

  lemma {:induction false} FreshId(ids: set<nat>) returns (id: nat)
    ensures forall x <- ids :: x < id
  {
    id := 0;
    if ids != {} {
      var x :| x in ids;
      var above := FreshId(ids - {x});
      assert forall y <- ids :: y == x || y in ids - {x};
      id := if above > x then above else x + 1;
    }
  }

  /** How far a query is from its end. */
  function Remaining(s: Sys, id: nat): nat
    requires id in s.asks
  {
    match s.asks[id]
    case Dispatched(_, _) => 5
    case Missed(_, _) => 4
    case Holding(_, _, _, _) => 3
    case Awaiting(_, _, build) => if build in s.builds then 2 else 1
    case Refreshing(_, _, _) => 1
  }

  /** A query's own next step, or the end of the build it waits for. */
  lemma QueryMovesOn(cfg: Layout, s: Sys, id: nat) returns (step: Step, t: Sys)
    requires id in s.asks && s.asks[id].at in s.places
    requires s.asks[id].Refreshing? || s.asks[id].Missed? || s.asks[id].Awaiting? ==> s.asks[id].at != MAIN
    requires s.asks[id].Awaiting? && s.asks[id].build in s.builds ==> s.builds[s.asks[id].build].at in s.places
    ensures Next(cfg, s, step) == Some(t) && (id in t.asks ==> Remaining(t, id) < Remaining(s, id))
  {
    hide GraphCache.Answered, HasCache, NestedModuleCacheKey, NestedJob;
    var unused := FreshId(s.builds.Keys);
    step := match s.asks[id]
            case Dispatched(_, at) => QueryDoes(if at == MAIN then ReadMain(id, unused) else ReadNested(id))
            case Missed(_, _) => QueryDoes(StartMiss(id, unused))
            case Holding(_, _, _, _) => QueryDoes(CheckOverlay(id, false))
            case Awaiting(_, _, build) => if build in s.builds then UpkeepDoes(Fail(build)) else QueryDoes(Reread(id))
            case Refreshing(_, _, _) => QueryDoes(Refresh(id, unused));
    assert step.QueryDoes? ==> QueryNext(s, step.q).Some?;
    t := Next(cfg, s, step).value;
  }

  lemma {:induction false} QueryEnds(cfg: Layout, disk: Option<Saved>, s: Sys, id: nat) returns (t: Sys)
    requires Reachable(cfg, disk, s) && (disk.Some? ==> SavedOk(disk.value))
    ensures Leads(cfg, s, t) && id !in t.asks
    decreases if id in s.asks then Remaining(s, id) else 0
  {
    hide Leads, Reachable, SavedOk, Next, Run, Remaining;
    if id !in s.asks {
      t := s;
      assert Run(cfg, s, []) == Some(s) && Leads(cfg, s, s) by { Stays(cfg, s); }
    } else {
      QueryIsPlaced(cfg, disk, s, id);
      var step, m := QueryMovesOn(cfg, s, id);
      StepReaches(cfg, disk, s, step, m);
      assert 0 < Remaining(s, id) by { RemainingIsPositive(s, id); }
      t := QueryEnds(cfg, disk, m, id);
      Then(cfg, s, step, m, t);
    }
  }

  lemma RemainingIsPositive(s: Sys, id: nat)
    requires id in s.asks
    ensures Remaining(s, id) > 0
  {
  }

  lemma Stays(cfg: Layout, s: Sys)
    ensures Run(cfg, s, []) == Some(s) && Leads(cfg, s, s)
  {
    assert Run(cfg, s, []) == Some(s);
  }

  lemma QueryIsPlaced(cfg: Layout, disk: Option<Saved>, s: Sys, id: nat)
    requires Reachable(cfg, disk, s) && (disk.Some? ==> SavedOk(disk.value)) && id in s.asks
    ensures s.asks[id].at in s.places
    ensures s.asks[id].Refreshing? || s.asks[id].Missed? || s.asks[id].Awaiting? ==> s.asks[id].at != MAIN
    ensures forall b <- s.builds :: s.builds[b].at in s.places
  {
    hide Reachable, SavedOk, PlacesOk, SubslotsOk, AllServedOk, DiskOk, JobOk, Answers, Askable;
    ReachableKeepsProvenance(cfg, disk, s);
    assert AskOk(SettingOf(cfg, disk), s.places, s.asks[id]);
  }

  /** No driver query is left without an answer: in every reachable state it can still
      be served or told that it is not handled. */
  lemma EveryQueryCanEnd(cfg: Layout, disk: Option<Saved>, s: Sys, id: nat)
    requires Reachable(cfg, disk, s) && (disk.Some? ==> SavedOk(disk.value)) && id in s.asks
    ensures exists t :: Leads(cfg, s, t) && id !in t.asks
  {
    hide Leads, Reachable, SavedOk;
    var t := QueryEnds(cfg, disk, s, id);
  }
}
