/** Races the graph cache leaves open, each shown by a run. */
module GraphRaces {
  import opened Options
  import opened CacheKey
  import opened GraphCache
  import opened GraphSystem

  const MODULE_DIR: string := "/w/m"
  const ALL_BELOW: seq<string> := ["./..."]
  const TAGGED: seq<string> := ["-tags=a"]

  lemma QueriesAreAskable()
    ensures Askable(Query(ALL_BELOW, MODULE_DIR, TAGGED)) && Askable(Query(ALL_BELOW, MODULE_DIR, []))
  {
  }

  // ---- a nested miss serves what it finds ----------------------------------

  /** A query for the module, up to its build being started. */
  lemma MissStartsBuild(cfg: Layout, s: Sys, id: nat, buildFlags: seq<string>, t: Sys)
    requires cfg.moduleOf(MODULE_DIR) == MODULE_DIR && Askable(Query(ALL_BELOW, MODULE_DIR, buildFlags))
    requires Reachable(cfg, None, s) && s.builds == map[] && id !in s.asks
    requires MODULE_DIR in s.subslots && s.subslots[MODULE_DIR] == 1
    requires 1 in s.places && s.places[1].mod == MODULE_DIR && !s.places[1].slot.building
    requires !HasCache(s.places[1].slot, NestedModuleCacheKey(buildFlags))
    requires t == Launch(SetSlot(s, 1, s.places[1].slot.(building := true)), 1,
                         Some(NestedJob(MODULE_DIR, buildFlags)), id)
                  .(asks := s.asks[id := Awaiting(Query(ALL_BELOW, MODULE_DIR, buildFlags), 1, id)])
    ensures Reachable(cfg, None, t)
  {
    hide Reachable, HasCache, NestedModuleCacheKey, Askable;
    var q := Query(ALL_BELOW, MODULE_DIR, buildFlags);
    var s1 := s.(asks := s.asks[id := Dispatched(q, 1)]);
    assert ModuleOf(cfg, q) == MODULE_DIR;
    assert Next(cfg, s, QueryDoes(Arrive(id, q, 0))) == Some(s1);
    StepReaches(cfg, None, s, QueryDoes(Arrive(id, q, 0)), s1);
    var s2 := s1.(asks := s.asks[id := Missed(q, 1)]);
    assert s1.asks[id := Missed(q, 1)] == s2.asks;
    assert Next(cfg, s1, QueryDoes(ReadNested(id))) == Some(s2);
    StepReaches(cfg, None, s1, QueryDoes(ReadNested(id)), s2);
    assert s2.asks[id := Awaiting(q, 1, id)] == t.asks;
    assert Next(cfg, s2, QueryDoes(StartMiss(id, id))) == Some(t);
    StepReaches(cfg, None, s2, QueryDoes(StartMiss(id, id)), t);
  }

  const FRESH: Place := Place(MODULE_DIR, EMPTY, 0, false, false)

  /** The module's slot exists and is empty. */
  lemma SlotIsMade(cfg: Layout, s: Sys)
    requires cfg.moduleOf(MODULE_DIR) == MODULE_DIR
    requires s == Initial(None).(places := Initial(None).places[1 := FRESH], subslots := map[MODULE_DIR := 1],
                                 asks := map[9 := Dispatched(Query(ALL_BELOW, MODULE_DIR, []), 1)])
    ensures Reachable(cfg, None, s)
  {
    hide Reachable;
    InitialIsReachable(cfg, None);
    QueriesAreAskable();
    var q := Query(ALL_BELOW, MODULE_DIR, []);
    assert ModuleOf(cfg, q) == MODULE_DIR;
    assert Next(cfg, Initial(None), QueryDoes(Arrive(9, q, 1))) == Some(s);
    StepReaches(cfg, None, Initial(None), QueryDoes(Arrive(9, q, 1)), s);
  }

  lemma KeysDiffer()
    ensures NestedModuleCacheKey(TAGGED) != NestedModuleCacheKey([])
  {
    if NestedModuleCacheKey(TAGGED) == NestedModuleCacheKey([]) {
      NestedKeyIsInjective(TAGGED, []);
    }
  }

  /** The slot holds a graph for one set of flags. */
  lemma TaggedGraphIsBuilt(cfg: Layout, s: Sys, t: Sys)
    requires cfg.moduleOf(MODULE_DIR) == MODULE_DIR && Reachable(cfg, None, s)
    requires s == Initial(None).(places := Initial(None).places[1 := FRESH], subslots := map[MODULE_DIR := 1],
                                 asks := map[9 := Dispatched(Query(ALL_BELOW, MODULE_DIR, []), 1)])
    requires var job := NestedJob(MODULE_DIR, TAGGED);
             t == SetSlot(s, 1, Stored(EMPTY, job, Graph("r", NESTED_PATTERNS, TAGGED, MODULE_DIR, 0)))
                  .(asks := s.asks[0 := Awaiting(Query(ALL_BELOW, MODULE_DIR, TAGGED), 1, 0)])
    ensures Reachable(cfg, None, t)
  {
    hide Reachable, NestedModuleCacheKey;
    QueriesAreAskable();
    var job := NestedJob(MODULE_DIR, TAGGED);
    var m := Launch(SetSlot(s, 1, s.places[1].slot.(building := true)), 1, Some(job), 0)
             .(asks := s.asks[0 := Awaiting(Query(ALL_BELOW, MODULE_DIR, TAGGED), 1, 0)]);
    MissStartsBuild(cfg, s, 0, TAGGED, m);
    assert m.builds - {0} == map[];
    assert t.places == m.places[1 := t.places[1]];
    assert Next(cfg, m, UpkeepDoes(Finish(0, "r"))) == Some(t);
    StepReaches(cfg, None, m, UpkeepDoes(Finish(0, "r")), t);
  }

  /** A nested query whose own build fails is served the graph of other build
      flags. */
  lemma NestedMissMayServeOtherFlags(cfg: Layout)
    requires cfg.moduleOf(MODULE_DIR) == MODULE_DIR
    ensures exists s :: Reachable(cfg, None, s) && |s.served| == 1 && s.served[0].AfterBuild?
              && s.served[0].q.buildFlags == [] && s.served[0].graph.buildFlags == TAGGED
  {
    hide Reachable, NestedModuleCacheKey;
    var s0 := Initial(None).(places := Initial(None).places[1 := FRESH], subslots := map[MODULE_DIR := 1],
                             asks := map[9 := Dispatched(Query(ALL_BELOW, MODULE_DIR, []), 1)]);
    SlotIsMade(cfg, s0);
    var job := NestedJob(MODULE_DIR, TAGGED);
    var s1 := SetSlot(s0, 1, Stored(EMPTY, job, Graph("r", NESTED_PATTERNS, TAGGED, MODULE_DIR, 0)))
              .(asks := s0.asks[0 := Awaiting(Query(ALL_BELOW, MODULE_DIR, TAGGED), 1, 0)]);
    TaggedGraphIsBuilt(cfg, s0, s1);
    KeysDiffer();
    QueriesAreAskable();
    var q := Query(ALL_BELOW, MODULE_DIR, []);
    var s2 := Launch(SetSlot(s1, 1, s1.places[1].slot.(building := true)), 1, Some(NestedJob(MODULE_DIR, [])), 5)
              .(asks := s1.asks[5 := Awaiting(q, 1, 5)]);
    MissStartsBuild(cfg, s1, 5, [], s2);
    FailedBuildServes(cfg, s2, q);
  }

  lemma FailedBuildServes(cfg: Layout, s: Sys, q: Query)
    requires Reachable(cfg, None, s) && s.served == [] && 1 in s.places && 5 in s.asks && s.asks[5] == Awaiting(q, 1, 5)
    requires 5 in s.builds && s.builds[5].at == 1 && s.places[1].slot.graph.Some?
    ensures exists t :: Reachable(cfg, None, t) && |t.served| == 1 && t.served[0].AfterBuild?
              && t.served[0].q == q && t.served[0].graph == s.places[1].slot.graph.value
  {
    hide Reachable;
    var s1 := Next(cfg, s, UpkeepDoes(Fail(5))).value;
    StepReaches(cfg, None, s, UpkeepDoes(Fail(5)), s1);
    assert 5 !in s1.builds;
    var t := Next(cfg, s1, QueryDoes(Reread(5))).value;
    StepReaches(cfg, None, s1, QueryDoes(Reread(5)), t);
  }

  // ---- a mark dropped during a build ---------------------------------------

  const MAIN_DIR: string := "/w"

  /** A timer goes off while a rebuild that began before the mark is running, and
      the rebuild then calls its graph fresh. */
  lemma SecondMarkIsDropped(cfg: Layout, s: Sys)
    requires Reachable(cfg, None, s) && s.revalidate == None && MAIN in s.places && s.builds == map[]
    requires s.places[MAIN].slot.patternsKey != "" && !s.places[MAIN].slot.building
    ensures exists t :: Reachable(cfg, None, t) && MAIN in t.places
              && t.places[MAIN].slot.graph.Some? && t.places[MAIN].slot.graph.value.seen < t.places[MAIN].marked
              && !t.places[MAIN].slot.stale && !t.places[MAIN].slot.timer && !t.places[MAIN].slot.building
              && t.revalidate == None
  {
    hide Reachable;
    var s1 := Next(cfg, s, UpkeepDoes(MarkStale(MAIN))).value;
    StepReaches(cfg, None, s, UpkeepDoes(MarkStale(MAIN)), s1);
    var s2 := Next(cfg, s1, UpkeepDoes(TimerFires(MAIN, 0))).value;
    StepReaches(cfg, None, s1, UpkeepDoes(TimerFires(MAIN, 0)), s2);
    var s3 := Next(cfg, s2, UpkeepDoes(Edit)).value;
    StepReaches(cfg, None, s2, UpkeepDoes(Edit), s3);
    DroppedDuringBuild(cfg, s3);
  }

  lemma DroppedDuringBuild(cfg: Layout, s: Sys)
    requires Reachable(cfg, None, s) && s.revalidate == None && MAIN in s.places && s.places[MAIN].slot.building
    requires s.places[MAIN].slot.patternsKey != "" && 1 !in s.builds
    requires 0 in s.builds && s.builds[0].at == MAIN && s.builds[0].seen < s.edits
    ensures exists t :: Reachable(cfg, None, t) && MAIN in t.places
              && t.places[MAIN].slot.graph.Some? && t.places[MAIN].slot.graph.value.seen < t.places[MAIN].marked
              && !t.places[MAIN].slot.stale && !t.places[MAIN].slot.timer && !t.places[MAIN].slot.building
              && t.revalidate == None
  {
    hide Reachable;
    var s1 := Next(cfg, s, UpkeepDoes(MarkStale(MAIN))).value;
    StepReaches(cfg, None, s, UpkeepDoes(MarkStale(MAIN)), s1);
    var s2 := Next(cfg, s1, UpkeepDoes(TimerFires(MAIN, 1))).value;
    StepReaches(cfg, None, s1, UpkeepDoes(TimerFires(MAIN, 1)), s2);
    var t := Next(cfg, s2, UpkeepDoes(Finish(0, "r"))).value;
    StepReaches(cfg, None, s2, UpkeepDoes(Finish(0, "r")), t);
  }

  lemma MainQueryIsWorkspace(cfg: Layout)
    requires cfg.moduleOf(MAIN_DIR) == ""
    ensures var q := Query(ALL_BELOW, MAIN_DIR, []);
            Askable(q) && IsWorkspaceQuery(ALL_BELOW) && ModuleOf(cfg, q) == ""
            && CanonicalKey(q.patterns, q.buildFlags) == ALL_BELOW[0]
  {
    assert EndsIn(ALL_BELOW[0], "/...");
    assert FileTargets(ALL_BELOW) == [] by { assert ALL_BELOW[1..] == [] && ALL_BELOW[0][0] == '.' && FILE[0] == 'f'; }
  }

  /** A first workspace query starts a build of the main slot. */
  lemma MainBuildStarts(cfg: Layout) returns (s: Sys)
    requires cfg.moduleOf(MAIN_DIR) == ""
    ensures s.edits == 0 && s.revalidate == None
    ensures Reachable(cfg, None, s) && MAIN in s.places && s.places[MAIN].slot == EMPTY.(building := true)
    ensures s.builds == map[0 := Build(MAIN, Job(ALL_BELOW, MAIN_DIR, ALL_BELOW[0], []), 0)]
  {
    hide Reachable, ModuleOf, Askable, IsWorkspaceQuery, CanonicalKey;
    var q := Query(ALL_BELOW, MAIN_DIR, []);
    InitialIsReachable(cfg, None);
    MainQueryIsWorkspace(cfg);
    var s0 := Initial(None);
    var s1 := Next(cfg, s0, QueryDoes(Arrive(0, q, 1))).value;
    StepReaches(cfg, None, s0, QueryDoes(Arrive(0, q, 1)), s1);
    s := Next(cfg, s1, QueryDoes(ReadMain(0, 0))).value;
    StepReaches(cfg, None, s1, QueryDoes(ReadMain(0, 0)), s);
  }

  /** A dropped mark is reached from the start: a graph that has not seen the last
      marked change, with nothing left that would rebuild it. */
  lemma DroppedMarkLooksFresh(cfg: Layout)
    requires cfg.moduleOf(MAIN_DIR) == ""
    ensures exists t :: Reachable(cfg, None, t) && MAIN in t.places
              && t.places[MAIN].slot.graph.Some? && t.places[MAIN].slot.graph.value.seen < t.places[MAIN].marked
              && !t.places[MAIN].slot.stale && !t.places[MAIN].slot.timer && !t.places[MAIN].slot.building
              && t.revalidate == None
  {
    hide Reachable;
    var s := MainBuildStarts(cfg);
    var t := Next(cfg, s, UpkeepDoes(Finish(0, "r"))).value;
    StepReaches(cfg, None, s, UpkeepDoes(Finish(0, "r")), t);
    assert t.builds == map[];
    SecondMarkIsDropped(cfg, t);
  }

  /** A change made during a slot's first build is marked while there is nothing yet
      to mark: the build then stores a graph that has not seen it, called fresh, and
      nothing is left that would rebuild it. */
  lemma FirstBuildMarkLooksFresh(cfg: Layout)
    requires cfg.moduleOf(MAIN_DIR) == ""
    ensures exists t :: Reachable(cfg, None, t) && MAIN in t.places && t.places[MAIN].marked == t.edits == 1
              && t.places[MAIN].slot.graph.Some? && t.places[MAIN].slot.graph.value.seen == 0
              && !t.places[MAIN].slot.stale && !t.places[MAIN].slot.timer && !t.places[MAIN].slot.building
              && t.builds == map[] && t.revalidate == None
  {
    hide Reachable;
    var s := MainBuildStarts(cfg);
    var s1 := Next(cfg, s, UpkeepDoes(Edit)).value;
    StepReaches(cfg, None, s, UpkeepDoes(Edit), s1);
    var s2 := Next(cfg, s1, UpkeepDoes(MarkStale(MAIN))).value;
    StepReaches(cfg, None, s1, UpkeepDoes(MarkStale(MAIN)), s2);
    var t := Next(cfg, s2, UpkeepDoes(Finish(0, "r"))).value;
    StepReaches(cfg, None, s2, UpkeepDoes(Finish(0, "r")), t);
  }
}
