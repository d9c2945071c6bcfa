/** Where served graphs come from, and how many builds run, over every run. */
module GraphProofs {
  import opened Options
  import opened CacheKey
  import opened GraphCache
  import opened GraphSystem
  import RootRewrite

  // ---- provenance ----------------------------------------------------------

  /** A build's key is the key of what it loads: for the main slot its patterns and
      flags, for a nested slot its module and flags. */
  ghost predicate KeyOk(mod: string, job: Job) {
    NulFree(job.buildFlags) &&
    if mod == "" then Patterns(job.patterns) && job.key == CanonicalKey(job.patterns, job.buildFlags)
    else job == NestedJob(mod, job.buildFlags)
  }

  /** The layout, and where the disk cache the session began with is loaded. */
  datatype Setting = Setting(layout: Layout, origin: Option<string>)

  /** Where a saved graph is loaded, if it is. */
  function LoadsAt(cfg: Layout, saved: Saved): Option<string> {
    match RootRewrite.RetargetGraph(RootRewrite.SavedGraph(saved.graph.resp, saved.job.dir, saved.root), cfg.root)
    case None => None
    case Some((_, dir)) => Some(dir)
  }

  function SettingOf(cfg: Layout, disk: Option<Saved>): Setting {
    Setting(cfg, if disk.Some? then LoadsAt(cfg, disk.value) else None)
  }

  /** A directory the main slot may hold a graph for: one of no nested module, or the
      one the disk cache was loaded at. */
  predicate Home(e: Setting, dir: string) {
    e.layout.moduleOf(dir) == "" || e.origin == Some(dir)
  }

  ghost predicate JobOk(e: Setting, mod: string, job: Job) {
    KeyOk(mod, job) && (mod == "" ==> Home(e, job.dir))
  }

  ghost predicate GraphOf(job: Job, graph: Graph) {
    graph.patterns == job.patterns && graph.buildFlags == job.buildFlags && graph.dir == job.dir
  }

  ghost predicate SlotOk(e: Setting, mod: string, slot: Slot) {
    && (slot.graph.Some? ==> JobOk(e, mod, SlotJob(slot)) && GraphOf(SlotJob(slot), slot.graph.value))
    && (slot.graph.None? ==> slot.patternsKey == "" && !slot.timer)
  }

  /** The graph answers the query. */
  ghost predicate Answers(e: Setting, mod: string, q: Query, graph: Graph) {
    graph.buildFlags == q.buildFlags &&
    if mod == "" then graph.patterns == q.patterns && DirCompatible(q.dir, graph.dir) && Home(e, graph.dir)
    else graph.patterns == NESTED_PATTERNS && graph.dir == mod
  }

  ghost predicate PlacesOk(e: Setting, places: map<nat, Place>) {
    MAIN in places &&
    forall at <- places :: (at == MAIN <==> places[at].mod == "") && SlotOk(e, places[at].mod, places[at].slot)
  }

  ghost predicate SubslotsOk(s: Sys) {
    forall mod <- s.subslots :: mod != "" && s.subslots[mod] in s.places && s.places[s.subslots[mod]].mod == mod
  }

  ghost predicate BuildsOk(e: Setting, s: Sys) {
    forall b <- s.builds :: s.builds[b].at in s.places && JobOk(e, s.places[s.builds[b].at].mod, s.builds[b].job)
  }

  ghost predicate AskOk(e: Setting, places: map<nat, Place>, ask: Ask) {
    && ask.at in places && Askable(ask.q) && places[ask.at].mod == ModuleOf(e.layout, ask.q)
    && (ask.Holding? || ask.Refreshing? ==> Answers(e, places[ask.at].mod, ask.q, ask.graph))
    && (ask.Refreshing? || ask.Missed? || ask.Awaiting? ==> ask.at != MAIN)
  }

  ghost predicate AsksOk(e: Setting, s: Sys) {
    forall id <- s.asks :: AskOk(e, s.places, s.asks[id])
  }

  ghost predicate ServedOk(e: Setting, served: Served) {
    match served
    case FromMain(q, graph) => ModuleOf(e.layout, q) == "" && Answers(e, "", q, graph)
    case FromNested(q, mod, graph) => mod == ModuleOf(e.layout, q) && mod != "" && Answers(e, mod, q, graph)
    case AfterBuild(q, mod, graph, key) =>
      && mod == ModuleOf(e.layout, q) && mod != "" && graph.dir == mod && graph.patterns == NESTED_PATTERNS
      && NulFree(q.buildFlags) && NulFree(graph.buildFlags) && key == NestedModuleCacheKey(graph.buildFlags)
  }

  ghost predicate AllServedOk(e: Setting, served: seq<Served>) {
    forall i | 0 <= i < |served| :: ServedOk(e, served[i])
  }

  ghost predicate SavedOk(saved: Saved) {
    KeyOk("", saved.job) && GraphOf(saved.job, saved.graph)
  }

  ghost predicate SavedAtHome(e: Setting, saved: Saved) {
    SavedOk(saved) && (LoadsAt(e.layout, saved).Some? ==> Home(e, LoadsAt(e.layout, saved).value))
  }

  ghost predicate DiskOk(e: Setting, s: Sys) {
    && (s.disk.Some? ==> SavedAtHome(e, s.disk.value))
    && (forall saved <- s.toSave :: SavedAtHome(e, saved))
    && (s.revalidate.Some? ==> JobOk(e, "", s.revalidate.value))
  }

  ghost predicate Provenance(e: Setting, s: Sys) {
    PlacesOk(e, s.places) && SubslotsOk(s) && BuildsOk(e, s) && AsksOk(e, s) && AllServedOk(e, s.served) && DiskOk(e, s)
  }

  // ---- one slot ------------------------------------------------------------

  /** A hit in the main slot is a graph of the query's own patterns and flags. */
  lemma HitAnswers(e: Setting, slot: Slot, q: Query)
    requires SlotOk(e, "", slot) && Askable(q)
    requires HasCache(slot, CanonicalKey(q.patterns, q.buildFlags)) && DirCompatible(q.dir, slot.dir)
    ensures Answers(e, "", q, slot.graph.value)
  {
    hide CanonicalKey, DirCompatible, Patterns, NulFree;
    CanonicalKeyIsInjective(slot.patterns, slot.buildFlags, q.patterns, q.buildFlags);
  }

  lemma AnsweringKeepsSlot(e: Setting, slot: Slot, q: Query)
    requires SlotOk(e, "", slot) && Askable(q) && Home(e, q.dir)
    ensures var (after, graph, job) := GraphCache.Answered(slot, q);
            && SlotOk(e, "", after)
            && (graph.Some? ==> Answers(e, "", q, graph.value))
            && (job.Some? ==> JobOk(e, "", job.value))
  {
    hide CanonicalKey, DirCompatible, Patterns, NulFree, IsWorkspaceQuery;
    if HasCache(slot, CanonicalKey(q.patterns, q.buildFlags)) && DirCompatible(q.dir, slot.dir) {
      HitAnswers(e, slot, q);
    }
  }

  lemma NestedHitAnswers(e: Setting, mod: string, slot: Slot, q: Query)
    requires mod != "" && SlotOk(e, mod, slot) && Askable(q) && HasCache(slot, NestedModuleCacheKey(q.buildFlags))
    ensures Answers(e, mod, q, slot.graph.value)
  {
    hide NestedModuleCacheKey, NulFree, Patterns;
    NestedKeyIsInjective(slot.buildFlags, q.buildFlags);
  }

  lemma StoringKeepsSlot(e: Setting, mod: string, slot: Slot, job: Job, graph: Graph)
    requires JobOk(e, mod, job) && GraphOf(job, graph)
    ensures SlotOk(e, mod, Stored(slot, job, graph))
  {
    hide CanonicalKey, NestedModuleCacheKey, Patterns, NulFree;
    assert SlotJob(Stored(slot, job, graph)) == job;
  }

  /** Flags about builds and staleness do not matter to what a slot holds. */
  lemma FlagsKeepSlot(e: Setting, mod: string, slot: Slot, after: Slot)
    requires SlotOk(e, mod, slot)
    requires after == slot.(building := after.building, stale := after.stale, timer := after.timer)
    requires after.timer ==> slot.timer || slot.patternsKey != ""
    ensures SlotOk(e, mod, after)
  {
    hide CanonicalKey, NestedModuleCacheKey, Patterns, NulFree;
    assert SlotJob(after) == SlotJob(slot);
  }

  // ---- what a step may do to places ----------------------------------------

  /** No place changes its module or disappears. */
  ghost predicate Grows(s: Sys, t: Sys) {
    forall at <- s.places :: at in t.places && t.places[at].mod == s.places[at].mod
  }

  lemma GrowthKeepsRest(e: Setting, s: Sys, t: Sys)
    requires SubslotsOk(s) && BuildsOk(e, s) && AsksOk(e, s) && Grows(s, t)
    ensures t.subslots == s.subslots ==> SubslotsOk(t)
    ensures t.builds == s.builds ==> BuildsOk(e, t)
    ensures t.asks == s.asks ==> AsksOk(e, t)
    ensures forall id <- s.asks :: AskOk(e, t.places, s.asks[id])
    ensures forall b <- s.builds ::
              s.builds[b].at in t.places && JobOk(e, t.places[s.builds[b].at].mod, s.builds[b].job)
  {
    hide JobOk, Askable, Answers;
    forall id | id in s.asks ensures AskOk(e, t.places, s.asks[id]) {
      assert AskOk(e, s.places, s.asks[id]);
    }
  }

  lemma SlotChangeKeepsPlaces(e: Setting, s: Sys, at: nat, place: Place)
    requires PlacesOk(e, s.places) && at in s.places
    requires place.mod == s.places[at].mod && SlotOk(e, place.mod, place.slot)
    ensures PlacesOk(e, s.places[at := place]) && Grows(s, s.(places := s.places[at := place]))
  {
    hide SlotOk;
  }

  // ---- queries -------------------------------------------------------------

  lemma NewPlace(e: Setting, s: Sys, at: nat, mod: string)
    requires PlacesOk(e, s.places) && SubslotsOk(s) && at !in s.places && mod != ""
    ensures var t := s.(places := s.places[at := Place(mod, EMPTY, 0, false, false)],
                        subslots := s.subslots[mod := at]);
            PlacesOk(e, t.places) && SubslotsOk(t) && Grows(s, t)
  {
    hide JobOk, GraphOf;
  }

  lemma ArriveFrame(e: Setting, s: Sys, id: nat, q: Query, newSlot: nat, t: Sys)
    requires PlacesOk(e, s.places) && SubslotsOk(s) && ArriveNext(e.layout, s, id, q, newSlot) == Some(t)
    ensures PlacesOk(e, t.places) && SubslotsOk(t) && Grows(s, t)
    ensures id in t.asks && t.asks == s.asks[id := t.asks[id]] && AskOk(e, t.places, t.asks[id])
    ensures t == s.(places := t.places, subslots := t.subslots, asks := t.asks)
  {
    hide Askable, ModuleOf, SlotOk;
    var mod := ModuleOf(e.layout, q);
    if mod != "" && mod !in s.subslots {
      hide PlacesOk, SubslotsOk;
      NewPlace(e, s, newSlot, mod);
      SameSubslots(s.(places := t.places, subslots := t.subslots), t);
    }
  }

  lemma SameSubslots(s: Sys, t: Sys)
    requires SubslotsOk(s) && t.subslots == s.subslots && t.places == s.places
    ensures SubslotsOk(t)
  {
  }

  lemma ArriveKeepsProvenance(e: Setting, s: Sys, id: nat, q: Query, newSlot: nat, t: Sys)
    requires Provenance(e, s) && ArriveNext(e.layout, s, id, q, newSlot) == Some(t)
    ensures Provenance(e, t)
  {
    hide PlacesOk, SubslotsOk, AskOk, AllServedOk, DiskOk, ArriveNext, BuildsOk, AsksOk, Grows;
    ArriveFrame(e, s, id, q, newSlot, t);
    GrowthKeepsRest(e, s, t);
    SameDisk(e, s, t);
    assert AsksOk(e, t) by {
      NewAsk(e, s, id, t);
    }
  }

  lemma NewAsk(e: Setting, s: Sys, id: nat, t: Sys)
    requires forall x <- s.asks :: AskOk(e, t.places, s.asks[x])
    requires id in t.asks && t.asks == s.asks[id := t.asks[id]] && AskOk(e, t.places, t.asks[id])
    ensures AsksOk(e, t)
  {
    hide AskOk;
  }

  /** One query moves on, perhaps with a change of its own slot and a new build. */
  lemma QueryKeepsProvenance(e: Setting, s: Sys, id: nat, slot: Slot, job: Option<Job>, build: nat, t: Sys)
    requires Provenance(e, s) && id in s.asks
    requires t == Launch(SetSlot(s, s.asks[id].at, slot), s.asks[id].at, job, build)
                  .(asks := t.asks, served := t.served)
    requires SlotOk(e, s.places[s.asks[id].at].mod, slot)
    requires job.Some? ==> JobOk(e, s.places[s.asks[id].at].mod, job.value)
    requires forall x <- t.asks :: (x in s.asks && t.asks[x] == s.asks[x]) || AskOk(e, s.places, t.asks[x])
    requires t.served == s.served || exists one :: t.served == s.served + [one] && ServedOk(e, one)
    ensures Provenance(e, t)
  {
    hide JobOk, Askable, Answers, GraphOf, ModuleOf, DiskOk, SlotOk, PlacesOk, AsksOk, BuildsOk, SubslotsOk, AskOk;
    hide ServedOk;
    var at := s.asks[id].at;
    assert at in s.places by { AskIsPlaced(e, s, id); }
    assert t.places == s.places[at := t.places[at]];
    SlotChangeKeepsPlaces(e, s, at, t.places[at]);
    GrowthKeepsRest(e, s, t);
    assert AsksOk(e, t) by {
      AsksMove(e, s, t);
    }
    assert BuildsOk(e, t) by {
      BuildsMove(e, s, at, job, build, t);
    }
    assert DiskOk(e, t) by { SameDisk(e, s, t); }
  }

  lemma SameDisk(e: Setting, s: Sys, t: Sys)
    requires DiskOk(e, s) && t.disk == s.disk && t.toSave == s.toSave && t.revalidate == s.revalidate
    ensures DiskOk(e, t)
  {
    hide SavedOk, JobOk;
  }

  lemma AskIsPlaced(e: Setting, s: Sys, id: nat)
    requires AsksOk(e, s) && id in s.asks
    ensures s.asks[id].at in s.places && AskOk(e, s.places, s.asks[id])
  {
    hide Askable, Answers;
  }

  lemma AsksMove(e: Setting, s: Sys, t: Sys)
    requires AsksOk(e, s) && Grows(s, t)
    requires forall x <- t.asks :: (x in s.asks && t.asks[x] == s.asks[x]) || AskOk(e, s.places, t.asks[x])
    ensures AsksOk(e, t)
  {
    hide Askable, Answers;
    forall x | x in t.asks ensures AskOk(e, t.places, t.asks[x]) {
      assert AskOk(e, s.places, t.asks[x]);
    }
  }

  lemma BuildsMove(e: Setting, s: Sys, at: nat, job: Option<Job>, build: nat, t: Sys)
    requires BuildsOk(e, s) && Grows(s, t) && at in s.places
    requires job.Some? ==> JobOk(e, s.places[at].mod, job.value)
    requires t.builds == if job.None? then s.builds else s.builds[build := Build(at, job.value, s.edits)]
    ensures BuildsOk(e, t)
  {
    hide JobOk;
  }

  lemma SameSlot(s: Sys, at: nat)
    requires at in s.places
    ensures SetSlot(s, at, s.places[at].slot) == s
  {
    assert s.places[at := s.places[at]] == s.places;
  }

  lemma PlaceOf(e: Setting, s: Sys, id: nat)
    requires Provenance(e, s) && id in s.asks
    ensures AskOk(e, s.places, s.asks[id])
    ensures var place := s.places[s.asks[id].at];
            SlotOk(e, place.mod, place.slot) && (s.asks[id].at == MAIN <==> place.mod == "")
  {
    hide JobOk, Answers, Askable, SlotOk;
    AskIsPlaced(e, s, id);
  }

  lemma ReadMainKeepsProvenance(e: Setting, s: Sys, step: QueryStep, t: Sys)
    requires Provenance(e, s) && step.ReadMain? && QueryNext(s, step) == Some(t)
    ensures Provenance(e, t)
  {
    hide Provenance, SlotOk, JobOk, Answers, Askable, ModuleOfQuery, GraphCache.Answered;
    var ask := s.asks[step.id];
    PlaceOf(e, s, step.id);
    assert Home(e, ask.q.dir) by {
      DispatchIsExact(e.layout.moduleOf, e.layout.dirOf, ask.q);
    }
    AnsweringKeepsSlot(e, s.places[MAIN].slot, ask.q);
    var (slot, _, job) := GraphCache.Answered(s.places[MAIN].slot, ask.q);
    QueryKeepsProvenance(e, s, step.id, slot, job, step.build, t);
  }

  lemma ReadNestedKeepsProvenance(e: Setting, s: Sys, step: QueryStep, t: Sys)
    requires Provenance(e, s) && step.ReadNested? && QueryNext(s, step) == Some(t)
    ensures Provenance(e, t)
  {
    hide Provenance, SlotOk, JobOk, Answers, Askable, ModuleOf, NestedModuleCacheKey;
    var ask := s.asks[step.id];
    PlaceOf(e, s, step.id);
    var place := s.places[ask.at];
    if HasCache(place.slot, NestedModuleCacheKey(ask.q.buildFlags)) {
      NestedHitAnswers(e, place.mod, place.slot, ask.q);
    }
    SameSlot(s, ask.at);
    QueryKeepsProvenance(e, s, step.id, place.slot, None, 0, t);
  }

  lemma CheckOverlayKeepsProvenance(e: Setting, s: Sys, step: QueryStep, t: Sys)
    requires Provenance(e, s) && step.CheckOverlay? && QueryNext(s, step) == Some(t)
    ensures Provenance(e, t)
  {
    hide Provenance, SlotOk, JobOk, Answers, Askable, ModuleOf;
    var ask := s.asks[step.id];
    PlaceOf(e, s, step.id);
    SameSlot(s, ask.at);
    if t.served != s.served {
      var one := if ask.at == MAIN then FromMain(ask.q, ask.graph)
                 else FromNested(ask.q, s.places[ask.at].mod, ask.graph);
      assert t.served == s.served + [one] && ServedOk(e, one);
    }
    QueryKeepsProvenance(e, s, step.id, s.places[ask.at].slot, None, 0, t);
  }

  lemma NestedJobIsOk(e: Setting, mod: string, q: Query)
    requires mod != "" && Askable(q)
    ensures JobOk(e, mod, NestedJob(mod, q.buildFlags))
  {
    hide NestedModuleCacheKey, Patterns, NulFree;
  }

  lemma ClaimingKeepsSlot(e: Setting, mod: string, slot: Slot)
    requires SlotOk(e, mod, slot)
    ensures SlotOk(e, mod, Claimed(slot).0)
  {
    hide SlotOk;
    FlagsKeepSlot(e, mod, slot, Claimed(slot).0);
  }

  lemma RefreshKeepsProvenance(e: Setting, s: Sys, step: QueryStep, t: Sys)
    requires Provenance(e, s) && step.Refresh? && QueryNext(s, step) == Some(t)
    ensures Provenance(e, t)
  {
    hide Provenance, SlotOk, JobOk, Answers, Askable, ModuleOf, NestedJob;
    var ask := s.asks[step.id];
    PlaceOf(e, s, step.id);
    var place := s.places[ask.at];
    ClaimingKeepsSlot(e, place.mod, place.slot);
    NestedJobIsOk(e, place.mod, ask.q);
    var (slot, mine) := Claimed(place.slot);
    var job := if mine then Some(NestedJob(place.mod, ask.q.buildFlags)) else None;
    var one := FromNested(ask.q, place.mod, ask.graph);
    assert t.served == s.served + [one] && ServedOk(e, one);
    QueryKeepsProvenance(e, s, step.id, slot, job, step.build, t);
  }

  lemma StartMissKeepsProvenance(e: Setting, s: Sys, step: QueryStep, t: Sys)
    requires Provenance(e, s) && step.StartMiss? && QueryNext(s, step) == Some(t)
    ensures Provenance(e, t)
  {
    hide Provenance, SlotOk, JobOk, Answers, Askable, ModuleOf, NestedJob;
    var ask := s.asks[step.id];
    PlaceOf(e, s, step.id);
    var place := s.places[ask.at];
    ClaimingKeepsSlot(e, place.mod, place.slot);
    NestedJobIsOk(e, place.mod, ask.q);
    var (slot, mine) := Claimed(place.slot);
    if mine {
      QueryKeepsProvenance(e, s, step.id, slot, Some(NestedJob(place.mod, ask.q.buildFlags)), step.build, t);
    } else {
      SameSlot(s, ask.at);
      QueryKeepsProvenance(e, s, step.id, place.slot, None, 0, t);
    }
  }

  lemma RereadIsFromModule(e: Setting, mod: string, slot: Slot, q: Query)
    requires SlotOk(e, mod, slot) && mod != "" && slot.graph.Some? && Askable(q)
    ensures var graph := slot.graph.value;
            && graph.dir == mod && graph.patterns == NESTED_PATTERNS
            && NulFree(q.buildFlags) && NulFree(graph.buildFlags)
            && slot.patternsKey == NestedModuleCacheKey(graph.buildFlags)
  {
    hide NestedModuleCacheKey, Patterns, NulFree;
  }

  lemma RereadKeepsProvenance(e: Setting, s: Sys, step: QueryStep, t: Sys)
    requires Provenance(e, s) && step.Reread? && QueryNext(s, step) == Some(t)
    ensures Provenance(e, t)
  {
    hide Provenance, SlotOk, JobOk, Answers, Askable, ModuleOf, NestedJob, NestedModuleCacheKey, NulFree;
    var ask := s.asks[step.id];
    PlaceOf(e, s, step.id);
    var place := s.places[ask.at];
    SameSlot(s, ask.at);
    if place.slot.graph.Some? {
      RereadIsFromModule(e, place.mod, place.slot, ask.q);
      var one := AfterBuild(ask.q, place.mod, place.slot.graph.value, place.slot.patternsKey);
      assert t.served == s.served + [one] && ServedOk(e, one);
    }
    QueryKeepsProvenance(e, s, step.id, place.slot, None, 0, t);
  }

  // ---- upkeep --------------------------------------------------------------

  /** One slot changes and at most one build starts or ends; queries stay. */
  lemma UpkeepKeepsProvenance(e: Setting, s: Sys, at: nat, place: Place, t: Sys)
    requires Provenance(e, s) && at in s.places
    requires place.mod == s.places[at].mod && SlotOk(e, place.mod, place.slot)
    requires t.places == s.places[at := place] && t.asks == s.asks && t.served == s.served && t.subslots == s.subslots
    requires forall b <- t.builds :: (b in s.builds && t.builds[b] == s.builds[b])
               || (t.builds[b].at == at && JobOk(e, place.mod, t.builds[b].job))
    requires DiskOk(e, t)
    ensures Provenance(e, t)
  {
    hide JobOk, Answers, SlotOk, PlacesOk, AsksOk, SubslotsOk, ServedOk, DiskOk;
    SlotChangeKeepsPlaces(e, s, at, place);
    GrowthKeepsRest(e, s, t);
    hide Grows;
    assert BuildsOk(e, t);
  }

  lemma BuildIsOk(e: Setting, s: Sys, build: nat)
    requires Provenance(e, s) && build in s.builds
    ensures var b := s.builds[build];
            && b.at in s.places && JobOk(e, s.places[b.at].mod, b.job)
            && SlotOk(e, s.places[b.at].mod, s.places[b.at].slot) && (b.at == MAIN <==> s.places[b.at].mod == "")
  {
    hide JobOk, SlotOk, AsksOk, SubslotsOk, AllServedOk, DiskOk;
  }

  lemma FinishKeepsProvenance(e: Setting, s: Sys, build: nat, resp: string, t: Sys)
    requires Provenance(e, s) && FinishNext(e.layout, s, Finish(build, resp)) == Some(t)
    ensures Provenance(e, t)
  {
    hide Provenance, JobOk, SlotOk, GraphOf, DiskOk, SavedAtHome;
    var Build(at, job, seen) := s.builds[build];
    var place := s.places[at];
    var graph := Graph(resp, job.patterns, job.buildFlags, job.dir, seen);
    BuildIsOk(e, s, build);
    PlaceIsOk(e, s, at);
    BuiltGraph(resp, job, seen);
    StoringKeepsSlot(e, place.mod, place.slot, job, graph);
    SavingKeepsDisk(e, s, Saved(graph, job, e.layout.root), t);
    UpkeepKeepsProvenance(e, s, at, place.(slot := Stored(place.slot, job, graph)), t);
  }

  /** A graph built in this session is loaded, under the same layout, where it was
      built. */
  lemma SavingKeepsDisk(e: Setting, s: Sys, saved: Saved, t: Sys)
    requires DiskOk(e, s) && t.disk == s.disk && t.revalidate == s.revalidate
    requires t.toSave == s.toSave
             || (t.toSave == s.toSave + {saved} && JobOk(e, "", saved.job) && GraphOf(saved.job, saved.graph)
                 && saved.root == e.layout.root)
    ensures DiskOk(e, t)
  {
    hide KeyOk, GraphOf, Home, RootRewrite.RewriteRoot;
  }

  lemma FailKeepsProvenance(e: Setting, s: Sys, build: nat, t: Sys)
    requires Provenance(e, s) && FinishNext(e.layout, s, Fail(build)) == Some(t)
    ensures Provenance(e, t)
  {
    hide Provenance, JobOk, SlotOk, DiskOk;
    var at := s.builds[build].at;
    BuildIsOk(e, s, build);
    PlaceIsOk(e, s, at);
    FlagsKeepSlot(e, s.places[at].mod, s.places[at].slot, BuildFailed(s.places[at].slot));
    SameDisk(e, s, t);
    UpkeepKeepsProvenance(e, s, at, t.places[at], t);
  }

  lemma BuiltGraph(resp: string, job: Job, seen: nat)
    ensures GraphOf(job, Graph(resp, job.patterns, job.buildFlags, job.dir, seen))
  {
  }

  lemma PlaceIsOk(e: Setting, s: Sys, at: nat)
    requires Provenance(e, s) && at in s.places
    ensures SlotOk(e, s.places[at].mod, s.places[at].slot) && DiskOk(e, s) && (at == MAIN <==> s.places[at].mod == "")
  {
    hide JobOk, SlotOk, AsksOk, SubslotsOk, AllServedOk, BuildsOk, DiskOk;
  }

  lemma MarkStaleKeepsProvenance(e: Setting, s: Sys, at: nat, t: Sys)
    requires Provenance(e, s) && MarkNext(s, MarkStale(at)) == Some(t)
    ensures Provenance(e, t)
  {
    hide Provenance, SlotOk, DiskOk;
    PlaceIsOk(e, s, at);
    if t != s {
      var place := s.places[at];
      FlagsKeepSlot(e, place.mod, place.slot, Marked(place.slot));
      SameDisk(e, s, t);
      UpkeepKeepsProvenance(e, s, at, t.places[at], t);
    }
  }

  lemma TimerFiresKeepsProvenance(e: Setting, s: Sys, step: UpkeepStep, t: Sys)
    requires Provenance(e, s) && step.TimerFires? && MarkNext(s, step) == Some(t)
    ensures Provenance(e, t)
  {
    hide Provenance, SlotOk, DiskOk, JobOk;
    PlaceIsOk(e, s, step.at);
    var place := s.places[step.at];
    FlagsKeepSlot(e, place.mod, place.slot, TimerWentOff(place.slot).0);
    SlotJobIsOk(e, place.mod, place.slot);
    SameDisk(e, s, t);
    UpkeepKeepsProvenance(e, s, step.at, t.places[step.at], t);
  }

  lemma SlotJobIsOk(e: Setting, mod: string, slot: Slot)
    requires SlotOk(e, mod, slot) && slot.timer
    ensures JobOk(e, mod, SlotJob(slot))
  {
    hide JobOk;
  }

  lemma OtherMarksKeepProvenance(e: Setting, s: Sys, step: UpkeepStep, t: Sys)
    requires Provenance(e, s) && (step.Edit? || step.RemoveSlot?) && MarkNext(s, step) == Some(t)
    ensures Provenance(e, t)
  {
    hide JobOk, SlotOk, AskOk, ServedOk, SavedOk;
  }

  lemma LoadedSlotIsOk(e: Setting, slot: Slot, here: Job, graph: Graph, resp: string)
    requires JobOk(e, "", here) && graph.patterns == here.patterns && graph.buildFlags == here.buildFlags
    ensures SlotOk(e, "", LoadedSlot(slot, here, graph, resp))
  {
    hide JobOk;
    assert SlotJob(LoadedSlot(slot, here, graph, resp)) == here;
  }

  /** A graph retargeted from the disk is at home where it is loaded. */
  lemma LoadedJobIsOk(e: Setting, saved: Saved)
    requires SavedAtHome(e, saved) && LoadsAt(e.layout, saved).Some?
    ensures JobOk(e, "", saved.job.(dir := LoadsAt(e.layout, saved).value))
  {
    hide LoadsAt, Home, Patterns, NulFree, CanonicalKey;
  }

  lemma LoadFrame(cfg: Layout, s: Sys)
    requires MAIN in s.places
    ensures var t := Loaded(cfg, s);
            && t == s.(places := t.places, loaded := true, revalidate := t.revalidate)
            && ((t.places == s.places && t.revalidate == s.revalidate)
                || (s.disk.Some? && LoadsAt(cfg, s.disk.value).Some?
                    && var here := s.disk.value.job.(dir := LoadsAt(cfg, s.disk.value).value);
                       && t.revalidate == Some(here)
                       && exists resp :: t.places == s.places[MAIN := s.places[MAIN].(
                            slot := LoadedSlot(s.places[MAIN].slot, here, s.disk.value.graph, resp),
                            dropped := false, failed := false)]))
  {
    hide RootRewrite.RetargetGraph, LoadedSlot;
    if s.disk.Some? && LoadsAt(cfg, s.disk.value).Some? {
      var saved := s.disk.value;
      var here := saved.job.(dir := LoadsAt(cfg, saved).value);
      var disk := RootRewrite.SavedGraph(saved.graph.resp, saved.job.dir, saved.root);
      var resp := RootRewrite.RetargetGraph(disk, cfg.root).value.0;
      assert Loaded(cfg, s).places == s.places
             || Loaded(cfg, s).places == s.places[MAIN := s.places[MAIN].(
                  slot := LoadedSlot(s.places[MAIN].slot, here, saved.graph, resp), dropped := false, failed := false)];
    }
  }

  lemma LoadKeepsProvenance(e: Setting, s: Sys, t: Sys)
    requires Provenance(e, s) && DiskNext(e.layout, s, Load) == Some(t)
    ensures Provenance(e, t)
  {
    hide Provenance, SlotOk, DiskOk, JobOk, GraphOf, LoadsAt, LoadedSlot, Loaded, SavedAtHome;
    PlaceIsOk(e, s, MAIN);
    LoadFrame(e.layout, s);
    var place := s.places[MAIN];
    if t.places == s.places && t.revalidate == s.revalidate {
      assert s.places[MAIN := place] == s.places;
      SameDisk(e, s, t);
      UpkeepKeepsProvenance(e, s, MAIN, place, t);
    } else {
      var saved := s.disk.value;
      var here := saved.job.(dir := LoadsAt(e.layout, saved).value);
      assert SavedAtHome(e, saved) by { DiskIsAtHome(e, s); }
      LoadedJobIsOk(e, saved);
      RevalidatingKeepsDisk(e, s, here, t);
      var resp :| t.places == s.places[MAIN := place.(slot := LoadedSlot(place.slot, here, saved.graph, resp),
                                                      dropped := false, failed := false)];
      assert saved.graph.patterns == here.patterns && saved.graph.buildFlags == here.buildFlags by {
        SavedFields(e, saved);
      }
      LoadedSlotIsOk(e, place.slot, here, saved.graph, resp);
      UpkeepKeepsProvenance(e, s, MAIN, t.places[MAIN], t);
    }
  }

  lemma DiskIsAtHome(e: Setting, s: Sys)
    requires DiskOk(e, s) && s.disk.Some?
    ensures SavedAtHome(e, s.disk.value)
  {
    hide SavedAtHome, JobOk;
  }

  lemma SavedFields(e: Setting, saved: Saved)
    requires SavedAtHome(e, saved)
    ensures saved.graph.patterns == saved.job.patterns && saved.graph.buildFlags == saved.job.buildFlags
  {
    hide KeyOk, LoadsAt, Home;
  }

  lemma RevalidatingKeepsDisk(e: Setting, s: Sys, job: Job, t: Sys)
    requires DiskOk(e, s) && JobOk(e, "", job)
    requires t.disk == s.disk && t.toSave == s.toSave && (t.revalidate == Some(job) || t.revalidate == None)
    ensures DiskOk(e, t)
  {
    hide SavedAtHome, JobOk;
  }

  /** A slot changes and a build of it is launched. */
  lemma LaunchFrame(s: Sys, at: nat, slot: Slot, job: Job, build: nat)
    requires at in s.places
    ensures Launch(SetSlot(s, at, slot), at, Some(job), build)
         == s.(places := s.places[at := s.places[at].(slot := slot, dropped := false, failed := false)],
               builds := s.builds[build := Build(at, job, s.edits)])
  {
  }

  lemma RevalidateFrame(s: Sys, build: nat, t: Sys)
    requires RevalidateNext(s, build) == Some(t)
    ensures MAIN in s.places && s.revalidate.Some? && MAIN in t.places
    ensures t == s.(places := t.places, builds := t.builds, revalidate := None)
    ensures t.places == s.places[MAIN := t.places[MAIN]] && t.places[MAIN].mod == s.places[MAIN].mod
    ensures t.places[MAIN].slot == s.places[MAIN].slot.(building := true)
    ensures t.builds == s.builds || t.builds == s.builds[build := Build(MAIN, s.revalidate.value, s.edits)]
  {
    hide OlderRuns, Launch, SetSlot;
    var slot := s.places[MAIN].slot;
    if !slot.building {
      LaunchFrame(s, MAIN, slot.(building := true), s.revalidate.value, build);
    }
  }

  lemma RevalidateKeepsProvenance(e: Setting, s: Sys, build: nat, t: Sys)
    requires Provenance(e, s) && DiskNext(e.layout, s, Revalidate(build)) == Some(t)
    ensures Provenance(e, t)
  {
    hide Provenance, SlotOk, JobOk, DiskOk, RevalidateNext, Loaded;
    RevalidateFrame(s, build, t);
    PlaceIsOk(e, s, MAIN);
    assert JobOk(e, "", s.revalidate.value) by { RevalidateIsOk(e, s); }
    RevalidatingKeepsDisk(e, s, s.revalidate.value, t);
    FlagsKeepSlot(e, "", s.places[MAIN].slot, t.places[MAIN].slot);
    UpkeepKeepsProvenance(e, s, MAIN, t.places[MAIN], t);
  }

  lemma RevalidateIsOk(e: Setting, s: Sys)
    requires DiskOk(e, s) && s.revalidate.Some?
    ensures JobOk(e, "", s.revalidate.value)
  {
    hide SavedAtHome, JobOk;
  }

  lemma SaveKeepsProvenance(e: Setting, s: Sys, step: UpkeepStep, t: Sys)
    requires Provenance(e, s) && step.Save? && DiskNext(e.layout, s, step) == Some(t)
    ensures Provenance(e, t)
  {
    hide JobOk, SlotOk, AskOk, ServedOk, SavedOk;
  }

  // ---- over every run ------------------------------------------------------

  lemma StepKeepsProvenance(e: Setting, s: Sys, step: Step, t: Sys)
    requires Provenance(e, s) && Next(e.layout, s, step) == Some(t)
    ensures Provenance(e, t)
  {
    hide *;
    StepCases(e.layout, s, step, t);
    match step {
      case QueryDoes(q) =>
        match q {
          case Arrive(id, query, newSlot) => ArriveKeepsProvenance(e, s, id, query, newSlot, t);
          case ReadMain(_, _) => ReadMainKeepsProvenance(e, s, q, t);
          case ReadNested(_) => ReadNestedKeepsProvenance(e, s, q, t);
          case CheckOverlay(_, _) => CheckOverlayKeepsProvenance(e, s, q, t);
          case Refresh(_, _) => RefreshKeepsProvenance(e, s, q, t);
          case StartMiss(_, _) => StartMissKeepsProvenance(e, s, q, t);
          case Reread(_) => RereadKeepsProvenance(e, s, q, t);
        }
      case UpkeepDoes(u) =>
        match u {
          case Finish(build, resp) => FinishKeepsProvenance(e, s, build, resp, t);
          case Fail(build) => FailKeepsProvenance(e, s, build, t);
          case Edit => OtherMarksKeepProvenance(e, s, u, t);
          case MarkStale(at) => MarkStaleKeepsProvenance(e, s, at, t);
          case TimerFires(_, _) => TimerFiresKeepsProvenance(e, s, u, t);
          case RemoveSlot(_) => OtherMarksKeepProvenance(e, s, u, t);
          case Load => LoadKeepsProvenance(e, s, t);
          case Revalidate(build) => RevalidateKeepsProvenance(e, s, build, t);
          case Save(_) => SaveKeepsProvenance(e, s, u, t);
        }
    }
  }

  lemma {:induction false} RunsKeepProvenance(e: Setting, s: Sys, steps: seq<Step>)
    requires Provenance(e, s) && Run(e.layout, s, steps).Some?
    ensures Provenance(e, Run(e.layout, s, steps).value)
    decreases steps
  {
    hide Next, Provenance;
    if steps != [] {
      var t := Next(e.layout, s, steps[0]).value;
      StepKeepsProvenance(e, s, steps[0], t);
      RunsKeepProvenance(e, t, steps[1..]);
    }
  }

  lemma ReachableKeepsProvenance(cfg: Layout, disk: Option<Saved>, s: Sys)
    requires Reachable(cfg, disk, s) && (disk.Some? ==> SavedOk(disk.value))
    ensures Provenance(SettingOf(cfg, disk), s)
  {
    hide Run, SavedOk, LoadsAt;
    var steps :| Run(cfg, Initial(disk), steps) == Some(s);
    RunsKeepProvenance(SettingOf(cfg, disk), Initial(disk), steps);
  }

  /** What one session leaves on disk is what the next may start from. */
  lemma SessionsHandOver(cfg: Layout, disk: Option<Saved>, s: Sys)
    requires Reachable(cfg, disk, s) && (disk.Some? ==> SavedOk(disk.value))
    ensures s.disk.Some? ==> SavedOk(s.disk.value)
  {
    hide Reachable, SavedOk, PlacesOk, SubslotsOk, BuildsOk, AsksOk, AllServedOk;
    ReachableKeepsProvenance(cfg, disk, s);
  }

  /** The main slot serves only graphs loaded with the query's own patterns and
      flags, for a directory compatible with the query's and itself in no nested
      module unless the disk cache was loaded there, and only queries that no nested
      module owns. */
  lemma MainServesItsOwn(cfg: Layout, disk: Option<Saved>, s: Sys, i: nat)
    requires Reachable(cfg, disk, s) && (disk.Some? ==> SavedOk(disk.value))
    requires i < |s.served| && s.served[i].FromMain?
    ensures var FromMain(q, graph) := s.served[i];
            && graph.patterns == q.patterns && graph.buildFlags == q.buildFlags && DirCompatible(q.dir, graph.dir)
            && (cfg.moduleOf(graph.dir) == "" || (disk.Some? && LoadsAt(cfg, disk.value) == Some(graph.dir)))
            && cfg.moduleOf(q.dir) == "" && forall f | FILE + f in q.patterns :: cfg.moduleOf(cfg.dirOf(f)) == ""
  {
    hide Reachable, SavedOk, DirCompatible, ModuleOfQuery, PlacesOk, SubslotsOk, BuildsOk, AsksOk, DiskOk;
    ReachableKeepsProvenance(cfg, disk, s);
    assert ServedOk(SettingOf(cfg, disk), s.served[i]);
    DispatchIsExact(cfg.moduleOf, cfg.dirOf, s.served[i].q);
  }

  /** A nested slot's cache serves the whole-module graph of the query's own module,
      loaded with the query's own flags. */
  lemma NestedHitServesItsOwn(cfg: Layout, disk: Option<Saved>, s: Sys, i: nat)
    requires Reachable(cfg, disk, s) && (disk.Some? ==> SavedOk(disk.value))
    requires i < |s.served| && s.served[i].FromNested?
    ensures var FromNested(q, mod, graph) := s.served[i];
            && mod == ModuleOf(cfg, q) && mod != ""
            && graph.dir == mod && graph.patterns == NESTED_PATTERNS && graph.buildFlags == q.buildFlags
  {
    hide Reachable, SavedOk, ModuleOf, PlacesOk, SubslotsOk, BuildsOk, AsksOk, DiskOk;
    ReachableKeepsProvenance(cfg, disk, s);
    assert ServedOk(SettingOf(cfg, disk), s.served[i]);
  }

  /** After a nested build the graph is the module's, and it has the query's flags if
      and only if the slot's key is the query's when the graph is read again. */
  lemma MissServesItsOwnByKey(cfg: Layout, disk: Option<Saved>, s: Sys, i: nat)
    requires Reachable(cfg, disk, s) && (disk.Some? ==> SavedOk(disk.value))
    requires i < |s.served| && s.served[i].AfterBuild?
    ensures var AfterBuild(q, mod, graph, key) := s.served[i];
            && mod == ModuleOf(cfg, q) && graph.dir == mod
            && (graph.buildFlags == q.buildFlags <==> key == NestedModuleCacheKey(q.buildFlags))
  {
    hide Reachable, SavedOk, ModuleOf, PlacesOk, SubslotsOk, BuildsOk, AsksOk, DiskOk, NestedModuleCacheKey, NulFree;
    ReachableKeepsProvenance(cfg, disk, s);
    assert ServedOk(SettingOf(cfg, disk), s.served[i]);
    var AfterBuild(q, _, graph, key) := s.served[i];
    if key == NestedModuleCacheKey(q.buildFlags) {
      NestedKeyIsInjective(graph.buildFlags, q.buildFlags);
    }
  }
}
