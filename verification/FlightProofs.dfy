/** Builds over every run: one at a time for each slot, and what becomes of a mark
    that a graph is stale. */
module FlightProofs {
  import opened Options
  import opened CacheKey
  import opened GraphCache
  import opened GraphSystem
  import RootRewrite

  ghost predicate Flying(builds: map<nat, Build>, at: nat) {
    exists b <- builds :: builds[b].at == at
  }

  /** Nothing has missed the slot's last mark. */
  predicate Unmissed(place: Place) {
    !place.dropped && !place.failed
  }

  /** A graph older than the last mark is being followed up, a rebuild to come or a
      later build running, exactly when nothing has missed the mark. */
  ghost predicate FollowedUp(place: Place, builds: map<nat, Build>, at: nat, due: bool) {
    && (!Unmissed(place) ==> !due && !Following(builds, at, place.marked))
    && (place.slot.graph.Some? && place.slot.graph.value.seen < place.marked && Unmissed(place)
        ==> due || Following(builds, at, place.marked))
  }

  /** During a build older than the last mark there is still a rebuild to come. */
  ghost predicate Timely(place: Place, builds: map<nat, Build>, at: nat, due: bool) {
    forall b <- builds :: builds[b].at == at && builds[b].seen < place.marked && Unmissed(place) ==> due
  }

  ghost predicate Alone(builds: map<nat, Build>, at: nat) {
    forall b, c | b in builds && c in builds :: builds[b].at == at && builds[c].at == at ==> b == c
  }

  ghost predicate PlaceFlies(place: Place, builds: map<nat, Build>, at: nat, edits: nat, revalidate: Option<Job>) {
    var due := place.slot.timer || Revalidating(revalidate, at);
    && (place.slot.building <==> Flying(builds, at)) && Alone(builds, at)
    && FollowedUp(place, builds, at, due) && Timely(place, builds, at, due) && place.marked <= edits
  }

  ghost predicate Flights(s: Sys) {
    && (forall at <- s.places :: PlaceFlies(s.places[at], s.builds, at, s.edits, s.revalidate))
    && (forall b <- s.builds :: s.builds[b].at in s.places)
  }

  // ---- one place at a time -------------------------------------------------

  ghost predicate SameElsewhere(before: map<nat, Build>, after: map<nat, Build>, at: nat) {
    && (forall b <- before :: before[b].at != at ==> b in after && after[b] == before[b])
    && (forall b <- after :: after[b].at != at ==> b in before && before[b] == after[b])
  }

  lemma ElsewhereFlies(place: Place, before: map<nat, Build>, after: map<nat, Build>, at: nat, other: nat,
                       edits: nat, later: nat, r: Option<Job>, q: Option<Job>)
    requires PlaceFlies(place, before, other, edits, r) && SameElsewhere(before, after, at)
    requires other != at && edits <= later && (q == r || at == MAIN)
    ensures PlaceFlies(place, after, other, later, q)
  {
    if Flying(before, other) {
      var b :| b in before && before[b].at == other;
      assert after[b].at == other;
    }
    if Flying(after, other) {
      var b :| b in after && after[b].at == other;
      assert before[b].at == other;
    }
    if Following(before, other, place.marked) {
      var b :| b in before && before[b].at == other && before[b].seen >= place.marked;
      assert after[b].at == other;
    }
  }

  lemma OneMoves(s: Sys, t: Sys, at: nat)
    requires Flights(s) && at in t.places && t.places == s.places[at := t.places[at]]
    requires SameElsewhere(s.builds, t.builds, at) && s.edits <= t.edits
    requires t.revalidate == s.revalidate || at == MAIN
    requires PlaceFlies(t.places[at], t.builds, at, t.edits, t.revalidate)
    ensures Flights(t)
  {
    hide PlaceFlies;
    forall x | x in t.places ensures PlaceFlies(t.places[x], t.builds, x, t.edits, t.revalidate) {
      if x != at {
        ElsewhereFlies(s.places[x], s.builds, t.builds, at, x, s.edits, t.edits, s.revalidate, t.revalidate);
      }
    }
  }

  /** A section that leaves the graph alone and starts a build on a slot that had
      none: the build follows up any mark. */
  lemma LaunchingFlies(place: Place, slot: Slot, builds: map<nat, Build>, build: nat, job: Job, at: nat, edits: nat,
                       r: Option<Job>, q: Option<Job>)
    requires PlaceFlies(place, builds, at, edits, r) && build !in builds
    requires slot.graph == place.slot.graph && !place.slot.building && slot.building
    ensures var after := builds[build := Build(at, job, edits)];
            && PlaceFlies(place.(slot := slot, dropped := false, failed := false), after, at, edits, q)
            && SameElsewhere(builds, after, at)
  {
    var after := builds[build := Build(at, job, edits)];
    assert after[build].at == at && after[build].seen >= place.marked;
  }

  lemma EndingAlone(builds: map<nat, Build>, build: nat, at: nat)
    requires build in builds && builds[build].at == at && Alone(builds, at)
    ensures var after := builds - {build};
            !Flying(after, at) && Alone(after, at) && SameElsewhere(builds, after, at)
  {
  }

  // ---- every step ----------------------------------------------------------

  lemma ArriveKeepsFlights(cfg: Layout, s: Sys, id: nat, q: Query, newSlot: nat, t: Sys)
    requires Flights(s) && ArriveNext(cfg, s, id, q, newSlot) == Some(t)
    ensures Flights(t)
  {
    hide ModuleOf, Askable, Flights;
    if t.places == s.places {
      SamePlaces(s, t);
    } else {
      NewPlaceFlies(s, newSlot);
      OneMoves(s, t, newSlot);
    }
  }

  lemma SamePlaces(s: Sys, t: Sys)
    requires Flights(s) && t.places == s.places && t.builds == s.builds && s.edits <= t.edits
    requires t.revalidate == s.revalidate
    ensures Flights(t)
  {
    hide Flying, FollowedUp, Alone, Timely;
  }

  lemma NewPlaceFlies(s: Sys, at: nat)
    requires Flights(s) && at !in s.places
    ensures forall mod :: PlaceFlies(Place(mod, EMPTY, 0, false, false), s.builds, at, s.edits, s.revalidate)
    ensures SameElsewhere(s.builds, s.builds, at)
  {
    assert forall b <- s.builds :: s.builds[b].at != at;
    hide PlaceFlies;
    forall mod ensures PlaceFlies(Place(mod, EMPTY, 0, false, false), s.builds, at, s.edits, s.revalidate) {
      EmptyFlies(mod, s.builds, at, s.edits, s.revalidate);
    }
  }

  lemma EmptyFlies(mod: string, builds: map<nat, Build>, at: nat, edits: nat, r: Option<Job>)
    requires forall b <- builds :: builds[b].at != at
    ensures PlaceFlies(Place(mod, EMPTY, 0, false, false), builds, at, edits, r)
  {
  }

  /** answerSlot starts a build only when none is running. */
  lemma AnsweringStarts(slot: Slot, q: Query)
    ensures var (after, _, job) := GraphCache.Answered(slot, q);
            && after.graph == slot.graph && after.timer == slot.timer
            && if job.Some? then !slot.building && after.building else after.building == slot.building
  {
    hide CanonicalKey, DirCompatible, IsWorkspaceQuery, HasCache;
  }

  lemma LaunchKeepsFlights(s: Sys, at: nat, slot: Slot, job: Option<Job>, build: nat, t: Sys)
    requires Flights(s) && at in s.places && (job.Some? ==> build !in s.builds)
    requires slot.graph == s.places[at].slot.graph && (slot.timer == s.places[at].slot.timer || job.Some?)
    requires if job.Some? then !s.places[at].slot.building && slot.building
             else slot.building == s.places[at].slot.building
    requires var m := Launch(SetSlot(s, at, slot), at, job, build);
             t.places == m.places && t.builds == m.builds && t.edits == m.edits
    requires t.revalidate == s.revalidate || (at == MAIN && job.Some?)
    ensures Flights(t)
  {
    hide Flying, FollowedUp, Alone, Timely, PlaceFlies, SameElsewhere;
    assert PlaceFlies(s.places[at], s.builds, at, s.edits, s.revalidate);
    if job.Some? {
      LaunchingFlies(s.places[at], slot, s.builds, build, job.value, at, s.edits, s.revalidate, t.revalidate);
    } else {
      StillFlies(s.places[at], slot, s.builds, at, s.edits, s.revalidate);
    }
    OneMoves(s, t, at);
  }

  lemma StillFlies(place: Place, slot: Slot, builds: map<nat, Build>, at: nat, edits: nat, r: Option<Job>)
    requires PlaceFlies(place, builds, at, edits, r)
    requires slot.graph == place.slot.graph && slot.timer == place.slot.timer && slot.building == place.slot.building
    ensures PlaceFlies(place.(slot := slot), builds, at, edits, r) && SameElsewhere(builds, builds, at)
  {
    hide Flying, Following, Alone;
  }

  lemma QueryKeepsFlights(s: Sys, step: QueryStep, t: Sys)
    requires Flights(s) && QueryNext(s, step) == Some(t)
    ensures Flights(t)
  {
    hide Flights, GraphCache.Answered, HasCache, NestedModuleCacheKey;
    var ask := s.asks[step.id];
    var place := s.places[ask.at];
    if step.ReadMain? {
      AnsweringStarts(place.slot, ask.q);
      var (slot, _, job) := GraphCache.Answered(place.slot, ask.q);
      LaunchKeepsFlights(s, ask.at, slot, job, step.build, t);
    } else if step.Refresh? || step.StartMiss? {
      var (slot, mine) := Claimed(place.slot);
      var job := if mine then Some(NestedJob(place.mod, ask.q.buildFlags)) else None;
      if mine || step.Refresh? {
        LaunchKeepsFlights(s, ask.at, slot, job, step.build, t);
      } else {
        SamePlaces(s, t);
      }
    } else {
      SamePlaces(s, t);
    }
  }

  lemma FinishedFlies(place: Place, job: Job, graph: Graph, builds: map<nat, Build>, build: nat, at: nat, edits: nat,
                      r: Option<Job>)
    requires PlaceFlies(place, builds, at, edits, r) && build in builds && builds[build].at == at
    requires graph.seen == builds[build].seen
    ensures PlaceFlies(place.(slot := Stored(place.slot, job, graph)), builds - {build}, at, edits, r)
  {
    EndingAlone(builds, build, at);
  }

  lemma FinishKeepsFlights(cfg: Layout, s: Sys, step: UpkeepStep, t: Sys)
    requires Flights(s) && FinishNext(cfg, s, step) == Some(t)
    ensures Flights(t)
  {
    hide Flying, FollowedUp, Alone, Timely, PlaceFlies, SameElsewhere;
    var build := s.builds[step.build];
    var place := s.places[build.at];
    assert PlaceFlies(place, s.builds, build.at, s.edits, s.revalidate);
    assert SameElsewhere(s.builds, s.builds - {step.build}, build.at) by {
      EndingElsewhere(s.builds, step.build);
    }
    match step {
      case Finish(_, resp) =>
        var graph := Graph(resp, build.job.patterns, build.job.buildFlags, build.job.dir, build.seen);
        FinishedFlies(place, build.job, graph, s.builds, step.build, build.at, s.edits, s.revalidate);
      case Fail(_) =>
        FailedFlies(place, s.builds, step.build, build.at, s.edits, s.revalidate);
    }
    OneMoves(s, t, build.at);
  }

  lemma EndingElsewhere(builds: map<nat, Build>, build: nat)
    requires build in builds
    ensures SameElsewhere(builds, builds - {build}, builds[build].at)
  {
  }

  lemma FailedFlies(place: Place, builds: map<nat, Build>, build: nat, at: nat, edits: nat, r: Option<Job>)
    requires PlaceFlies(place, builds, at, edits, r) && build in builds && builds[build].at == at
    ensures var missed := builds[build].seen >= place.marked && !(place.slot.timer || Revalidating(r, at));
            PlaceFlies(place.(slot := BuildFailed(place.slot), failed := place.failed || missed),
                       builds - {build}, at, edits, r)
  {
    EndingAlone(builds, build, at);
  }

  lemma MarkingFlies(place: Place, builds: map<nat, Build>, at: nat, edits: nat, r: Option<Job>)
    requires PlaceFlies(place, builds, at, edits, r) && place.slot.patternsKey != ""
    ensures PlaceFlies(Place(place.mod, Marked(place.slot), edits, false, false), builds, at, edits, r)
  {
    hide Flying, Alone;
  }

  /** A mark of a slot never built is followed up by what is there to come or running
      already, or not at all. */
  lemma MarkingUnbuiltFlies(place: Place, builds: map<nat, Build>, at: nat, edits: nat, r: Option<Job>)
    requires PlaceFlies(place, builds, at, edits, r)
    ensures var due := place.slot.timer || Revalidating(r, at);
            var missed := !due && !Following(builds, at, edits);
            PlaceFlies(place.(marked := edits, dropped := missed, failed := false), builds, at, edits, r)
  {
    if Following(builds, at, edits) {
      assert forall b <- builds :: builds[b].at == at ==> builds[b].seen >= edits;
    }
    hide Flying;
  }

  /** The timer or the revalidation falls into a running build. */
  lemma DroppingFlies(place: Place, slot: Slot, builds: map<nat, Build>, at: nat, edits: nat, r: Option<Job>,
                      q: Option<Job>)
    requires PlaceFlies(place, builds, at, edits, r) && place.slot.building
    requires slot == place.slot.(timer := slot.timer) && (place.slot.timer || Revalidating(r, at))
    ensures var missed := !(slot.timer || Revalidating(q, at)) && OlderRuns(builds, at, place.marked);
            PlaceFlies(place.(slot := slot, dropped := place.dropped || missed), builds, at, edits, q)
  {
    assert Following(builds, at, place.marked) <==> !OlderRuns(builds, at, place.marked);
    hide Flying;
  }

  lemma MarkKeepsFlights(s: Sys, step: UpkeepStep, t: Sys)
    requires Flights(s) && MarkNext(s, step) == Some(t)
    ensures Flights(t)
  {
    hide Flying, FollowedUp, Alone, Timely, PlaceFlies, SameElsewhere;
    if step.MarkStale? {
      var place := s.places[step.at];
      assert PlaceFlies(place, s.builds, step.at, s.edits, s.revalidate);
      if place.slot.patternsKey == "" {
        MarkingUnbuiltFlies(place, s.builds, step.at, s.edits, s.revalidate);
      } else {
        MarkingFlies(place, s.builds, step.at, s.edits, s.revalidate);
      }
      SameBuilds(s.builds, step.at);
      OneMoves(s, t, step.at);
    } else if step.TimerFires? {
      TimerKeepsFlights(s, step, t);
    } else {
      SamePlaces(s, t);
    }
  }

  lemma SameBuilds(builds: map<nat, Build>, at: nat)
    ensures SameElsewhere(builds, builds, at)
  {
  }

  lemma TimerKeepsFlights(s: Sys, step: UpkeepStep, t: Sys)
    requires Flights(s) && step.TimerFires? && MarkNext(s, step) == Some(t)
    ensures Flights(t)
  {
    hide Flying, FollowedUp, Alone, Timely, PlaceFlies, SameElsewhere;
    var place := s.places[step.at];
    var slot := TimerWentOff(place.slot).0;
    var r := s.revalidate;
    assert PlaceFlies(place, s.builds, step.at, s.edits, r);
    if place.slot.building {
      DroppingFlies(place, slot, s.builds, step.at, s.edits, r, r);
      SameBuilds(s.builds, step.at);
    } else {
      LaunchingFlies(place, slot, s.builds, step.build, SlotJob(place.slot), step.at, s.edits, r, r);
    }
    OneMoves(s, t, step.at);
  }

  /** The revalidation of a loaded graph follows up any mark. */
  lemma LoadingFlies(place: Place, slot: Slot, builds: map<nat, Build>, edits: nat, r: Option<Job>, q: Option<Job>)
    requires PlaceFlies(place, builds, MAIN, edits, r) && slot.building == place.slot.building && q.Some?
    ensures PlaceFlies(place.(slot := slot, dropped := false, failed := false), builds, MAIN, edits, q)
  {
    hide Flying, Following, Alone;
  }

  lemma LoadingKeepsBuilding()
    ensures forall slot, here, graph, resp :: LoadedSlot(slot, here, graph, resp).building == slot.building
  {
  }

  lemma LoadKeepsFlights(cfg: Layout, s: Sys, t: Sys)
    requires Flights(s) && DiskNext(cfg, s, Load) == Some(t)
    ensures Flights(t)
  {
    hide Flying, FollowedUp, Alone, Timely, PlaceFlies, SameElsewhere, RootRewrite.RetargetGraph, LoadedSlot;
    assert forall slot, here, graph, resp :: LoadedSlot(slot, here, graph, resp).building == slot.building by {
      LoadingKeepsBuilding();
    }
    if t == s.(loaded := true) {
      SamePlaces(s, t);
    } else {
      var place := s.places[MAIN];
      assert PlaceFlies(place, s.builds, MAIN, s.edits, s.revalidate);
      LoadingFlies(place, t.places[MAIN].slot, s.builds, s.edits, s.revalidate, t.revalidate);
      SameBuilds(s.builds, MAIN);
      OneMoves(s, t, MAIN);
    }
  }

  lemma RevalidateKeepsFlights(cfg: Layout, s: Sys, step: UpkeepStep, t: Sys)
    requires Flights(s) && DiskNext(cfg, s, step) == Some(t) && (step.Revalidate? || step.Save?)
    ensures Flights(t)
  {
    hide PlaceFlies, SameElsewhere;
    if step.Revalidate? {
      var place := s.places[MAIN];
      if place.slot.building {
        assert PlaceFlies(place, s.builds, MAIN, s.edits, s.revalidate);
        DroppingFlies(place, place.slot, s.builds, MAIN, s.edits, s.revalidate, None);
        SameBuilds(s.builds, MAIN);
        OneMoves(s, t, MAIN);
      } else {
        LaunchKeepsFlights(s, MAIN, place.slot.(building := true), s.revalidate, step.build, t);
      }
    } else {
      SamePlaces(s, t);
    }
  }

  // ---- over every run ------------------------------------------------------

  lemma StepKeepsFlights(cfg: Layout, s: Sys, step: Step, t: Sys)
    requires Flights(s) && Next(cfg, s, step) == Some(t)
    ensures Flights(t)
  {
    hide *;
    StepCases(cfg, s, step, t);
    match step {
      case QueryDoes(q) =>
        if q.Arrive? {
          ArriveKeepsFlights(cfg, s, q.id, q.q, q.newSlot, t);
        } else {
          QueryKeepsFlights(s, q, t);
        }
      case UpkeepDoes(u) =>
        if u.Finish? || u.Fail? {
          FinishKeepsFlights(cfg, s, u, t);
        } else if u.Load? {
          LoadKeepsFlights(cfg, s, t);
        } else if u.Revalidate? || u.Save? {
          RevalidateKeepsFlights(cfg, s, u, t);
        } else {
          MarkKeepsFlights(s, u, t);
        }
    }
  }

  lemma {:induction false} RunsKeepFlights(cfg: Layout, s: Sys, steps: seq<Step>)
    requires Flights(s) && Run(cfg, s, steps).Some?
    ensures Flights(Run(cfg, s, steps).value)
    decreases steps
  {
    hide Next, Flights;
    if steps != [] {
      var t := Next(cfg, s, steps[0]).value;
      StepKeepsFlights(cfg, s, steps[0], t);
      RunsKeepFlights(cfg, t, steps[1..]);
    }
  }

  lemma ReachableKeepsFlights(cfg: Layout, disk: Option<Saved>, s: Sys)
    requires Reachable(cfg, disk, s)
    ensures Flights(s)
  {
    hide Run;
    var steps :| Run(cfg, Initial(disk), steps) == Some(s);
    RunsKeepFlights(cfg, Initial(disk), steps);
  }

  /** Single flight: a slot is marked building exactly while one build is running
      for it. */
  lemma BuildingIsOneBuild(cfg: Layout, disk: Option<Saved>, s: Sys, at: nat)
    requires Reachable(cfg, disk, s) && at in s.places
    ensures s.places[at].slot.building <==> exists b <- s.builds :: s.builds[b].at == at
    ensures forall b, c | b in s.builds && c in s.builds :: s.builds[b].at == at && s.builds[c].at == at ==> b == c
  {
    hide Reachable, FollowedUp, Timely;
    ReachableKeepsFlights(cfg, disk, s);
    assert PlaceFlies(s.places[at], s.builds, at, s.edits, s.revalidate);
  }

  /** A graph older than the slot's last mark is going to be rebuilt, by its timer, by
      the revalidation of the loaded cache or by a build begun after the mark, if and
      only if the mark was not missed since the last build was started: neither it nor
      the last rebuild to come fell into a build older than the mark, the mark because
      the slot had never been built, and no build begun after it failed with no rebuild
      to come. */
  lemma MarksAreFollowedUp(cfg: Layout, disk: Option<Saved>, s: Sys, at: nat)
    requires Reachable(cfg, disk, s) && at in s.places
    requires s.places[at].slot.graph.Some? && s.places[at].slot.graph.value.seen < s.places[at].marked
    ensures (s.places[at].slot.timer || (at == MAIN && s.revalidate.Some?)
             || exists b <- s.builds :: s.builds[b].at == at && s.builds[b].seen >= s.places[at].marked)
            <==> !s.places[at].dropped && !s.places[at].failed
  {
    hide Reachable, Flying, Alone, Timely;
    ReachableKeepsFlights(cfg, disk, s);
    assert PlaceFlies(s.places[at], s.builds, at, s.edits, s.revalidate);
  }
}
