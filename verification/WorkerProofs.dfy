/** Generations, reservations and idle eviction of the worker, over every run. */
module WorkerProofs {
  import opened Options
  import opened Worker
  import opened WorkerSystem

  // ---- generations ---------------------------------------------------------

  ghost predicate Distinct(closed: seq<nat>) {
    forall i, j | 0 <= i < j < |closed| :: closed[i] != closed[j]
  }

  /** Ready channels: each closed at most once, all but the current one closed, and
      the current one closed exactly when readyDone says so. */
  ghost predicate ChannelsAccounted(h: Handle) {
    && Distinct(h.closed)
    && (forall g <- h.closed :: 1 <= g <= h.gen)
    && (forall g | 1 <= g < h.gen :: g in h.closed)
    && (h.gen >= 1 ==> (h.gen in h.closed <==> h.readyDone))
  }

  ghost predicate GenerationsOk(h: Handle, replayed: set<nat>) {
    && ChannelsAccounted(h)
    && (h.gen == 0 ==> !h.readyDone)
    && (h.client.Some? ==> h.client.value == h.gen && h.gen >= 1 && h.initErr == None)
    && (h.gen >= 1 && h.client == None ==> h.readyDone)
    && (!h.readyDone ==> h.initErr == None)
    && (forall g <- replayed :: 1 <= g <= h.gen)
    && (h.gen in replayed <==> h.gen >= 1 && h.readyDone && h.initErr == None)
  }

  /** A handle differs only in what generations do not depend on. */
  ghost predicate SameGeneration(h: Handle, k: Handle) {
    && k.client == h.client && k.gen == h.gen && k.readyDone == h.readyDone && k.initErr == h.initErr
    && k.closed == h.closed
  }

  lemma SameGenerationIsOk(h: Handle, k: Handle, replayed: set<nat>)
    requires GenerationsOk(h, replayed) && SameGeneration(h, k)
    ensures GenerationsOk(k, replayed)
  {
  }

  lemma ClosingIsAccounted(h: Handle)
    requires ChannelsAccounted(h) && h.gen >= 1
    ensures ChannelsAccounted(ReadyClosed(h)) && ReadyClosed(h).readyDone
  {
    assert forall g :: g in h.closed + [h.gen] <==> g in h.closed || g == h.gen;
  }

  lemma SpawningIsOk(h: Handle, replayed: set<nat>, ttl: int)
    requires GenerationsOk(h, replayed) && h.client == None
    ensures GenerationsOk(Spawned(h, ttl), replayed)
  {
    assert forall g | 1 <= g < h.gen + 1 :: g in h.closed;
  }

  lemma StartingIsOk(h: Handle, replayed: set<nat>, spawns: bool, ttl: int)
    requires GenerationsOk(h, replayed)
    ensures Started(h, spawns, ttl).Some? ==> GenerationsOk(Started(h, spawns, ttl).value, replayed)
  {
    hide GenerationsOk, Spawned;
    if h.client == None {
      SpawningIsOk(h, replayed, ttl);
    }
  }

  lemma TearingDownIsOk(h: Handle, replayed: set<nat>)
    requires GenerationsOk(h, replayed) && h.gen >= 1
    ensures GenerationsOk(TornDown(h), replayed)
  {
    hide ChannelsAccounted;
    var down := h.(client := None, evictTimer := NoTimer,
                   initErr := if h.initErr == None then Some(WorkerExited) else h.initErr);
    assert ChannelsAccounted(down) && ChannelsAccounted(h.(client := None, evictTimer := NoTimer)) by {
      SameChannels(h, down);
      SameChannels(h, h.(client := None, evictTimer := NoTimer));
    }
    ClosingIsAccounted(down);
  }

  lemma SameChannels(h: Handle, k: Handle)
    requires ChannelsAccounted(h) && k.gen == h.gen && k.readyDone == h.readyDone && k.closed == h.closed
    ensures ChannelsAccounted(k)
  {
  }

  lemma FailingIsOk(h: Handle, replayed: set<nat>)
    requires GenerationsOk(h, replayed) && h.gen >= 1 && !h.readyDone
    ensures GenerationsOk(InitFailed(h), replayed)
  {
    hide ChannelsAccounted;
    var down := h.(initErr := Some(InitializeFailed), client := None, pendingObs := [], evictTimer := NoTimer);
    SameChannels(h, down);
    ClosingIsAccounted(down);
  }

  lemma GoingLiveIsOk(h: Handle, replayed: set<nat>)
    requires GenerationsOk(h, replayed) && h.gen >= 1 && !h.readyDone && h.client.Some?
    ensures GenerationsOk(WentLive(h), replayed + {h.gen})
  {
    hide ChannelsAccounted;
    SameChannels(h, h.(pendingObs := []));
    ClosingIsAccounted(h.(pendingObs := []));
  }

  /** While initWorker holds h.mu its generation is current and still loading. */
  ghost predicate LockOk(s: Sys) {
    s.lock != Free ==> s.h.client.Some? && !s.h.readyDone
  }

  ghost predicate Generations(s: Sys) {
    GenerationsOk(s.h, s.replayed) && LockOk(s)
  }

  lemma PumpKeepsGenerations(cfg: Config, s: Sys, step: PumpStep, t: Sys)
    requires Generations(s) && PumpNext(cfg, s, step) == Some(t)
    ensures Generations(t)
  {
    hide GenerationsOk, PumpNext;
    PumpFrame(cfg, s, step, t);
    SameGenerationIsOk(s.h, t.h, s.replayed);
  }

  lemma RequestKeepsGenerations(cfg: Config, s: Sys, step: RequestStep, t: Sys)
    requires Generations(s) && RequestNext(cfg, s, step) == Some(t)
    ensures Generations(t)
  {
    hide GenerationsOk, Started, PassesGate;
    if step.Acquire? {
      StartingIsOk(s.h, s.replayed, step.spawns, cfg.ttl);
      SameGenerationIsOk(Started(s.h, step.spawns, cfg.ttl).value, t.h, s.replayed);
    } else {
      SameGenerationIsOk(s.h, t.h, s.replayed);
    }
  }

  lemma LifeKeepsGenerations(cfg: Config, s: Sys, step: LifeStep, t: Sys)
    requires Generations(s) && LifeNext(cfg, s, step) == Some(t)
    ensures Generations(t)
  {
    hide GenerationsOk, TornDown, Started;
    if step.Warm? {
      StartingIsOk(s.h, s.replayed, step.spawns, cfg.ttl);
    } else if s.h.gen >= 1 {
      TearingDownIsOk(s.h, s.replayed);
    } else {
      assert s.h.client == None by { NoClientAtFirst(s.h, s.replayed); }
    }
  }

  lemma NoClientAtFirst(h: Handle, replayed: set<nat>)
    requires GenerationsOk(h, replayed)
    ensures h.client.Some? ==> h.gen >= 1
  {
    hide ChannelsAccounted;
  }

  lemma ReplayFrame(cfg: Config, s: Sys, step: LifeStep, t: Sys)
    requires ReplayNext(cfg, s, step) == Some(t)
    ensures t.openDocs == s.openDocs && t.pump == s.pump && t.requests == s.requests
    ensures t.callbacks == s.callbacks && t.taken == s.taken
    ensures (step.Snapshot? || step.WriteOpen? || step.ReadNote? || step.WriteNote?)
            ==> s.lock != Free && t.lock != Free && t.h == s.h && t.replayed == s.replayed
    ensures step.GoLive? ==> s.lock.Replaying? && t.lock == Free && t.h == WentLive(s.h)
    ensures step.GoLive? ==> t.replayed == s.replayed + {s.h.gen}
    ensures step.InitDone? ==> s.lock == Free && t.replayed == s.replayed
    ensures step.InitDone? && t != s ==> step.gen != 0 && step.gen == s.h.gen && !s.h.readyDone
    ensures step.InitDone? && t != s && t.lock == Free ==> t.h == InitFailed(s.h)
    ensures step.InitDone? && t != s && t.lock != Free ==> t.lock == Loaded && t.h == s.h.(initErr := None)
    ensures !step.Warm? && !step.Exit? && !step.Stop?
  {
    hide IsSnapshot, MirrorOf, Written, InitFailed, WentLive;
    match step
    case InitDone(_, failed) =>
      assert t == s || t == s.(h := InitFailed(s.h)) || t == s.(h := s.h.(initErr := None), lock := Loaded);
    case Snapshot(_) => assert t == s.(lock := t.lock);
    case WriteOpen =>
      WrittenFrame(s, s.h.gen, DidOpen(s.lock.opens[0]));
      assert t == s.(views := t.views, heard := t.heard, lock := t.lock);
    case ReadNote => assert t == s.(lock := t.lock);
    case WriteNote =>
      WrittenFrame(s, s.h.gen, s.lock.sending.value);
      assert t == s.(views := t.views, heard := t.heard, lock := t.lock);
    case GoLive => assert t == s.(h := WentLive(s.h), lock := Free, replayed := s.replayed + {s.h.gen});
  }

  lemma ReplayKeepsGenerations(cfg: Config, s: Sys, step: LifeStep, t: Sys)
    requires Generations(s) && ReplayNext(cfg, s, step) == Some(t)
    ensures Generations(t)
  {
    hide ReplayNext, InitFailed, WentLive, ChannelsAccounted;
    ReplayFrame(cfg, s, step, t);
    if step.GoLive? {
      GoingLiveIsOk(s.h, s.replayed);
    } else if step.InitDone? && t != s {
      FailingIsOk(s.h, s.replayed);
      SameGenerationIsOk(s.h, s.h.(initErr := None), s.replayed);
    }
    assert t.lock == Free || t.h.client.Some?;
  }

  lemma EvictKeepsGenerations(s: Sys, step: EvictStep, t: Sys)
    requires Generations(s) && EvictNext(s, step) == Some(t)
    ensures Generations(t)
  {
    hide GenerationsOk, TornDown, IdleNow;
    if step.Evict? {
      if s.h.client.Some? {
        NoClientAtFirst(s.h, s.replayed);
        TearingDownIsOk(s.h, s.replayed);
      }
    } else {
      SameGenerationIsOk(s.h, t.h, s.replayed);
    }
  }

  // ---- reservations --------------------------------------------------------

  ghost predicate Reservations(s: Sys) {
    s.h.holds == |s.requests|
  }

  lemma Sizes(m: map<nat, Request>, id: nat, r: Request)
    ensures |m[id := r]| == if id in m then |m| else |m| + 1
    ensures |m - {id}| == if id in m then |m| - 1 else |m|
  {
    assert m[id := r].Keys == m.Keys + {id};
    assert (m - {id}).Keys == m.Keys - {id};
  }

  lemma StartingHolds(h: Handle, spawns: bool, ttl: int)
    ensures Started(h, spawns, ttl).Some? ==> Started(h, spawns, ttl).value.holds == h.holds
  {
  }

  lemma RequestKeepsReservations(cfg: Config, s: Sys, step: RequestStep, t: Sys)
    requires Reservations(s) && RequestNext(cfg, s, step) == Some(t)
    ensures Reservations(t)
  {
    hide Started, PassesGate, Rearmed;
    if step.id in t.requests {
      Sizes(s.requests, step.id, t.requests[step.id]);
      if step.Acquire? {
        StartingHolds(s.h, step.spawns, cfg.ttl);
      }
    } else {
      Sizes(s.requests, step.id, Leaving);
      RearmingHolds(s.h.(holds := s.h.holds - 1), cfg.ttl);
    }
  }

  lemma RearmingHolds(h: Handle, ttl: int)
    ensures Rearmed(h, ttl).holds == h.holds
  {
  }

  // ---- the gate ------------------------------------------------------------

  ghost predicate RequestOk(h: Handle, replayed: set<nat>, r: Request) {
    match r
    case Waiting(gen) => 1 <= gen <= h.gen
    case Woken(gen) => gen in h.closed
    case Serving(gen) => gen in replayed
    case Leaving => true
  }

  ghost predicate RequestsOk(s: Sys) {
    forall id <- s.requests :: RequestOk(s.h, s.replayed, s.requests[id])
  }

  /** Generations only move forward. */
  ghost predicate Forward(s: Sys, t: Sys) {
    s.h.gen <= t.h.gen && s.replayed <= t.replayed && s.h.closed <= t.h.closed
  }

  lemma ForwardKeepsRequest(s: Sys, t: Sys, r: Request)
    requires RequestOk(s.h, s.replayed, r) && Forward(s, t)
    ensures RequestOk(t.h, t.replayed, r)
  {
    if r.Woken? {
      var i :| 0 <= i < |s.h.closed| && s.h.closed[i] == r.gen;
      assert t.h.closed[i] == r.gen;
    }
  }

  lemma ForwardKeepsRequests(s: Sys, t: Sys)
    requires RequestsOk(s) && Forward(s, t) && t.requests == s.requests
    ensures RequestsOk(t)
  {
    forall id | id in t.requests ensures RequestOk(t.h, t.replayed, t.requests[id]) {
      ForwardKeepsRequest(s, t, s.requests[id]);
    }
  }

  /** The other actors neither reserve nor release. */
  ghost predicate Aside(s: Sys, t: Sys) {
    t.h.holds == s.h.holds && t.requests == s.requests && t.taken == s.taken && Forward(s, t)
  }

  lemma PumpIsAside(cfg: Config, s: Sys, step: PumpStep, t: Sys)
    requires PumpNext(cfg, s, step) == Some(t)
    ensures Aside(s, t) && t.callbacks == s.callbacks && t.lock == s.lock
  {
    hide PumpNext;
    PumpFrame(cfg, s, step, t);
  }

  lemma LifeIsAside(cfg: Config, s: Sys, step: LifeStep, t: Sys)
    requires LifeNext(cfg, s, step) == Some(t)
    ensures Aside(s, t) && t.callbacks == s.callbacks && t.lock == s.lock
  {
  }

  lemma ReplayIsAside(cfg: Config, s: Sys, step: LifeStep, t: Sys)
    requires ReplayNext(cfg, s, step) == Some(t)
    ensures Aside(s, t) && t.callbacks == s.callbacks
  {
    hide ReplayNext;
    ReplayFrame(cfg, s, step, t);
  }

  /** A new decision to evict finds nothing held. */
  ghost predicate DecidesIdle(s: Sys, t: Sys) {
    forall id <- t.callbacks | t.callbacks[id].Decided? ::
      (id in s.callbacks && s.callbacks[id] == t.callbacks[id])
      || (t.callbacks[id].taken == s.taken && s.h.holds == 0)
  }

  lemma EvictIsAside(s: Sys, step: EvictStep, t: Sys)
    requires EvictNext(s, step) == Some(t)
    ensures Aside(s, t) && DecidesIdle(s, t) && t.lock == s.lock
  {
  }

  lemma OthersAreAside(cfg: Config, s: Sys, step: Step, t: Sys)
    requires Next(cfg, s, step) == Some(t) && !step.RequestDoes?
    ensures Aside(s, t) && DecidesIdle(s, t)
  {
    hide *;
    StepCases(cfg, s, step, t);
    match step {
      case PumpDoes(p) => PumpIsAside(cfg, s, p, t);
      case LifeDoes(l) =>
        if LifeNext(cfg, s, l) == Some(t) {
          LifeIsAside(cfg, s, l, t);
        } else {
          ReplayIsAside(cfg, s, l, t);
        }
      case EvictDoes(e) => EvictIsAside(s, e, t);
    }
    if t.callbacks == s.callbacks {
      SameCallbacks(s, t);
    }
  }

  lemma SameCallbacks(s: Sys, t: Sys)
    requires t.callbacks == s.callbacks
    ensures DecidesIdle(s, t)
  {
  }

  lemma RequestGoesForward(cfg: Config, s: Sys, step: RequestStep, t: Sys)
    requires RequestNext(cfg, s, step) == Some(t)
    ensures Forward(s, t) && t.replayed == s.replayed && t.lock == s.lock
    ensures forall id <- t.requests :: id == step.id || (id in s.requests && t.requests[id] == s.requests[id])
  {
    hide PassesGate;
  }

  /** A request passes the gate of a generation that has been replayed. */
  lemma PassingIsReplayed(h: Handle, replayed: set<nat>, gen: nat)
    requires GenerationsOk(h, replayed) && gen in h.closed && PassesGate(h, gen)
    ensures gen in replayed
  {
  }

  lemma RequestKeepsRequests(cfg: Config, s: Sys, step: RequestStep, t: Sys)
    requires GenerationsOk(s.h, s.replayed) && RequestsOk(s) && RequestNext(cfg, s, step) == Some(t)
    ensures RequestsOk(t)
  {
    hide GenerationsOk, PassesGate, Forward, RequestOk;
    RequestGoesForward(cfg, s, step, t);
    forall id | id in t.requests ensures RequestOk(t.h, t.replayed, t.requests[id]) {
      if id == step.id {
        OwnRequest(cfg, s, step, t);
      } else {
        ForwardKeepsRequest(s, t, s.requests[id]);
      }
    }
  }

  lemma OwnRequest(cfg: Config, s: Sys, step: RequestStep, t: Sys)
    requires GenerationsOk(s.h, s.replayed) && RequestsOk(s) && RequestNext(cfg, s, step) == Some(t)
    requires step.id in t.requests
    ensures RequestOk(t.h, t.replayed, t.requests[step.id])
  {
    hide GenerationsOk;
    assert step.id in s.requests ==> RequestOk(s.h, s.replayed, s.requests[step.id]);
    if step.Check? && PassesGate(s.h, s.requests[step.id].gen) {
      PassingIsReplayed(s.h, s.replayed, s.requests[step.id].gen);
    }
    if step.Acquire? {
      NoClientAtFirst(s.h, s.replayed);
    }
  }

  // ---- idle eviction -------------------------------------------------------

  ghost predicate CallbackFor(callbacks: map<nat, Callback>, gen: nat) {
    exists id <- callbacks :: callbacks[id].gen == gen
  }

  /** An idle live worker has a timer armed for it or a callback on its way; no
      callback is for a generation to come. */
  ghost predicate Watched(cfg: Config, s: Sys) {
    && (forall id <- s.callbacks :: s.callbacks[id].gen <= s.h.gen)
    && (s.h.evictTimer.Armed? ==> s.h.evictTimer.gen == s.h.gen && s.h.client.Some?)
    && (cfg.ttl > 0 && s.h.client.Some? && s.h.holds == 0 ==>
          s.h.evictTimer == Armed(s.h.gen) || CallbackFor(s.callbacks, s.h.gen))
  }

  lemma PumpKeepsWatch(cfg: Config, s: Sys, step: PumpStep, t: Sys)
    requires Watched(cfg, s) && PumpNext(cfg, s, step) == Some(t)
    ensures Watched(cfg, t)
  {
    hide PumpNext, CallbackFor;
    PumpFrame(cfg, s, step, t);
  }

  lemma RequestKeepsWatch(cfg: Config, s: Sys, step: RequestStep, t: Sys)
    requires Watched(cfg, s) && Reservations(s) && RequestNext(cfg, s, step) == Some(t)
    ensures Watched(cfg, t)
  {
    hide PassesGate, CallbackFor;
  }

  lemma LifeKeepsWatch(cfg: Config, s: Sys, step: LifeStep, t: Sys)
    requires Watched(cfg, s) && LifeNext(cfg, s, step) == Some(t)
    ensures Watched(cfg, t)
  {
    hide CallbackFor;
  }

  lemma ReplayKeepsWatch(cfg: Config, s: Sys, step: LifeStep, t: Sys)
    requires Watched(cfg, s) && ReplayNext(cfg, s, step) == Some(t)
    ensures Watched(cfg, t)
  {
    hide ReplayNext, CallbackFor;
    ReplayFrame(cfg, s, step, t);
  }

  lemma EvictKeepsWatch(cfg: Config, s: Sys, step: EvictStep, t: Sys)
    requires Watched(cfg, s) && EvictNext(s, step) == Some(t)
    ensures Watched(cfg, t)
  {
    if step.Fire? {
      assert step.id in t.callbacks && t.callbacks[step.id].gen == s.h.evictTimer.gen;
    } else if step.Decide? && CallbackFor(s.callbacks, s.h.gen) && s.h.client.Some? && s.h.holds == 0 {
      var id :| id in s.callbacks && s.callbacks[id].gen == s.h.gen;
      assert id in t.callbacks && t.callbacks[id].gen == s.h.gen;
    }
  }

  /** A callback that decided to evict found nothing held; without a reservation
      since, nothing is held now. */
  ghost predicate DecidedIdle(s: Sys) {
    forall id <- s.callbacks | s.callbacks[id].Decided? ::
      s.callbacks[id].taken <= s.taken && (s.callbacks[id].taken == s.taken ==> s.h.holds == 0)
  }

  lemma RequestKeepsDecisions(cfg: Config, s: Sys, step: RequestStep, t: Sys)
    requires DecidedIdle(s) && Reservations(s) && RequestNext(cfg, s, step) == Some(t)
    ensures DecidedIdle(t)
  {
    hide PassesGate, Started, Rearmed;
    RequestKeepsReservations(cfg, s, step, t);
    Sizes(s.requests, step.id, Leaving);
  }

  lemma OthersKeepDecisions(s: Sys, t: Sys)
    requires DecidedIdle(s) && Aside(s, t) && DecidesIdle(s, t)
    ensures DecidedIdle(t)
  {
    hide Forward;
  }

  // ---- over every run ------------------------------------------------------

  ghost predicate WorkerHolds(cfg: Config, s: Sys) {
    Generations(s) && Reservations(s) && RequestsOk(s) && Watched(cfg, s) && DecidedIdle(s)
  }

  lemma StepKeepsGenerations(cfg: Config, s: Sys, step: Step, t: Sys)
    requires Generations(s) && Next(cfg, s, step) == Some(t)
    ensures Generations(t)
  {
    hide *;
    StepCases(cfg, s, step, t);
    match step
    case PumpDoes(p) => PumpKeepsGenerations(cfg, s, p, t);
    case RequestDoes(r) => RequestKeepsGenerations(cfg, s, r, t);
    case LifeDoes(l) =>
      if LifeNext(cfg, s, l) == Some(t) {
        LifeKeepsGenerations(cfg, s, l, t);
      } else {
        ReplayKeepsGenerations(cfg, s, l, t);
      }
    case EvictDoes(e) => EvictKeepsGenerations(s, e, t);
  }

  lemma StepKeepsWatch(cfg: Config, s: Sys, step: Step, t: Sys)
    requires Watched(cfg, s) && Reservations(s) && Next(cfg, s, step) == Some(t)
    ensures Watched(cfg, t)
  {
    hide *;
    StepCases(cfg, s, step, t);
    match step
    case PumpDoes(p) => PumpKeepsWatch(cfg, s, p, t);
    case RequestDoes(r) => RequestKeepsWatch(cfg, s, r, t);
    case LifeDoes(l) =>
      if LifeNext(cfg, s, l) == Some(t) {
        LifeKeepsWatch(cfg, s, l, t);
      } else {
        ReplayKeepsWatch(cfg, s, l, t);
      }
    case EvictDoes(e) => EvictKeepsWatch(cfg, s, e, t);
  }

  lemma StepKeepsWorker(cfg: Config, s: Sys, step: Step, t: Sys)
    requires WorkerHolds(cfg, s) && Next(cfg, s, step) == Some(t)
    ensures WorkerHolds(cfg, t)
  {
    hide Next, GenerationsOk, LockOk, RequestsOk, Watched, DecidedIdle;
    StepKeepsGenerations(cfg, s, step, t);
    StepKeepsWatch(cfg, s, step, t);
    if step.RequestDoes? {
      StepCases(cfg, s, step, t);
      hide Reservations;
      RequestKeepsReservations(cfg, s, step.r, t);
      RequestKeepsRequests(cfg, s, step.r, t);
      RequestKeepsDecisions(cfg, s, step.r, t);
    } else {
      OthersAreAside(cfg, s, step, t);
      hide DecidesIdle;
      ForwardKeepsRequests(s, t);
      OthersKeepDecisions(s, t);
    }
  }

  lemma {:induction false} RunsKeepWorker(cfg: Config, s: Sys, steps: seq<Step>)
    requires WorkerHolds(cfg, s) && Run(cfg, s, steps).Some?
    ensures WorkerHolds(cfg, Run(cfg, s, steps).value)
    decreases steps
  {
    hide Next, WorkerHolds;
    if steps != [] {
      var t := Next(cfg, s, steps[0]).value;
      StepKeepsWorker(cfg, s, steps[0], t);
      RunsKeepWorker(cfg, t, steps[1..]);
    }
  }

  lemma ReachableKeepsWorker(cfg: Config, s: Sys)
    requires Reachable(cfg, s)
    ensures WorkerHolds(cfg, s)
  {
    hide Run;
    var steps :| Run(cfg, INITIAL, steps) == Some(s);
    RunsKeepWorker(cfg, INITIAL, steps);
  }

  /** Each generation's ready channel is closed at most once; every generation but
      the live one has it closed, so nobody is left waiting on it. */
  lemma ReadyIsClosedOnce(cfg: Config, s: Sys, i: nat, j: nat, gen: nat)
    requires Reachable(cfg, s)
    ensures i < j < |s.h.closed| ==> s.h.closed[i] != s.h.closed[j]
    ensures 1 <= gen <= s.h.gen && s.h.client != Some(gen) ==> gen in s.h.closed
    ensures 1 <= s.h.gen ==> (s.h.gen in s.h.closed <==> s.h.readyDone)
  {
    hide Reachable, Reservations, RequestsOk, Watched, DecidedIdle;
    ReachableKeepsWorker(cfg, s);
  }

  /** A waiting request can wake unless its generation is alive and still loading. */
  lemma NoWaiterIsStranded(cfg: Config, s: Sys, id: nat)
    requires Reachable(cfg, s) && id in s.requests && s.requests[id].Waiting?
    ensures RequestNext(cfg, s, Wake(id)).Some?
            || (s.h.client == Some(s.requests[id].gen) && !s.h.readyDone)
  {
    hide Reachable, Reservations, Watched, DecidedIdle;
    ReachableKeepsWorker(cfg, s);
    assert RequestOk(s.h, s.replayed, s.requests[id]);
  }

  /** The worker is usable exactly when its generation's replay ran. */
  lemma UsableExactlyWhenReplayed(cfg: Config, s: Sys)
    requires Reachable(cfg, s) && s.h.gen >= 1
    ensures s.h.readyDone && s.h.initErr == None <==> s.h.gen in s.replayed
  {
    hide Reachable, ChannelsAccounted, Reservations, RequestsOk, Watched, DecidedIdle;
    ReachableKeepsWorker(cfg, s);
  }

  /** A request is forwarded only to a generation that was initialized and fully
      replayed. */
  lemma GateOpensAfterReplay(cfg: Config, s: Sys, id: nat)
    requires Reachable(cfg, s) && id in s.requests && s.requests[id].Serving?
    ensures s.requests[id].gen in s.replayed
  {
    hide Reachable, Generations, Reservations, Watched, DecidedIdle;
    ReachableKeepsWorker(cfg, s);
    assert RequestOk(s.h, s.replayed, s.requests[id]);
  }

  /** holds counts the requests between acquire and release. */
  lemma HoldsCountRequests(cfg: Config, s: Sys)
    requires Reachable(cfg, s)
    ensures s.h.holds == |s.requests|
  {
    hide Reachable, Generations, RequestsOk, Watched, DecidedIdle;
    ReachableKeepsWorker(cfg, s);
  }

  /** An idle worker is never leaked: with a positive TTL and no request, it has an
      eviction timer armed or an eviction callback on its way. */
  lemma IdleWorkerIsWatched(cfg: Config, s: Sys)
    requires Reachable(cfg, s) && cfg.ttl > 0 && s.h.client.Some? && s.requests == map[]
    ensures s.h.evictTimer == Armed(s.h.gen)
            || exists id <- s.callbacks :: s.callbacks[id].gen == s.h.gen
  {
    hide Reachable, Generations, RequestsOk, DecidedIdle;
    ReachableKeepsWorker(cfg, s);
  }

  /** An eviction that no acquire has overtaken since it was decided finds a worker
      nothing holds; the live worker is of the generation it was decided for or of a
      later one. */
  lemma UnovertakenEvictionIsIdle(cfg: Config, s: Sys, id: nat)
    requires Reachable(cfg, s) && id in s.callbacks && s.callbacks[id].Decided?
    ensures s.callbacks[id].taken == s.taken ==> s.requests == map[]
    ensures s.h.client.Some? ==> s.h.client.value == s.h.gen >= s.callbacks[id].gen
  {
    hide Reachable, ChannelsAccounted, RequestsOk, CallbackFor;
    ReachableKeepsWorker(cfg, s);
  }

  /** The step takes generation gen's worker down. */
  predicate Stops(s: Sys, t: Sys, gen: nat) {
    s.h.client == Some(gen) && t.h.client == None
  }

  /** What the shutdown takes down: whichever worker is alive, of its own generation or a
      later one; so the worker it was decided for if and only if one is alive and no
      later generation was started. */
  lemma EvictionStopsCurrentGeneration(cfg: Config, s: Sys, id: nat, t: Sys)
    requires Reachable(cfg, s) && Next(cfg, s, EvictDoes(Evict(id))) == Some(t)
    ensures id in s.callbacks && s.callbacks[id].gen <= s.h.gen
    ensures Stops(s, t, s.callbacks[id].gen) <==> s.h.client.Some? && s.h.gen == s.callbacks[id].gen
    ensures forall g: nat :: Stops(s, t, g) <==> s.h.client.Some? && g == s.h.gen
    ensures t.h.client == None && t.h.gen == s.h.gen && (s.h.client == None ==> t.h == s.h)
  {
    hide Reachable, ChannelsAccounted, RequestsOk, CallbackFor, Reservations, DecidedIdle;
    ReachableKeepsWorker(cfg, s);
    if s.h.client.Some? {
      assert Stops(s, t, s.h.gen);
    }
  }

  // ---- the race left open --------------------------------------------------

  /** A worker is acquired, released, and its idle timer fires and decides. */
  lemma DecidedToEvict(cfg: Config, s: Sys)
    requires cfg.ttl > 0
    requires s == INITIAL.(h := NEW.(client := Some(1), gen := 1, evictTimer := WentOff),
                           views := map[1 := map[]], heard := map[1 := []],
                           callbacks := map[0 := Decided(1, 1)], taken := 1)
    ensures Reachable(cfg, s)
  {
    hide Reachable;
    InitialIsReachable(cfg);
    var s1 := INITIAL.(h := NEW.(client := Some(1), gen := 1, holds := 1),
                       views := map[1 := map[]], heard := map[1 := []],
                       requests := map[1 := Waiting(1)], taken := 1);
    assert RequestNext(cfg, INITIAL, Acquire(1, true)) == Some(s1);
    StepReaches(cfg, INITIAL, RequestDoes(Acquire(1, true)), s1);
    var s2 := s1.(requests := map[1 := Leaving]);
    assert s1.requests[1 := Leaving] == s2.requests;
    assert RequestNext(cfg, s1, GiveUp(1)) == Some(s2);
    StepReaches(cfg, s1, RequestDoes(GiveUp(1)), s2);
    var s3 := s2.(h := s2.h.(holds := 0, evictTimer := Armed(1)), requests := map[]);
    assert s2.requests - {1} == map[];
    assert RequestNext(cfg, s2, Release(1)) == Some(s3);
    StepReaches(cfg, s2, RequestDoes(Release(1)), s3);
    var s4 := s3.(h := s3.h.(evictTimer := WentOff), callbacks := map[0 := Fired(1)]);
    assert EvictNext(s3, Fire(0)) == Some(s4);
    StepReaches(cfg, s3, EvictDoes(Fire(0)), s4);
    assert s4.callbacks[0 := Decided(1, 1)] == s.callbacks;
    assert EvictNext(s4, Decide(0)) == Some(s);
    StepReaches(cfg, s4, EvictDoes(Decide(0)), s);
  }

  /** An acquire between the decision and the shutdown loses its worker: the
      shutdown does not look at the reservations again. */
  lemma OvertakenEvictionStopsHeldWorker(cfg: Config)
    requires cfg.ttl > 0
    ensures exists s, t :: Reachable(cfg, s) && Next(cfg, s, EvictDoes(Evict(0))) == Some(t)
              && s.h.holds > 0 && s.h.client.Some? && t.h.client == None
  {
    hide Reachable;
    var s0 := INITIAL.(h := NEW.(client := Some(1), gen := 1, evictTimer := WentOff),
                       views := map[1 := map[]], heard := map[1 := []],
                       callbacks := map[0 := Decided(1, 1)], taken := 1);
    DecidedToEvict(cfg, s0);
    var s1 := s0.(h := s0.h.(holds := 1, evictTimer := NoTimer), requests := map[2 := Waiting(1)], taken := 2);
    assert RequestNext(cfg, s0, Acquire(2, true)) == Some(s1);
    StepReaches(cfg, s0, RequestDoes(Acquire(2, true)), s1);
    var t := s1.(h := ShutDown(s1.h), callbacks := s1.callbacks - {0});
    assert Next(cfg, s1, EvictDoes(Evict(0))) == Some(t);
  }

  /** Nor does it look at the generation again: when the worker exits and a warm start
      replaces it before the shutdown, the new worker is stopped, with no acquire in
      between. */
  lemma SupersededEvictionStopsNextWorker(cfg: Config)
    requires cfg.ttl > 0
    ensures exists s, t :: Reachable(cfg, s) && Next(cfg, s, EvictDoes(Evict(0))) == Some(t)
              && 0 in s.callbacks && s.callbacks[0].Decided? && s.callbacks[0].taken == s.taken
              && s.callbacks[0].gen == 1 && s.h.client == Some(2) && t.h.client == None
  {
    hide Reachable;
    var s0 := INITIAL.(h := NEW.(client := Some(1), gen := 1, evictTimer := WentOff),
                       views := map[1 := map[]], heard := map[1 := []],
                       callbacks := map[0 := Decided(1, 1)], taken := 1);
    DecidedToEvict(cfg, s0);
    var s1 := s0.(h := Exited(s0.h, 1));
    assert LifeNext(cfg, s0, Exit(1)) == Some(s1);
    StepReaches(cfg, s0, LifeDoes(Exit(1)), s1);
    var s2 := WithProcess(s1, Spawned(s1.h, cfg.ttl));
    assert LifeNext(cfg, s1, Warm(true)) == Some(s2);
    StepReaches(cfg, s1, LifeDoes(Warm(true)), s2);
    var t := s2.(h := ShutDown(s2.h), callbacks := s2.callbacks - {0});
    assert Next(cfg, s2, EvictDoes(Evict(0))) == Some(t);
  }
}
