/** What the worker does for whoever waits on it: requests are served, locks let go,
    idle processes stopped, and workspace notifications passed on. */
module ServiceProofs {
  import opened Options
  import Documents
  import opened Worker
  import opened WorkerSystem
  import opened WorkerProofs
  import opened MirrorProofs

  // ---- the gate ------------------------------------------------------------

  /** A request whose wait is over is served if and only if its generation is the current
      one and has been replayed; one whose generation was superseded, or failed, is
      refused. */
  lemma CheckServesReplayedGenerations(cfg: Config, s: Sys, id: nat, t: Sys)
    requires Reachable(cfg, s) && Next(cfg, s, RequestDoes(Check(id))) == Some(t)
    ensures id in s.requests && s.requests[id].Woken?
    ensures t.requests == s.requests[id := if s.requests[id].gen == s.h.gen && s.h.gen in s.replayed
                                           then Serving(s.h.gen) else Leaving]
    ensures t == s.(requests := t.requests)
  {
    hide Reachable, Reservations, Watched, DecidedIdle;
    ReachableKeepsWorker(cfg, s);
    assert RequestOk(s.h, s.replayed, s.requests[id]);
    assert RequestNext(cfg, s, Check(id)) == Some(t);
  }

  /** An acquire succeeds whenever a process is live or can be started, and reserves the
      live generation or a new one, which is then not yet ready. */
  lemma AcquireReserves(cfg: Config, s: Sys, id: nat, spawns: bool)
    requires Reachable(cfg, s)
    ensures Next(cfg, s, RequestDoes(Acquire(id, spawns))).Some?
            <==> s.lock == Free && id !in s.requests && (spawns || s.h.client.Some?)
    ensures var next := Next(cfg, s, RequestDoes(Acquire(id, spawns)));
            next.Some? ==>
              var t := next.value;
              && t.requests == s.requests[id := Waiting(t.h.gen)] && t.h.client == Some(t.h.gen)
              && t.h.holds == s.h.holds + 1 && t.h.evictTimer == NoTimer
              && t.h.gen == (if s.h.client.Some? then s.h.gen else s.h.gen + 1)
              && t.h.readyDone == (s.h.client.Some? && s.h.readyDone)
  {
    assert Next(cfg, s, RequestDoes(Acquire(id, spawns))) == RequestNext(cfg, s, Acquire(id, spawns));
    hide Next, Reachable, ChannelsAccounted, Reservations, RequestsOk, Watched, DecidedIdle;
    ReachableKeepsWorker(cfg, s);
    AcquiredHandle(s.h, spawns, cfg.ttl);
    hide Acquired;
  }

  lemma AcquiredHandle(h: Handle, spawns: bool, ttl: int)
    ensures Acquired(h, spawns, ttl).Some? <==> spawns || h.client.Some?
    ensures Acquired(h, spawns, ttl).Some? ==>
              var k := Acquired(h, spawns, ttl).value;
              && k.client == (if h.client.Some? then h.client else Some(h.gen + 1))
              && k.gen == (if h.client.Some? then h.gen else h.gen + 1)
              && k.holds == h.holds + 1 && k.evictTimer == NoTimer
              && k.readyDone == (h.client.Some? && h.readyDone)
  {
  }

  /** The end of a process takes down the generation it ran, if that is still the
      current one, and lets its waiters go; any other exit changes nothing. */
  lemma ExitEndsItsGeneration(cfg: Config, s: Sys, gen: nat, t: Sys)
    requires Reachable(cfg, s) && Next(cfg, s, LifeDoes(Exit(gen))) == Some(t)
    ensures if gen == s.h.gen && gen != 0
            then t.h.client == None && gen in t.h.closed && t.h.readyDone && t.h.evictTimer == NoTimer
            else t == s
    ensures gen == s.h.gen && !s.h.readyDone && gen != 0 ==> gen !in t.replayed && t.h.initErr == Some(WorkerExited)
  {
    hide Reachable, Reservations, RequestsOk, Watched, DecidedIdle;
    ReachableKeepsWorker(cfg, s);
  }

  // ---- what can still happen -----------------------------------------------

  ghost predicate Leads(cfg: Config, s: Sys, t: Sys) {
    exists steps :: Run(cfg, s, steps) == Some(t)
  }

  lemma Stays(cfg: Config, s: Sys)
    ensures Leads(cfg, s, s)
  {
    assert Run(cfg, s, []) == Some(s);
  }

  lemma {:induction false} RunConcat(cfg: Config, s: Sys, a: seq<Step>, m: Sys, b: seq<Step>)
    requires Run(cfg, s, a) == Some(m)
    ensures Run(cfg, s, a + b) == Run(cfg, m, b)
    decreases a
  {
    hide Next;
    if a == [] {
      assert a + b == b;
    } else {
      assert (a + b)[1..] == a[1..] + b;
      RunConcat(cfg, Next(cfg, s, a[0]).value, a[1..], m, b);
    }
  }

  lemma Then(cfg: Config, s: Sys, m: Sys, t: Sys)
    requires Leads(cfg, s, m) && Leads(cfg, m, t)
    ensures Leads(cfg, s, t)
  {
    hide Run;
    var a :| Run(cfg, s, a) == Some(m);
    var b :| Run(cfg, m, b) == Some(t);
    RunConcat(cfg, s, a, m, b);
  }

  lemma Take(cfg: Config, s: Sys, step: Step, t: Sys)
    requires Next(cfg, s, step) == Some(t)
    ensures Leads(cfg, s, t)
  {
    hide Next;
    assert [step][1..] == [];
    assert Run(cfg, t, []) == Some(t);
    assert Run(cfg, s, [step]) == Some(t);
  }

  lemma RequestTakes(cfg: Config, s: Sys, step: RequestStep, t: Sys)
    requires RequestNext(cfg, s, step) == Some(t)
    ensures Leads(cfg, s, t)
  {
    assert Next(cfg, s, RequestDoes(step)) == Some(t);
    hide RequestNext, Next;
    Take(cfg, s, RequestDoes(step), t);
  }

  lemma ReplayTakes(cfg: Config, s: Sys, step: LifeStep, t: Sys)
    requires ReplayNext(cfg, s, step) == Some(t) && !step.Warm? && !step.Exit? && !step.Stop?
    ensures Leads(cfg, s, t)
  {
    assert Next(cfg, s, LifeDoes(step)) == Some(t);
    hide ReplayNext, Next;
    Take(cfg, s, LifeDoes(step), t);
  }

  lemma EvictTakes(cfg: Config, s: Sys, step: EvictStep, t: Sys)
    requires EvictNext(s, step) == Some(t)
    ensures Leads(cfg, s, t)
  {
    assert Next(cfg, s, EvictDoes(step)) == Some(t);
    hide EvictNext, Next;
    Take(cfg, s, EvictDoes(step), t);
  }

  /** A snapshot can be taken of any documents. */
  lemma {:induction false} SomeSnapshot(cfg: Config, openDocs: Docs, left: set<string>)
      returns (docs: seq<Documents.Doc>)
    requires Consistent(openDocs) && left <= openDocs.Keys
    ensures forall d <- docs :: d.uri in openDocs && openDocs[d.uri] == d && InSnapshot(cfg, d.uri)
    ensures forall u <- left | InSnapshot(cfg, u) :: openDocs[u] in docs
    decreases left
  {
    hide InSnapshot;
    docs := [];
    if left != {} {
      var u :| u in left;
      docs := SomeSnapshot(cfg, openDocs, left - {u});
      if InSnapshot(cfg, u) {
        docs := [openDocs[u]] + docs;
      }
    }
  }

  /** The worker is live and the lock free; nothing else has changed but what it was
      told. */
  ghost predicate Loads(s: Sys, t: Sys) {
    && t.lock == Free && t.h == WentLive(s.h) && t.replayed == s.replayed + {s.h.gen}
    && t.requests == s.requests && t.callbacks == s.callbacks && t.taken == s.taken
  }

  lemma ReplayMovesOn(cfg: Config, s: Sys) returns (t: Sys)
    requires s.lock.Replaying?
    ensures Leads(cfg, s, t)
    ensures if s.lock.opens == [] && s.lock.sending.None? && s.lock.notes == [] then Loads(s, t)
            else t.lock.Replaying? && ReplayLeft(t) < ReplayLeft(s) && t.h == s.h && t.replayed == s.replayed
                 && t.requests == s.requests && t.callbacks == s.callbacks && t.taken == s.taken
  {
    hide Leads, Written, MirrorOf;
    var Replaying(opens, sending, notes) := s.lock;
    if opens != [] {
      WrittenFrame(s, s.h.gen, DidOpen(opens[0]));
      t := Written(s, s.h.gen, DidOpen(opens[0])).(lock := Replaying(opens[1..], sending, notes));
      assert ReplayNext(cfg, s, WriteOpen) == Some(t);
      ReplayTakes(cfg, s, WriteOpen, t);
    } else if sending.Some? {
      WrittenFrame(s, s.h.gen, sending.value);
      t := Written(s, s.h.gen, sending.value).(lock := Replaying(opens, None, notes));
      assert ReplayNext(cfg, s, WriteNote) == Some(t);
      ReplayTakes(cfg, s, WriteNote, t);
    } else if notes != [] {
      t := s.(lock := Replaying([], MirrorOf(s.openDocs, notes[0]), notes[1..]));
      assert ReplayNext(cfg, s, ReadNote) == Some(t);
      ReplayTakes(cfg, s, ReadNote, t);
    } else {
      t := s.(h := WentLive(s.h), lock := Free, replayed := s.replayed + {s.h.gen});
      assert ReplayNext(cfg, s, GoLive) == Some(t);
      ReplayTakes(cfg, s, GoLive, t);
    }
  }

  /** How many steps the replay still has to take. */
  function ReplayLeft(s: Sys): nat
    requires s.lock.Replaying?
  {
    2 * |s.lock.opens| + 2 * |s.lock.notes| + (if s.lock.sending.Some? then 1 else 0)
  }

  lemma {:induction false} ReplayEnds(cfg: Config, s: Sys) returns (t: Sys)
    requires s.lock.Replaying?
    ensures Leads(cfg, s, t) && Loads(s, t)
    decreases ReplayLeft(s)
  {
    hide Leads, WentLive;
    t := ReplayMovesOn(cfg, s);
    if !(s.lock.opens == [] && s.lock.sending.None? && s.lock.notes == []) {
      var m := t;
      t := ReplayEnds(cfg, m);
      Then(cfg, s, m, t);
    }
  }

  lemma LoadedGoesLive(cfg: Config, s: Sys) returns (t: Sys)
    requires s.lock == Loaded && Consistent(s.openDocs)
    ensures Leads(cfg, s, t) && Loads(s, t)
  {
    hide Leads, WentLive, Consistent;
    var docs := SomeSnapshot(cfg, s.openDocs, s.openDocs.Keys);
    var m := s.(lock := Replaying(docs, None, s.h.pendingObs));
    assert ReplayNext(cfg, s, Snapshot(docs)) == Some(m);
    ReplayTakes(cfg, s, Snapshot(docs), m);
    t := ReplayEnds(cfg, m);
    Then(cfg, s, m, t);
  }

  /** initWorker never keeps h.mu for good: in every reachable state the lock is free or
      can be let go with the replay done. */
  lemma LockIsLetGo(cfg: Config, s: Sys) returns (t: Sys)
    requires Reachable(cfg, s)
    ensures Leads(cfg, s, t) && (if s.lock == Free then t == s else Loads(s, t))
  {
    hide Reachable, Leads, WentLive, OpensFirst, WorkerHolds, PumpOk, ProcessOk, CatchesUp, Owned;
    ReachableKeepsMirror(cfg, s);
    match s.lock
    case Free =>
      t := s;
      Stays(cfg, s);
    case Loaded => t := LoadedGoesLive(cfg, s);
    case Replaying(_, _, _) => t := ReplayEnds(cfg, s);
  }

  lemma LeadsReaches(cfg: Config, s: Sys, t: Sys)
    requires Reachable(cfg, s) && Leads(cfg, s, t)
    ensures Reachable(cfg, t)
  {
    hide Run;
    var a :| Run(cfg, INITIAL, a) == Some(s);
    var b :| Run(cfg, s, b) == Some(t);
    RunConcat(cfg, INITIAL, a, s, b);
  }

  /** Every reservation can be given back, whatever its request is waiting for. */
  lemma EveryRequestCanEnd(cfg: Config, s: Sys, id: nat)
    requires Reachable(cfg, s) && id in s.requests
    ensures exists t :: Leads(cfg, s, t) && id !in t.requests
  {
    hide Reachable, Leads;
    var m := LockIsLetGo(cfg, s);
    var t := RequestEnds(cfg, m, id);
    Then(cfg, s, m, t);
  }

  lemma RequestEnds(cfg: Config, s: Sys, id: nat) returns (t: Sys)
    requires s.lock == Free && id in s.requests
    ensures Leads(cfg, s, t) && id !in t.requests
    decreases match s.requests[id] case Woken(_) => 2 case Leaving => 0 case _ => 1
  {
    hide Leads, PassesGate, Released;
    if s.requests[id].Leaving? {
      t := RequestNext(cfg, s, Release(id)).value;
      RequestTakes(cfg, s, Release(id), t);
    } else {
      var step := match s.requests[id]
                  case Waiting(_) => GiveUp(id)
                  case Woken(_) => Check(id)
                  case _ => RequestStep.Answered(id);
      var m := RequestNext(cfg, s, step).value;
      RequestTakes(cfg, s, step, m);
      t := RequestEnds(cfg, m, id);
      Then(cfg, s, m, t);
    }
  }

  /** A live generation can always become ready without a request more or less. */
  lemma GenerationGetsReady(cfg: Config, s: Sys) returns (t: Sys)
    requires Reachable(cfg, s) && s.h.client.Some?
    ensures Leads(cfg, s, t) && t.lock == Free && t.h.gen == s.h.gen && t.requests == s.requests
    ensures t.h.gen in t.replayed && t.h.gen in t.h.closed
  {
    hide Reachable, Leads, Reservations, RequestsOk, Watched, DecidedIdle;
    ReachableKeepsWorker(cfg, s);
    if s.h.readyDone {
      t := s;
      Stays(cfg, s);
    } else if s.lock == Free {
      var m := s.(h := s.h.(initErr := None), lock := Loaded);
      assert ReplayNext(cfg, s, InitDone(s.h.gen, false)) == Some(m);
      ReplayTakes(cfg, s, InitDone(s.h.gen, false), m);
      LeadsReaches(cfg, s, m);
      t := LockIsLetGo(cfg, m);
      Then(cfg, s, m, t);
      assert t.h.closed == s.h.closed + [s.h.gen];
    } else {
      t := LockIsLetGo(cfg, s);
      assert t.h.closed == s.h.closed + [s.h.gen];
    }
  }

  /** A request waiting for the live generation can be served by it. */
  lemma WaitingRequestCanBeServed(cfg: Config, s: Sys, id: nat)
    requires Reachable(cfg, s) && id in s.requests && s.requests[id].Waiting?
    requires s.h.client == Some(s.requests[id].gen)
    ensures exists t :: Leads(cfg, s, t) && id in t.requests && t.requests[id] == Serving(s.requests[id].gen)
  {
    hide Reachable, Leads, PassesGate;
    var gen := s.requests[id].gen;
    assert s.h.gen == gen by { CurrentIsLive(cfg, s); }
    var m := GenerationGetsReady(cfg, s);
    var n := m.(requests := m.requests[id := Woken(gen)]);
    assert RequestNext(cfg, m, Wake(id)) == Some(n);
    RequestTakes(cfg, m, Wake(id), n);
    Then(cfg, s, m, n);
    LeadsReaches(cfg, s, n);
    var t := RequestNext(cfg, n, Check(id)).value;
    RequestTakes(cfg, n, Check(id), t);
    assert Next(cfg, n, RequestDoes(Check(id))) == Some(t);
    CheckServesReplayedGenerations(cfg, n, id, t);
    Then(cfg, s, n, t);
  }

  lemma CurrentIsLive(cfg: Config, s: Sys)
    requires Reachable(cfg, s)
    ensures s.h.client.Some? ==> s.h.client.value == s.h.gen
  {
    hide Reachable, ChannelsAccounted, Reservations, RequestsOk, Watched, DecidedIdle;
    ReachableKeepsWorker(cfg, s);
  }

  // ---- idle eviction -------------------------------------------------------

  /** A fired timer goes on to stop the worker if and only if that is still the one it
      was armed for, alive, with no request between acquire and release; otherwise
      nothing comes of it. */
  lemma DecisionIsExact(cfg: Config, s: Sys, id: nat, t: Sys)
    requires Reachable(cfg, s) && Next(cfg, s, EvictDoes(Decide(id))) == Some(t)
    ensures id in s.callbacks && t == s.(callbacks := t.callbacks)
    ensures t.callbacks
         == if s.h.client == Some(s.callbacks[id].gen) && s.requests == map[]
            then s.callbacks[id := Decided(s.h.gen, s.taken)] else s.callbacks - {id}
  {
    hide Reachable;
    CurrentIsLive(cfg, s);
    HoldsCountRequests(cfg, s);
  }

  lemma {:induction false} FreshId(ids: set<nat>) returns (id: nat)
    ensures forall x <- ids :: x < id
  {
    id := 0;
    if ids != {} {
      var x :| x in ids;
      var above := FreshId(ids - {x});
      assert forall y <- ids :: y == x || y in ids - {x};
      id := if above > x then above else x + 1;
    }
  }

  /** The callback of an idle worker's generation stops it. */
  lemma CallbackStops(cfg: Config, s: Sys, id: nat) returns (t: Sys)
    requires s.lock == Free && id in s.callbacks && s.callbacks[id].gen == s.h.gen
    requires s.h.client.Some? && s.h.holds == 0
    ensures Leads(cfg, s, t) && t.h.client == None
  {
    hide Leads, TornDown;
    var m := s;
    Stays(cfg, s);
    if s.callbacks[id].Fired? {
      m := s.(callbacks := s.callbacks[id := Decided(s.h.gen, s.taken)]);
      assert EvictNext(s, Decide(id)) == Some(m);
      EvictTakes(cfg, s, Decide(id), m);
    }
    t := EvictNext(m, Evict(id)).value;
    EvictTakes(cfg, m, Evict(id), t);
    Then(cfg, s, m, t);
    assert t.h.client == None by { DownIsDown(m.h); }
  }

  lemma DownIsDown(h: Handle)
    ensures TornDown(h).client == None
  {
  }

  /** With a positive TTL an idle worker can be stopped: its timer or a callback will
      find it. */
  lemma IdleWorkerCanBeStopped(cfg: Config, s: Sys)
    requires Reachable(cfg, s) && cfg.ttl > 0 && s.h.client.Some? && s.requests == map[]
    ensures exists t :: Leads(cfg, s, t) && t.h.client == None
  {
    hide Reachable, Leads, WentLive;
    var m := LockIsLetGo(cfg, s);
    assert m.h.client == s.h.client && m.requests == map[] by { LoadingKeepsClient(s.h); }
    LeadsReaches(cfg, s, m);
    IdleWorkerIsWatched(cfg, m);
    HoldsCountRequests(cfg, m);
    var t;
    if id :| id in m.callbacks && m.callbacks[id].gen == m.h.gen {
      t := CallbackStops(cfg, m, id);
    } else {
      var id := FreshId(m.callbacks.Keys);
      var n := m.(h := m.h.(evictTimer := WentOff), callbacks := m.callbacks[id := Fired(m.h.gen)]);
      assert EvictNext(m, Fire(id)) == Some(n);
      EvictTakes(cfg, m, Fire(id), n);
      t := CallbackStops(cfg, n, id);
      Then(cfg, m, n, t);
    }
    Then(cfg, s, m, t);
  }

  lemma LoadingKeepsClient(h: Handle)
    ensures WentLive(h).client == h.client
  {
  }

  ghost predicate NeverWatched(s: Sys) {
    !s.h.evictTimer.Armed? && s.callbacks == map[]
  }

  lemma StepKeepsUnwatched(cfg: Config, s: Sys, step: Step, t: Sys)
    requires cfg.ttl <= 0 && NeverWatched(s) && Next(cfg, s, step) == Some(t)
    ensures NeverWatched(t)
  {
    hide *;
    StepCases(cfg, s, step, t);
    match step
    case PumpDoes(p) =>
      PumpFrame(cfg, s, p, t);
      SameWatch(s, t);
    case RequestDoes(r) => RequestArmsNothing(cfg, s, r, t);
    case LifeDoes(l) =>
      if LifeNext(cfg, s, l) == Some(t) {
        LifeArmsNothing(cfg, s, l, t);
      } else {
        ReplayFrame(cfg, s, l, t);
        ReplayArmsNothing(s.h);
        SameWatch(s, t);
      }
    case EvictDoes(e) => EvictFindsNothing(s, e);
  }

  lemma SameWatch(s: Sys, t: Sys)
    requires NeverWatched(s) && t.callbacks == s.callbacks
    requires t.h.evictTimer == s.h.evictTimer || !t.h.evictTimer.Armed?
    ensures NeverWatched(t)
  {
  }

  lemma RequestArmsNothing(cfg: Config, s: Sys, step: RequestStep, t: Sys)
    requires cfg.ttl <= 0 && NeverWatched(s) && RequestNext(cfg, s, step) == Some(t)
    ensures NeverWatched(t)
  {
    hide PassesGate;
  }

  lemma LifeArmsNothing(cfg: Config, s: Sys, step: LifeStep, t: Sys)
    requires cfg.ttl <= 0 && NeverWatched(s) && LifeNext(cfg, s, step) == Some(t)
    ensures NeverWatched(t)
  {
  }

  lemma ReplayArmsNothing(h: Handle)
    ensures WentLive(h).evictTimer == h.evictTimer && !InitFailed(h).evictTimer.Armed?
  {
  }

  lemma EvictFindsNothing(s: Sys, step: EvictStep)
    requires NeverWatched(s)
    ensures EvictNext(s, step) == None
  {
  }

  lemma {:induction false} RunsKeepUnwatched(cfg: Config, s: Sys, steps: seq<Step>)
    requires cfg.ttl <= 0 && NeverWatched(s) && Run(cfg, s, steps).Some?
    ensures NeverWatched(Run(cfg, s, steps).value)
    decreases steps
  {
    hide Next, NeverWatched;
    if steps != [] {
      var t := Next(cfg, s, steps[0]).value;
      StepKeepsUnwatched(cfg, s, steps[0], t);
      RunsKeepUnwatched(cfg, t, steps[1..]);
    }
  }

  /** Without a positive TTL no worker is ever evicted: there is never a timer or a
      callback to do it. */
  lemma NoTtlNoEviction(cfg: Config, s: Sys)
    requires cfg.ttl <= 0 && Reachable(cfg, s)
    ensures !s.h.evictTimer.Armed? && s.callbacks == map[]
  {
    hide Run;
    var steps :| Run(cfg, INITIAL, steps) == Some(s);
    RunsKeepUnwatched(cfg, INITIAL, steps);
  }

  // ---- workspace notifications ---------------------------------------------

  /** The workspace notifications among the notes, in order. */
  function WorkspaceOf(notes: seq<Note>): seq<string>
    decreases notes
  {
    if notes == [] then [] else OfNote(notes[0]) + WorkspaceOf(notes[1..])
  }

  function OfNote(note: Note): seq<string> {
    if note.WorkspaceNote? then [note.what] else []
  }

  function OfAction(a: Option<Action>): seq<string> {
    if a.Some? && a.value.Notify? then [a.value.what] else []
  }

  lemma {:induction false} WorkspaceOfSnoc(notes: seq<Note>, note: Note)
    ensures WorkspaceOf(notes + [note]) == WorkspaceOf(notes) + OfNote(note)
    decreases notes
  {
    if notes == [] {
      assert ([] + [note])[1..] == [];
    } else {
      assert (notes + [note])[1..] == notes[1..] + [note];
      WorkspaceOfSnoc(notes[1..], note);
    }
  }

  /** What is buffered for the current generation, or still to be replayed to it. */
  function ToReplay(s: Sys): seq<string> {
    match s.lock
    case Replaying(_, sending, notes) => OfAction(sending) + WorkspaceOf(notes)
    case _ => if s.h.readyDone then [] else WorkspaceOf(s.h.pendingObs)
  }

  /** What the pump is passing to the current generation. */
  function InFlight(s: Sys): seq<string> {
    match s.pump
    case Mirroring(note, to) => if to == s.h.gen then OfNote(note) else []
    case Sending(a, to) => if to == s.h.gen then OfAction(Some(a)) else []
    case _ => []
  }

  /** Everything observed has been sent, is being passed on or is still buffered, in that
      order. */
  ghost predicate PassesOn(s: Sys, observed: seq<string>) {
    s.h.client.Some? ==> HeardBy(s, s.h.gen) + InFlight(s) + ToReplay(s) == observed
  }

  /** The workspace notifications the pump has shown the current generation so far. */
  function ObserveStep(s: Sys, step: Step, t: Sys, observed: seq<string>): seq<string> {
    if t.h.gen != s.h.gen then []
    else if step == PumpDoes(Observe) && s.pump.Told? then observed + OfNote(s.pump.note)
    else observed
  }

  ghost function ObservedAfter(cfg: Config, s: Sys, steps: seq<Step>, observed: seq<string>): seq<string>
    decreases steps
  {
    if steps == [] then observed
    else match Next(cfg, s, steps[0])
      case None => observed
      case Some(t) => ObservedAfter(cfg, t, steps[1..], ObserveStep(s, steps[0], t, observed))
  }

  lemma SameHeard(s: Sys, t: Sys)
    requires t.heard == s.heard
    ensures HeardBy(t, s.h.gen) == HeardBy(s, s.h.gen)
  {
  }

  lemma WrittenIsHeard(s: Sys, gen: nat, a: Action)
    ensures var t := Written(s, gen, a);
            && t == s.(views := t.views, heard := t.heard)
            && HeardBy(t, s.h.gen)
               == HeardBy(s, s.h.gen) + if gen == s.h.gen && gen in s.views then OfAction(Some(a)) else []
  {
    hide Receive;
  }

  lemma MirroredIsSame(openDocs: Docs, note: Note)
    ensures OfAction(MirrorOf(openDocs, note)) == OfNote(note)
  {
  }

  lemma PumpPassesOn(cfg: Config, s: Sys, step: PumpStep, t: Sys, observed: seq<string>)
    requires PassesOn(s, observed) && PumpOk(s) && ProcessOk(s) && Generations(s) && PumpNext(cfg, s, step) == Some(t)
    ensures PassesOn(t, ObserveStep(s, PumpDoes(step), t, observed))
  {
    hide Tracked, NoteOf, Receive, Generations, OwnerOf, ToReplay, HeardBy, OfNote, OfAction, MirrorOf, Written;
    LockIsLoading(s);
    match step
    case Tell(ev) =>
      assert t == s.(openDocs := Tracked(s.openDocs, ev), pump := Told(NoteOf(ev)));
      SameHeard(s, t);
      SameReplay(s, t);
    case Observe =>
      ClientIsCurrent(s);
      if Routed(cfg, s.pump.note) {
        ObservePassesOn(cfg, s, t, observed);
      } else {
        NotRoutedPassesOn(cfg, s, t, observed);
      }
    case Read =>
      MirroredIsSame(s.openDocs, s.pump.note);
      ReadPassesOn(s, t, MirrorOf(s.openDocs, s.pump.note), observed);
    case Deliver =>
      WrittenIsHeard(s, s.pump.to, s.pump.action);
      DeliverPassesOn(s, t, observed);
  }

  lemma ReadPassesOn(s: Sys, t: Sys, a: Option<Action>, observed: seq<string>)
    requires PassesOn(s, observed) && s.pump.Mirroring? && OfAction(a) == OfNote(s.pump.note)
    requires t == s.(pump := if a.Some? then Sending(a.value, s.pump.to) else Idle)
    ensures PassesOn(t, observed)
  {
    hide ToReplay, HeardBy, OfNote;
    SameHeard(s, t);
    SameReplay(s, t);
  }

  lemma DeliverPassesOn(s: Sys, t: Sys, observed: seq<string>)
    requires PassesOn(s, observed) && PumpOk(s) && ProcessOk(s) && (s.lock != Free ==> !s.h.readyDone)
    requires s.pump.Sending? && t == Written(s, s.pump.to, s.pump.action).(pump := Idle)
    ensures PassesOn(t, observed)
  {
    hide HeardBy, OfAction, Written;
    WrittenIsHeard(s, s.pump.to, s.pump.action);
    SameHeard(Written(s, s.pump.to, s.pump.action), t);
    SameReplay(s, t);
  }

  lemma SameReplay(s: Sys, t: Sys)
    requires t.lock == s.lock && t.h.readyDone == s.h.readyDone && t.h.pendingObs == s.h.pendingObs
    ensures ToReplay(t) == ToReplay(s)
  {
  }

  lemma NotRoutedPassesOn(cfg: Config, s: Sys, t: Sys, observed: seq<string>)
    requires PassesOn(s, observed) && s.pump.Told? && !Routed(cfg, s.pump.note) && t == s.(pump := Idle)
    ensures PassesOn(t, ObserveStep(s, PumpDoes(Observe), t, observed))
  {
    hide OwnerOf, ToReplay, HeardBy;
    SameHeard(s, t);
    SameReplay(s, t);
  }

  lemma ObservePassesOn(cfg: Config, s: Sys, t: Sys, observed: seq<string>)
    requires PassesOn(s, observed) && PumpNext(cfg, s, Observe) == Some(t) && s.lock == Free
    requires s.pump.Told? && Routed(cfg, s.pump.note)
    requires s.h.client.Some? ==> s.h.client.value == s.h.gen && s.h.initErr == None
    ensures PassesOn(t, ObserveStep(s, PumpDoes(Observe), t, observed))
  {
    hide PumpNext, Routed;
    ObserveFrame(cfg, s, t);
    if s.h.client.Some? && s.h.readyDone {
      ShownPassesOn(s, t, observed);
    } else if s.h.client.Some? {
      BufferedPassesOn(s, t, observed);
    }
  }

  lemma ShownPassesOn(s: Sys, t: Sys, observed: seq<string>)
    requires PassesOn(s, observed) && s.pump.Told? && s.lock == Free && s.h.readyDone
    requires t == s.(pump := Mirroring(s.pump.note, s.h.gen))
    ensures PassesOn(t, observed + OfNote(s.pump.note))
  {
    hide HeardBy, OfNote;
    SameHeard(s, t);
  }

  lemma BufferedPassesOn(s: Sys, t: Sys, observed: seq<string>)
    requires PassesOn(s, observed) && s.pump.Told? && s.lock == Free && !s.h.readyDone
    requires t == s.(h := s.h.(pendingObs := s.h.pendingObs + [s.pump.note]), pump := Idle)
    ensures PassesOn(t, observed + OfNote(s.pump.note))
  {
    hide HeardBy, OfNote, WorkspaceOf;
    WorkspaceOfSnoc(s.h.pendingObs, s.pump.note);
    SameHeard(s, t);
  }

  lemma InitPassesOn(cfg: Config, s: Sys, gen: nat, failed: bool, t: Sys, observed: seq<string>)
    requires PassesOn(s, observed) && ReplayNext(cfg, s, InitDone(gen, failed)) == Some(t)
    ensures PassesOn(t, observed) && t.h.gen == s.h.gen
  {
    hide HeardBy, OfAction, OfNote, WorkspaceOf, InitFailed, InFlight;
    if t != s && failed {
      assert t == s.(h := InitFailed(s.h));
      hide ReplayNext;
      FailedIsDead(s.h);
    } else if t != s {
      assert t == s.(h := s.h.(initErr := None), lock := Loaded) && s.lock == Free;
      hide ReplayNext;
      SameHeard(s, t);
      SameInFlight(s, t);
    }
  }

  lemma SameInFlight(s: Sys, t: Sys)
    requires t.pump == s.pump && t.h.gen == s.h.gen
    ensures InFlight(t) == InFlight(s)
  {
  }

  lemma SnapshotPassesOn(s: Sys, docs: seq<Documents.Doc>, t: Sys, observed: seq<string>)
    requires PassesOn(s, observed) && s.lock == Loaded && !s.h.readyDone
    requires t == s.(lock := Replaying(docs, None, s.h.pendingObs))
    ensures PassesOn(t, observed)
  {
    hide HeardBy, OfAction, InFlight, WorkspaceOf;
    NoAction();
    SameHeard(s, t);
    SameInFlight(s, t);
  }

  lemma FailedIsDead(h: Handle)
    ensures InitFailed(h).client == None && InitFailed(h).gen == h.gen
  {
  }

  lemma LivePassesOn(s: Sys, t: Sys, observed: seq<string>)
    requires PassesOn(s, observed) && s.lock == Replaying([], None, [])
    requires t == s.(h := WentLive(s.h), lock := Free, replayed := s.replayed + {s.h.gen})
    ensures PassesOn(t, observed)
  {
    hide HeardBy;
    SameHeard(s, t);
    NoAction();
  }

  lemma ReplayPassesOn(cfg: Config, s: Sys, step: LifeStep, t: Sys, observed: seq<string>)
    requires PassesOn(s, observed) && PumpOk(s) && ProcessOk(s) && Generations(s) && ReplayNext(cfg, s, step) == Some(t)
    ensures PassesOn(t, ObserveStep(s, LifeDoes(step), t, observed))
  {
    hide PassesOn, IsSnapshot, Generations, MirrorOf, Written, WentLive;
    LockIsLoading(s);
    match step
    case ReadNote => ReadNotePassesOn(s, t, observed);
    case GoLive =>
      WentLiveGen(s.h);
      LivePassesOn(s, t, observed);
    case WriteOpen =>
      WrittenFrame(s, s.h.gen, DidOpen(s.lock.opens[0]));
      OpenPassesOn(s, t, observed);
    case WriteNote =>
      WrittenFrame(s, s.h.gen, s.lock.sending.value);
      NotePassesOn(s, t, observed);
    case Snapshot(docs) => SnapshotPassesOn(s, docs, t, observed);
    case InitDone(gen, failed) => InitPassesOn(cfg, s, gen, failed, t, observed);
  }

  lemma WentLiveGen(h: Handle)
    ensures WentLive(h).gen == h.gen
  {
  }

  lemma NoAction()
    ensures OfAction(None) == [] && WorkspaceOf([]) == []
  {
  }

  lemma ReadNotePassesOn(s: Sys, t: Sys, observed: seq<string>)
    requires PassesOn(s, observed) && s.lock.Replaying? && s.lock.sending == None && s.lock.notes != []
    requires t == s.(lock := Replaying([], MirrorOf(s.openDocs, s.lock.notes[0]), s.lock.notes[1..]))
    ensures PassesOn(t, observed)
  {
    hide HeardBy, OfNote, MirrorOf, OfAction;
    MirroredIsSame(s.openDocs, s.lock.notes[0]);
    NoAction();
    SameHeard(s, t);
  }

  lemma OpenPassesOn(s: Sys, t: Sys, observed: seq<string>)
    requires PassesOn(s, observed) && s.lock.Replaying? && s.lock.opens != []
    requires t == Written(s, s.h.gen, DidOpen(s.lock.opens[0]))
                  .(lock := Replaying(s.lock.opens[1..], s.lock.sending, s.lock.notes))
    ensures PassesOn(t, observed)
  {
    hide HeardBy, Written, WorkspaceOf;
    var m := Written(s, s.h.gen, DidOpen(s.lock.opens[0]));
    WrittenIsHeard(s, s.h.gen, DidOpen(s.lock.opens[0]));
    SameHeard(m, t);
  }

  lemma NotePassesOn(s: Sys, t: Sys, observed: seq<string>)
    requires PassesOn(s, observed) && PumpOk(s) && ProcessOk(s) && s.h.client.Some? && !s.h.readyDone
    requires s.lock.Replaying? && s.lock.sending.Some?
    requires t == Written(s, s.h.gen, s.lock.sending.value).(lock := Replaying(s.lock.opens, None, s.lock.notes))
    ensures PassesOn(t, observed)
  {
    hide HeardBy, Written, WorkspaceOf;
    var m := Written(s, s.h.gen, s.lock.sending.value);
    WrittenIsHeard(s, s.h.gen, s.lock.sending.value);
    SameHeard(m, t);
    NoAction();
  }

  /** The other actors neither buffer nor send. */
  ghost predicate PassesBy(s: Sys, t: Sys) {
    && t.pump == s.pump && t.lock == s.lock && t.h.gen >= s.h.gen
    && (t.h.gen == s.h.gen && t.h.client.Some? ==>
          s.h.client.Some? && t.heard == s.heard && t.h.readyDone == s.h.readyDone
          && t.h.pendingObs == s.h.pendingObs)
    && (t.h.gen != s.h.gen ==>
          t.lock == Free && HeardBy(t, t.h.gen) == [] && !t.h.readyDone && t.h.pendingObs == [])
  }

  lemma PassingBy(cfg: Config, s: Sys, step: Step, t: Sys, observed: seq<string>)
    requires PassesOn(s, observed) && PassesBy(s, t) && PumpOk(s) && !step.PumpDoes?
    ensures PassesOn(t, ObserveStep(s, step, t, observed))
  {
    hide HeardBy, WorkspaceOf;
    NoAction();
    if t.h.gen == s.h.gen && t.h.client.Some? {
      SameHeard(s, t);
      SameReplay(s, t);
    }
  }

  lemma RequestPassesBy(cfg: Config, s: Sys, step: RequestStep, t: Sys)
    requires RequestNext(cfg, s, step) == Some(t)
    ensures PassesBy(s, t)
  {
    hide PassesGate, Rearmed;
    if step.Acquire? {
      var h := Acquired(s.h, step.spawns, cfg.ttl).value;
      assert t == WithProcess(s, h).(requests := t.requests, taken := t.taken);
      SpawnedBuffersNothing(s.h, step.spawns, cfg.ttl);
      hide RequestNext, Acquired;
    } else {
      RearmedFrame(s.h.(holds := s.h.holds - 1), cfg.ttl);
      assert t == s.(h := t.h, requests := t.requests);
    }
  }

  lemma RearmedFrame(h: Handle, ttl: int)
    ensures Rearmed(h, ttl) == h.(evictTimer := Rearmed(h, ttl).evictTimer)
  {
  }

  lemma SpawnedBuffersNothing(h: Handle, spawns: bool, ttl: int)
    ensures Acquired(h, spawns, ttl).Some? ==>
              var k := Acquired(h, spawns, ttl).value;
              if h.client.Some? then k == h.(holds := k.holds, evictTimer := k.evictTimer)
              else k.gen == h.gen + 1 && !k.readyDone && k.pendingObs == []
  {
  }

  lemma LifePassesBy(cfg: Config, s: Sys, step: LifeStep, t: Sys)
    requires LifeNext(cfg, s, step) == Some(t)
    ensures PassesBy(s, t)
  {
  }

  lemma EvictPassesBy(s: Sys, step: EvictStep, t: Sys)
    requires EvictNext(s, step) == Some(t)
    ensures PassesBy(s, t)
  {
    hide IdleNow;
  }

  lemma StepPassesOn(cfg: Config, s: Sys, step: Step, t: Sys, observed: seq<string>)
    requires PassesOn(s, observed) && MirrorHolds(cfg, s) && Next(cfg, s, step) == Some(t)
    ensures PassesOn(t, ObserveStep(s, step, t, observed))
  {
    hide PassesOn, Mirrors, OpensFirst, WorkerHolds, Generations, LockOk, ObserveStep, PassesBy;
    hide Next, PumpNext, RequestNext, LifeNext, ReplayNext, EvictNext;
    StepCases(cfg, s, step, t);
    GenerationsOf(cfg, s);
    PumpIsOk(cfg, s);
    hide PumpOk, ProcessOk;
    match step
    case PumpDoes(p) =>
      PumpPassesOn(cfg, s, p, t, observed);
    case RequestDoes(r) =>
      RequestPassesBy(cfg, s, r, t);
      PassingBy(cfg, s, step, t, observed);
    case LifeDoes(l) =>
      if LifeNext(cfg, s, l) == Some(t) {
        LifePassesBy(cfg, s, l, t);
        PassingBy(cfg, s, step, t, observed);
      } else {
        ReplayPassesOn(cfg, s, l, t, observed);
      }
    case EvictDoes(e) =>
      EvictPassesBy(s, e, t);
      PassingBy(cfg, s, step, t, observed);
  }

  lemma PumpIsOk(cfg: Config, s: Sys)
    requires Mirrors(cfg, s)
    ensures PumpOk(s) && ProcessOk(s)
  {
    hide CatchesUp, Owned;
  }

  lemma {:induction false} RunPassesOn(cfg: Config, s: Sys, steps: seq<Step>, t: Sys, observed: seq<string>)
    requires PassesOn(s, observed) && MirrorHolds(cfg, s) && Run(cfg, s, steps) == Some(t)
    ensures PassesOn(t, ObservedAfter(cfg, s, steps, observed))
    decreases steps
  {
    hide Next, PassesOn, MirrorHolds, ObserveStep;
    if steps != [] {
      var next := Next(cfg, s, steps[0]).value;
      StepPassesOn(cfg, s, steps[0], next, observed);
      StepKeepsMirror(cfg, s, steps[0], next);
      RunPassesOn(cfg, next, steps[1..], t, ObserveStep(s, steps[0], next, observed));
    }
  }

  /** Every workspace notification the live worker was shown, before it was ready or
      since, has been sent to it, once and in order, whenever it is ready and the pump is
      between messages. */
  lemma NotificationsArriveInOrder(cfg: Config, steps: seq<Step>, t: Sys)
    requires Run(cfg, INITIAL, steps) == Some(t)
    requires t.h.client.Some? && t.h.readyDone && t.pump == Idle
    ensures HeardBy(t, t.h.gen) == ObservedAfter(cfg, INITIAL, steps, [])
  {
    hide Run, ObservedAfter;
    RunPassesOn(cfg, INITIAL, steps, t, []);
    assert Reachable(cfg, t);
    ReachableKeepsMirror(cfg, t);
    GenerationsOf(cfg, t);
    LockIsLoading(t);
  }

  /** And every one the editor sends is shown to the worker by the pump's next step. */
  lemma WorkspaceIsShown(cfg: Config, s: Sys, what: string, told: Sys)
    requires Next(cfg, s, PumpDoes(Tell(Workspace(what)))) == Some(told)
    ensures told.pump == Told(WorkspaceNote(what)) && told.openDocs == s.openDocs
    ensures Next(cfg, told, PumpDoes(Observe)).Some? <==> told.lock == Free
    ensures forall t, observed | Next(cfg, told, PumpDoes(Observe)) == Some(t) ::
              ObserveStep(told, PumpDoes(Observe), t, observed) == observed + [what]
  {
  }
}
