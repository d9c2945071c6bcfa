/** The worker as a step system: one step for each critical section of h.mu or p.mu
    and one for each message written to the process, taken in any order by the
    client pump, the requests, the initializing goroutine, exits and timers. */
module WorkerSystem {
  import opened Options
  import Documents
  import opened Paths
  import ModRoot
  import opened Worker

  type Docs = map<string, Documents.Doc>

  /** The handle's idle TTL and module, the workspace, and what uriToPath says. */
  datatype Config = Config(ttl: int, mod: Option<Path>, root: Path, gomods: set<Path>, pathOf: string -> Option<Path>)

  // ---- which documents are the worker's ------------------------------------

  /** The module a document's notifications are routed to. */
  function OwnerOf(cfg: Config, uri: string): Option<Path> {
    match cfg.pathOf(uri)
    case None => None
    case Some(path) => ModRoot.Walk(Dir(path), cfg.root, cfg.gomods)
  }

  predicate Owned(cfg: Config, uri: string) {
    uri != "" && OwnerOf(cfg, uri) == cfg.mod
  }

  /** workerStateFor's filter. */
  predicate InSnapshot(cfg: Config, uri: string) {
    cfg.mod == None || (cfg.pathOf(uri).Some? && cfg.mod.value <= cfg.pathOf(uri).value)
  }

  lemma OwnedAreInSnapshot(cfg: Config, uri: string)
    requires Owned(cfg, uri)
    ensures InSnapshot(cfg, uri)
  {
    if cfg.mod.Some? {
      var path := cfg.pathOf(uri).value;
      ModRoot.WalkIsInnermost(cfg.mod.value, Dir(path), cfg.root, cfg.gomods);
      assert Dir(path) <= path;
    }
  }

  predicate Routed(cfg: Config, note: Note) {
    note.WorkspaceNote? || note.uri == "" || OwnerOf(cfg, note.uri) == cfg.mod
  }

  /** What workerStateFor returns, in whatever order. */
  ghost predicate IsSnapshot(cfg: Config, openDocs: Docs, docs: seq<Documents.Doc>) {
    && (forall d <- docs :: d.uri in openDocs && openDocs[d.uri] == d && InSnapshot(cfg, d.uri))
    && (forall u <- openDocs | InSnapshot(cfg, u) :: openDocs[u] in docs)
  }

  // ---- the editor and the process ------------------------------------------

  datatype Event =
    | Opened(doc: Documents.Doc, isGoPath: bool)
    | Edited(uri: string, version: int, changes: seq<Documents.Change>)
    | Closed(uri: string)
    | Workspace(what: string)

  ghost function Tracked(openDocs: Docs, ev: Event): Docs {
    match ev
    case Opened(doc, isGoPath) => Documents.OpenedDocs(openDocs, doc, isGoPath)
    case Edited(uri, version, changes) => Documents.ChangedDocs(openDocs, uri, version, changes)
    case Closed(uri) => if uri == "" then openDocs else Documents.ClosedDocs(openDocs, uri)
    case Workspace(_) => openDocs
  }

  function NoteOf(ev: Event): Note {
    match ev
    case Opened(doc, _) => OpenNote(doc.uri)
    case Edited(uri, _, _) => ChangeNote(uri)
    case Closed(uri) => CloseNote(uri)
    case Workspace(what) => WorkspaceNote(what)
  }

  /** The process's documents after one message; a change to a document it does not
      have open is dropped. */
  function Receive(view: Docs, a: Action): Docs {
    match a
    case DidOpen(doc) => view[doc.uri := doc]
    case DidChange(uri, version, text) =>
      if uri in view then view[uri := view[uri].(version := version, text := text)] else view
    case DidClose(uri) => view - {uri}
    case Notify(_) => view
  }

  // ---- the state -----------------------------------------------------------

  datatype Pump =
    | Idle
    | Told(note: Note)
    | Mirroring(note: Note, to: nat)
    | Sending(action: Action, to: nat)

  /** h.mu, when initWorker holds it over several steps. */
  datatype Lock =
    | Free
    | Loaded
    | Replaying(opens: seq<Documents.Doc>, sending: Option<Action>, notes: seq<Note>)

  /** A goroutine in request, since its acquire. */
  datatype Request = Waiting(gen: nat) | Woken(gen: nat) | Serving(gen: nat) | Leaving

  /** An eviction callback: fired, or decided that the worker was idle when that many
      reservations had ever been taken. */
  datatype Callback = Fired(gen: nat) | Decided(gen: nat, taken: nat)

  datatype Sys = Sys(
    openDocs: Docs,
    h: Handle,
    views: map<nat, Docs>,
    heard: map<nat, seq<string>>,
    pump: Pump,
    lock: Lock,
    replayed: set<nat>,
    requests: map<nat, Request>,
    callbacks: map<nat, Callback>,
    taken: nat)

  const INITIAL: Sys := Sys(map[], NEW, map[], map[], Idle, Free, {}, map[], map[], 0)

  /** The generations with a process get its documents, none at first. */
  function WithProcess(s: Sys, h: Handle): Sys {
    s.(h := h,
       views := if h.gen == s.h.gen then s.views else s.views[h.gen := map[]],
       heard := if h.gen == s.h.gen then s.heard else s.heard[h.gen := []])
  }

  /** The workspace notifications a generation's process has been sent. */
  function HeardBy(s: Sys, gen: nat): seq<string> {
    if gen in s.heard then s.heard[gen] else []
  }

  function Written(s: Sys, gen: nat, a: Action): Sys {
    if gen !in s.views then s
    else s.(views := s.views[gen := Receive(s.views[gen], a)],
            heard := if a.Notify? then s.heard[gen := HeardBy(s, gen) + [a.what]] else s.heard)
  }

  lemma WrittenFrame(s: Sys, gen: nat, a: Action)
    ensures var t := Written(s, gen, a); t == s.(views := t.views, heard := t.heard)
  {
    hide Receive;
  }

  // ---- the client pump -----------------------------------------------------

  datatype PumpStep = Tell(ev: Event) | Observe | Read | Deliver

  ghost function PumpNext(cfg: Config, s: Sys, step: PumpStep): Option<Sys> {
    match (step, s.pump)
    case (Tell(ev), Idle) => Some(s.(openDocs := Tracked(s.openDocs, ev), pump := Told(NoteOf(ev))))
    case (Observe, Told(note)) =>
      if !Routed(cfg, note) then Some(s.(pump := Idle))
      else if s.lock != Free then None
      else
        var (h, to) := Observed(s.h, note);
        Some(s.(h := h, pump := if to.Some? then Mirroring(note, to.value) else Idle))
    case (Read, Mirroring(note, to)) =>
      var a := MirrorOf(s.openDocs, note);
      Some(s.(pump := if a.Some? then Sending(a.value, to) else Idle))
    case (Deliver, Sending(a, to)) => Some(Written(s, to, a).(pump := Idle))
    case _ => None
  }

  // ---- requests ------------------------------------------------------------

  datatype RequestStep =
    | Acquire(id: nat, spawns: bool)
    | Wake(id: nat)
    | Check(id: nat)
    | GiveUp(id: nat)
    | Answered(id: nat)
    | Release(id: nat)

  function RequestNext(cfg: Config, s: Sys, step: RequestStep): Option<Sys> {
    var id := step.id;
    match step
    case Acquire(_, spawns) =>
      if s.lock != Free || id in s.requests then None
      else (match Acquired(s.h, spawns, cfg.ttl)
            case None => None
            case Some(h) =>
              Some(WithProcess(s, h).(requests := s.requests[id := Waiting(h.gen)], taken := s.taken + 1)))
    case Wake(_) =>
      if id !in s.requests || !s.requests[id].Waiting? || s.requests[id].gen !in s.h.closed then None
      else Some(s.(requests := s.requests[id := Woken(s.requests[id].gen)]))
    case Check(_) =>
      if s.lock != Free || id !in s.requests || !s.requests[id].Woken? then None
      else
        var gen := s.requests[id].gen;
        Some(s.(requests := s.requests[id := if PassesGate(s.h, gen) then Serving(gen) else Leaving]))
    case GiveUp(_) =>
      if id !in s.requests || !s.requests[id].Waiting? then None
      else Some(s.(requests := s.requests[id := Leaving]))
    case Answered(_) =>
      if id !in s.requests || !s.requests[id].Serving? then None
      else Some(s.(requests := s.requests[id := Leaving]))
    case Release(_) =>
      if s.lock != Free || id !in s.requests || !s.requests[id].Leaving? then None
      else Some(s.(h := Released(s.h, cfg.ttl), requests := s.requests - {id}))
  }

  // ---- starting and stopping -----------------------------------------------

  datatype LifeStep =
    | Warm(spawns: bool)
    | InitDone(gen: nat, failed: bool)
    | Snapshot(docs: seq<Documents.Doc>)
    | WriteOpen
    | ReadNote
    | WriteNote
    | GoLive
    | Exit(gen: nat)
    | Stop

  /** initWorker and the replay; generations count from 1. */
  ghost function ReplayNext(cfg: Config, s: Sys, step: LifeStep): Option<Sys> {
    match (step, s.lock)
    case (InitDone(gen, failed), Free) =>
      if gen == 0 || Superseded(s.h, gen) then Some(s)
      else if failed then Some(s.(h := InitFailed(s.h)))
      else Some(s.(h := s.h.(initErr := None), lock := Loaded))
    case (Snapshot(docs), Loaded) =>
      if !IsSnapshot(cfg, s.openDocs, docs) then None
      else Some(s.(lock := Replaying(docs, None, s.h.pendingObs)))
    case (WriteOpen, Replaying(opens, sending, notes)) =>
      if opens == [] then None
      else Some(Written(s, s.h.gen, DidOpen(opens[0])).(lock := Replaying(opens[1..], sending, notes)))
    case (ReadNote, Replaying(opens, sending, notes)) =>
      if opens != [] || sending.Some? || notes == [] then None
      else Some(s.(lock := Replaying([], MirrorOf(s.openDocs, notes[0]), notes[1..])))
    case (WriteNote, Replaying(opens, Some(a), notes)) =>
      Some(Written(s, s.h.gen, a).(lock := Replaying(opens, None, notes)))
    case (GoLive, Replaying(opens, sending, notes)) =>
      if opens != [] || sending.Some? || notes != [] then None
      else Some(s.(h := WentLive(s.h), lock := Free, replayed := s.replayed + {s.h.gen}))
    case _ => None
  }

  /** Warming up, and the ends of a process. */
  function LifeNext(cfg: Config, s: Sys, step: LifeStep): Option<Sys> {
    if s.lock != Free then None
    else match step
      case Warm(spawns) =>
        (match Started(s.h, spawns, cfg.ttl) case None => None case Some(h) => Some(WithProcess(s, h)))
      case Exit(gen) => Some(s.(h := if gen == 0 then s.h else Exited(s.h, gen)))
      case Stop => Some(s.(h := ShutDown(s.h)))
      case _ => None
  }

  // ---- idle eviction -------------------------------------------------------

  datatype EvictStep = Fire(id: nat) | Decide(id: nat) | Evict(id: nat)

  function EvictNext(s: Sys, step: EvictStep): Option<Sys> {
    var id := step.id;
    match step
    case Fire(_) =>
      if id in s.callbacks || !s.h.evictTimer.Armed? then None
      else Some(s.(h := s.h.(evictTimer := WentOff), callbacks := s.callbacks[id := Fired(s.h.evictTimer.gen)]))
    case Decide(_) =>
      if s.lock != Free || id !in s.callbacks || !s.callbacks[id].Fired? then None
      else
        var gen := s.callbacks[id].gen;
        Some(s.(callbacks := if IdleNow(s.h, gen) then s.callbacks[id := Decided(gen, s.taken)]
                             else s.callbacks - {id}))
    case Evict(_) =>
      if s.lock != Free || id !in s.callbacks || !s.callbacks[id].Decided? then None
      else Some(s.(h := ShutDown(s.h), callbacks := s.callbacks - {id}))
  }

  // ---- everything ----------------------------------------------------------

  datatype Step = PumpDoes(p: PumpStep) | RequestDoes(r: RequestStep) | LifeDoes(l: LifeStep) | EvictDoes(e: EvictStep)

  ghost function Next(cfg: Config, s: Sys, step: Step): Option<Sys> {
    match step
    case PumpDoes(p) => PumpNext(cfg, s, p)
    case RequestDoes(r) => RequestNext(cfg, s, r)
    case LifeDoes(l) => if l.Warm? || l.Exit? || l.Stop? then LifeNext(cfg, s, l) else ReplayNext(cfg, s, l)
    case EvictDoes(e) => EvictNext(s, e)
  }

  lemma StepCases(cfg: Config, s: Sys, step: Step, t: Sys)
    requires Next(cfg, s, step) == Some(t)
    ensures match step
            case PumpDoes(p) => PumpNext(cfg, s, p) == Some(t)
            case RequestDoes(r) => RequestNext(cfg, s, r) == Some(t)
            case LifeDoes(l) => LifeNext(cfg, s, l) == Some(t) || ReplayNext(cfg, s, l) == Some(t)
            case EvictDoes(e) => EvictNext(s, e) == Some(t)
  {
    hide PumpNext, RequestNext, LifeNext, ReplayNext, EvictNext;
  }

  /** The pump tracks and mirrors documents, and may buffer a note. */
  lemma PumpFrame(cfg: Config, s: Sys, step: PumpStep, t: Sys)
    requires PumpNext(cfg, s, step) == Some(t)
    ensures t == s.(openDocs := t.openDocs, pump := t.pump, views := t.views, heard := t.heard, h := t.h)
    ensures t.h == s.h.(pendingObs := t.h.pendingObs)
  {
    hide Routed, MirrorOf, Tracked, NoteOf, Receive;
    match step
    case Tell(ev) => assert t == s.(openDocs := t.openDocs, pump := t.pump);
    case Observe => assert t == s.(h := t.h, pump := t.pump);
    case Read => assert t == s.(pump := t.pump);
    case Deliver => assert t == s.(views := t.views, heard := t.heard, pump := Idle);
  }

  ghost function Run(cfg: Config, s: Sys, steps: seq<Step>): Option<Sys>
    decreases steps
  {
    if steps == [] then Some(s)
    else match Next(cfg, s, steps[0])
      case None => None
      case Some(t) => Run(cfg, t, steps[1..])
  }

  /** s is the end of some run of the worker. */
  ghost predicate Reachable(cfg: Config, s: Sys) {
    exists steps :: Run(cfg, INITIAL, steps) == Some(s)
  }

  lemma {:induction false} RunsExtend(cfg: Config, s: Sys, steps: seq<Step>, step: Step)
    requires Run(cfg, s, steps).Some?
    ensures Run(cfg, s, steps + [step]) == Next(cfg, Run(cfg, s, steps).value, step)
    decreases steps
  {
    hide Next;
    if steps == [] {
      var after := Next(cfg, s, step);
      assert after.Some? ==> Run(cfg, after.value, []) == after;
    } else {
      assert (steps + [step])[1..] == steps[1..] + [step];
      RunsExtend(cfg, Next(cfg, s, steps[0]).value, steps[1..], step);
    }
  }

  lemma StepReaches(cfg: Config, s: Sys, step: Step, t: Sys)
    requires Reachable(cfg, s) && Next(cfg, s, step) == Some(t)
    ensures Reachable(cfg, t)
  {
    hide Next, Run;
    var steps :| Run(cfg, INITIAL, steps) == Some(s);
    RunsExtend(cfg, INITIAL, steps, step);
  }

  lemma InitialIsReachable(cfg: Config)
    ensures Reachable(cfg, INITIAL)
  {
    assert Run(cfg, INITIAL, []) == Some(INITIAL);
  }
}
