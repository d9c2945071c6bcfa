/** The handle of an isolated gopls process: its generations, reservations and idle
    timer, and the messages that mirror the editor's documents onto it. */
module Worker {
  import opened Options
  import opened Utf8
  import opened Documents

  // ---- what is mirrored ----------------------------------------------------

  /** An editor notification as observe receives it: its method and document. */
  datatype Note =
    | OpenNote(uri: string)
    | ChangeNote(uri: string)
    | CloseNote(uri: string)
    | WorkspaceNote(what: string)

  /** A message to the worker process. */
  datatype Action =
    | DidOpen(doc: Doc)
    | DidChange(uri: string, version: int, text: seq<Byte>)
    | DidClose(uri: string)
    | Notify(what: string)

  /** mirror: what, if anything, is sent for a notification. */
  function MirrorOf(openDocs: map<string, Doc>, note: Note): Option<Action> {
    match note
    case OpenNote(uri) => if uri in openDocs then Some(DidOpen(openDocs[uri])) else None
    case ChangeNote(uri) =>
      if uri in openDocs then Some(DidChange(openDocs[uri].uri, openDocs[uri].version, openDocs[uri].text)) else None
    case CloseNote(uri) => if uri == "" then None else Some(DidClose(uri))
    case WorkspaceNote(what) => Some(Notify(what))
  }

  function Opens(docs: seq<Doc>): (r: seq<Action>)
    ensures |r| == |docs|
  {
    seq(|docs|, i requires 0 <= i < |docs| => DidOpen(docs[i]))
  }

  function Mirrored(openDocs: map<string, Doc>, notes: seq<Note>): seq<Action>
    decreases notes
  {
    if notes == [] then []
    else
      var last := |notes| - 1;
      Mirrored(openDocs, notes[..last]) +
      match MirrorOf(openDocs, notes[last]) { case None => [] case Some(a) => [a] }
  }

  lemma OpensStep(docs: seq<Doc>, i: nat)
    requires i < |docs|
    ensures Opens(docs)[..i + 1] == Opens(docs)[..i] + [DidOpen(docs[i])]
  {
  }

  lemma MirroredStep(openDocs: map<string, Doc>, notes: seq<Note>, i: nat)
    requires i < |notes|
    ensures Mirrored(openDocs, notes[..i + 1])
         == Mirrored(openDocs, notes[..i]) + match MirrorOf(openDocs, notes[i]) { case None => [] case Some(a) => [a] }
  {
    hide MirrorOf;
    assert notes[..i + 1][..i] == notes[..i];
  }

  // ---- the handle ----------------------------------------------------------

  /** The idle-eviction timer: none, armed for a generation, or gone off. */
  datatype Timer = NoTimer | Armed(gen: nat) | WentOff

  datatype Failure = WorkerExited | InitializeFailed

  /** A client and its ready channel are known by their generation; `closed` lists
      the channels closed so far. */
  datatype Handle = Handle(
    client: Option<nat>,
    gen: nat,
    readyDone: bool,
    initErr: Option<Failure>,
    holds: int,
    evictTimer: Timer,
    pendingObs: seq<Note>,
    closed: seq<nat>)

  const NEW: Handle := Handle(None, 0, false, None, 0, NoTimer, [], [])

  function ReadyClosed(h: Handle): Handle {
    if h.readyDone then h else h.(readyDone := true, closed := h.closed + [h.gen])
  }

  function Rearmed(h: Handle, ttl: int): Handle {
    h.(evictTimer := if ttl <= 0 || h.client == None then NoTimer else Armed(h.gen))
  }

  function Spawned(h: Handle, ttl: int): Handle {
    Rearmed(h.(client := Some(h.gen + 1), gen := h.gen + 1, readyDone := false, initErr := None, pendingObs := []), ttl)
  }

  /** ensureStartedLocked; spawns says whether a new process can be started. */
  function Started(h: Handle, spawns: bool, ttl: int): Option<Handle> {
    if h.client.Some? then Some(h) else if spawns then Some(Spawned(h, ttl)) else None
  }

  function Acquired(h: Handle, spawns: bool, ttl: int): Option<Handle> {
    match Started(h, spawns, ttl)
    case None => None
    case Some(started) => Some(started.(holds := started.holds + 1, evictTimer := NoTimer))
  }

  function Released(h: Handle, ttl: int): Handle {
    var left := h.(holds := h.holds - 1);
    if left.holds == 0 then Rearmed(left, ttl) else left
  }

  /** initWorker's critical section is for a superseded or finished generation. */
  predicate Superseded(h: Handle, gen: nat) {
    h.gen != gen || h.readyDone
  }

  function InitFailed(h: Handle): Handle {
    ReadyClosed(h.(initErr := Some(InitializeFailed), client := None, pendingObs := [], evictTimer := NoTimer))
  }

  /** The end of replayLiveLocked. */
  function WentLive(h: Handle): Handle {
    ReadyClosed(h.(pendingObs := []))
  }

  function TornDown(h: Handle): Handle {
    var down := h.(client := None, evictTimer := NoTimer);
    if h.readyDone then down
    else ReadyClosed(down.(initErr := if h.initErr == None then Some(WorkerExited) else h.initErr))
  }

  function Exited(h: Handle, gen: nat): Handle {
    if h.gen != gen then h else TornDown(h)
  }

  function ShutDown(h: Handle): Handle {
    if h.client == None then h else TornDown(h)
  }

  /** observe: the notification is buffered, dropped, or for the caller to mirror. */
  function Observed(h: Handle, note: Note): (Handle, Option<nat>) {
    if h.client == None then (h, None)
    else if !h.readyDone then (h.(pendingObs := h.pendingObs + [note]), None)
    else if h.initErr != None then (h, None)
    else (h, h.client)
  }

  /** evictIfIdle's decision. */
  predicate IdleNow(h: Handle, gen: nat) {
    h.gen == gen && h.client != None && h.holds == 0
  }

  /** request's check once the ready channel of its generation is closed. */
  predicate PassesGate(h: Handle, gen: nat) {
    h.gen == gen && h.initErr == None
  }

  /** The connection to one worker process. */
  class WorkerClient {
    var sent: seq<Action>

    constructor ()
      ensures sent == []
    {
      sent := [];
    }

    method Send(a: Action)
      modifies this
      ensures sent == old(sent) + [a]
    {
      sent := sent + [a];
    }

    method Mirror(note: Note, openDocs: map<string, Doc>)
      modifies this
      ensures sent == old(sent) + match MirrorOf(openDocs, note) { case None => [] case Some(a) => [a] }
    {
      match note
      case OpenNote(uri) =>
        if uri in openDocs {
          Send(DidOpen(openDocs[uri]));
        }
      case ChangeNote(uri) =>
        if uri in openDocs {
          var doc := openDocs[uri];
          Send(DidChange(doc.uri, doc.version, doc.text));
        }
      case CloseNote(uri) =>
        if uri != "" {
          Send(DidClose(uri));
        }
      case WorkspaceNote(what) => Send(Notify(what));
    }
  }

  class WorkerHandle {
    var client: Option<nat>
    var gen: nat
    var readyDone: bool
    var initErr: Option<Failure>
    var holds: int
    var evictTimer: Timer
    var pendingObs: seq<Note>
    ghost var closed: seq<nat>

    ghost function View(): Handle
      reads this
    {
      Handle(client, gen, readyDone, initErr, holds, evictTimer, pendingObs, closed)
    }

    constructor ()
      ensures View() == NEW
    {
      client, gen, readyDone, initErr := None, 0, false, None;
      holds, evictTimer, pendingObs, closed := 0, NoTimer, [], [];
    }

    method CloseReadyLocked()
      modifies this
      ensures View() == ReadyClosed(old(View()))
    {
      if readyDone {
        return;
      }
      readyDone := true;
      closed := closed + [gen];
    }

    method ArmEvictLocked(ttl: int)
      modifies this
      ensures View() == Rearmed(old(View()), ttl)
    {
      evictTimer := NoTimer;
      if ttl <= 0 || client == None {
        return;
      }
      evictTimer := Armed(gen);
    }

    method EnsureStartedLocked(spawns: bool, ttl: int) returns (ok: bool)
      modifies this
      ensures match Started(old(View()), spawns, ttl)
              case None => !ok && View() == old(View())
              case Some(h) => ok && View() == h
    {
      if client != None {
        return true;
      }
      if !spawns {
        return false;
      }
      gen := gen + 1;
      client, readyDone, initErr, pendingObs := Some(gen), false, None, [];
      ArmEvictLocked(ttl);
      ok := true;
    }

    /** Returns the generation whose ready channel to wait on. */
    method Acquire(spawns: bool, ttl: int) returns (ok: bool, ready: nat)
      modifies this
      ensures match Acquired(old(View()), spawns, ttl)
              case None => !ok && View() == old(View())
              case Some(h) => ok && View() == h && ready == h.gen
    {
      ok := EnsureStartedLocked(spawns, ttl);
      ready := gen;
      if !ok {
        return;
      }
      holds := holds + 1;
      evictTimer := NoTimer;
    }

    method Release(ttl: int)
      modifies this
      ensures View() == Released(old(View()), ttl)
    {
      holds := holds - 1;
      if holds == 0 {
        ArmEvictLocked(ttl);
      }
    }

    /** initWorker's critical section, when nothing else runs meanwhile. */
    method FinishInit(c: WorkerClient, of: nat, failed: bool, snapshot: seq<Doc>, openDocs: map<string, Doc>)
      modifies this, c
      ensures var h := old(View());
              if Superseded(h, of) then View() == h && c.sent == old(c.sent)
              else if failed then View() == InitFailed(h) && c.sent == old(c.sent)
              else View() == WentLive(h.(initErr := None))
                   && c.sent == old(c.sent) + Opens(snapshot) + Mirrored(openDocs, h.pendingObs)
    {
      if gen != of || readyDone {
        return;
      }
      initErr := if failed then Some(InitializeFailed) else None;
      if failed {
        client, pendingObs, evictTimer := None, [], NoTimer;
        CloseReadyLocked();
        return;
      }
      ReplayLiveLocked(c, snapshot, openDocs);
    }

    method ReplayLiveLocked(c: WorkerClient, snapshot: seq<Doc>, openDocs: map<string, Doc>)
      modifies this, c
      ensures View() == WentLive(old(View()))
      ensures c.sent == old(c.sent) + Opens(snapshot) + Mirrored(openDocs, old(pendingObs))
    {
      hide MirrorOf;
      for i := 0 to |snapshot|
        invariant c.sent == old(c.sent) + Opens(snapshot)[..i]
        invariant View() == old(View())
      {
        c.Send(DidOpen(snapshot[i]));
        OpensStep(snapshot, i);
      }
      assert Opens(snapshot)[..|snapshot|] == Opens(snapshot);
      var notes := pendingObs;
      for i := 0 to |notes|
        invariant c.sent == old(c.sent) + Opens(snapshot) + Mirrored(openDocs, notes[..i])
        invariant View() == old(View())
      {
        c.Mirror(notes[i], openDocs);
        MirroredStep(openDocs, notes, i);
      }
      assert notes[..|notes|] == notes;
      pendingObs := [];
      CloseReadyLocked();
    }

    method OnExit(of: nat)
      modifies this
      ensures View() == Exited(old(View()), of)
    {
      if gen != of {
        return;
      }
      client, evictTimer := None, NoTimer;
      if !readyDone {
        if initErr == None {
          initErr := Some(WorkerExited);
        }
        CloseReadyLocked();
      }
    }

    /** The critical section of observe; the caller mirrors to the returned client. */
    method Observe(note: Note) returns (to: Option<nat>)
      modifies this
      ensures (View(), to) == Observed(old(View()), note)
    {
      if client == None {
        return None;
      }
      if !readyDone {
        pendingObs := pendingObs + [note];
        return None;
      }
      if initErr != None {
        return None;
      }
      return client;
    }

    method Shutdown()
      modifies this
      ensures View() == ShutDown(old(View()))
    {
      if client == None {
        return;
      }
      client, evictTimer := None, NoTimer;
      if !readyDone {
        if initErr == None {
          initErr := Some(WorkerExited);
        }
        CloseReadyLocked();
      }
    }
  }
}
