/** Mirror convergence: whatever the interleaving of edits with starting, replaying
    and going live, the worker ends up with the editor's documents. */
module MirrorProofs {
  import opened Options
  import Documents
  import opened Paths
  import ModRoot
  import opened Worker
  import opened WorkerSystem
  import opened WorkerProofs

  type View = Option<Documents.Doc>

  // ---- one document at a time ----------------------------------------------

  function At(docs: Docs, u: string): View {
    if u in docs then Some(docs[u]) else None
  }

  function Act(v: View, u: string, a: Action): View {
    match a
    case DidOpen(doc) => if doc.uri == u then Some(doc) else v
    case DidChange(uri, version, text) =>
      if uri == u && v.Some? then Some(v.value.(version := version, text := text)) else v
    case DidClose(uri) => if uri == u then None else v
    case Notify(_) => v
  }

  function ActMaybe(v: View, u: string, a: Option<Action>): View {
    match a
    case None => v
    case Some(action) => Act(v, u, action)
  }

  function FoldOpens(v: View, u: string, docs: seq<Documents.Doc>): View
    decreases docs
  {
    if docs == [] then v else FoldOpens(Act(v, u, DidOpen(docs[0])), u, docs[1..])
  }

  /** Where mirroring the notes, read against openDocs, takes a document. */
  function FoldNotes(v: View, u: string, openDocs: Docs, notes: seq<Note>): View
    decreases notes
  {
    if notes == [] then v else FoldNotes(ActMaybe(v, u, MirrorOf(openDocs, notes[0])), u, openDocs, notes[1..])
  }

  lemma ReceiveActs(view: Docs, a: Action, u: string)
    ensures At(Receive(view, a), u) == Act(At(view, u), u, a)
  {
  }

  lemma {:induction false} FoldNotesLast(v: View, u: string, openDocs: Docs, notes: seq<Note>, note: Note)
    ensures FoldNotes(v, u, openDocs, notes + [note])
         == ActMaybe(FoldNotes(v, u, openDocs, notes), u, MirrorOf(openDocs, note))
    decreases notes
  {
    hide ActMaybe, MirrorOf;
    if notes == [] {
      assert ([] + [note])[1..] == [];
    } else {
      assert (notes + [note])[1..] == notes[1..] + [note];
      FoldNotesLast(ActMaybe(v, u, MirrorOf(openDocs, notes[0])), u, openDocs, notes[1..], note);
    }
  }

  /** The snapshot opens exactly the editor's documents. */
  lemma {:induction false} FoldOpensOf(v: View, u: string, docs: seq<Documents.Doc>, openDocs: Docs)
    requires forall d <- docs :: d.uri in openDocs && openDocs[d.uri] == d
    ensures FoldOpens(v, u, docs) == if exists d <- docs :: d.uri == u then At(openDocs, u) else v
    decreases docs
  {
    if docs != [] {
      FoldOpensOf(Act(v, u, DidOpen(docs[0])), u, docs[1..], openDocs);
      assert forall d :: d in docs <==> d == docs[0] || d in docs[1..];
    }
  }

  ghost predicate Consistent(openDocs: Docs) {
    "" !in openDocs && forall u <- openDocs :: openDocs[u].uri == u
  }

  lemma SnapshotStarts(cfg: Config, openDocs: Docs, docs: seq<Documents.Doc>, u: string)
    requires Consistent(openDocs) && IsSnapshot(cfg, openDocs, docs) && Owned(cfg, u)
    ensures FoldOpens(None, u, docs) == At(openDocs, u)
  {
    hide Owned, InSnapshot;
    OwnedAreInSnapshot(cfg, u);
    FoldOpensOf(None, u, docs, openDocs);
    if u in openDocs {
      assert openDocs[u] in docs && openDocs[u].uri == u;
    }
  }

  // ---- how an editor event disturbs what is still to be mirrored -----------

  /** Alike up to version and text. */
  predicate Similar(v: View, w: View) {
    (v.None? && w.None?)
    || (v.Some? && w.Some? && v.value.uri == w.value.uri && v.value.languageId == w.value.languageId)
  }

  lemma {:induction false} SimilarFolds(v: View, w: View, u: string, openDocs: Docs, edited: Docs, notes: seq<Note>)
    requires Consistent(openDocs) && Consistent(edited)
    requires Similar(v, w) && Similar(At(openDocs, u), At(edited, u))
    ensures Similar(FoldNotes(v, u, openDocs, notes), FoldNotes(w, u, edited, notes))
    decreases notes
  {
    if notes != [] {
      SimilarActs(v, w, u, openDocs, edited, notes[0]);
      hide ActMaybe, MirrorOf, Similar;
      SimilarFolds(ActMaybe(v, u, MirrorOf(openDocs, notes[0])), ActMaybe(w, u, MirrorOf(edited, notes[0])),
                   u, openDocs, edited, notes[1..]);
    }
  }

  lemma SimilarActs(v: View, w: View, u: string, openDocs: Docs, edited: Docs, note: Note)
    requires Consistent(openDocs) && Consistent(edited)
    requires Similar(v, w) && Similar(At(openDocs, u), At(edited, u))
    ensures Similar(ActMaybe(v, u, MirrorOf(openDocs, note)), ActMaybe(w, u, MirrorOf(edited, note)))
  {
  }

  /** Mirroring depends only on the document itself. */
  lemma {:induction false} SameFolds(v: View, u: string, openDocs: Docs, edited: Docs, notes: seq<Note>)
    requires Consistent(openDocs) && Consistent(edited) && At(openDocs, u) == At(edited, u)
    ensures FoldNotes(v, u, openDocs, notes) == FoldNotes(v, u, edited, notes)
    decreases notes
  {
    if notes != [] {
      assert ActMaybe(v, u, MirrorOf(openDocs, notes[0])) == ActMaybe(v, u, MirrorOf(edited, notes[0]));
      SameFolds(ActMaybe(v, u, MirrorOf(openDocs, notes[0])), u, openDocs, edited, notes[1..]);
    }
  }

  lemma TrackingIsConsistent(openDocs: Docs, ev: Event)
    requires Consistent(openDocs)
    ensures Consistent(Tracked(openDocs, ev))
  {
    hide Documents.AppliedAll;
  }

  /** An event touches one document; an edit keeps it open in the same language. */
  lemma TrackingIsLocal(openDocs: Docs, ev: Event, u: string)
    ensures NoteOf(ev).WorkspaceNote? || NoteOf(ev).uri != u ==> At(Tracked(openDocs, ev), u) == At(openDocs, u)
    ensures ev.Edited? ==> Similar(At(openDocs, u), At(Tracked(openDocs, ev), u))
    ensures ev.Opened? && u !in Tracked(openDocs, ev) ==> At(Tracked(openDocs, ev), u) == At(openDocs, u)
    ensures ev.Closed? && ev.uri == u && u != "" ==> At(Tracked(openDocs, ev), u) == None
  {
    hide Documents.AppliedAll;
  }

  /** If mirroring the notes leads to the editor's document, it still does after one
      more event once that event is mirrored too. */
  lemma TellingCatchesUp(v: View, w: View, u: string, openDocs: Docs, ev: Event, notes: seq<Note>)
    requires Consistent(openDocs) && u != ""
    requires FoldNotes(v, u, openDocs, notes) == At(openDocs, u)
    requires w == v || (v == At(openDocs, u) && w == At(Tracked(openDocs, ev), u))
    ensures var edited := Tracked(openDocs, ev);
            ActMaybe(FoldNotes(w, u, edited, notes), u, MirrorOf(edited, NoteOf(ev))) == At(edited, u)
  {
    var edited := Tracked(openDocs, ev);
    TrackingIsConsistent(openDocs, ev);
    TrackingIsLocal(openDocs, ev, u);
    hide Tracked, FoldNotes;
    if NoteOf(ev).WorkspaceNote? || NoteOf(ev).uri != u || At(edited, u) == At(openDocs, u) {
      SameFolds(v, u, openDocs, edited, notes);
    } else if ev.Edited? {
      SimilarFolds(v, w, u, openDocs, edited, notes);
    }
  }

  // ---- the invariant -------------------------------------------------------

  /** What the message in the pump's hands will do to generation gen's document. */
  function Pending(pump: Pump, openDocs: Docs, gen: nat, v: View, u: string): View {
    match pump
    case Idle => v
    case Told(note) => ActMaybe(v, u, MirrorOf(openDocs, note))
    case Mirroring(note, to) => if to == gen then ActMaybe(v, u, MirrorOf(openDocs, note)) else v
    case Sending(a, to) => if to == gen then Act(v, u, a) else v
  }

  function ViewNow(s: Sys): Docs {
    if s.h.gen in s.views then s.views[s.h.gen] else map[]
  }

  /** What the notes still to be mirrored start from: the snapshot to come, the
      replay under way, or what the live worker has. */
  function Start(s: Sys, u: string): View {
    match s.lock
    case Replaying(opens, sending, _) => ActMaybe(FoldOpens(At(ViewNow(s), u), u, opens), u, sending)
    case _ => if s.h.readyDone then At(ViewNow(s), u) else At(s.openDocs, u)
  }

  function NotesLeft(s: Sys): seq<Note> {
    match s.lock
    case Replaying(_, _, notes) => notes
    case _ => if s.h.readyDone then [] else s.h.pendingObs
  }

  ghost predicate CatchesUp(s: Sys, u: string) {
    Pending(s.pump, s.openDocs, s.h.gen, FoldNotes(Start(s, u), u, s.openDocs, NotesLeft(s)), u) == At(s.openDocs, u)
  }

  ghost predicate PumpOk(s: Sys) {
    match s.pump
    case Idle => true
    case Told(note) => note.CloseNote? ==> note.uri !in s.openDocs
    case Mirroring(_, to) => to <= s.h.gen && (to == s.h.gen ==> s.h.readyDone)
    case Sending(_, to) => to <= s.h.gen && (to == s.h.gen ==> s.h.readyDone)
  }

  ghost predicate ProcessOk(s: Sys) {
    s.h.client.Some? ==>
      s.h.gen in s.views && (!s.h.readyDone && !s.lock.Replaying? ==> s.views[s.h.gen] == map[])
  }

  ghost predicate Mirrors(cfg: Config, s: Sys) {
    && Consistent(s.openDocs) && PumpOk(s) && ProcessOk(s)
    && (s.h.client.Some? ==> forall u | Owned(cfg, u) :: CatchesUp(s, u))
  }

  // ---- steps that move no document -----------------------------------------

  ghost predicate LeavesMirror(s: Sys, t: Sys) {
    && t.openDocs == s.openDocs && t.pump == s.pump && t.views == s.views
    && t.h.gen == s.h.gen && (s.h.readyDone ==> t.h.readyDone)
    && (t.h.client.Some? ==> t.h.client == s.h.client && t.h.readyDone == s.h.readyDone
                             && t.h.pendingObs == s.h.pendingObs
                             && (t.lock == s.lock || (!t.lock.Replaying? && !s.lock.Replaying?)))
  }

  lemma LeavingKeepsMirror(cfg: Config, s: Sys, t: Sys)
    requires Mirrors(cfg, s) && LeavesMirror(s, t)
    ensures Mirrors(cfg, t)
  {
    hide Owned, FoldNotes, Pending, FoldOpens, ActMaybe, Consistent;
    forall u | Owned(cfg, u) && t.h.client.Some? ensures CatchesUp(t, u) {
      assert CatchesUp(s, u);
      assert Start(t, u) == Start(s, u) && NotesLeft(t) == NotesLeft(s);
    }
  }

  /** A new process starts from nothing, with the snapshot to come. */
  lemma SpawningKeepsMirror(cfg: Config, s: Sys, t: Sys)
    requires Mirrors(cfg, s) && !s.lock.Replaying?
    requires t.openDocs == s.openDocs && t.pump == s.pump && t.lock == s.lock
    requires t.h.gen == s.h.gen + 1 && !t.h.readyDone && t.h.pendingObs == []
    requires t.views == s.views[t.h.gen := map[]]
    ensures Mirrors(cfg, t)
  {
    hide Owned, FoldOpens;
    forall u | Owned(cfg, u) ensures CatchesUp(t, u) {
      assert u != "" by { OwnedIsNamed(cfg, u); }
      assert FoldNotes(At(t.openDocs, u), u, t.openDocs, []) == At(t.openDocs, u);
    }
  }

  lemma OwnedIsNamed(cfg: Config, u: string)
    ensures Owned(cfg, u) ==> u != ""
  {
  }

  // ---- the client pump -----------------------------------------------------

  lemma TellKeepsMirror(cfg: Config, s: Sys, ev: Event, t: Sys)
    requires Mirrors(cfg, s) && PumpNext(cfg, s, Tell(ev)) == Some(t)
    ensures Mirrors(cfg, t)
  {
    hide Owned, FoldNotes, FoldOpens, MirrorOf, Tracked, Act, CatchesUp;
    TrackingIsConsistent(s.openDocs, ev);
    ClosedIsGone(s.openDocs, ev);
    forall u | Owned(cfg, u) && t.h.client.Some? ensures CatchesUp(t, u) {
      OwnedIsNamed(cfg, u);
      TellCatchesUp(cfg, s, ev, t, u);
    }
  }

  lemma ClosedIsGone(openDocs: Docs, ev: Event)
    requires Consistent(openDocs)
    ensures NoteOf(ev).CloseNote? ==> NoteOf(ev).uri !in Tracked(openDocs, ev)
  {
  }

  lemma TellCatchesUp(cfg: Config, s: Sys, ev: Event, t: Sys, u: string)
    requires Consistent(s.openDocs) && CatchesUp(s, u) && u != ""
    requires PumpNext(cfg, s, Tell(ev)) == Some(t)
    ensures CatchesUp(t, u)
  {
    hide FoldNotes, FoldOpens, MirrorOf, Tracked, Act, ActMaybe;
    TellingCatchesUp(Start(s, u), Start(t, u), u, s.openDocs, ev, NotesLeft(s));
  }

  lemma OtherNoteChangesNothing(cfg: Config, openDocs: Docs, note: Note, v: View, u: string)
    requires Consistent(openDocs) && Owned(cfg, u) && !Routed(cfg, note)
    ensures ActMaybe(v, u, MirrorOf(openDocs, note)) == v
  {
  }

  lemma ObserveFrame(cfg: Config, s: Sys, t: Sys)
    requires PumpNext(cfg, s, Observe) == Some(t)
    requires s.h.client.Some? ==> s.h.client.value == s.h.gen && s.h.initErr == None
    ensures s.pump.Told? && (Routed(cfg, s.pump.note) ==> s.lock == Free)
    ensures t == if !Routed(cfg, s.pump.note) || s.h.client == None then s.(pump := Idle)
                 else if s.h.readyDone then s.(pump := Mirroring(s.pump.note, s.h.gen))
                 else s.(h := s.h.(pendingObs := s.h.pendingObs + [s.pump.note]), pump := Idle)
  {
    hide Routed;
  }

  lemma ObserveKeepsMirror(cfg: Config, s: Sys, t: Sys)
    requires Mirrors(cfg, s) && Generations(s) && PumpNext(cfg, s, Observe) == Some(t)
    ensures Mirrors(cfg, t)
  {
    hide Owned, FoldNotes, FoldOpens, MirrorOf, Act, ActMaybe, Routed, CatchesUp, Generations, Consistent, PumpNext;
    ClientIsCurrent(s);
    ObserveFrame(cfg, s, t);
    forall u | Owned(cfg, u) && t.h.client.Some? ensures CatchesUp(t, u) {
      ObserveCatchesUp(cfg, s, t, u);
    }
  }

  lemma ClientIsCurrent(s: Sys)
    requires Generations(s)
    ensures s.h.client.Some? ==> s.h.client.value == s.h.gen && s.h.initErr == None
  {
    hide ChannelsAccounted;
  }

  lemma ObserveCatchesUp(cfg: Config, s: Sys, t: Sys, u: string)
    requires Consistent(s.openDocs) && CatchesUp(s, u) && Owned(cfg, u)
    requires s.h.client.Some? && s.h.client.value == s.h.gen && s.h.initErr == None
    requires PumpNext(cfg, s, Observe) == Some(t)
    ensures CatchesUp(t, u)
  {
    hide Owned, FoldNotes, FoldOpens, MirrorOf, Act, ActMaybe, Routed, Consistent, PumpNext;
    ObserveFrame(cfg, s, t);
    if !Routed(cfg, s.pump.note) {
      OtherNoteChangesNothing(cfg, s.openDocs, s.pump.note, FoldNotes(Start(s, u), u, s.openDocs, NotesLeft(s)), u);
    } else if !s.h.readyDone {
      FoldNotesLast(At(s.openDocs, u), u, s.openDocs, s.h.pendingObs, s.pump.note);
    }
  }

  lemma ReadKeepsMirror(cfg: Config, s: Sys, t: Sys)
    requires Mirrors(cfg, s) && PumpNext(cfg, s, Read) == Some(t)
    ensures Mirrors(cfg, t)
  {
    hide Owned, FoldNotes, FoldOpens, MirrorOf, Act, Consistent;
    forall u | Owned(cfg, u) && t.h.client.Some? ensures CatchesUp(t, u) {
      assert CatchesUp(s, u);
      assert Start(t, u) == Start(s, u) && NotesLeft(t) == NotesLeft(s);
    }
  }

  lemma DeliverKeepsMirror(cfg: Config, s: Sys, t: Sys)
    requires Mirrors(cfg, s) && Generations(s) && PumpNext(cfg, s, Deliver) == Some(t)
    ensures Mirrors(cfg, t)
  {
    hide Owned, FoldNotes, FoldOpens, MirrorOf, Act, ActMaybe, Consistent, CatchesUp, Generations, Receive;
    assert s.lock.Replaying? ==> !s.h.readyDone by { LockIsLoading(s); }
    forall u | Owned(cfg, u) && t.h.client.Some? ensures CatchesUp(t, u) {
      assert CatchesUp(s, u);
      DeliverCatchesUp(s, t, u);
    }
  }

  lemma LockIsLoading(s: Sys)
    requires Generations(s)
    ensures s.lock != Free ==> s.h.client.Some? && !s.h.readyDone
  {
    hide GenerationsOk;
  }

  lemma DeliverCatchesUp(s: Sys, t: Sys, u: string)
    requires CatchesUp(s, u) && PumpOk(s) && s.pump.Sending? && s.h.gen in s.views
    requires s.lock.Replaying? ==> !s.h.readyDone
    requires t == Written(s, s.pump.to, s.pump.action).(pump := Idle)
    ensures CatchesUp(t, u)
  {
    hide FoldNotes, FoldOpens, Act, ActMaybe, Receive;
    ReceiveActs(ViewNow(s), s.pump.action, u);
    if s.pump.to == s.h.gen {
      assert FoldNotes(Start(s, u), u, s.openDocs, []) == Start(s, u) by { NoNotesFold(Start(s, u), u, s.openDocs); }
      NoNotesFold(Start(t, u), u, s.openDocs);
    }
  }

  lemma NoNotesFold(v: View, u: string, openDocs: Docs)
    ensures FoldNotes(v, u, openDocs, []) == v
  {
  }

  // ---- the replay ----------------------------------------------------------

  lemma SnapshotCatchesUp(cfg: Config, s: Sys, docs: seq<Documents.Doc>, t: Sys, u: string)
    requires Consistent(s.openDocs) && CatchesUp(s, u) && Owned(cfg, u)
    requires s.h.gen in s.views && s.views[s.h.gen] == map[] && !s.h.readyDone
    requires ReplayNext(cfg, s, Snapshot(docs)) == Some(t)
    ensures CatchesUp(t, u)
  {
    hide FoldNotes, FoldOpens, MirrorOf, Act, Consistent, Owned, IsSnapshot, Pending;
    assert IsSnapshot(cfg, s.openDocs, docs);
    SnapshotStarts(cfg, s.openDocs, docs, u);
  }

  lemma WriteOpenCatchesUp(cfg: Config, s: Sys, t: Sys, u: string)
    requires CatchesUp(s, u) && s.h.gen in s.views && ReplayNext(cfg, s, WriteOpen) == Some(t)
    ensures CatchesUp(t, u)
  {
    hide FoldNotes, Act, ActMaybe, Pending, Receive;
    ReceiveActs(ViewNow(s), DidOpen(s.lock.opens[0]), u);
  }

  lemma ReadNoteCatchesUp(cfg: Config, s: Sys, t: Sys, u: string)
    requires CatchesUp(s, u) && ReplayNext(cfg, s, ReadNote) == Some(t)
    ensures CatchesUp(t, u)
  {
    hide Act, Pending, MirrorOf, FoldOpens;
    assert FoldOpens(At(ViewNow(s), u), u, []) == At(ViewNow(s), u) by { NoOpensFold(At(ViewNow(s), u), u); }
  }

  lemma NoOpensFold(v: View, u: string)
    ensures FoldOpens(v, u, []) == v
  {
  }

  lemma WriteNoteCatchesUp(cfg: Config, s: Sys, t: Sys, u: string)
    requires CatchesUp(s, u) && s.h.gen in s.views && ReplayNext(cfg, s, WriteNote) == Some(t)
    requires s.lock.opens == []
    ensures CatchesUp(t, u)
  {
    hide FoldNotes, Act, Pending, Receive, FoldOpens;
    NoOpensFold(At(ViewNow(s), u), u);
    NoOpensFold(At(ViewNow(t), u), u);
    ReceiveActs(ViewNow(s), s.lock.sending.value, u);
  }

  lemma GoLiveCatchesUp(cfg: Config, s: Sys, t: Sys, u: string)
    requires CatchesUp(s, u) && ReplayNext(cfg, s, GoLive) == Some(t)
    ensures CatchesUp(t, u)
  {
    hide FoldNotes, Act, FoldOpens;
    NoOpensFold(At(ViewNow(s), u), u);
    assert t.h.readyDone && t.h.gen == s.h.gen;
  }

  lemma ReplayKeepsMirror(cfg: Config, s: Sys, step: LifeStep, t: Sys)
    requires Mirrors(cfg, s) && Generations(s) && OpensFirst(s) && ReplayNext(cfg, s, step) == Some(t)
    ensures Mirrors(cfg, t)
  {
    hide Owned, CatchesUp, Generations, Consistent, IsSnapshot, MirrorOf, Receive;
    LockIsLoading(s);
    ReplayFrame(cfg, s, step, t);
    if step.InitDone? {
      LeavingKeepsMirror(cfg, s, t);
      return;
    }
    forall u | Owned(cfg, u) && t.h.client.Some? ensures CatchesUp(t, u) {
      assert CatchesUp(s, u);
      match step
      case Snapshot(docs) => SnapshotCatchesUp(cfg, s, docs, t, u);
      case WriteOpen => WriteOpenCatchesUp(cfg, s, t, u);
      case ReadNote => ReadNoteCatchesUp(cfg, s, t, u);
      case WriteNote => WriteNoteCatchesUp(cfg, s, t, u);
      case GoLive => GoLiveCatchesUp(cfg, s, t, u);
    }
  }

  /** Notes are mirrored once every document of the snapshot is open. */
  ghost predicate OpensFirst(s: Sys) {
    s.lock.Replaying? && s.lock.sending.Some? ==> s.lock.opens == []
  }

  // ---- requests, exits and eviction ----------------------------------------

  lemma RequestKeepsMirror(cfg: Config, s: Sys, step: RequestStep, t: Sys)
    requires Mirrors(cfg, s) && LockOk(s) && RequestNext(cfg, s, step) == Some(t)
    ensures Mirrors(cfg, t)
  {
    hide Mirrors, PassesGate;
    if step.Acquire? && s.h.client == None {
      SpawningKeepsMirror(cfg, s, t);
    } else {
      LeavingKeepsMirror(cfg, s, t);
    }
  }

  lemma LifeKeepsMirror(cfg: Config, s: Sys, step: LifeStep, t: Sys)
    requires Mirrors(cfg, s) && LifeNext(cfg, s, step) == Some(t)
    ensures Mirrors(cfg, t)
  {
    hide Mirrors;
    if step.Warm? && s.h.client == None {
      SpawningKeepsMirror(cfg, s, t);
    } else {
      LeavingKeepsMirror(cfg, s, t);
    }
  }

  lemma EvictKeepsMirror(cfg: Config, s: Sys, step: EvictStep, t: Sys)
    requires Mirrors(cfg, s) && EvictNext(s, step) == Some(t)
    ensures Mirrors(cfg, t)
  {
    hide Mirrors, IdleNow;
    LeavingKeepsMirror(cfg, s, t);
  }

  // ---- over every run ------------------------------------------------------

  lemma ReplayOpensFirst(cfg: Config, s: Sys, step: LifeStep, t: Sys)
    requires OpensFirst(s) && ReplayNext(cfg, s, step) == Some(t)
    ensures OpensFirst(t)
  {
    hide IsSnapshot, MirrorOf, Receive;
  }

  lemma LocksAreReplays(cfg: Config, s: Sys, step: Step, t: Sys)
    requires Next(cfg, s, step) == Some(t)
    ensures t.lock == s.lock || (step.LifeDoes? && ReplayNext(cfg, s, step.l) == Some(t))
  {
    hide *;
    StepCases(cfg, s, step, t);
    match step
    case PumpDoes(p) => PumpIsAside(cfg, s, p, t);
    case RequestDoes(r) => RequestGoesForward(cfg, s, r, t);
    case LifeDoes(l) =>
      if LifeNext(cfg, s, l) == Some(t) {
        LifeIsAside(cfg, s, l, t);
      }
    case EvictDoes(e) => EvictIsAside(s, e, t);
  }

  ghost predicate MirrorHolds(cfg: Config, s: Sys) {
    Mirrors(cfg, s) && OpensFirst(s) && WorkerHolds(cfg, s)
  }

  lemma GenerationsOf(cfg: Config, s: Sys)
    requires WorkerHolds(cfg, s)
    ensures Generations(s) && LockOk(s)
  {
    hide GenerationsOk, LockOk, Reservations, RequestsOk, Watched, DecidedIdle;
  }

  lemma StepKeepsMirror(cfg: Config, s: Sys, step: Step, t: Sys)
    requires MirrorHolds(cfg, s) && Next(cfg, s, step) == Some(t)
    ensures MirrorHolds(cfg, t)
  {
    hide Mirrors, WorkerHolds, Generations, LockOk, Next, ReplayNext, PumpNext;
    StepCases(cfg, s, step, t);
    StepKeepsWorker(cfg, s, step, t);
    GenerationsOf(cfg, s);
    LocksAreReplays(cfg, s, step, t);
    match step
    case PumpDoes(p) =>
      match p {
        case Tell(ev) => TellKeepsMirror(cfg, s, ev, t);
        case Observe => ObserveKeepsMirror(cfg, s, t);
        case Read => ReadKeepsMirror(cfg, s, t);
        case Deliver => DeliverKeepsMirror(cfg, s, t);
      }
    case RequestDoes(r) => RequestKeepsMirror(cfg, s, r, t);
    case LifeDoes(l) =>
      if LifeNext(cfg, s, l) == Some(t) {
        LifeKeepsMirror(cfg, s, l, t);
      } else {
        ReplayKeepsMirror(cfg, s, l, t);
      }
      if ReplayNext(cfg, s, l) == Some(t) {
        ReplayOpensFirst(cfg, s, l, t);
      }
    case EvictDoes(e) => EvictKeepsMirror(cfg, s, e, t);
  }

  lemma {:induction false} RunsKeepMirror(cfg: Config, s: Sys, steps: seq<Step>)
    requires MirrorHolds(cfg, s) && Run(cfg, s, steps).Some?
    ensures MirrorHolds(cfg, Run(cfg, s, steps).value)
    decreases steps
  {
    hide Next, MirrorHolds;
    if steps != [] {
      var t := Next(cfg, s, steps[0]).value;
      StepKeepsMirror(cfg, s, steps[0], t);
      RunsKeepMirror(cfg, t, steps[1..]);
    }
  }

  lemma ReachableKeepsMirror(cfg: Config, s: Sys)
    requires Reachable(cfg, s)
    ensures MirrorHolds(cfg, s)
  {
    hide Run;
    var steps :| Run(cfg, INITIAL, steps) == Some(s);
    RunsKeepMirror(cfg, INITIAL, steps);
  }

  /** Mirror convergence: whenever a worker is ready and the client pump is between
      messages, the worker has open exactly the editor's documents of its module,
      with their text, version and language. */
  lemma MirrorConverges(cfg: Config, s: Sys, gen: nat, uri: string)
    requires Reachable(cfg, s) && s.h.client == Some(gen) && s.h.readyDone && s.pump == Idle
    requires uri != "" && match cfg.pathOf(uri)
                          case None => cfg.mod == None
                          case Some(path) => ModRoot.Walk(Dir(path), cfg.root, cfg.gomods) == cfg.mod
    ensures gen in s.views && (uri in s.views[gen] <==> uri in s.openDocs)
    ensures uri in s.openDocs ==> s.views[gen][uri] == s.openDocs[uri]
  {
    assert Owned(cfg, uri);
    hide Reachable, Owned, Generations, OpensFirst, FoldOpens;
    ReachableKeepsMirror(cfg, s);
    GenerationsOf(cfg, s);
    hide WorkerHolds;
    ClientIsCurrent(s);
    LockIsLoading(s);
    assert CatchesUp(s, uri);
    NoNotesFold(Start(s, uri), uri, s.openDocs);
  }

  // ---- what replayLiveLocked sends -----------------------------------------

  function ReceiveAll(view: Docs, actions: seq<Action>): Docs
    decreases actions
  {
    if actions == [] then view else ReceiveAll(Receive(view, actions[0]), actions[1..])
  }

  lemma {:induction false} ReceiveAllConcat(view: Docs, a: seq<Action>, b: seq<Action>)
    ensures ReceiveAll(view, a + b) == ReceiveAll(ReceiveAll(view, a), b)
    decreases a
  {
    hide Receive;
    if a == [] {
      assert a + b == b;
    } else {
      assert (a + b)[1..] == a[1..] + b;
      ReceiveAllConcat(Receive(view, a[0]), a[1..], b);
    }
  }

  lemma {:induction false} OpensAreFolded(view: Docs, docs: seq<Documents.Doc>, u: string)
    ensures At(ReceiveAll(view, Opens(docs)), u) == FoldOpens(At(view, u), u, docs)
    decreases docs
  {
    hide Receive, Act;
    if docs != [] {
      assert Opens(docs)[1..] == Opens(docs[1..]);
      ReceiveActs(view, DidOpen(docs[0]), u);
      OpensAreFolded(Receive(view, DidOpen(docs[0])), docs[1..], u);
    }
  }

  lemma {:induction false} NotesAreFolded(view: Docs, openDocs: Docs, notes: seq<Note>, u: string)
    ensures At(ReceiveAll(view, Mirrored(openDocs, notes)), u) == FoldNotes(At(view, u), u, openDocs, notes)
    decreases notes
  {
    hide Receive, Act, MirrorOf;
    if notes != [] {
      var last := |notes| - 1;
      assert notes == notes[..last] + [notes[last]];
      FoldNotesLast(At(view, u), u, openDocs, notes[..last], notes[last]);
      NotesAreFolded(view, openDocs, notes[..last], u);
      var before := ReceiveAll(view, Mirrored(openDocs, notes[..last]));
      match MirrorOf(openDocs, notes[last])
      case None => assert Mirrored(openDocs, notes) == Mirrored(openDocs, notes[..last]);
      case Some(a) =>
        ReceiveAllConcat(view, Mirrored(openDocs, notes[..last]), [a]);
        assert ReceiveAll(before, [a]) == Receive(before, a) by { assert [a][1..] == []; }
        ReceiveActs(before, a, u);
    }
  }

  /** What replayLiveLocked sends takes a fresh process where the replay steps take
      it when no editor event comes between them. */
  lemma ReplayIsItsSteps(openDocs: Docs, docs: seq<Documents.Doc>, notes: seq<Note>, u: string)
    ensures At(ReceiveAll(map[], Opens(docs) + Mirrored(openDocs, notes)), u)
         == FoldNotes(FoldOpens(None, u, docs), u, openDocs, notes)
  {
    ReceiveAllConcat(map[], Opens(docs), Mirrored(openDocs, notes));
    OpensAreFolded(map[], docs, u);
    NotesAreFolded(ReceiveAll(map[], Opens(docs)), openDocs, notes, u);
  }

  // ---- documents of other modules ------------------------------------------

  /** An event about another module's document passes the main worker by. */
  lemma ForeignEventPasses(cfg: Config, s: Sys, ev: Event, t: Sys)
    requires Reachable(cfg, s) && s.pump == Idle && !Routed(cfg, NoteOf(ev))
    requires t == s.(openDocs := Tracked(s.openDocs, ev))
    ensures Reachable(cfg, t)
  {
    hide Reachable, Routed, Tracked, NoteOf;
    var told := t.(pump := Told(NoteOf(ev)));
    assert Next(cfg, s, PumpDoes(Tell(ev))) == Some(told);
    StepReaches(cfg, s, PumpDoes(Tell(ev)), told);
    assert Next(cfg, told, PumpDoes(Observe)) == Some(t);
    StepReaches(cfg, told, PumpDoes(Observe), t);
  }

  /** A first worker loads and replays the one open document. */
  lemma ForeignDocumentIsReplayed(cfg: Config, s: Sys, doc: Documents.Doc, t: Sys)
    requires Reachable(cfg, s) && InSnapshot(cfg, doc.uri)
    requires s == INITIAL.(openDocs := map[doc.uri := doc])
    requires t == s.(h := WentLive(Spawned(NEW, cfg.ttl)),
                     views := map[1 := map[doc.uri := doc]], heard := map[1 := []],
                     replayed := {1})
    ensures Reachable(cfg, t)
  {
    hide Reachable, InSnapshot;
    var s1 := s.(h := Spawned(NEW, cfg.ttl), views := map[1 := map[]], heard := map[1 := []]);
    assert LifeNext(cfg, s, Warm(true)) == Some(s1);
    StepReaches(cfg, s, LifeDoes(Warm(true)), s1);
    var s2 := s1.(lock := Loaded);
    assert ReplayNext(cfg, s1, InitDone(1, false)) == Some(s2);
    StepReaches(cfg, s1, LifeDoes(InitDone(1, false)), s2);
    var s3 := s1.(lock := Replaying([doc], None, []));
    assert ReplayNext(cfg, s2, Snapshot([doc])) == Some(s3);
    StepReaches(cfg, s2, LifeDoes(Snapshot([doc])), s3);
    ForeignDocumentIsOpened(cfg, s3, doc, t);
  }

  lemma ForeignDocumentIsOpened(cfg: Config, s: Sys, doc: Documents.Doc, t: Sys)
    requires Reachable(cfg, s) && s.lock == Replaying([doc], None, [])
    requires s.h == Spawned(NEW, cfg.ttl) && s.views == map[1 := map[]] && s.replayed == {}
    requires t == s.(h := WentLive(s.h), lock := Free, views := map[1 := map[doc.uri := doc]], replayed := {1})
    ensures Reachable(cfg, t)
  {
    hide Reachable;
    var s1 := s.(lock := Replaying([], None, []), views := t.views);
    assert Receive(map[], DidOpen(doc)) == map[doc.uri := doc];
    assert s.views[1 := map[doc.uri := doc]] == t.views && [doc][1..] == [];
    assert Written(s, 1, DidOpen(doc)) == s.(views := t.views);
    assert ReplayNext(cfg, s, WriteOpen) == Some(s1);
    StepReaches(cfg, s, LifeDoes(WriteOpen), s1);
    assert s1.replayed + {1} == t.replayed;
    assert ReplayNext(cfg, s1, GoLive) == Some(t);
    StepReaches(cfg, s1, LifeDoes(GoLive), t);
  }

  /** Convergence is for owned documents only: any worker's snapshot takes in the
      documents of modules nested in its own, and the worker then never hears that
      they were closed. */
  lemma ForeignDocumentGoesStale(cfg: Config, doc: Documents.Doc)
    requires match (cfg.mod, cfg.pathOf(doc.uri))
             case (None, _) => true
             case (Some(mod), None) => false
             case (Some(mod), Some(path)) => mod <= path
    requires !Owned(cfg, doc.uri) && doc.uri != "" && doc.languageId == "go"
    ensures exists s :: Reachable(cfg, s) && s.h.client == Some(1) && s.h.readyDone && s.pump == Idle
              && 1 in s.views && doc.uri in s.views[1] && doc.uri !in s.openDocs
  {
    assert InSnapshot(cfg, doc.uri);
    hide Reachable, InSnapshot;
    InitialIsReachable(cfg);
    var s1 := INITIAL.(openDocs := map[doc.uri := doc]);
    assert Tracked(map[], Opened(doc, true)) == s1.openDocs;
    ForeignEventPasses(cfg, INITIAL, Opened(doc, true), s1);
    var s2 := s1.(h := WentLive(Spawned(NEW, cfg.ttl)), views := map[1 := map[doc.uri := doc]], heard := map[1 := []],
                  replayed := {1});
    ForeignDocumentIsReplayed(cfg, s1, doc, s2);
    var s3 := s2.(openDocs := map[]);
    assert Tracked(s2.openDocs, Closed(doc.uri)) == map[];
    ForeignEventPasses(cfg, s2, Closed(doc.uri), s3);
  }
}
