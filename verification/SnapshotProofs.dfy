/** What a worker never hears of: documents outside its snapshot filter. */
module SnapshotProofs {
  import opened Options
  import Documents
  import opened Worker
  import opened WorkerSystem
  import opened MirrorProofs

  /** An opening notification the worker may be told of; a document without a name is
      never open. */
  ghost predicate NoteInside(cfg: Config, note: Note) {
    note.OpenNote? && note.uri != "" ==> InSnapshot(cfg, note.uri)
  }

  ghost predicate NotesInside(cfg: Config, notes: seq<Note>) {
    forall n <- notes :: NoteInside(cfg, n)
  }

  ghost predicate ActionInside(cfg: Config, a: Action) {
    a.DidOpen? ==> InSnapshot(cfg, a.doc.uri)
  }

  ghost predicate ViewInside(cfg: Config, view: Docs) {
    forall u <- view :: InSnapshot(cfg, u)
  }

  ghost predicate PumpInside(cfg: Config, pump: Pump) {
    match pump
    case Mirroring(note, _) => NoteInside(cfg, note)
    case Sending(a, _) => ActionInside(cfg, a)
    case _ => true
  }

  ghost predicate LockInside(cfg: Config, lock: Lock) {
    match lock
    case Replaying(opens, sending, notes) =>
      && (forall d <- opens :: InSnapshot(cfg, d.uri))
      && (sending.Some? ==> ActionInside(cfg, sending.value)) && NotesInside(cfg, notes)
    case _ => true
  }

  /** Everything opened in a worker, and everything on its way there, passed its
      snapshot filter. */
  ghost predicate Inside(cfg: Config, s: Sys) {
    && Consistent(s.openDocs) && NotesInside(cfg, s.h.pendingObs)
    && (forall gen <- s.views :: ViewInside(cfg, s.views[gen]))
    && PumpInside(cfg, s.pump) && LockInside(cfg, s.lock)
  }

  lemma RoutedIsInside(cfg: Config, note: Note)
    requires Routed(cfg, note)
    ensures NoteInside(cfg, note)
  {
    hide OwnerOf;
    if note.OpenNote? && note.uri != "" {
      OwnedAreInSnapshot(cfg, note.uri);
    }
  }

  lemma MirroringStaysInside(cfg: Config, openDocs: Docs, note: Note)
    requires Consistent(openDocs) && NoteInside(cfg, note)
    ensures MirrorOf(openDocs, note).Some? ==> ActionInside(cfg, MirrorOf(openDocs, note).value)
  {
    hide InSnapshot;
  }

  lemma ReceivingStaysInside(cfg: Config, view: Docs, a: Action)
    requires ViewInside(cfg, view) && ActionInside(cfg, a)
    ensures ViewInside(cfg, Receive(view, a))
  {
    hide InSnapshot;
  }

  lemma WritingStaysInside(cfg: Config, s: Sys, gen: nat, a: Action)
    requires (forall g <- s.views :: ViewInside(cfg, s.views[g])) && ActionInside(cfg, a)
    ensures forall g <- Written(s, gen, a).views :: ViewInside(cfg, Written(s, gen, a).views[g])
  {
    hide ViewInside, ActionInside, Receive;
    if gen in s.views {
      ReceivingStaysInside(cfg, s.views[gen], a);
    }
  }

  lemma ObservingStaysInside(cfg: Config, h: Handle, note: Note)
    requires NotesInside(cfg, h.pendingObs) && NoteInside(cfg, note)
    ensures NotesInside(cfg, Observed(h, note).0.pendingObs)
  {
    hide NoteInside;
  }

  lemma PumpStaysInside(cfg: Config, s: Sys, step: PumpStep, t: Sys)
    requires Inside(cfg, s) && PumpNext(cfg, s, step) == Some(t)
    ensures Inside(cfg, t)
  {
    hide Routed, MirrorOf, Tracked, NoteOf, Receive, NoteInside, NotesInside, ActionInside, ViewInside, Consistent;
    match step
    case Tell(ev) => TrackingIsConsistent(s.openDocs, ev);
    case Observe =>
      if Routed(cfg, s.pump.note) {
        RoutedIsInside(cfg, s.pump.note);
        ObservingStaysInside(cfg, s.h, s.pump.note);
      }
    case Read => MirroringStaysInside(cfg, s.openDocs, s.pump.note);
    case Deliver => WritingStaysInside(cfg, s, s.pump.to, s.pump.action);
  }

  lemma ReplayStaysInside(cfg: Config, s: Sys, step: LifeStep, t: Sys)
    requires Inside(cfg, s) && ReplayNext(cfg, s, step) == Some(t)
    ensures Inside(cfg, t)
  {
    hide MirrorOf, Receive, NoteInside, ViewInside, Consistent, InSnapshot;
    match step
    case WriteOpen => WritingStaysInside(cfg, s, s.h.gen, DidOpen(s.lock.opens[0]));
    case ReadNote => MirroringStaysInside(cfg, s.openDocs, s.lock.notes[0]);
    case WriteNote => WritingStaysInside(cfg, s, s.h.gen, s.lock.sending.value);
    case _ =>
  }

  /** The other actors buffer nothing and open nothing. */
  ghost predicate OpensNothing(s: Sys, t: Sys) {
    && t.openDocs == s.openDocs && t.pump == s.pump && t.lock == s.lock
    && (t.h.pendingObs == s.h.pendingObs || t.h.pendingObs == [])
    && forall gen <- t.views :: (gen in s.views && t.views[gen] == s.views[gen]) || t.views[gen] == map[]
  }

  lemma OpeningNothingStaysInside(cfg: Config, s: Sys, t: Sys)
    requires Inside(cfg, s) && OpensNothing(s, t)
    ensures Inside(cfg, t)
  {
    hide NoteInside, Consistent, InSnapshot, PumpInside, LockInside;
  }

  lemma RequestOpensNothing(cfg: Config, s: Sys, step: RequestStep, t: Sys)
    requires RequestNext(cfg, s, step) == Some(t)
    ensures OpensNothing(s, t)
  {
    hide PassesGate;
  }

  lemma LifeOpensNothing(cfg: Config, s: Sys, step: LifeStep, t: Sys)
    requires LifeNext(cfg, s, step) == Some(t)
    ensures OpensNothing(s, t)
  {
  }

  lemma EvictOpensNothing(s: Sys, step: EvictStep, t: Sys)
    requires EvictNext(s, step) == Some(t)
    ensures OpensNothing(s, t)
  {
    hide IdleNow;
  }

  lemma StepStaysInside(cfg: Config, s: Sys, step: Step, t: Sys)
    requires Inside(cfg, s) && Next(cfg, s, step) == Some(t)
    ensures Inside(cfg, t)
  {
    hide *;
    StepCases(cfg, s, step, t);
    match step {
      case PumpDoes(p) => PumpStaysInside(cfg, s, p, t);
      case RequestDoes(r) => RequestOpensNothing(cfg, s, r, t);
      case LifeDoes(l) =>
        if LifeNext(cfg, s, l) == Some(t) {
          LifeOpensNothing(cfg, s, l, t);
        } else {
          ReplayStaysInside(cfg, s, l, t);
        }
      case EvictDoes(e) => EvictOpensNothing(s, e, t);
    }
    if OpensNothing(s, t) {
      OpeningNothingStaysInside(cfg, s, t);
    }
  }

  lemma {:induction false} RunsStayInside(cfg: Config, s: Sys, steps: seq<Step>)
    requires Inside(cfg, s) && Run(cfg, s, steps).Some?
    ensures Inside(cfg, Run(cfg, s, steps).value)
    decreases steps
  {
    hide Next, Inside;
    if steps != [] {
      var t := Next(cfg, s, steps[0]).value;
      StepStaysInside(cfg, s, steps[0], t);
      RunsStayInside(cfg, t, steps[1..]);
    }
  }

  /** A nested module's worker, of whatever generation and however far along, never has
      a document open that does not lie in the module's directory. */
  lemma OutsideDocumentsStayClosed(cfg: Config, s: Sys, gen: nat, uri: string)
    requires Reachable(cfg, s) && cfg.mod.Some?
    requires cfg.pathOf(uri).Some? ==> !(cfg.mod.value <= cfg.pathOf(uri).value)
    ensures gen in s.views ==> uri !in s.views[gen]
  {
    assert !InSnapshot(cfg, uri);
    hide Run, InSnapshot;
    var steps :| Run(cfg, INITIAL, steps) == Some(s);
    RunsStayInside(cfg, INITIAL, steps);
    assert gen in s.views ==> ViewInside(cfg, s.views[gen]);
  }
}
