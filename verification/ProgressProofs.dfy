/** The proxy cannot get stuck: from every reachable state, whatever is on its way to
    gopls can still be written. */
module ProgressProofs {
  import opened Options
  import opened ScopeState
  import opened ProxySystem
  import opened Strings
  import opened HeldProofs

  ghost predicate Leads(cfg: Config, s: Sys, t: Sys) {
    exists steps :: Run(cfg, s, steps) == Some(t)
  }

  lemma Stays(cfg: Config, s: Sys)
    ensures Leads(cfg, s, s)
  {
    assert Run(cfg, s, []) == Some(s);
  }

  lemma {:induction false} RunConcat(cfg: Config, s: Sys, a: seq<Step>, m: Sys, b: seq<Step>)
    requires Run(cfg, s, a) == Some(m)
    ensures Run(cfg, s, a + b) == Run(cfg, m, b)
    decreases a
  {
    hide Next;
    if a == [] {
      assert a + b == b;
    } else {
      assert (a + b)[1..] == a[1..] + b;
      RunConcat(cfg, Next(cfg, s, a[0]).value, a[1..], m, b);
    }
  }

  lemma Then(cfg: Config, s: Sys, m: Sys, t: Sys)
    requires Leads(cfg, s, m) && Leads(cfg, m, t)
    ensures Leads(cfg, s, t)
  {
    hide Run;
    var a :| Run(cfg, s, a) == Some(m);
    var b :| Run(cfg, m, b) == Some(t);
    RunConcat(cfg, s, a, m, b);
  }

  lemma Take(cfg: Config, s: Sys, step: Step, t: Sys)
    requires Next(cfg, s, step) == Some(t)
    ensures Leads(cfg, s, t)
  {
    hide Next;
    assert [step][1..] == [];
    assert Run(cfg, t, []) == Some(t);
    assert Run(cfg, s, [step]) == Some(t);
  }

  // ---- the pump ------------------------------------------------------------

  lemma PumpTakes(cfg: Config, s: Sys, step: PumpStep, t: Sys)
    requires PumpNext(s, step) == Some(t)
    ensures Leads(cfg, s, t) && (HeldHolds(s) ==> HeldHolds(t))
  {
    assert Next(cfg, s, PumpDoes(step)) == Some(t);
    hide PumpNext, HeldHolds, Next;
    Take(cfg, s, PumpDoes(step), t);
    if HeldHolds(s) {
      StepKeepsHeld(cfg, s, PumpDoes(step), t);
    }
  }

  lemma WaiterTakes(cfg: Config, s: Sys, step: WaitStep, t: Sys)
    requires WaitNext(s, step) == Some(t)
    ensures Leads(cfg, s, t) && (HeldHolds(s) ==> HeldHolds(t))
  {
    assert Next(cfg, s, WaiterDoes(step)) == Some(t);
    hide WaitNext, HeldHolds, Next;
    Take(cfg, s, WaiterDoes(step), t);
    if HeldHolds(s) {
      StepKeepsHeld(cfg, s, WaiterDoes(step), t);
    }
  }

  lemma RanIsPassed(cfg: Config, s: Sys) returns (t: Sys)
    requires HeldHolds(s) && s.pump.Releasing? && s.pump.todo != []
    requires s.pump.todo[0] in s.held && s.held[s.pump.todo[0]].once == Ran
    ensures Leads(cfg, s, t) && HeldHolds(t) && t == s.(pump := s.pump.(todo := s.pump.todo[1..]))
  {
    hide HeldHolds, Leads;
    t := s.(pump := s.pump.(todo := s.pump.todo[1..]));
    assert ReleaseNext(s, SkipHeld) == Some(t);
    PumpTakes(cfg, s, SkipHeld, t);
  }

  lemma PumpReleases(cfg: Config, s: Sys) returns (t: Sys)
    requires HeldHolds(s) && s.pump.Releasing? && s.pump.todo != []
    requires s.pump.todo[0] in s.held && s.held[s.pump.todo[0]].once == Running && !WriterIsWaiter(s, s.pump.todo[0])
    ensures Leads(cfg, s, t) && HeldHolds(t) && t.pump == s.pump.(todo := s.pump.todo[1..])
    ensures t.received == s.received
  {
    hide HeldHolds, Leads, WriterIsWaiter;
    t := ReleaseNext(s, WriteHeld).value;
    PumpTakes(cfg, s, WriteHeld, t);
  }

  /** What releaseHeldDefs holds first can be written, by whoever is inside its
      sync.Once, and passed. */
  lemma FirstIsReleased(cfg: Config, s: Sys) returns (t: Sys)
    requires HeldHolds(s) && s.pump.Releasing? && s.pump.todo != []
    ensures Leads(cfg, s, t) && HeldHolds(t) && t.pump == s.pump.(todo := s.pump.todo[1..])
    ensures t.received == s.received
  {
    hide HeldHolds, Leads, ReleaseNext;
    var id := s.pump.todo[0];
    FirstIsHeld(s);
    if s.held[id].once == Ran {
      t := RanIsPassed(cfg, s);
    } else if WriterIsWaiter(s, id) {
      var m := Send(s, RequestMsg(id)).(held := s.held[id := s.held[id].(once := Ran)],
                                        waiters := s.waiters[id := Leaving]);
      assert WaitNext(s, WriteForward(id)) == Some(m);
      WaiterTakes(cfg, s, WriteForward(id), m);
      t := RanIsPassed(cfg, m);
      Then(cfg, s, m, t);
    } else if s.held[id].once == Unused {
      var m := EnteredHeld(cfg, s);
      t := PumpReleases(cfg, m);
      Then(cfg, s, m, t);
    } else {
      t := PumpReleases(cfg, s);
    }
  }

  lemma EnteredHeld(cfg: Config, s: Sys) returns (t: Sys)
    requires HeldHolds(s) && s.pump.Releasing? && s.pump.todo != []
    requires s.pump.todo[0] in s.held && s.held[s.pump.todo[0]].once == Unused
    ensures Leads(cfg, s, t) && HeldHolds(t)
    ensures t == s.(held := s.held[s.pump.todo[0] := s.held[s.pump.todo[0]].(once := Running)])
  {
    hide HeldHolds, Leads;
    var id := s.pump.todo[0];
    t := s.(held := s.held[id := s.held[id].(once := Running)]);
    assert ReleaseNext(s, EnterHeld) == Some(t);
    PumpTakes(cfg, s, EnterHeld, t);
  }

  lemma FirstIsHeld(s: Sys)
    requires HeldHolds(s) && s.pump.Releasing? && s.pump.todo != []
    ensures var id := s.pump.todo[0];
            && id in s.held
            && (WriterIsWaiter(s, id) ==> s.held[id].once == Running)
  {
    hide WrittenIsForwarded, WrittenOnce, InOrder, NoneLost;
  }

  lemma {:induction false} ChangeIsWritten(cfg: Config, s: Sys) returns (t: Sys)
    requires HeldHolds(s) && (s.pump.Releasing? || s.pump.Changing?)
    ensures Leads(cfg, s, t) && t.pump == Reading && ChangeMsg(s.pump.id) in t.wire && t.received == s.received
    decreases if s.pump.Releasing? then |s.pump.todo| + 1 else 0
  {
    hide HeldHolds, Leads;
    if s.pump.Changing? {
      t := Send(s, ChangeMsg(s.pump.id)).(pump := Reading);
      assert ReleaseNext(s, WriteChange) == Some(t);
      PumpTakes(cfg, s, WriteChange, t);
      assert t.wire[|s.wire|] == ChangeMsg(s.pump.id);
    } else {
      var m;
      if s.pump.todo == [] {
        m := s.(pump := Changing(s.pump.id, s.pump.uri));
        assert ReleaseNext(s, EndRelease) == Some(m);
        PumpTakes(cfg, s, EndRelease, m);
      } else {
        m := FirstIsReleased(cfg, s);
      }
      t := ChangeIsWritten(cfg, m);
      Then(cfg, s, m, t);
    }
  }

  lemma AnswerIsHandled(cfg: Config, s: Sys) returns (t: Sys)
    requires s.pump.Answering? || s.pump.Patched? || s.pump.Answered?
    ensures Leads(cfg, s, t) && t.pump == Reading
    decreases if s.pump.Answering? then 2 else if s.pump.Patched? then 1 else 0
  {
    hide Leads, Filters, Advance;
    match s.pump
    case Answering(_, _) =>
      var m := AnswerNext(s, PatchAnswer).value;
      PumpTakes(cfg, s, PatchAnswer, m);
      t := AnswerIsHandled(cfg, m);
      Then(cfg, s, m, t);
    case Patched(_, _) =>
      var m := AnswerNext(s, WriteAnswer).value;
      PumpTakes(cfg, s, WriteAnswer, m);
      t := AnswerIsHandled(cfg, m);
      Then(cfg, s, m, t);
    case Answered(_, _) =>
      t := AnswerNext(s, AdvanceAnswer).value;
      PumpTakes(cfg, s, AdvanceAnswer, t);
  }

  lemma InitializeIsWritten(cfg: Config, s: Sys) returns (t: Sys)
    requires s.pump.Restored? || s.pump.Initializing?
    ensures Leads(cfg, s, t) && t.pump == Reading
    decreases s.pump.Restored?
  {
    hide Leads, Filters, Advance, Stamp;
    if s.pump.Restored? {
      var m := InitNext(s, StampInitial).value;
      PumpTakes(cfg, s, StampInitial, m);
      t := InitializeIsWritten(cfg, m);
      Then(cfg, s, m, t);
    } else {
      t := InitNext(s, WriteInitialize).value;
      PumpTakes(cfg, s, WriteInitialize, t);
    }
  }

  lemma HandIsEmptied(cfg: Config, s: Sys) returns (t: Sys)
    requires s.pump.Holding? || s.pump.Inline?
    ensures Leads(cfg, s, t) && t.pump == Reading && t.received == s.received && (HeldHolds(s) ==> HeldHolds(t))
    ensures if s.pump.Inline? then RequestMsg(s.pump.id) in t.wire else s.pump.id in t.held
  {
    hide Leads, HeldHolds;
    if s.pump.Holding? {
      t := HoldNext(s, Hold).value;
      PumpTakes(cfg, s, Hold, t);
    } else {
      t := HoldNext(s, WriteInline).value;
      PumpTakes(cfg, s, WriteInline, t);
      assert t.wire[|s.wire|] == RequestMsg(s.pump.id);
    }
  }

  /** The client pump never blocks for good: in every reachable state it can get back to
      reading the editor's next message. */
  lemma PumpIsNeverStuck(cfg: Config, s: Sys)
    requires Reachable(cfg, s)
    ensures exists t :: Leads(cfg, s, t) && t.pump == Reading
  {
    hide Reachable, Leads, HeldHolds;
    ReachableKeepsHeld(cfg, s);
    var t := s;
    match s.pump {
      case Reading => Stays(cfg, s);
      case Restored => t := InitializeIsWritten(cfg, s);
      case Initializing(_, _) => t := InitializeIsWritten(cfg, s);
      case Holding(_, _, _) => t := HandIsEmptied(cfg, s);
      case Inline(_) => t := HandIsEmptied(cfg, s);
      case Releasing(_, _, _) => t := ChangeIsWritten(cfg, s);
      case Changing(_, _) => t := ChangeIsWritten(cfg, s);
      case _ => t := AnswerIsHandled(cfg, s);
    }
  }

  // ---- requests and edits --------------------------------------------------

  lemma WhoeverWrites(s: Sys, id: nat)
    requires HeldHolds(s) && id in s.held && s.held[id].once != Ran
    ensures s.held[id].once == Running ==> WriterIsWaiter(s, id) || (PumpAt(s.pump, id) && !WriterIsWaiter(s, id))
    ensures s.held[id].once == Unused ==>
              id in s.waiters && (s.waiters[id].Checking? || s.waiters[id].Parked? || s.waiters[id].Forwarding?)
  {
    hide WrittenIsForwarded, WrittenOnce, InOrder, NoneLost, Placed;
  }

  lemma HeldIsWritten(cfg: Config, s: Sys, id: nat) returns (t: Sys)
    requires HeldHolds(s) && id in s.held && s.held[id].once != Ran
    ensures Leads(cfg, s, t) && RequestMsg(id) in t.wire
  {
    hide HeldHolds, Leads;
    WhoeverWrites(s, id);
    if WriterIsWaiter(s, id) {
      t := WaitNext(s, WriteForward(id)).value;
      WaiterTakes(cfg, s, WriteForward(id), t);
      assert t.wire[|s.wire|] == RequestMsg(id);
    } else if s.held[id].once == Running {
      t := ReleaseNext(s, WriteHeld).value;
      PumpTakes(cfg, s, WriteHeld, t);
      assert t.wire[|s.wire|] == RequestMsg(id);
    } else {
      var m := s;
      Stays(cfg, s);
      if !s.waiters[id].Forwarding? {
        m := s.(waiters := s.waiters[id := Forwarding]);
        assert WaitNext(s, GiveUpUnit(id)) == Some(m);
        WaiterTakes(cfg, s, GiveUpUnit(id), m);
      }
      t := ForwardingIsWritten(cfg, m, id);
      Then(cfg, s, m, t);
    }
  }

  lemma ForwardingIsWritten(cfg: Config, s: Sys, id: nat) returns (t: Sys)
    requires id in s.held && s.held[id].once == Unused && id in s.waiters && s.waiters[id].Forwarding?
    ensures Run(cfg, s, [WaiterDoes(EnterForward(id)), WaiterDoes(WriteForward(id))]) == Some(t)
    ensures Leads(cfg, s, t) && RequestMsg(id) in t.wire
  {
    var m := s.(held := s.held[id := s.held[id].(once := Running)], waiters := s.waiters[id := Writing]);
    assert WaitNext(s, EnterForward(id)) == Some(m);
    t := WaitNext(m, WriteForward(id)).value;
    assert t.wire[|s.wire|] == RequestMsg(id);
    TwoSteps(cfg, s, WaiterDoes(EnterForward(id)), m, WaiterDoes(WriteForward(id)), t);
  }

  lemma TwoSteps(cfg: Config, s: Sys, a: Step, m: Sys, b: Step, t: Sys)
    requires Next(cfg, s, a) == Some(m) && Next(cfg, m, b) == Some(t)
    ensures Run(cfg, s, [a, b]) == Some(t) && Leads(cfg, s, t)
  {
    hide Next;
    assert [a, b][1..] == [b] && [b][1..] == [];
    assert Run(cfg, t, []) == Some(t);
    assert Run(cfg, m, [b]) == Some(t);
  }

  /** Nothing the editor sends is stuck: in every reachable state each request and each
      edit received is written already or can still be, however requests are held, given
      up, released by edits or forwarded. */
  lemma EveryMessageCanBeWritten(cfg: Config, s: Sys, id: nat)
    requires Reachable(cfg, s) && id < |s.received|
    ensures exists t :: Leads(cfg, s, t) && WireOf(s.received, id) in t.wire
  {
    hide Reachable, Leads, HeldHolds;
    ReachableKeepsHeld(cfg, s);
    UnwrittenIsHere(s, id);
    var t := s;
    if WireOf(s.received, id) in s.wire {
      Stays(cfg, s);
    } else if !InHand(s.pump, id) {
      t := HeldIsWritten(cfg, s, id);
    } else if s.pump.Releasing? || s.pump.Changing? {
      t := ChangeIsWritten(cfg, s);
    } else {
      t := HandIsEmptied(cfg, s);
      if s.pump.Holding? {
        var m := t;
        UnwrittenIsHere(m, id);
        if WireOf(m.received, id) !in m.wire {
          t := HeldIsWritten(cfg, m, id);
          Then(cfg, s, m, t);
        }
      }
    }
  }

  /** A message not written is in the pump's hands or held. */
  lemma UnwrittenIsHere(s: Sys, id: nat)
    requires HeldHolds(s) && id < |s.received|
    ensures WireOf(s.received, id) in s.wire
            || InHand(s.pump, id) || (id in s.held && s.held[id].once != Ran && s.received[id].Request?)
    ensures InHand(s.pump, id) ==>
              (s.received[id].Request? <==> s.pump.Holding? || s.pump.Inline?) && s.pump.id == id
              && (s.pump.Holding? || s.pump.Inline? || s.pump.Releasing? || s.pump.Changing?)
  {
    hide WrittenOnce, InOrder, NoneLost, OncesRun;
  }

  /** Once its unit is applied a parked request needs no timeout and nobody's help. */
  lemma AppliedRequestForwards(cfg: Config, s: Sys, id: nat)
    requires id in s.waiters && s.waiters[id].Parked? && id in s.held && s.held[id].once == Unused
    requires var unit := s.held[id].unit; unit in s.core.scope && 0 < s.core.scope[unit].gen <= s.core.appliedGen
    ensures var steps := [WaiterDoes(WakeUnit(id)), WaiterDoes(PollUnit(id)),
                          WaiterDoes(EnterForward(id)), WaiterDoes(WriteForward(id))];
            Run(cfg, s, steps).Some? && RequestMsg(id) in Run(cfg, s, steps).value.wire
  {
    var wake, poll := WaiterDoes(WakeUnit(id)), WaiterDoes(PollUnit(id));
    var rest := [WaiterDoes(EnterForward(id)), WaiterDoes(WriteForward(id))];
    var a := s.(waiters := s.waiters[id := Checking]);
    assert WaitNext(s, WakeUnit(id)) == Some(a);
    var b := a.(waiters := a.waiters[id := Forwarding]);
    assert WaitNext(a, PollUnit(id)) == Some(b);
    TwoSteps(cfg, s, wake, a, poll, b);
    var t := ForwardingIsWritten(cfg, b, id);
    RunConcat(cfg, s, [wake, poll], b, rest);
    assert [wake, poll] + rest == [wake, poll, rest[0], rest[1]];
  }

  // ---- cross-references ----------------------------------------------------

  /** A reference that still needs a push has none running, and one that is pushing
      has. */
  ghost predicate PushesMatch(s: Sys) {
    && (forall r <- s.refs :: s.refs[r].Needy? ==> ForRef(r) !in s.pushers)
    && (forall r <- s.refs :: s.refs[r].Pushing? ==> ForRef(r) in s.pushers)
    && (forall w <- s.pushers :: w.ForRef? ==> w.id in s.refs)
  }

  /** What has been announced is on the wire. */
  ghost predicate Announces(s: Sys) {
    && (forall w <- s.pushers :: s.pushers[w].Announced? ==> ConfigurationChanged(s.pushers[w].gen) in s.wire)
    && (forall g <- s.armed :: ConfigurationChanged(g) in s.wire)
  }

  lemma PushKeepsMatch(cfg: Config, s: Sys, step: PushStep, t: Sys)
    requires PushesMatch(s) && Announces(s) && PushNext(cfg, s, step) == Some(t)
    ensures PushesMatch(t) && Announces(t)
  {
    hide Stamp;
    if step.Announce? {
      assert t.wire[|s.wire|] == ConfigurationChanged(s.pushers[step.who].gen);
      assert forall m <- s.wire :: m in t.wire;
    }
  }

  lemma RefKeepsMatch(s: Sys, step: RefStep, t: Sys)
    requires PushesMatch(s) && RefNext(s, step) == Some(t)
    ensures PushesMatch(t)
  {
    hide RefNext, EnsureUnits, Elements, AppliedChannel;
    if step.Ensure? {
      EnsureFrame(s, step, t);
    } else {
      RefFrame(s, step, t);
    }
  }

  lemma AsideKeepsAnnounces(s: Sys, t: Sys)
    requires Announces(s) && t.pushers == s.pushers && t.armed == s.armed && s.wire <= t.wire
    ensures Announces(t)
  {
    assert forall m <- s.wire :: m in t.wire;
  }

  lemma AsideFrame(s: Sys, t: Sys)
    requires Aside(s, t)
    ensures t.pushers == s.pushers && t.armed == s.armed && s.wire <= t.wire
  {
  }

  lemma PumpFrame(s: Sys, step: PumpStep, t: Sys)
    requires InitNext(s, step) == Some(t) || AnswerNext(s, step) == Some(t)
    ensures t.pushers == s.pushers && t.armed == s.armed && s.wire <= t.wire && t.refs == s.refs
  {
    hide WithUnits, Filters, Stamp, Advance;
  }

  lemma EvictionKeepsMatch(s: Sys, ttl: int)
    requires PushesMatch(s) && Announces(s)
    ensures PushesMatch(EvictNext(s, ttl)) && Announces(EvictNext(s, ttl))
  {
    hide Idle;
  }

  lemma SameMatch(s: Sys, t: Sys)
    requires PushesMatch(s) && t.refs == s.refs && t.pushers == s.pushers
    ensures PushesMatch(t)
  {
  }

  lemma StepKeepsMatch(cfg: Config, s: Sys, step: Step, t: Sys)
    requires PushesMatch(s) && Announces(s) && Next(cfg, s, step) == Some(t)
    ensures PushesMatch(t) && Announces(t)
  {
    hide *;
    AsideCases(cfg, s, step, t);
    if step.PushDoes? {
      PushKeepsMatch(cfg, s, step.u, t);
      return;
    }
    if step.EvictionSweeps? {
      EvictionKeepsMatch(s, step.ttl);
      return;
    }
    if step.FallbackFires? {
      FireFrame(s, step.gen, t);
    } else if step.PumpDoes? && (InitNext(s, step.p) == Some(t) || AnswerNext(s, step.p) == Some(t)) {
      PumpFrame(s, step.p, t);
    } else if !step.TimePasses? {
      AsideFrame(s, t);
    }
    AsideKeepsAnnounces(s, t);
    if step.RefDoes? {
      RefKeepsMatch(s, step.r, t);
    } else {
      SameMatch(s, t);
    }
  }

  lemma {:induction false} RunsKeepMatch(cfg: Config, s: Sys, steps: seq<Step>)
    requires PushesMatch(s) && Announces(s) && Run(cfg, s, steps).Some?
    ensures PushesMatch(Run(cfg, s, steps).value) && Announces(Run(cfg, s, steps).value)
    decreases steps
  {
    hide Next, PushesMatch, Announces;
    if steps != [] {
      var t := Next(cfg, s, steps[0]).value;
      StepKeepsMatch(cfg, s, steps[0], t);
      RunsKeepMatch(cfg, t, steps[1..]);
    }
  }

  lemma ReachableKeepsMatch(cfg: Config, s: Sys)
    requires Reachable(cfg, s)
    ensures PushesMatch(s) && Announces(s)
  {
    hide Run;
    var steps :| Run(cfg, INITIAL, steps) == Some(s);
    RunsKeepMatch(cfg, INITIAL, steps);
  }

  /** gopls is told of a generation before its fallback timer is armed: what the timer
      waits for has been asked for. */
  lemma ArmedIsAnnounced(cfg: Config, s: Sys, gen: nat)
    requires Reachable(cfg, s) && gen in s.armed
    ensures ConfigurationChanged(gen) in s.wire
  {
    hide Reachable, PushesMatch;
    ReachableKeepsMatch(cfg, s);
  }

  lemma PushTakes(cfg: Config, s: Sys, step: PushStep, t: Sys)
    requires PushNext(cfg, s, step) == Some(t)
    ensures Leads(cfg, s, t)
  {
    assert Next(cfg, s, PushDoes(step)) == Some(t);
    hide PushNext, Next;
    Take(cfg, s, PushDoes(step), t);
  }

  lemma RefTakes(cfg: Config, s: Sys, step: RefStep, t: Sys)
    requires RefNext(s, step) == Some(t)
    ensures Leads(cfg, s, t)
  {
    assert Next(cfg, s, RefDoes(step)) == Some(t);
    hide RefNext, Next;
    Take(cfg, s, RefDoes(step), t);
  }

  /** A reference's own push can be finished. */
  lemma PushIsFinished(cfg: Config, s: Sys, ref: nat) returns (t: Sys)
    requires ref in s.refs && (s.refs[ref].Needy? || s.refs[ref].Pushing?)
    requires s.refs[ref].Needy? <==> ForRef(ref) !in s.pushers
    ensures Leads(cfg, s, t) && ref in t.refs && t.refs[ref].Awaiting?
    decreases if s.refs[ref].Needy? then 2 else if s.pushers[ForRef(ref)].Stamped? then 1 else 0
  {
    hide Leads, Stamp;
    var who := ForRef(ref);
    if s.refs[ref].Needy? {
      var m := PushNext(cfg, s, StampScope(who)).value;
      PushTakes(cfg, s, StampScope(who), m);
      t := PushIsFinished(cfg, m, ref);
      Then(cfg, s, m, t);
    } else if s.pushers[who].Stamped? {
      var m := PushNext(cfg, s, Announce(who)).value;
      PushTakes(cfg, s, Announce(who), m);
      t := PushIsFinished(cfg, m, ref);
      Then(cfg, s, m, t);
    } else {
      t := PushNext(cfg, s, Arm(who)).value;
      PushTakes(cfg, s, Arm(who), t);
    }
  }

  lemma AwaitedIsWritten(cfg: Config, s: Sys, ref: nat) returns (t: Sys)
    requires ref in s.refs && (s.refs[ref].Awaiting? || s.refs[ref].Waiting? || s.refs[ref].Ready?)
    ensures Leads(cfg, s, t) && CrossRefMsg(ref) in t.wire
    decreases !s.refs[ref].Ready?
  {
    hide Leads;
    if s.refs[ref].Ready? {
      t := RefNext(s, WriteRef(ref)).value;
      RefTakes(cfg, s, WriteRef(ref), t);
      assert t.wire[|s.wire|] == CrossRefMsg(ref);
    } else {
      var m := RefNext(s, GiveUpRef(ref)).value;
      RefTakes(cfg, s, GiveUpRef(ref), m);
      t := AwaitedIsWritten(cfg, m, ref);
      Then(cfg, s, m, t);
    }
  }

  /** A cross-reference on its way can always still be written. */
  lemma EveryReferenceCanBeWritten(cfg: Config, s: Sys, ref: nat)
    requires Reachable(cfg, s) && ref in s.refs && !s.refs[ref].Finished?
    ensures exists t :: Leads(cfg, s, t) && CrossRefMsg(ref) in t.wire
  {
    hide Reachable, Leads, Announces;
    ReachableKeepsMatch(cfg, s);
    var m := s;
    Stays(cfg, s);
    if s.refs[ref].Needy? || s.refs[ref].Pushing? {
      m := PushIsFinished(cfg, s, ref);
    }
    var t := AwaitedIsWritten(cfg, m, ref);
    Then(cfg, s, m, t);
  }

  /** And once its generation is applied it needs no timeout. */
  lemma AppliedReferenceIsWritten(cfg: Config, s: Sys, ref: nat)
    requires ref in s.refs && s.refs[ref].Awaiting? && s.refs[ref].need <= s.core.appliedGen
    ensures var steps := [RefDoes(PollRef(ref)), RefDoes(WriteRef(ref))];
            Run(cfg, s, steps).Some? && CrossRefMsg(ref) in Run(cfg, s, steps).value.wire
  {
    var r := s.refs[ref];
    var m := s.(refs := s.refs[ref := Ready(r.need, r.kept, true)]);
    assert RefNext(s, PollRef(ref)) == Some(m);
    var t := RefNext(m, WriteRef(ref)).value;
    TwoSteps(cfg, s, RefDoes(PollRef(ref)), m, RefDoes(WriteRef(ref)), t);
    assert t.wire[|m.wire|] == CrossRefMsg(ref);
  }
}
