/** Requests held for their file's unit, over every run: each is written at most
    once, none is lost, and none is overtaken by a later edit of its document. */
module HeldProofs {
  import opened Options
  import opened ScopeState
  import opened ProxySystem

  // ---- who may still write a held request ----------------------------------

  /** Ids are places in the client's order, and everything registered, waiting or
      being released is a held request of the right document. */
  ghost predicate Placed(s: Sys) {
    && (forall id <- s.held :: id < |s.received| && s.received[id] == Request(s.held[id].uri))
    && (forall id <- s.waiters :: id in s.held)
    && (forall uri <- s.core.heldDefs :: forall id <- s.core.heldDefs[uri] :: id in s.held && s.held[id].uri == uri)
    && PumpPlaced(s)
  }

  /** The message in the pump's hands is the last one received; the document of an
      edit being written has nothing registered. */
  ghost predicate PumpPlaced(s: Sys) {
    var last := |s.received| - 1;
    match s.pump
    case Holding(id, uri, _) => id == last && s.received[id] == Request(uri) && id !in s.held
    case Inline(id) => id == last && s.received[id].Request? && id !in s.held
    case Releasing(id, uri, todo) =>
      && id == last && s.received[id] == Change(uri) && uri !in s.core.heldDefs
      && forall h <- todo :: h in s.held && s.held[h].uri == uri
    case Changing(id, uri) => id == last && s.received[id] == Change(uri) && uri !in s.core.heldDefs
    case _ => true
  }

  /** The pump is inside this request's sync.Once. */
  predicate PumpAt(p: Pump, id: nat) {
    p.Releasing? && p.todo != [] && p.todo[0] == id
  }

  /** A running sync.Once has its runner, and a waiter that is still needed has
      not left. */
  ghost predicate OncesRun(s: Sys) {
    forall id <- s.held ::
      && (WriterIsWaiter(s, id) ==> s.held[id].once == Running)
      && (s.held[id].once == Running ==> WriterIsWaiter(s, id) || PumpAt(s.pump, id))
      && (s.held[id].once == Unused ==> id in s.waiters)
      && (id in s.waiters && s.waiters[id] == Leaving ==> s.held[id].once == Ran)
  }

  /** The pump has detached this request and not yet passed it. */
  predicate Detaching(p: Pump, uri: string, id: nat) {
    p.Releasing? && p.uri == uri && id in p.todo
  }

  /** Each unforwarded request is registered under its document or in the list of
      the releasing pump. */
  ghost predicate NoneLost(s: Sys) {
    forall id <- s.held :: s.held[id].once == Ran
      || id in HeldFor(s.core, s.held[id].uri) || Detaching(s.pump, s.held[id].uri, id)
  }

  // ---- what has been written -----------------------------------------------

  /** The pump has read this message and not yet written or registered it. */
  predicate InHand(p: Pump, id: nat) {
    match p
    case Holding(i, _, _) => i == id
    case Inline(i) => i == id
    case Releasing(i, _, _) => i == id
    case Changing(i, _) => i == id
    case _ => false
  }

  /** Client messages written: held requests whose sync.Once has run, and all
      others but the one in hand. */
  predicate Forwarded(s: Sys, id: nat) {
    id < |s.received| && !InHand(s.pump, id) && (id in s.held ==> s.held[id].once == Ran)
  }

  predicate FromClient(m: Wire) {
    m.RequestMsg? || m.ChangeMsg?
  }

  function WireOf(received: seq<ClientMsg>, id: nat): Wire
    requires id < |received|
  {
    if received[id].Request? then RequestMsg(id) else ChangeMsg(id)
  }

  ghost predicate WrittenIsForwarded(s: Sys) {
    && (forall id: nat | id < |s.received| :: WireOf(s.received, id) in s.wire <==> Forwarded(s, id))
    && (forall m <- s.wire :: FromClient(m) ==> m.id < |s.received| && m == WireOf(s.received, m.id))
  }

  ghost predicate WrittenOnce(wire: seq<Wire>) {
    forall i, j | 0 <= i < j < |wire| :: FromClient(wire[i]) ==> wire[i] != wire[j]
  }

  /** Before the edit at place i of the wire come all requests for its document
      that the client sent before it. */
  ghost predicate NotOvertaken(received: seq<ClientMsg>, wire: seq<Wire>, i: nat)
    requires i < |wire|
  {
    wire[i].ChangeMsg? && wire[i].id < |received| && received[wire[i].id].Change? ==>
      forall id: nat | id < wire[i].id ::
        received[id] == Request(received[wire[i].id].uri) ==> RequestMsg(id) in wire[..i]
  }

  ghost predicate InOrder(s: Sys) {
    forall i: nat | i < |s.wire| :: NotOvertaken(s.received, s.wire, i)
  }

  ghost predicate HeldHolds(s: Sys) {
    && Placed(s) && OncesRun(s) && NoneLost(s)
    && WrittenIsForwarded(s) && WrittenOnce(s.wire) && InOrder(s)
  }

  lemma HeldParts(s: Sys)
    requires HeldHolds(s)
    ensures Placed(s) && OncesRun(s) && NoneLost(s) && WrittenIsForwarded(s) && WrittenOnce(s.wire) && InOrder(s)
  {
    hide Placed, OncesRun, NoneLost, WrittenIsForwarded, WrittenOnce, InOrder;
  }

  lemma HeldWhole(s: Sys)
    requires Placed(s) && OncesRun(s) && NoneLost(s) && WrittenIsForwarded(s) && WrittenOnce(s.wire) && InOrder(s)
    ensures HeldHolds(s)
  {
    hide Placed, OncesRun, NoneLost, WrittenIsForwarded, WrittenOnce, InOrder;
  }

  // ---- frames --------------------------------------------------------------

  /** The step sends at most one message, not from the client. */
  ghost predicate AddsOther(before: seq<Wire>, after: seq<Wire>) {
    after == before || (|after| == |before| + 1 && after[..|before|] == before && !FromClient(after[|before|]))
  }

  predicate HandsFree(p: Pump) {
    !p.Holding? && !p.Inline? && !p.Releasing? && !p.Changing?
  }

  ghost predicate LeavesHeld(s: Sys, t: Sys) {
    && t.received == s.received && t.held == s.held && t.waiters == s.waiters
    && t.core.heldDefs == s.core.heldDefs
    && (t.pump == s.pump || (HandsFree(t.pump) && HandsFree(s.pump)))
    && AddsOther(s.wire, t.wire)
  }

  lemma LeavingKeepsPlaces(s: Sys, t: Sys)
    requires Placed(s) && OncesRun(s) && NoneLost(s) && LeavesHeld(s, t)
    ensures Placed(t) && OncesRun(t) && NoneLost(t)
  {
    hide AddsOther;
    forall id | id in t.held
      ensures t.held[id].once == Ran || id in HeldFor(t.core, t.held[id].uri) || Detaching(t.pump, t.held[id].uri, id)
    {
      assert id in s.held;
    }
  }

  /** Sending one message adds exactly that message. */
  lemma Appended(before: seq<Wire>, m: Wire)
    ensures forall x :: x in before + [m] <==> x in before || x == m
  {
  }

  lemma OtherAppended(before: seq<Wire>, after: seq<Wire>)
    requires AddsOther(before, after)
    ensures forall m | FromClient(m) :: m in after <==> m in before
    ensures after == before || after == before + [after[|before|]]
  {
    if after != before {
      assert after == before + [after[|before|]];
      Appended(before, after[|before|]);
    }
  }

  /** Order and uniqueness survive one more message that is itself new and, when
      it is an edit, overtakes nothing. */
  lemma AppendKeepsOrder(received: seq<ClientMsg>, before: seq<Wire>, m: Wire)
    requires WrittenOnce(before) && forall i: nat | i < |before| :: NotOvertaken(received, before, i)
    requires FromClient(m) ==> m !in before
    requires m.ChangeMsg? && m.id < |received| && received[m.id].Change? ==>
               forall id: nat | id < m.id :: received[id] == Request(received[m.id].uri) ==> RequestMsg(id) in before
    ensures WrittenOnce(before + [m])
    ensures forall i: nat | i < |before + [m]| :: NotOvertaken(received, before + [m], i)
  {
    hide FromClient;
    var after := before + [m];
    forall i: nat | i < |after| ensures NotOvertaken(received, after, i) {
      if i < |before| {
        assert NotOvertaken(received, before, i);
        assert after[..i] == before[..i];
      } else {
        assert after[..i] == before;
      }
    }
  }

  lemma LeavingKeepsOrder(s: Sys, t: Sys)
    requires Placed(s) && WrittenIsForwarded(s) && WrittenOnce(s.wire) && InOrder(s) && LeavesHeld(s, t)
    ensures WrittenIsForwarded(t) && WrittenOnce(t.wire) && InOrder(t)
  {
    hide AddsOther, NotOvertaken, WrittenOnce, FromClient, Placed;
    OtherAppended(s.wire, t.wire);
    if t.wire != s.wire {
      assert !FromClient(t.wire[|s.wire|]) && !t.wire[|s.wire|].ChangeMsg? by { NotFromClient(s.wire, t.wire); }
      AppendKeepsOrder(s.received, s.wire, t.wire[|s.wire|]);
    }
    WireOfIsFromClient(s.received);
    assert forall id :: Forwarded(t, id) <==> Forwarded(s, id);
  }

  lemma NotFromClient(before: seq<Wire>, after: seq<Wire>)
    requires AddsOther(before, after) && after != before
    ensures !FromClient(after[|before|]) && !after[|before|].ChangeMsg?
  {
  }

  lemma WireOfIsFromClient(received: seq<ClientMsg>)
    ensures forall id: nat | id < |received| :: FromClient(WireOf(received, id))
  {
  }

  // ---- reading, sending and everything between -----------------------------

  lemma ReadingKeepsOrder(s: Sys, m: ClientMsg, t: Sys)
    requires WrittenIsForwarded(s) && WrittenOnce(s.wire) && InOrder(s) && Placed(s)
    requires s.pump == Reading && t.received == s.received + [m] && InHand(t.pump, |s.received|)
    requires forall id | InHand(t.pump, id) :: id == |s.received|
    requires t.wire == s.wire && t.held == s.held
    ensures WrittenIsForwarded(t) && WrittenOnce(t.wire) && InOrder(t)
  {
    hide FromClient, WrittenOnce, PumpPlaced;
    forall id: nat | id < |t.received| ensures WireOf(t.received, id) in t.wire <==> Forwarded(t, id) {
      assert id < |s.received| ==> WireOf(t.received, id) == WireOf(s.received, id);
      if id == |s.received| {
        WireOfIsFromClient(t.received);
      }
    }
    forall i: nat | i < |t.wire| ensures NotOvertaken(t.received, t.wire, i) {
      assert NotOvertaken(s.received, s.wire, i);
      assert t.wire[i] in s.wire;
      assert t.wire[i].ChangeMsg? ==> FromClient(t.wire[i]) by { ChangesAreFromClient(t.wire[i]); }
    }
  }

  lemma ChangesAreFromClient(m: Wire)
    ensures m.ChangeMsg? ==> FromClient(m)
  {
  }

  /** The client's message number id is written. */
  lemma SendingKeepsOrder(s: Sys, id: nat, t: Sys)
    requires WrittenIsForwarded(s) && WrittenOnce(s.wire) && InOrder(s)
    requires t.received == s.received && id < |s.received|
    requires t.wire == s.wire + [WireOf(s.received, id)]
    requires !Forwarded(s, id) && forall x: nat :: Forwarded(t, x) <==> Forwarded(s, x) || x == id
    requires s.received[id].Change? ==>
               forall x: nat | x < id :: s.received[x] == Request(s.received[id].uri) ==> Forwarded(s, x)
    ensures WrittenIsForwarded(t) && WrittenOnce(t.wire) && InOrder(t)
  {
    hide FromClient, WrittenOnce, NotOvertaken, Forwarded;
    var m := WireOf(s.received, id);
    Appended(s.wire, m);
    WireOfIsFromClient(s.received);
    assert forall x: nat | x < |s.received| :: WireOf(s.received, x) == m ==> x == id;
    AppendKeepsOrder(s.received, s.wire, m);
  }

  lemma SameForwardedKeepsOrder(s: Sys, t: Sys)
    requires WrittenIsForwarded(s) && WrittenOnce(s.wire) && InOrder(s)
    requires t.received == s.received && t.wire == s.wire
    requires forall x: nat :: Forwarded(t, x) <==> Forwarded(s, x)
    ensures WrittenIsForwarded(t) && WrittenOnce(t.wire) && InOrder(t)
  {
    hide FromClient, WrittenOnce, NotOvertaken, Forwarded;
  }

  // ---- the client pump -----------------------------------------------------

  lemma AskKeepsHeld(s: Sys, step: PumpStep, t: Sys)
    requires HeldHolds(s) && HoldNext(s, step) == Some(t) && step.Ask?
    ensures HeldHolds(t)
  {
    hide UnitPending, WrittenIsForwarded, WrittenOnce, InOrder;
    ReadingKeepsOrder(s, Request(step.askUri), t);
  }

  lemma RegisteringKeeps(c: Core, uri: string, id: nat)
    ensures var d := Registered(c, uri, id);
            forall u, x :: x in HeldFor(d, u) <==> x in HeldFor(c, u) || (u == uri && x == id)
  {
  }

  lemma HoldKeepsOnces(s: Sys, step: PumpStep, t: Sys)
    requires Placed(s) && OncesRun(s) && HoldNext(s, step) == Some(t) && step.Hold?
    ensures OncesRun(t)
  {
    hide UnitPending, Registered;
    forall x | x in t.held
      ensures (WriterIsWaiter(t, x) ==> t.held[x].once == Running)
              && (t.held[x].once == Running ==> WriterIsWaiter(t, x) || PumpAt(t.pump, x))
              && (t.held[x].once == Unused ==> x in t.waiters)
              && (x in t.waiters && t.waiters[x] == Leaving ==> t.held[x].once == Ran)
    {
      if x != s.pump.id {
        assert x in s.held && t.held[x] == s.held[x];
      }
    }
  }

  lemma HoldLosesNone(s: Sys, step: PumpStep, t: Sys)
    requires NoneLost(s) && HoldNext(s, step) == Some(t) && step.Hold?
    ensures NoneLost(t)
  {
    hide UnitPending, Registered, HeldFor;
    RegisteringKeeps(s.core, s.pump.uri, s.pump.id);
    forall x | x in t.held
      ensures t.held[x].once == Ran || x in HeldFor(t.core, t.held[x].uri) || Detaching(t.pump, t.held[x].uri, x)
    {
      assert x != s.pump.id ==> x in s.held && t.held[x] == s.held[x];
    }
  }

  lemma HoldIsPlaced(s: Sys, id: nat, uri: string, unit: string)
    requires Placed(s) && s.pump == Holding(id, uri, unit)
    ensures Placed(s.(core := Registered(s.core, uri, id), pump := Reading,
                      held := s.held[id := Held(uri, unit, Unused)], waiters := s.waiters[id := Checking]))
  {
  }

  lemma HoldKeepsHeld(s: Sys, step: PumpStep, t: Sys)
    requires HeldHolds(s) && HoldNext(s, step) == Some(t) && step.Hold?
    ensures HeldHolds(t)
  {
    hide UnitPending, WrittenIsForwarded, WrittenOnce, InOrder, OncesRun, NoneLost, Registered;
    HoldIsPlaced(s, s.pump.id, s.pump.uri, s.pump.unit);
    HoldKeepsOnces(s, step, t);
    HoldLosesNone(s, step, t);
    SameForwardedKeepsOrder(s, t);
  }

  lemma InlineKeepsHeld(s: Sys, step: PumpStep, t: Sys)
    requires HeldHolds(s) && HoldNext(s, step) == Some(t) && step.WriteInline?
    ensures HeldHolds(t)
  {
    hide UnitPending, WrittenIsForwarded, WrittenOnce, InOrder;
    SendingKeepsOrder(s, s.pump.id, t);
  }

  /** The document's list is detached and handed to the releasing pump. */
  function Releases(s: Sys, uri: string): Sys {
    s.(received := s.received + [Change(uri)], core := Detached(s.core, uri),
       pump := Releasing(|s.received|, uri, HeldFor(s.core, uri)))
  }

  lemma DetachingIsPlaced(s: Sys, uri: string)
    requires Placed(s)
    ensures Placed(Releases(s, uri))
  {
  }

  lemma DetachingKeepsOnces(s: Sys, uri: string)
    requires OncesRun(s) && s.pump == Reading
    ensures OncesRun(Releases(s, uri))
  {
    hide Detached, HeldFor;
  }

  lemma DetachingLosesNone(s: Sys, uri: string)
    requires NoneLost(s) && s.pump == Reading
    ensures NoneLost(Releases(s, uri))
  {
    assert forall u :: u != uri ==> HeldFor(Detached(s.core, uri), u) == HeldFor(s.core, u);
    hide Detached, HeldFor;
  }

  lemma ChangeArrivesKeepsHeld(s: Sys, step: PumpStep, t: Sys)
    requires HeldHolds(s) && ReleaseNext(s, step) == Some(t) && step.DidChange?
    ensures HeldHolds(t)
  {
    hide HeldHolds, Placed, OncesRun, NoneLost, WrittenIsForwarded, WrittenOnce, InOrder, Detached, HeldFor;
    HeldParts(s);
    assert t == Releases(s, step.changeUri);
    hide ReleaseNext;
    DetachingIsPlaced(s, step.changeUri);
    DetachingKeepsOnces(s, step.changeUri);
    DetachingLosesNone(s, step.changeUri);
    ReadingKeepsOrder(s, Change(step.changeUri), t);
    HeldWhole(t);
  }

  /** A sync.Once moves on; its runner, if any, is still there. */
  lemma OnceMovesPlaces(s: Sys, id: nat, once: Once, t: Sys)
    requires Placed(s) && id in s.held && t.held == s.held[id := s.held[id].(once := once)]
    requires t.received == s.received && t.core == s.core && t.waiters.Keys == s.waiters.Keys
    requires t.pump == s.pump || (PumpAt(s.pump, id) && t.pump == s.pump.(todo := s.pump.todo[1..]))
    ensures Placed(t)
  {
  }

  lemma OnceMovesLoses(s: Sys, id: nat, once: Once, t: Sys)
    requires NoneLost(s) && id in s.held && t.held == s.held[id := s.held[id].(once := once)]
    requires s.held[id].once != Ran || once == Ran
    requires t.core == s.core
    requires t.pump == s.pump || (PumpAt(s.pump, id) && once == Ran && t.pump == s.pump.(todo := s.pump.todo[1..]))
    ensures NoneLost(t)
  {
    hide HeldFor;
    forall x | x in t.held
      ensures t.held[x].once == Ran || x in HeldFor(t.core, t.held[x].uri) || Detaching(t.pump, t.held[x].uri, x)
    {
      assert x in s.held;
    }
  }

  lemma EnterKeepsOnces(s: Sys, step: PumpStep, t: Sys)
    requires OncesRun(s) && Placed(s) && ReleaseNext(s, step) == Some(t) && step.EnterHeld?
    ensures OncesRun(t)
  {
    hide Placed;
  }

  lemma EnterKeepsHeld(s: Sys, step: PumpStep, t: Sys)
    requires HeldHolds(s) && ReleaseNext(s, step) == Some(t) && step.EnterHeld?
    ensures HeldHolds(t)
  {
    hide WrittenIsForwarded, WrittenOnce, InOrder, Placed, OncesRun, NoneLost, WriterIsWaiter;
    EnterKeepsOnces(s, step, t);
    OnceMovesPlaces(s, s.pump.todo[0], Running, t);
    OnceMovesLoses(s, s.pump.todo[0], Running, t);
    SameForwardedKeepsOrder(s, t);
  }

  lemma WriteHeldKeepsOnces(s: Sys, step: PumpStep, t: Sys)
    requires OncesRun(s) && ReleaseNext(s, step) == Some(t) && step.WriteHeld?
    ensures OncesRun(t)
  {
  }

  lemma RunningIsUnwritten(s: Sys, id: nat)
    requires Placed(s) && id in s.held && s.held[id].once != Ran
    ensures id < |s.received| && s.received[id].Request? && !Forwarded(s, id) && !InHand(s.pump, id)
  {
  }

  lemma WriteHeldKeepsHeld(s: Sys, step: PumpStep, t: Sys)
    requires HeldHolds(s) && ReleaseNext(s, step) == Some(t) && step.WriteHeld?
    ensures HeldHolds(t)
  {
    hide HeldHolds, Placed, OncesRun, NoneLost, WrittenIsForwarded, WrittenOnce, InOrder, WriterIsWaiter;
    HeldParts(s);
    var id := s.pump.todo[0];
    assert t == s.(held := s.held[id := s.held[id].(once := Ran)], pump := s.pump.(todo := s.pump.todo[1..]),
                   wire := s.wire + [RequestMsg(id)]);
    WriteHeldKeepsOnces(s, step, t);
    assert s.held[id].once == Running;
    hide ReleaseNext;
    RunningIsUnwritten(s, id);
    OnceMovesPlaces(s, id, Ran, t);
    OnceMovesLoses(s, id, Ran, t);
    SendingKeepsOrder(s, id, t);
    HeldWhole(t);
  }

  lemma SkipKeepsHeld(s: Sys, step: PumpStep, t: Sys)
    requires HeldHolds(s) && ReleaseNext(s, step) == Some(t) && step.SkipHeld?
    ensures HeldHolds(t)
  {
    hide WrittenIsForwarded, WrittenOnce, InOrder, Placed, NoneLost, WriterIsWaiter;
    var id := s.pump.todo[0];
    assert s.held[id := s.held[id].(once := Ran)] == s.held;
    OnceMovesPlaces(s, id, Ran, t);
    OnceMovesLoses(s, id, Ran, t);
    SameForwardedKeepsOrder(s, t);
    SameWritersKeepOnces(s, t);
  }

  /** Moving on past a request that has run keeps every sync.Once accounted for. */
  lemma SameWritersKeepOnces(s: Sys, t: Sys)
    requires OncesRun(s) && t.held == s.held && t.waiters == s.waiters
    requires forall id <- s.held :: PumpAt(s.pump, id) && s.held[id].once == Running ==> PumpAt(t.pump, id)
    ensures OncesRun(t)
  {
  }

  lemma EndKeepsHeld(s: Sys, step: PumpStep, t: Sys)
    requires HeldHolds(s) && ReleaseNext(s, step) == Some(t) && step.EndRelease?
    ensures HeldHolds(t)
  {
    hide WrittenIsForwarded, WrittenOnce, InOrder, OncesRun, HeldFor, WriterIsWaiter;
    SameWritersKeepOnces(s, t);
    SameForwardedKeepsOrder(s, t);
  }

  /** Nothing of the document is left unwritten when its edit is about to be. */
  lemma NothingLeftBehind(s: Sys, id: nat)
    requires Placed(s) && NoneLost(s) && s.pump.Changing?
    requires id < s.pump.id && s.received[id] == Request(s.pump.uri)
    ensures Forwarded(s, id)
  {
  }

  lemma WritingChangeKeepsPlaces(s: Sys)
    requires Placed(s) && OncesRun(s) && NoneLost(s) && s.pump.Changing?
    ensures var t := s.(pump := Reading, wire := s.wire + [ChangeMsg(s.pump.id)]);
            Placed(t) && OncesRun(t) && NoneLost(t)
    ensures s.pump.id == |s.received| - 1 && s.received[s.pump.id] == Change(s.pump.uri) && s.pump.id !in s.held
  {
  }

  lemma WriteChangeKeepsHeld(s: Sys, step: PumpStep, t: Sys)
    requires HeldHolds(s) && ReleaseNext(s, step) == Some(t) && step.WriteChange?
    ensures HeldHolds(t)
  {
    hide HeldHolds, Placed, OncesRun, NoneLost, WrittenIsForwarded, WrittenOnce, InOrder;
    HeldParts(s);
    assert t == s.(pump := Reading, wire := s.wire + [ChangeMsg(s.pump.id)]);
    hide ReleaseNext;
    WritingChangeKeepsPlaces(s);
    forall x: nat | x < s.pump.id && s.received[x] == Request(s.pump.uri) ensures Forwarded(s, x) {
      NothingLeftBehind(s, x);
    }
    SendingKeepsOrder(s, s.pump.id, t);
    HeldWhole(t);
  }

  // ---- the goroutines of held requests -------------------------------------

  /** One waiter moves without writing. */
  ghost predicate WaiterOnly(s: Sys, id: nat, t: Sys) {
    && id in s.waiters && id in s.held && id in t.waiters
    && t == s.(core := t.core, waiters := s.waiters[id := t.waiters[id]])
    && t.core.heldDefs == s.core.heldDefs
    && s.waiters[id] != Writing && t.waiters[id] != Writing
    && (t.waiters[id] == Leaving ==> s.held[id].once == Ran)
  }

  lemma WaiterMoves(s: Sys, step: WaitStep, t: Sys)
    requires WaitNext(s, step) == Some(t)
    requires !step.EnterForward? && !step.WriteForward? && !step.Unregister?
    ensures WaiterOnly(s, step.id, t)
  {
    hide UnitApplied, AppliedChannel;
    var id := step.id;
    ChannelFrame(s.core);
    match step
    case PollUnit(_) =>
      if UnitApplied(s.core, s.held[id].unit) {
        assert t == s.(waiters := s.waiters[id := Forwarding]);
      } else {
        var (core, ch) := AppliedChannel(s.core);
        assert t == s.(core := core, waiters := s.waiters[id := Parked(ch)]);
      }
    case WakeUnit(_) => assert t == s.(waiters := s.waiters[id := Checking]);
    case GiveUpUnit(_) => assert t == s.(waiters := s.waiters[id := Forwarding]);
    case SkipForward(_) => assert t == s.(waiters := s.waiters[id := Leaving]);
  }

  lemma MovingIsPlaced(s: Sys, id: nat, t: Sys)
    requires Placed(s) && WaiterOnly(s, id, t)
    ensures Placed(t)
  {
  }

  lemma MovingKeepsOnces(s: Sys, id: nat, t: Sys)
    requires OncesRun(s) && WaiterOnly(s, id, t)
    ensures OncesRun(t)
  {
  }

  lemma MovingLosesNone(s: Sys, id: nat, t: Sys)
    requires NoneLost(s) && WaiterOnly(s, id, t)
    ensures NoneLost(t)
  {
    assert forall u :: HeldFor(t.core, u) == HeldFor(s.core, u);
    hide HeldFor;
  }

  lemma MovingKeepsHeld(s: Sys, id: nat, t: Sys)
    requires HeldHolds(s) && WaiterOnly(s, id, t)
    ensures HeldHolds(t)
  {
    hide WrittenIsForwarded, WrittenOnce, InOrder, Placed, OncesRun, NoneLost;
    MovingIsPlaced(s, id, t);
    MovingKeepsOnces(s, id, t);
    MovingLosesNone(s, id, t);
    SameForwardedKeepsOrder(s, t);
  }

  lemma EnterForwardKeepsOnces(s: Sys, step: WaitStep, t: Sys)
    requires OncesRun(s) && WaitNext(s, step) == Some(t) && (step.EnterForward? || step.WriteForward?)
    ensures OncesRun(t)
  {
    hide UnitApplied;
    forall x | x in t.held
      ensures (WriterIsWaiter(t, x) ==> t.held[x].once == Running)
              && (t.held[x].once == Running ==> WriterIsWaiter(t, x) || PumpAt(t.pump, x))
              && (t.held[x].once == Unused ==> x in t.waiters)
              && (x in t.waiters && t.waiters[x] == Leaving ==> t.held[x].once == Ran)
    {
      assert x in s.held;
      if x != step.id {
        assert t.held[x] == s.held[x] && WriterIsWaiter(t, x) == WriterIsWaiter(s, x);
      }
    }
  }

  lemma EnterForwardFrame(s: Sys, step: WaitStep, t: Sys)
    requires WaitNext(s, step) == Some(t) && (step.EnterForward? || step.WriteForward?)
    ensures var id := step.id;
            && id in s.held && id in s.waiters && t.waiters.Keys == s.waiters.Keys
            && t.received == s.received && t.core == s.core && t.pump == s.pump
            && t.held == s.held[id := s.held[id].(once := if step.EnterForward? then Running else Ran)]
            && t.wire == (if step.EnterForward? then s.wire else s.wire + [RequestMsg(id)])
            && if step.EnterForward? then s.held[id].once == Unused else s.waiters[id] == Writing
  {
    hide UnitApplied;
  }

  lemma ForwardKeepsPlaces(s: Sys, step: WaitStep, t: Sys)
    requires HeldHolds(s) && WaitNext(s, step) == Some(t) && (step.EnterForward? || step.WriteForward?)
    ensures Placed(t) && OncesRun(t) && NoneLost(t)
  {
    hide HeldHolds, Placed, OncesRun, NoneLost, WaitNext;
    var once := if step.EnterForward? then Running else Ran;
    EnterForwardFrame(s, step, t);
    assert Placed(s) && OncesRun(s) && NoneLost(s) by { HeldParts(s); }
    EnterForwardKeepsOnces(s, step, t);
    OnceMovesPlaces(s, step.id, once, t);
    OnceMovesLoses(s, step.id, once, t);
  }

  lemma WaiterHasNotWritten(s: Sys, id: nat)
    requires Placed(s) && OncesRun(s) && id in s.held && id in s.waiters
    ensures id < |s.received| && s.received[id] == Request(s.held[id].uri) && !InHand(s.pump, id)
    ensures s.waiters[id] == Writing ==> !Forwarded(s, id)
  {
  }

  lemma ForwardKeepsHeld(s: Sys, step: WaitStep, t: Sys)
    requires HeldHolds(s) && WaitNext(s, step) == Some(t) && (step.EnterForward? || step.WriteForward?)
    ensures HeldHolds(t)
  {
    hide WrittenIsForwarded, WrittenOnce, InOrder, Placed, OncesRun, NoneLost, WaitNext, InHand;
    var id := step.id;
    EnterForwardFrame(s, step, t);
    WaiterHasNotWritten(s, id);
    ForwardKeepsPlaces(s, step, t);
    if step.EnterForward? {
      SameForwardedKeepsOrder(s, t);
    } else {
      SendingKeepsOrder(s, id, t);
    }
  }

  lemma UnregisteringKeeps(c: Core, uri: string, id: nat)
    ensures var d := Unregistered(c, uri, id);
            && (forall u, x :: x != id ==> (x in HeldFor(d, u) <==> x in HeldFor(c, u)))
            && (forall u :: u in d.heldDefs ==> u in c.heldDefs)
            && (forall u, x :: x in HeldFor(d, u) ==> x in HeldFor(c, u))
  {
    hide RemoveFirst;
    RemoveFirstKeeps(HeldFor(c, uri), id);
    RemoveFirstIsLess(HeldFor(c, uri), id);
  }

  lemma {:induction false} RemoveFirstIsLess(items: seq<nat>, x: nat)
    ensures forall y :: y in RemoveFirst(items, x) ==> y in items
    ensures items == [] ==> RemoveFirst(items, x) == []
  {
    if items != [] {
      RemoveFirstIsLess(items[1..], x);
    }
  }

  lemma UnregisterKeepsOnces(s: Sys, id: nat, t: Sys)
    requires OncesRun(s) && NoneLost(s) && id in s.held && id in s.waiters && s.waiters[id] == Leaving
    requires t == s.(core := Unregistered(s.core, s.held[id].uri, id), waiters := s.waiters - {id})
    ensures OncesRun(t) && NoneLost(t)
  {
    hide Unregistered, HeldFor;
    UnregisteringKeeps(s.core, s.held[id].uri, id);
  }

  lemma UnregisterKeepsHeld(s: Sys, step: WaitStep, t: Sys)
    requires HeldHolds(s) && WaitNext(s, step) == Some(t) && step.Unregister?
    ensures HeldHolds(t)
  {
    hide HeldHolds, Placed, OncesRun, NoneLost, WrittenIsForwarded, WrittenOnce, InOrder, Unregistered, UnitApplied;
    HeldParts(s);
    assert t == s.(core := Unregistered(s.core, s.held[step.id].uri, step.id), waiters := s.waiters - {step.id});
    assert s.waiters[step.id] == Leaving;
    hide WaitNext;
    UnregisterKeepsOnces(s, step.id, t);
    UnregisterIsPlaced(s, s.held[step.id].uri, step.id);
    SameForwardedKeepsOrder(s, t);
    HeldWhole(t);
  }

  lemma UnregisterIsPlaced(s: Sys, uri: string, id: nat)
    requires Placed(s)
    ensures Placed(s.(core := Unregistered(s.core, uri, id), waiters := s.waiters - {id}))
  {
    hide Unregistered;
    UnregisteringKeeps(s.core, uri, id);
    var d := Unregistered(s.core, uri, id);
    forall u | u in d.heldDefs
      ensures forall x <- d.heldDefs[u] :: x in s.held && s.held[x].uri == u
    {
      assert forall x <- d.heldDefs[u] :: x in HeldFor(d, u) && x in HeldFor(s.core, u);
    }
  }

  // ---- everything else leaves held requests alone ---------------------------

  lemma InitLeavesHeld(s: Sys, step: PumpStep, t: Sys)
    requires InitNext(s, step) == Some(t)
    ensures LeavesHeld(s, t)
  {
    hide WithUnits, Filters, Stamp;
    assert Stamp(s.core).heldDefs == s.core.heldDefs by { StampLeavesHeld(s.core); }
  }

  lemma StampLeavesHeld(c: Core)
    ensures Stamp(c).heldDefs == c.heldDefs
  {
  }

  lemma AnswerLeavesHeld(s: Sys, step: PumpStep, t: Sys)
    requires AnswerNext(s, step) == Some(t)
    ensures LeavesHeld(s, t)
  {
    hide Filters;
  }

  lemma DocLeavesHeld(s: Sys, step: PumpStep, t: Sys)
    requires DocNext(s, step) == Some(t)
    ensures LeavesHeld(s, t)
  {
  }

  lemma PushLeavesHeld(cfg: Config, s: Sys, step: PushStep, t: Sys)
    requires PushNext(cfg, s, step) == Some(t)
    ensures LeavesHeld(s, t)
  {
    hide Stamp;
    StampLeavesHeld(s.core);
  }

  lemma EnsureLeavesHeld(c: Core, units: seq<string>, now: int)
    ensures EnsureUnits(c, units, now).0.heldDefs == c.heldDefs
  {
    hide WithUnits, Needed;
  }

  lemma RefLeavesHeld(s: Sys, step: RefStep, t: Sys)
    requires RefNext(s, step) == Some(t)
    ensures LeavesHeld(s, t)
  {
    hide RefNext, EnsureUnits, AppliedChannel, RefMoves;
    if step.Ensure? {
      EnsureFrame(s, step, t);
      EnsureLeavesHeld(s.core, step.units, s.now);
    } else {
      RefFrame(s, step, t);
      ChannelFrame(s.core);
    }
  }

  lemma RestLeavesHeld(cfg: Config, s: Sys, step: Step, t: Sys)
    requires Next(cfg, s, step) == Some(t)
    requires step.PullArrives? || step.EvictionSweeps? || step.FallbackFires? || step.TimePasses?
    ensures LeavesHeld(s, t)
  {
    hide Next, FireNext;
    StepCases(cfg, s, step, t);
    if step.FallbackFires? {
      FireFrame(s, step.gen, t);
    }
  }

  // ---- over every run ------------------------------------------------------

  lemma LeavingKeepsHeld(s: Sys, t: Sys)
    requires HeldHolds(s) && LeavesHeld(s, t)
    ensures HeldHolds(t)
  {
    hide LeavesHeld, Placed, OncesRun, NoneLost, WrittenIsForwarded, WrittenOnce, InOrder;
    LeavingKeepsPlaces(s, t);
    LeavingKeepsOrder(s, t);
  }

  lemma PumpKeepsHeld(s: Sys, step: PumpStep, t: Sys)
    requires HeldHolds(s) && PumpNext(s, step) == Some(t)
    ensures HeldHolds(t)
  {
    hide *;
    HeldCases(s, step, t);
    match step {
      case Ask(_, _) => AskKeepsHeld(s, step, t);
      case Hold => HoldKeepsHeld(s, step, t);
      case WriteInline => InlineKeepsHeld(s, step, t);
      case DidChange(_) => ChangeArrivesKeepsHeld(s, step, t);
      case EnterHeld => EnterKeepsHeld(s, step, t);
      case WriteHeld => WriteHeldKeepsHeld(s, step, t);
      case SkipHeld => SkipKeepsHeld(s, step, t);
      case EndRelease => EndKeepsHeld(s, step, t);
      case WriteChange => WriteChangeKeepsHeld(s, step, t);
      case _ =>
        if InitNext(s, step) == Some(t) {
          InitLeavesHeld(s, step, t);
        } else if AnswerNext(s, step) == Some(t) {
          AnswerLeavesHeld(s, step, t);
        } else {
          DocLeavesHeld(s, step, t);
        }
        LeavingKeepsHeld(s, t);
    }
  }

  lemma HeldCases(s: Sys, step: PumpStep, t: Sys)
    requires PumpNext(s, step) == Some(t)
    ensures match step
            case Ask(_, _) => HoldNext(s, step) == Some(t)
            case Hold => HoldNext(s, step) == Some(t)
            case WriteInline => HoldNext(s, step) == Some(t)
            case DidChange(_) => ReleaseNext(s, step) == Some(t)
            case EnterHeld => ReleaseNext(s, step) == Some(t)
            case WriteHeld => ReleaseNext(s, step) == Some(t)
            case SkipHeld => ReleaseNext(s, step) == Some(t)
            case EndRelease => ReleaseNext(s, step) == Some(t)
            case WriteChange => ReleaseNext(s, step) == Some(t)
            case _ => InitNext(s, step) == Some(t) || AnswerNext(s, step) == Some(t) || DocNext(s, step) == Some(t)
  {
    hide InitNext, AnswerNext, DocNext, HoldNext, ReleaseNext;
  }

  lemma StepKeepsHeld(cfg: Config, s: Sys, step: Step, t: Sys)
    requires HeldHolds(s) && Next(cfg, s, step) == Some(t)
    ensures HeldHolds(t)
  {
    hide *;
    StepCases(cfg, s, step, t);
    if step.PumpDoes? {
      PumpKeepsHeld(s, step.p, t);
      return;
    }
    if step.WaiterDoes? {
      if step.w.EnterForward? || step.w.WriteForward? {
        ForwardKeepsHeld(s, step.w, t);
      } else if step.w.Unregister? {
        UnregisterKeepsHeld(s, step.w, t);
      } else {
        WaiterMoves(s, step.w, t);
        MovingKeepsHeld(s, step.w.id, t);
      }
      return;
    }
    if step.PushDoes? {
      PushLeavesHeld(cfg, s, step.u, t);
    } else if step.RefDoes? {
      RefLeavesHeld(s, step.r, t);
    } else {
      RestLeavesHeld(cfg, s, step, t);
    }
    LeavingKeepsHeld(s, t);
  }

  lemma {:induction false} RunsKeepHeld(cfg: Config, s: Sys, steps: seq<Step>)
    requires HeldHolds(s) && Run(cfg, s, steps).Some?
    ensures HeldHolds(Run(cfg, s, steps).value)
    decreases steps
  {
    hide Next, HeldHolds;
    if steps != [] {
      var t := Next(cfg, s, steps[0]).value;
      StepKeepsHeld(cfg, s, steps[0], t);
      RunsKeepHeld(cfg, t, steps[1..]);
    }
  }

  lemma ReachableKeepsHeld(cfg: Config, s: Sys)
    requires Reachable(cfg, s)
    ensures HeldHolds(s)
  {
    hide Run;
    var steps :| Run(cfg, INITIAL, steps) == Some(s);
    RunsKeepHeld(cfg, INITIAL, steps);
  }

  /** A client's request or edit is written to gopls at most once, however its
      waiter and the releasing pump race. */
  lemma WrittenAtMostOnce(cfg: Config, s: Sys, i: nat, j: nat)
    requires Reachable(cfg, s) && i < |s.wire| && j < |s.wire|
    requires (s.wire[i].RequestMsg? || s.wire[i].ChangeMsg?) && s.wire[i] == s.wire[j]
    ensures i == j
  {
    hide Reachable, Placed, OncesRun, NoneLost, WrittenIsForwarded, InOrder;
    ReachableKeepsHeld(cfg, s);
  }

  /** A request is never lost: it is written, or in the pump's hands, or it is held
      and then still registered or being released, with a goroutine that has yet
      to forward it or a pump that is forwarding it. */
  lemma NoRequestIsLost(cfg: Config, s: Sys, id: nat, uri: string)
    requires Reachable(cfg, s) && id < |s.received| && s.received[id] == Request(uri)
    ensures RequestMsg(id) in s.wire
            || InHand(s.pump, id)
            || (id in s.held && s.held[id].uri == uri
                && (id in HeldFor(s.core, uri) || Detaching(s.pump, uri, id))
                && ((id in s.waiters && s.waiters[id] != Leaving) || PumpAt(s.pump, id)))
    ensures RequestMsg(id) in s.wire <==> !InHand(s.pump, id) && (id in s.held ==> s.held[id].once == Ran)
  {
    hide Reachable, InHand, HeldFor, Detaching, PumpAt, WrittenOnce, InOrder;
    ReachableKeepsHeld(cfg, s);
    assert WireOf(s.received, id) == RequestMsg(id);
  }

  /** Every request received before an edit of its document is written to gopls
      before that edit. */
  lemma RequestsPrecedeEdits(cfg: Config, s: Sys, i: nat, id: nat)
    requires Reachable(cfg, s) && i < |s.wire| && s.wire[i].ChangeMsg?
    ensures s.wire[i].id < |s.received| && s.received[s.wire[i].id].Change?
    ensures id < s.wire[i].id && s.received[id] == Request(s.received[s.wire[i].id].uri)
            ==> exists k: nat :: k < i && s.wire[k] == RequestMsg(id)
  {
    hide Reachable, Placed, OncesRun, NoneLost, WrittenOnce, Forwarded;
    ReachableKeepsHeld(cfg, s);
    assert s.wire[i] in s.wire;
    assert NotOvertaken(s.received, s.wire, i);
    if id < s.wire[i].id && s.received[id] == Request(s.received[s.wire[i].id].uri) {
      var k :| 0 <= k < |s.wire[..i]| && s.wire[..i][k] == RequestMsg(id);
      assert s.wire[k] == RequestMsg(id);
    }
  }
}
