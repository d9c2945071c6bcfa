/** The proxy as a step system: one step for each critical section of p.mu and one
    for each write to gopls, taken in any order by the client pump, the server
    pump, the pushers, the eviction loop, the waiting goroutines and the timers. */
module ProxySystem {
  import opened Options
  import opened Strings
  import opened ScopeState

  /** Client messages that matter here, in the order the client pump reads them.
      A Request is one that is held for its file's unit. */
  datatype ClientMsg = Request(uri: string) | Change(uri: string)

  /** What is written to gopls. A configuration answer that is not a non-empty
      array carries no filters. Requests and changes are named by their place in
      the client's order. */
  datatype Wire =
    | InitMsg(filters: seq<string>)
    | ConfigMsg(answer: Option<seq<string>>)
    | ConfigurationChanged(gen: nat)
    | RequestMsg(id: nat)
    | ChangeMsg(id: nat)
    | CrossRefMsg(ref: nat)

  /** Where the client pump stands between two of its steps. */
  datatype Pump =
    | Reading
    | Restored
    | Initializing(filters: seq<string>, gen: nat)
    | Answering(gen: nat, usable: bool)
    | Patched(gen: nat, answer: Option<seq<string>>)
    | Answered(gen: nat, usable: bool)
    | Holding(id: nat, uri: string, unit: string)
    | Inline(id: nat)
    | Releasing(id: nat, uri: string, todo: seq<nat>)
    | Changing(id: nat, uri: string)

  /** heldReq: its sync.Once has not run, is running, or is done. */
  datatype Once = Unused | Running | Ran
  datatype Held = Held(uri: string, unit: string, once: Once)

  /** The goroutine of a held request. */
  datatype Waiter = Checking | Parked(ch: nat) | Forwarding | Writing | Leaving

  /** A goroutine in publishUnitsAndForward. `kept` is ghost: the requested units
      whose scope entries have survived since ensureUnitsLocked. */
  datatype Ref =
    | Needy(kept: set<string>)
    | Pushing(need: nat, kept: set<string>)
    | Awaiting(need: nat, kept: set<string>)
    | Waiting(ch: nat, need: nat, kept: set<string>)
    | Ready(need: nat, kept: set<string>, reached: bool)
    | Finished

  /** A pushScope call, for a debounce timer, an eviction, or a cross-reference. */
  datatype Who = Rescope(id: nat) | ForRef(id: nat)
  datatype Push = Stamped(gen: nat) | Announced(gen: nat)

  datatype Timer = Timer(fireAt: int, delay: int, deadline: int)

  /** appliedFallbackDelay and appliedFallbackCap, in seconds; zero is the default. */
  datatype Config = Config(fallbackDelay: nat, fallbackCap: nat)

  function Delay(cfg: Config): nat {
    if cfg.fallbackDelay == 0 then 10 else cfg.fallbackDelay
  }

  function Cap(cfg: Config): nat {
    if cfg.fallbackCap == 0 then 60 else cfg.fallbackCap
  }

  /** The proxy and everything it has done. `delivered` are the filters last
      written; confirmedGen is the highest generation applied by a written answer
      that carried filters, or by initialize; unconfirmedGen by anything else;
      armed says when each generation's fallback was armed. */
  datatype Sys = Sys(
    core: Core,
    pump: Pump,
    received: seq<ClientMsg>,
    wire: seq<Wire>,
    delivered: Option<seq<string>>,
    held: map<nat, Held>,
    waiters: map<nat, Waiter>,
    refs: map<nat, Ref>,
    pushers: map<Who, Push>,
    timers: map<nat, Timer>,
    now: int,
    confirmedGen: nat,
    unconfirmedGen: nat,
    armed: map<nat, int>)

  const INITIAL: Sys :=
    Sys(EMPTY, Reading, [], [], None, map[], map[], map[], map[], map[], 0, 0, 0, map[])

  function Max(a: nat, b: nat): nat {
    if a < b then b else a
  }

  function Send(s: Sys, m: Wire): Sys {
    s.(wire := s.wire + [m],
       delivered := match m
                    case InitMsg(fs) => Some(fs)
                    case ConfigMsg(Some(fs)) => Some(fs)
                    case _ => s.delivered)
  }

  // ---- the client pump -----------------------------------------------------

  datatype PumpStep =
    | RestoreScope(restored: seq<string>)
    | StampInitial
    | WriteInitialize
    | Answer(configId: string, isArray: bool)
    | PatchAnswer
    | WriteAnswer
    | AdvanceAnswer
    | DidOpen(openUnit: string, openUri: string)
    | DidClose(closeUnit: string, closeUri: string)
    | Ask(askUri: string, askUnit: string)
    | Hold
    | WriteInline
    | DidChange(changeUri: string)
    | EnterHeld
    | WriteHeld
    | SkipHeld
    | EndRelease
    | WriteChange

  /** patchInitialize's sections and write. */
  ghost function InitNext(s: Sys, step: PumpStep): Option<Sys> {
    match (step, s.pump)
    case (RestoreScope(restored), Reading) =>
      Some(s.(core := s.core.(scope := WithUnits(s.core.scope, restored, s.now)), pump := Restored))
    case (StampInitial, Restored) =>
      var stamped := Stamp(s.core);
      Some(s.(core := Advance(stamped, stamped.scopeGen),
              pump := Initializing(Filters(stamped.scope.Keys), stamped.scopeGen)))
    case (WriteInitialize, Initializing(fs, gen)) =>
      Some(Send(s, InitMsg(fs)).(pump := Reading, confirmedGen := Max(s.confirmedGen, gen)))
    case _ => None
  }

  /** handleClientResponse and patchConfigResponse. */
  ghost function AnswerNext(s: Sys, step: PumpStep): Option<Sys> {
    match (step, s.pump)
    case (Answer(id, isArray), Reading) =>
      Some(s.(core := ScopeState.Answered(s.core, id),
              pump := if id in s.core.configIDs then Answering(AnswerGen(s.core, id), isArray) else Reading))
    case (PatchAnswer, Answering(gen, usable)) =>
      Some(s.(pump := Patched(gen, if usable then Some(Filters(s.core.scope.Keys)) else None)))
    case (WriteAnswer, Patched(gen, answer)) =>
      Some(Send(s, ConfigMsg(answer)).(pump := Answered(gen, answer.Some?)))
    case (AdvanceAnswer, Answered(gen, usable)) =>
      Some(s.(core := Advance(s.core, gen), pump := Reading,
              confirmedGen := if usable then Max(s.confirmedGen, gen) else s.confirmedGen,
              unconfirmedGen := if usable then s.unconfirmedGen else Max(s.unconfirmedGen, gen)))
    case _ => None
  }

  /** observeOpen and observeClose; the notifications themselves carry no filters. */
  ghost function DocNext(s: Sys, step: PumpStep): Option<Sys> {
    match (step, s.pump)
    case (DidOpen(unit, uri), Reading) => Some(s.(core := Open(s.core, unit, uri, s.now)))
    case (DidClose(unit, uri), Reading) => Some(s.(core := Close(s.core, unit, uri, s.now)))
    case _ => None
  }

  /** holdForRequestUnit asks this before holding. */
  predicate UnitPending(c: Core, unit: string) {
    unit in c.scope && (c.scope[unit].gen == 0 || c.scope[unit].gen > c.appliedGen)
  }

  /** holdForRequestUnit. */
  ghost function HoldNext(s: Sys, step: PumpStep): Option<Sys> {
    match (step, s.pump)
    case (Ask(uri, unit), Reading) =>
      var id := |s.received|;
      Some(s.(received := s.received + [Request(uri)],
              pump := if UnitPending(s.core, unit) then Holding(id, uri, unit) else Inline(id)))
    case (Hold, Holding(id, uri, unit)) =>
      Some(s.(core := Registered(s.core, uri, id), pump := Reading,
              held := s.held[id := Held(uri, unit, Unused)], waiters := s.waiters[id := Checking]))
    case (WriteInline, Inline(id)) => Some(Send(s, RequestMsg(id)).(pump := Reading))
    case _ => None
  }

  /** releaseHeldDefs, then the change itself. */
  ghost function ReleaseNext(s: Sys, step: PumpStep): Option<Sys> {
    match (step, s.pump)
    case (DidChange(uri), Reading) =>
      Some(s.(received := s.received + [Change(uri)], core := Detached(s.core, uri),
              pump := Releasing(|s.received|, uri, HeldFor(s.core, uri))))
    case (EnterHeld, Releasing(_, _, todo)) =>
      if todo == [] || todo[0] !in s.held || s.held[todo[0]].once != Unused then None
      else Some(s.(held := s.held[todo[0] := s.held[todo[0]].(once := Running)]))
    case (WriteHeld, Releasing(_, _, todo)) =>
      if todo == [] || todo[0] !in s.held || s.held[todo[0]].once != Running || WriterIsWaiter(s, todo[0]) then None
      else Some(Send(s, RequestMsg(todo[0])).(held := s.held[todo[0] := s.held[todo[0]].(once := Ran)],
                                              pump := s.pump.(todo := todo[1..])))
    case (SkipHeld, Releasing(_, _, todo)) =>
      if todo == [] || todo[0] !in s.held || s.held[todo[0]].once != Ran then None
      else Some(s.(pump := s.pump.(todo := todo[1..])))
    case (EndRelease, Releasing(id, uri, todo)) =>
      if todo != [] then None else Some(s.(pump := Changing(id, uri)))
    case (WriteChange, Changing(id, uri)) => Some(Send(s, ChangeMsg(id)).(pump := Reading))
    case _ => None
  }

  /** The waiter, not the pump, is inside this request's sync.Once. */
  predicate WriterIsWaiter(s: Sys, id: nat) {
    id in s.waiters && s.waiters[id] == Writing
  }

  ghost function PumpNext(s: Sys, step: PumpStep): Option<Sys> {
    match step
    case RestoreScope(_) => InitNext(s, step)
    case StampInitial => InitNext(s, step)
    case WriteInitialize => InitNext(s, step)
    case Answer(_, _) => AnswerNext(s, step)
    case PatchAnswer => AnswerNext(s, step)
    case WriteAnswer => AnswerNext(s, step)
    case AdvanceAnswer => AnswerNext(s, step)
    case DidOpen(_, _) => DocNext(s, step)
    case DidClose(_, _) => DocNext(s, step)
    case Ask(_, _) => HoldNext(s, step)
    case Hold => HoldNext(s, step)
    case WriteInline => HoldNext(s, step)
    case _ => ReleaseNext(s, step)
  }

  // ---- pushScope -----------------------------------------------------------

  datatype PushStep = StampScope(who: Who) | Announce(who: Who) | Arm(who: Who)

  ghost function PushNext(cfg: Config, s: Sys, step: PushStep): Option<Sys> {
    match step
    case StampScope(who) =>
      if who in s.pushers || (who.ForRef? && !(who.id in s.refs && s.refs[who.id].Needy?)) then None
      else
        var core := Stamp(s.core);
        Some(s.(core := core, pushers := s.pushers[who := Stamped(core.scopeGen)],
                refs := if who.ForRef? then s.refs[who.id := Pushing(core.scopeGen, s.refs[who.id].kept)] else s.refs))
    case Announce(who) =>
      if who !in s.pushers || !s.pushers[who].Stamped? then None
      else
        var gen := s.pushers[who].gen;
        Some(Send(s, ConfigurationChanged(gen)).(pushers := s.pushers[who := Announced(gen)]))
    case Arm(who) =>
      if who !in s.pushers || !s.pushers[who].Announced? then None
      else
        var gen := s.pushers[who].gen;
        Some(s.(pushers := s.pushers - {who},
                timers := s.timers[gen := Timer(s.now + Delay(cfg), Delay(cfg), s.now + Cap(cfg))],
                armed := s.armed[gen := s.now],
                refs := if who.ForRef? && who.id in s.refs && s.refs[who.id].Pushing?
                        then s.refs[who.id := Awaiting(s.refs[who.id].need, s.refs[who.id].kept)] else s.refs))
  }

  // ---- cross-references ----------------------------------------------------

  datatype RefStep =
    | Ensure(ref: nat, units: seq<string>)
    | PollRef(ref: nat)
    | WakeRef(ref: nat)
    | GiveUpRef(ref: nat)
    | WriteRef(ref: nat)

  ghost function RefNext(s: Sys, step: RefStep): Option<Sys> {
    match step
    case Ensure(r, units) =>
      if r in s.refs then None
      else
        var (core, gen, needPush) := EnsureUnits(s.core, units, s.now);
        var kept := Elements(units);
        Some(s.(core := core,
                refs := s.refs[r := if needPush then Needy(kept) else Awaiting(gen, kept)]))
    case PollRef(r) =>
      if r !in s.refs || !s.refs[r].Awaiting? then None
      else
        var Awaiting(need, kept) := s.refs[r];
        if s.core.appliedGen >= need then Some(s.(refs := s.refs[r := Ready(need, kept, true)]))
        else
          var (core, ch) := AppliedChannel(s.core);
          Some(s.(core := core, refs := s.refs[r := Waiting(ch, need, kept)]))
    case WakeRef(r) =>
      if r !in s.refs || !s.refs[r].Waiting? || s.refs[r].ch !in s.core.closed then None
      else Some(s.(refs := s.refs[r := Awaiting(s.refs[r].need, s.refs[r].kept)]))
    case GiveUpRef(r) =>
      if r !in s.refs || !(s.refs[r].Waiting? || s.refs[r].Awaiting?) then None
      else Some(s.(refs := s.refs[r := Ready(s.refs[r].need, s.refs[r].kept, false)]))
    case WriteRef(r) =>
      if r !in s.refs || !s.refs[r].Ready? then None
      else Some(Send(s, CrossRefMsg(r)).(refs := s.refs[r := Finished]))
  }

  // ---- goroutines of held requests -----------------------------------------

  datatype WaitStep =
    | PollUnit(id: nat)
    | WakeUnit(id: nat)
    | GiveUpUnit(id: nat)
    | EnterForward(id: nat)
    | WriteForward(id: nat)
    | SkipForward(id: nat)
    | Unregister(id: nat)

  ghost function WaitNext(s: Sys, step: WaitStep): Option<Sys> {
    if step.id !in s.waiters || step.id !in s.held then None
    else
      var id, h, w := step.id, s.held[step.id], s.waiters[step.id];
      match step
      case PollUnit(_) =>
        if !w.Checking? then None
        else if UnitApplied(s.core, h.unit) then Some(s.(waiters := s.waiters[id := Forwarding]))
        else
          var (core, ch) := AppliedChannel(s.core);
          Some(s.(core := core, waiters := s.waiters[id := Parked(ch)]))
      case WakeUnit(_) => if !w.Parked? then None else Some(s.(waiters := s.waiters[id := Checking]))
      case GiveUpUnit(_) =>
        if !(w.Parked? || w.Checking?) then None else Some(s.(waiters := s.waiters[id := Forwarding]))
      case EnterForward(_) =>
        if !w.Forwarding? || h.once != Unused then None
        else Some(s.(held := s.held[id := h.(once := Running)], waiters := s.waiters[id := Writing]))
      case WriteForward(_) =>
        if !w.Writing? then None
        else Some(Send(s, RequestMsg(id)).(held := s.held[id := h.(once := Ran)],
                                           waiters := s.waiters[id := Leaving]))
      case SkipForward(_) =>
        if !w.Forwarding? || h.once != Ran then None else Some(s.(waiters := s.waiters[id := Leaving]))
      case Unregister(_) =>
        if !w.Leaving? then None
        else Some(s.(core := Unregistered(s.core, h.uri, id), waiters := s.waiters - {id}))
  }

  // ---- everything ----------------------------------------------------------

  datatype Step =
    | PumpDoes(p: PumpStep)
    | PullArrives(configId: string)
    | PushDoes(u: PushStep)
    | EvictionSweeps(ttl: int)
    | RefDoes(r: RefStep)
    | WaiterDoes(w: WaitStep)
    | FallbackFires(gen: nat)
    | TimePasses(to: int)

  function KeptOf(r: Ref): set<string> {
    if r.Finished? then {} else r.kept
  }

  function Survivors(r: Ref, units: set<string>): Ref {
    if r.Finished? then r else r.(kept := r.kept * units)
  }

  ghost function EvictNext(s: Sys, ttl: int): Sys {
    var core := Evict(s.core, ttl, s.now);
    s.(core := core, refs := map r | r in s.refs :: Survivors(s.refs[r], core.scope.Keys))
  }

  /** The fallback timer of gen fires. */
  function FireNext(s: Sys, gen: nat): Option<Sys> {
    if gen !in s.timers || s.now < s.timers[gen].fireAt then None
    else
      var t := s.timers[gen];
      match FallbackTick(s.core, gen, t.delay, t.deadline, s.now)
      case Done => Some(s.(timers := s.timers - {gen}))
      case Rearm(d) => Some(s.(timers := s.timers[gen := Timer(s.now + d, d, t.deadline)]))
      case Release => Some(s.(timers := s.timers - {gen}, core := Advance(s.core, gen),
                              unconfirmedGen := Max(s.unconfirmedGen, gen)))
  }

  /** Ideal timers: time does not pass an armed timer that has not fired. */
  function TimeNext(s: Sys, to: int): Option<Sys> {
    if to < s.now || exists g <- s.timers :: s.timers[g].fireAt < to then None else Some(s.(now := to))
  }

  /** The state after one step, or None if the step cannot happen now. */
  ghost function Next(cfg: Config, s: Sys, step: Step): Option<Sys> {
    match step
    case PumpDoes(p) => PumpNext(s, p)
    case PullArrives(id) => Some(s.(core := Pulled(s.core, id)))
    case PushDoes(u) => PushNext(cfg, s, u)
    case EvictionSweeps(ttl) => Some(EvictNext(s, ttl))
    case RefDoes(r) => RefNext(s, r)
    case WaiterDoes(w) => WaitNext(s, w)
    case FallbackFires(gen) => FireNext(s, gen)
    case TimePasses(to) => TimeNext(s, to)
  }

  // ---- what the steps of each actor may change -------------------------------

  /** What a step of a cross-reference after ensureUnitsLocked does to it. */
  predicate RefMoves(applied: nat, r: Ref, q: Ref) {
    q.Finished?
    || (!r.Needy? && !r.Pushing? && !r.Finished? && !q.Needy? && !q.Pushing? && q.need == r.need && q.kept == r.kept
        && (q.Ready? && q.reached ==> applied >= q.need))
  }

  lemma RefFrame(s: Sys, step: RefStep, t: Sys)
    requires RefNext(s, step) == Some(t) && !step.Ensure?
    ensures t == s.(core := t.core, refs := t.refs, wire := t.wire)
    ensures t.wire == s.wire || t.wire == s.wire + [CrossRefMsg(step.ref)]
    ensures t.core == s.core || t.core == AppliedChannel(s.core).0
    ensures step.ref in s.refs && step.ref in t.refs && t.refs == s.refs[step.ref := t.refs[step.ref]]
    ensures RefMoves(s.core.appliedGen, s.refs[step.ref], t.refs[step.ref])
  {
    hide AppliedChannel;
    var r := step.ref;
    var ref := s.refs[r];
    match step
    case PollRef(_) =>
      if s.core.appliedGen >= ref.need {
        assert t == s.(refs := s.refs[r := Ready(ref.need, ref.kept, true)]);
      } else {
        var (core, ch) := AppliedChannel(s.core);
        assert t == s.(core := core, refs := s.refs[r := Waiting(ch, ref.need, ref.kept)]);
      }
    case WakeRef(_) => assert t == s.(refs := s.refs[r := Awaiting(ref.need, ref.kept)]);
    case GiveUpRef(_) => assert t == s.(refs := s.refs[r := Ready(ref.need, ref.kept, false)]);
    case WriteRef(_) => assert t == s.(refs := s.refs[r := Finished], wire := s.wire + [CrossRefMsg(r)]);
  }

  lemma EnsureFrame(s: Sys, step: RefStep, t: Sys)
    requires RefNext(s, step) == Some(t) && step.Ensure?
    ensures var (core, gen, needPush) := EnsureUnits(s.core, step.units, s.now);
            var kept := Elements(step.units);
            step.ref !in s.refs
            && t == s.(core := core, refs := s.refs[step.ref := if needPush then Needy(kept) else Awaiting(gen, kept)])
  {
    hide EnsureUnits, Elements;
  }

  lemma ChannelFrame(c: Core)
    ensures var d := AppliedChannel(c).0; d == c.(appliedCh := d.appliedCh, nextCh := d.nextCh)
  {
  }

  lemma FireFrame(s: Sys, gen: nat, t: Sys)
    requires FireNext(s, gen) == Some(t)
    ensures gen in s.timers
    ensures t == s.(timers := t.timers, core := t.core, unconfirmedGen := t.unconfirmedGen)
    ensures (t.core == s.core && t.unconfirmedGen == s.unconfirmedGen)
            || (t.core == Advance(s.core, gen) && t.unconfirmedGen == Max(s.unconfirmedGen, gen))
  {
    hide FallbackTick, Advance, Max;
    var tm := s.timers[gen];
    match FallbackTick(s.core, gen, tm.delay, tm.deadline, s.now)
    case Done => assert t == s.(timers := s.timers - {gen});
    case Rearm(d) => assert t == s.(timers := s.timers[gen := Timer(s.now + d, d, tm.deadline)]);
    case Release =>
      assert t == s.(timers := s.timers - {gen}, core := Advance(s.core, gen),
                     unconfirmedGen := Max(s.unconfirmedGen, gen));
  }

  lemma FireTimers(s: Sys, gen: nat, t: Sys)
    requires FireNext(s, gen) == Some(t)
    ensures forall g <- t.timers :: g in s.timers
  {
    hide FallbackTick, Advance, Max;
  }

  lemma UnregisteredFrame(c: Core, uri: string, id: nat)
    ensures var d := Unregistered(c, uri, id); d == c.(heldDefs := d.heldDefs)
  {
  }

  /** A waiting goroutine changes no scope entry and no generation. */
  lemma WaitCore(s: Sys, step: WaitStep, t: Sys)
    requires WaitNext(s, step) == Some(t)
    ensures t == s.(core := t.core, held := t.held, waiters := t.waiters, wire := t.wire)
    ensures t.wire == s.wire || t.wire == s.wire + [RequestMsg(step.id)]
    ensures t.core == s.core.(appliedCh := t.core.appliedCh, nextCh := t.core.nextCh, heldDefs := t.core.heldDefs)
  {
    hide WaitNext, AppliedChannel, Unregistered;
    WaitFrame(s, step, t);
    ChannelFrame(s.core);
    if step.id in s.held {
      UnregisteredFrame(s.core, s.held[step.id].uri, step.id);
    }
  }

  lemma WaitFrame(s: Sys, step: WaitStep, t: Sys)
    requires WaitNext(s, step) == Some(t)
    ensures t == s.(core := t.core, held := t.held, waiters := t.waiters, wire := t.wire)
    ensures t.wire == s.wire || t.wire == s.wire + [RequestMsg(step.id)]
    ensures t.core == s.core || t.core == AppliedChannel(s.core).0
            || (step.id in s.held && t.core == Unregistered(s.core, s.held[step.id].uri, step.id))
  {
    hide UnitApplied, AppliedChannel, Unregistered;
    var id, h := step.id, s.held[step.id];
    match step
    case PollUnit(_) =>
      if UnitApplied(s.core, h.unit) {
        assert t == s.(waiters := s.waiters[id := Forwarding]);
      } else {
        var (core, ch) := AppliedChannel(s.core);
        assert t == s.(core := core, waiters := s.waiters[id := Parked(ch)]);
      }
    case WakeUnit(_) => assert t == s.(waiters := s.waiters[id := Checking]);
    case GiveUpUnit(_) => assert t == s.(waiters := s.waiters[id := Forwarding]);
    case EnterForward(_) =>
      assert t == s.(held := s.held[id := h.(once := Running)], waiters := s.waiters[id := Writing]);
    case WriteForward(_) =>
      assert t == s.(held := s.held[id := h.(once := Ran)], waiters := s.waiters[id := Leaving],
                     wire := s.wire + [RequestMsg(id)]);
    case SkipForward(_) => assert t == s.(waiters := s.waiters[id := Leaving]);
    case Unregister(_) => assert t == s.(core := Unregistered(s.core, h.uri, id), waiters := s.waiters - {id});
  }

  lemma StepCases(cfg: Config, s: Sys, step: Step, t: Sys)
    requires Next(cfg, s, step) == Some(t)
    ensures match step
            case PumpDoes(p) => PumpNext(s, p) == Some(t)
            case PullArrives(id) => t == s.(core := Pulled(s.core, id))
            case PushDoes(u) => PushNext(cfg, s, u) == Some(t)
            case EvictionSweeps(ttl) => t == EvictNext(s, ttl)
            case RefDoes(r) => RefNext(s, r) == Some(t)
            case WaiterDoes(w) => WaitNext(s, w) == Some(t)
            case FallbackFires(gen) => FireNext(s, gen) == Some(t)
            case TimePasses(to) => t == s.(now := to)
  {
    hide PumpNext, PushNext, RefNext, WaitNext, FireNext, Pulled, EvictNext;
  }

  lemma PumpCases(s: Sys, step: PumpStep, t: Sys)
    requires PumpNext(s, step) == Some(t)
    ensures InitNext(s, step) == Some(t) || AnswerNext(s, step) == Some(t) || DocNext(s, step) == Some(t)
            || HoldNext(s, step) == Some(t) || ReleaseNext(s, step) == Some(t)
  {
    hide InitNext, AnswerNext, DocNext, HoldNext, ReleaseNext;
  }

  // ---- steps that leave the barrier alone ----------------------------------

  /** The pump is not carrying filters or their confirmation. */
  predicate Elsewhere(p: Pump) {
    !p.Initializing? && !p.Answering? && !p.Patched? && !p.Answered?
  }

  predicate HasFilters(m: Wire) {
    m.InitMsg? || (m.ConfigMsg? && m.answer.Some?)
  }

  /** At most one message more, with no filters. */
  ghost predicate AddsNoFilters(before: seq<Wire>, after: seq<Wire>) {
    after == before || (|after| == |before| + 1 && after[..|before|] == before && !HasFilters(after[|before|]))
  }

  /** New entries are unpublished and published ones keep their generation. */
  ghost predicate SameGenerations(c: Core, d: Core) {
    && d.scopeGen == c.scopeGen && d.appliedGen == c.appliedGen
    && (forall u <- c.scope :: u in d.scope)
    && (forall u <- d.scope :: d.scope[u].gen == if u in c.scope then c.scope[u].gen else 0)
    && (forall id <- d.configGens ::
          (id in c.configGens && d.configGens[id] == c.configGens[id]) || d.configGens[id] <= c.scopeGen)
  }

  /** What most steps do: no generation is stamped, applied or confirmed, and no
      filters are written. */
  ghost predicate Aside(s: Sys, t: Sys) {
    && SameGenerations(s.core, t.core)
    && t.delivered == s.delivered && AddsNoFilters(s.wire, t.wire)
    && t.confirmedGen == s.confirmedGen && t.unconfirmedGen == s.unconfirmedGen
    && t.timers == s.timers && t.armed == s.armed && t.pushers == s.pushers && t.now == s.now
    && (t.pump == s.pump || (Elsewhere(s.pump) && Elsewhere(t.pump)))
  }

  lemma DocIsAside(s: Sys, step: PumpStep, t: Sys)
    requires DocNext(s, step) == Some(t)
    ensures Aside(s, t) && t.refs == s.refs
  {
  }

  lemma HoldIsAside(s: Sys, step: PumpStep, t: Sys)
    requires HoldNext(s, step) == Some(t)
    ensures Aside(s, t) && t.refs == s.refs
  {
    hide UnitPending;
  }

  lemma ReleaseIsAside(s: Sys, step: PumpStep, t: Sys)
    requires ReleaseNext(s, step) == Some(t)
    ensures Aside(s, t) && t.refs == s.refs
  {
    hide WriterIsWaiter;
  }

  lemma WaitIsAside(s: Sys, step: WaitStep, t: Sys)
    requires WaitNext(s, step) == Some(t)
    ensures Aside(s, t) && t.refs == s.refs
  {
    hide WaitNext;
    WaitCore(s, step, t);
  }

  lemma PullIsAside(s: Sys, id: string)
    ensures Aside(s, s.(core := Pulled(s.core, id)))
  {
  }

  lemma RefIsAside(s: Sys, step: RefStep, t: Sys)
    requires RefNext(s, step) == Some(t)
    ensures Aside(s, t)
  {
    hide RefNext, EnsureUnits, AppliedChannel, RefMoves, Elements;
    if step.Ensure? {
      EnsureFrame(s, step, t);
      EnsureUnitsIsEnough(s.core, step.units, s.now);
    } else {
      RefFrame(s, step, t);
      ChannelFrame(s.core);
    }
  }

  /** Every other step is initialize, an answer, a push, a fallback, an eviction or
      the passing of time. */
  lemma AsideCases(cfg: Config, s: Sys, step: Step, t: Sys)
    requires Next(cfg, s, step) == Some(t)
    ensures match step
            case PumpDoes(p) =>
              (Aside(s, t) && t.refs == s.refs) || InitNext(s, p) == Some(t) || AnswerNext(s, p) == Some(t)
            case PullArrives(_) => Aside(s, t) && t.refs == s.refs
            case PushDoes(u) => PushNext(cfg, s, u) == Some(t)
            case EvictionSweeps(ttl) => t == EvictNext(s, ttl)
            case RefDoes(r) => Aside(s, t) && RefNext(s, r) == Some(t)
            case WaiterDoes(_) => Aside(s, t) && t.refs == s.refs
            case FallbackFires(gen) => FireNext(s, gen) == Some(t)
            case TimePasses(to) => t == s.(now := to)
  {
    hide *;
    StepCases(cfg, s, step, t);
    match step {
      case PumpDoes(p) =>
        PumpCases(s, p, t);
        if DocNext(s, p) == Some(t) {
          DocIsAside(s, p, t);
        } else if HoldNext(s, p) == Some(t) {
          HoldIsAside(s, p, t);
        } else if ReleaseNext(s, p) == Some(t) {
          ReleaseIsAside(s, p, t);
        }
      case PullArrives(id) => PullIsAside(s, id);
      case RefDoes(r) => RefIsAside(s, r, t);
      case WaiterDoes(w) => WaitIsAside(s, w, t);
      case _ =>
    }
  }

  ghost function Run(cfg: Config, s: Sys, steps: seq<Step>): Option<Sys>
    decreases steps
  {
    if steps == [] then Some(s)
    else match Next(cfg, s, steps[0])
      case None => None
      case Some(t) => Run(cfg, t, steps[1..])
  }

  /** s is the end of some run of the proxy. */
  ghost predicate Reachable(cfg: Config, s: Sys) {
    exists steps :: Run(cfg, INITIAL, steps) == Some(s)
  }

  lemma {:induction false} RunsExtend(cfg: Config, s: Sys, steps: seq<Step>, step: Step)
    requires Run(cfg, s, steps).Some?
    ensures Run(cfg, s, steps + [step]) == Next(cfg, Run(cfg, s, steps).value, step)
    decreases steps
  {
    hide Next;
    if steps == [] {
      var after := Next(cfg, s, step);
      assert after.Some? ==> Run(cfg, after.value, []) == after;
    } else {
      assert (steps + [step])[1..] == steps[1..] + [step];
      RunsExtend(cfg, Next(cfg, s, steps[0]).value, steps[1..], step);
    }
  }

  lemma StepReaches(cfg: Config, s: Sys, step: Step, t: Sys)
    requires Reachable(cfg, s) && Next(cfg, s, step) == Some(t)
    ensures Reachable(cfg, t)
  {
    hide Next, Run;
    var steps :| Run(cfg, INITIAL, steps) == Some(s);
    RunsExtend(cfg, INITIAL, steps, step);
  }

  lemma InitialIsReachable(cfg: Config)
    ensures Reachable(cfg, INITIAL)
  {
    assert Run(cfg, INITIAL, []) == Some(INITIAL);
  }
}
