/** The generation barrier over every run: what a unit's generation promises about
    the filters gopls has been given. */
module BarrierProofs {
  import opened Options
  import opened Strings
  import opened ScopeState
  import opened ProxySystem

  // ---- generations ---------------------------------------------------------

  function PumpGen(p: Pump): nat {
    match p
    case Initializing(_, gen) => gen
    case Answering(gen, _) => gen
    case Patched(gen, _) => gen
    case Answered(gen, _) => gen
    case _ => 0
  }

  function RefGen(r: Ref): nat {
    if r.Needy? || r.Finished? then 0 else r.need
  }

  ghost predicate CoreBounded(c: Core) {
    && (forall u <- c.scope :: c.scope[u].gen <= c.scopeGen)
    && (forall id <- c.configGens :: c.configGens[id] <= c.scopeGen)
    && c.appliedGen <= c.scopeGen
  }

  ghost predicate PushersBounded(pushers: map<Who, Push>, top: nat) {
    forall w <- pushers :: pushers[w].gen <= top
  }

  ghost predicate TimersBounded(timers: map<nat, Timer>, top: nat) {
    forall g <- timers :: g <= top
  }

  ghost predicate RefsBounded(refs: map<nat, Ref>, top: nat) {
    forall r <- refs :: RefGen(refs[r]) <= top
  }

  /** No generation in use is ahead of scopeGen. */
  ghost predicate Bounded(s: Sys) {
    var top := s.core.scopeGen;
    && CoreBounded(s.core) && PumpGen(s.pump) <= top
    && PushersBounded(s.pushers, top) && TimersBounded(s.timers, top) && RefsBounded(s.refs, top)
  }

  /** The applied generation is the highest one applied with or without
      confirmation; while initialize is being written it may be ahead of both. */
  ghost predicate AppliedIsAccounted(s: Sys) {
    var sum := Max(s.confirmedGen, s.unconfirmedGen);
    s.core.appliedGen == if s.pump.Initializing? then Max(sum, s.pump.gen) else sum
  }

  lemma StampBounds(c: Core)
    ensures Stamp(c).scope.Keys == c.scope.Keys && Stamp(c).scopeGen == c.scopeGen + 1
    ensures Stamp(c) == c.(scope := Stamp(c).scope, scopeGen := c.scopeGen + 1)
    ensures forall u <- c.scope ::
              Stamp(c).scope[u].gen == if c.scope[u].gen == 0 then c.scopeGen + 1 else c.scope[u].gen
  {
  }

  lemma InitKeepsBounds(s: Sys, step: PumpStep, t: Sys)
    requires Bounded(s) && AppliedIsAccounted(s) && InitNext(s, step) == Some(t)
    ensures Bounded(t) && AppliedIsAccounted(t)
  {
    hide WithUnits, Filters, Stamp;
    match step
    case RestoreScope(restored) => WithUnitsHolds(s.core.scope, restored, s.now);
    case StampInitial => StampBounds(s.core);
    case _ =>
  }

  lemma AnswerKeepsBounds(s: Sys, step: PumpStep, t: Sys)
    requires Bounded(s) && AppliedIsAccounted(s) && AnswerNext(s, step) == Some(t)
    ensures Bounded(t) && AppliedIsAccounted(t)
  {
    hide Filters, PushersBounded, TimersBounded, RefsBounded;
  }

  lemma PushKeepsBounds(cfg: Config, s: Sys, step: PushStep, t: Sys)
    requires Bounded(s) && AppliedIsAccounted(s) && PushNext(cfg, s, step) == Some(t)
    ensures Bounded(t) && AppliedIsAccounted(t)
  {
    hide Stamp;
    StampBounds(s.core);
  }

  lemma AsideKeepsBounds(s: Sys, t: Sys)
    requires Bounded(s) && AppliedIsAccounted(s) && Aside(s, t) && RefsBounded(t.refs, s.core.scopeGen)
    ensures Bounded(t) && AppliedIsAccounted(t)
  {
    hide PushersBounded, TimersBounded, RefsBounded, AddsNoFilters;
  }

  lemma RefKeepsBounds(s: Sys, step: RefStep, t: Sys)
    requires Bounded(s) && RefNext(s, step) == Some(t)
    ensures RefsBounded(t.refs, s.core.scopeGen)
  {
    hide RefNext, EnsureUnits, Elements, AppliedChannel, PushersBounded, TimersBounded;
    if step.Ensure? {
      EnsureFrame(s, step, t);
      EnsureUnitsIsEnough(s.core, step.units, s.now);
    } else {
      RefFrame(s, step, t);
    }
  }

  lemma FireKeepsBounds(s: Sys, gen: nat, t: Sys)
    requires Bounded(s) && AppliedIsAccounted(s) && FireNext(s, gen) == Some(t)
    ensures Bounded(t) && AppliedIsAccounted(t)
  {
    hide PushersBounded, RefsBounded, CoreBounded, FireNext;
    FireFrame(s, gen, t);
    FireTimers(s, gen, t);
    assert CoreBounded(t.core) by {
      AdvanceKeepsBound(s.core, gen, s.timers);
    }
  }

  lemma AdvanceKeepsBound(c: Core, gen: nat, timers: map<nat, Timer>)
    requires CoreBounded(c) && TimersBounded(timers, c.scopeGen)
    ensures gen in timers ==> CoreBounded(Advance(c, gen))
  {
  }

  lemma TimeKeepsBounds(s: Sys, to: int)
    requires Bounded(s) && AppliedIsAccounted(s)
    ensures Bounded(s.(now := to)) && AppliedIsAccounted(s.(now := to))
  {
    hide CoreBounded, PushersBounded, TimersBounded, RefsBounded;
  }

  lemma EvictionKeepsBounds(s: Sys, ttl: int)
    requires Bounded(s) && AppliedIsAccounted(s)
    ensures Bounded(EvictNext(s, ttl)) && AppliedIsAccounted(EvictNext(s, ttl))
  {
    hide PushersBounded, TimersBounded;
  }

  lemma StepKeepsBounds(cfg: Config, s: Sys, step: Step, t: Sys)
    requires Bounded(s) && AppliedIsAccounted(s) && Next(cfg, s, step) == Some(t)
    ensures Bounded(t) && AppliedIsAccounted(t)
  {
    hide *;
    AsideCases(cfg, s, step, t);
    if Aside(s, t) && (t.refs == s.refs || step.RefDoes?) {
      if step.RefDoes? {
        RefKeepsBounds(s, step.r, t);
      } else {
        RefsAreBounded(s);
      }
      AsideKeepsBounds(s, t);
      return;
    }
    match step {
      case PumpDoes(p) =>
        if InitNext(s, p) == Some(t) {
          InitKeepsBounds(s, p, t);
        } else {
          AnswerKeepsBounds(s, p, t);
        }
      case PushDoes(u) => PushKeepsBounds(cfg, s, u, t);
      case EvictionSweeps(ttl) => EvictionKeepsBounds(s, ttl);
      case FallbackFires(gen) => FireKeepsBounds(s, gen, t);
      case TimePasses(to) => TimeKeepsBounds(s, to);
    }
  }

  lemma RefsAreBounded(s: Sys)
    requires Bounded(s)
    ensures RefsBounded(s.refs, s.core.scopeGen)
  {
    hide CoreBounded, PushersBounded, TimersBounded, RefsBounded;
  }

  // ---- coverage ------------------------------------------------------------

  /** Every unit in scope published by generation gen is covered by filters. */
  ghost predicate CoversUpTo(scope: Scope, gen: nat, filters: seq<string>) {
    forall u <- scope :: 0 < scope[u].gen <= gen ==> Covers(filters, u)
  }

  ghost predicate DeliveredUpTo(s: Sys, gen: nat) {
    gen > 0 ==> s.delivered.Some? && CoversUpTo(s.core.scope, gen, s.delivered.value)
  }

  /** Filters on their way to gopls cover what they are about to confirm, and the
      filters last written cover everything confirmed so far. */
  ghost predicate Covered(s: Sys) {
    && DeliveredUpTo(s, s.confirmedGen)
    && match s.pump
       case Initializing(fs, gen) => CoversUpTo(s.core.scope, Max(s.confirmedGen, gen), fs)
       case Patched(gen, Some(fs)) => CoversUpTo(s.core.scope, Max(s.confirmedGen, gen), fs)
       case Answered(gen, true) => DeliveredUpTo(s, Max(s.confirmedGen, gen))
       case _ => true
  }

  /** A scope change after which every entry published by generation gen was there
      before with the same generation. */
  ghost predicate Extends(before: Scope, after: Scope, gen: nat) {
    forall u <- after :: 0 < after[u].gen <= gen ==> u in before && before[u].gen == after[u].gen
  }

  /** What every step but the pump's own barrier steps does. */
  ghost predicate LeavesBarrier(s: Sys, t: Sys) {
    && Extends(s.core.scope, t.core.scope, s.core.scopeGen)
    && t.delivered == s.delivered && t.confirmedGen == s.confirmedGen
    && (t.pump == s.pump || !(t.pump.Initializing? || t.pump.Patched? || t.pump.Answered?))
  }

  lemma LeavingKeepsCovered(s: Sys, t: Sys)
    requires Covered(s) && Bounded(s) && AppliedIsAccounted(s) && LeavesBarrier(s, t)
    ensures Covered(t)
  {
    hide Covers;
  }

  lemma CurrentFiltersCover(scope: Scope, gen: nat)
    ensures CoversUpTo(scope, gen, Filters(scope.Keys))
  {
    hide Filters, Covers;
    forall u | u in scope ensures Covers(Filters(scope.Keys), u) {
      FiltersCoverScope(scope.Keys, u);
    }
  }

  lemma InitKeepsCovered(s: Sys, step: PumpStep, t: Sys)
    requires Covered(s) && Bounded(s) && AppliedIsAccounted(s) && InitNext(s, step) == Some(t)
    ensures Covered(t)
  {
    hide WithUnits, Filters, Stamp, Covers;
    match step
    case RestoreScope(restored) => WithUnitsHolds(s.core.scope, restored, s.now);
    case StampInitial =>
      StampBounds(s.core);
      CurrentFiltersCover(t.core.scope, Max(s.confirmedGen, t.pump.gen));
    case _ =>
  }

  lemma AnswerKeepsCovered(s: Sys, step: PumpStep, t: Sys)
    requires Covered(s) && Bounded(s) && AppliedIsAccounted(s) && AnswerNext(s, step) == Some(t)
    ensures Covered(t)
  {
    hide Filters, Covers;
    if step.PatchAnswer? {
      CurrentFiltersCover(s.core.scope, Max(s.confirmedGen, t.pump.gen));
    }
  }

  lemma AsideLeavesBarrier(s: Sys, t: Sys)
    requires Aside(s, t)
    ensures LeavesBarrier(s, t)
  {
    hide AddsNoFilters;
  }

  lemma PushLeavesBarrier(cfg: Config, s: Sys, step: PushStep, t: Sys)
    requires PushNext(cfg, s, step) == Some(t)
    ensures LeavesBarrier(s, t)
  {
    hide Stamp;
    StampBounds(s.core);
  }

  lemma FireLeavesBarrier(s: Sys, gen: nat, t: Sys)
    requires FireNext(s, gen) == Some(t)
    ensures LeavesBarrier(s, t)
  {
    hide FireNext;
    FireFrame(s, gen, t);
  }

  lemma TimeLeavesBarrier(s: Sys, to: int)
    ensures LeavesBarrier(s, s.(now := to))
  {
  }

  lemma EvictionLeavesBarrier(s: Sys, ttl: int)
    ensures LeavesBarrier(s, EvictNext(s, ttl))
  {
    hide Survivors;
  }

  lemma StepKeepsCovered(cfg: Config, s: Sys, step: Step, t: Sys)
    requires Covered(s) && Bounded(s) && AppliedIsAccounted(s) && Next(cfg, s, step) == Some(t)
    ensures Covered(t)
  {
    hide *;
    AsideCases(cfg, s, step, t);
    if Aside(s, t) {
      AsideLeavesBarrier(s, t);
    } else if step.PumpDoes? {
      if InitNext(s, step.p) == Some(t) {
        InitKeepsCovered(s, step.p, t);
      } else {
        AnswerKeepsCovered(s, step.p, t);
      }
      return;
    } else if step.PushDoes? {
      PushLeavesBarrier(cfg, s, step.u, t);
    } else if step.EvictionSweeps? {
      EvictionLeavesBarrier(s, step.ttl);
    } else if step.FallbackFires? {
      FireLeavesBarrier(s, step.gen, t);
    } else {
      TimeLeavesBarrier(s, step.to);
    }
    LeavingKeepsCovered(s, t);
  }

  // ---- cross-references ----------------------------------------------------

  /** Every kept unit is in scope; once the push it needed is stamped, it is
      published no later than the generation waited for. */
  ghost predicate RefKeeps(c: Core, r: Ref) {
    && KeptOf(r) <= c.scope.Keys
    && (r.Pushing? || r.Awaiting? || r.Waiting? || r.Ready? ==>
          forall u <- KeptOf(r) :: 0 < c.scope[u].gen <= r.need)
    && (r.Ready? && r.reached ==> c.appliedGen >= r.need)
  }

  ghost predicate RefsKeep(s: Sys) {
    forall id <- s.refs :: RefKeeps(s.core, s.refs[id])
  }

  /** A change of p.mu's state that publishes or adds but evicts nothing. */
  ghost predicate Grows(c: Core, d: Core) {
    && c.scope.Keys <= d.scope.Keys && c.appliedGen <= d.appliedGen
    && forall u <- c.scope :: c.scope[u].gen > 0 ==> d.scope[u].gen == c.scope[u].gen
  }

  lemma GrowthKeepsRefs(s: Sys, t: Sys)
    requires RefsKeep(s) && Grows(s.core, t.core) && t.refs == s.refs
    ensures RefsKeep(t)
  {
    forall id | id in t.refs ensures RefKeeps(t.core, t.refs[id]) {
      assert RefKeeps(s.core, s.refs[id]);
    }
  }

  lemma AsideGrows(s: Sys, t: Sys)
    requires Aside(s, t)
    ensures Grows(s.core, t.core)
  {
    hide AddsNoFilters;
  }

  lemma InitGrows(s: Sys, step: PumpStep, t: Sys)
    requires InitNext(s, step) == Some(t)
    ensures Grows(s.core, t.core) && t.refs == s.refs
  {
    hide WithUnits, Filters, Stamp;
    match step
    case RestoreScope(restored) => WithUnitsHolds(s.core.scope, restored, s.now);
    case StampInitial => StampBounds(s.core);
    case _ =>
  }

  lemma AnswerGrows(s: Sys, step: PumpStep, t: Sys)
    requires AnswerNext(s, step) == Some(t)
    ensures Grows(s.core, t.core) && t.refs == s.refs
  {
    hide Filters;
  }

  lemma PushKeepsRefs(cfg: Config, s: Sys, step: PushStep, t: Sys)
    requires RefsKeep(s) && Bounded(s) && PushNext(cfg, s, step) == Some(t)
    ensures RefsKeep(t)
  {
    hide Stamp;
    StampBounds(s.core);
    forall id | id in t.refs ensures RefKeeps(t.core, t.refs[id]) {
      assert RefKeeps(s.core, s.refs[id]);
    }
  }

  lemma EnsureKeeps(c: Core, units: seq<string>, now: int)
    ensures var (d, gen, needPush) := EnsureUnits(c, units, now);
            && Grows(c, d)
            && RefKeeps(d, if needPush then Needy(Elements(units)) else Awaiting(gen, Elements(units)))
  {
    hide EnsureUnits;
    EnsureUnitsIsEnough(c, units, now);
  }

  /** A waiting reference keeps its promise through growth and its own moves. */
  lemma RefGrowth(c: Core, d: Core, r: Ref, q: Ref)
    requires RefKeeps(c, r) && Grows(c, d)
    requires q == r || RefMoves(c.appliedGen, r, q)
    ensures RefKeeps(d, q)
  {
  }

  lemma ChannelGrows(c: Core)
    ensures Grows(c, c) && Grows(c, AppliedChannel(c).0)
  {
  }

  lemma RefStepKeepsRefs(s: Sys, step: RefStep, t: Sys)
    requires RefsKeep(s) && RefNext(s, step) == Some(t)
    ensures RefsKeep(t)
  {
    hide RefNext, EnsureUnits, AppliedChannel, Elements, RefKeeps, Grows, RefMoves;
    if step.Ensure? {
      EnsureFrame(s, step, t);
      EnsureKeeps(s.core, step.units, s.now);
    } else {
      RefFrame(s, step, t);
      ChannelGrows(s.core);
    }
    forall id | id in t.refs ensures RefKeeps(t.core, t.refs[id]) {
      if id in s.refs {
        assert RefKeeps(s.core, s.refs[id]);
        RefGrowth(s.core, t.core, s.refs[id], t.refs[id]);
      }
    }
  }

  lemma EvictionKeepsRefs(s: Sys, ttl: int)
    requires RefsKeep(s)
    ensures RefsKeep(EvictNext(s, ttl))
  {
    var t := EvictNext(s, ttl);
    forall id | id in t.refs ensures RefKeeps(t.core, t.refs[id]) {
      assert RefKeeps(s.core, s.refs[id]);
    }
  }

  lemma FireGrows(s: Sys, gen: nat, t: Sys)
    requires FireNext(s, gen) == Some(t)
    ensures Grows(s.core, t.core) && t.refs == s.refs
  {
    hide FireNext;
    FireFrame(s, gen, t);
  }

  lemma StepKeepsRefs(cfg: Config, s: Sys, step: Step, t: Sys)
    requires RefsKeep(s) && Bounded(s) && Next(cfg, s, step) == Some(t)
    ensures RefsKeep(t)
  {
    hide *;
    AsideCases(cfg, s, step, t);
    if step.RefDoes? {
      RefStepKeepsRefs(s, step.r, t);
    } else if step.PushDoes? {
      PushKeepsRefs(cfg, s, step.u, t);
    } else if step.EvictionSweeps? {
      EvictionKeepsRefs(s, step.ttl);
    } else {
      SameRefs(cfg, s, step, t);
      StepGrows(cfg, s, step, t);
      GrowthKeepsRefs(s, t);
    }
  }

  lemma SameRefs(cfg: Config, s: Sys, step: Step, t: Sys)
    requires Next(cfg, s, step) == Some(t) && !step.RefDoes? && !step.PushDoes? && !step.EvictionSweeps?
    ensures t.refs == s.refs
  {
    hide *;
    AsideCases(cfg, s, step, t);
    if step.FallbackFires? {
      FireGrows(s, step.gen, t);
    } else if step.PumpDoes? {
      if InitNext(s, step.p) == Some(t) {
        InitGrows(s, step.p, t);
      } else if AnswerNext(s, step.p) == Some(t) {
        AnswerGrows(s, step.p, t);
      }
    }
  }

  lemma PushGrows(cfg: Config, s: Sys, step: PushStep, t: Sys)
    requires PushNext(cfg, s, step) == Some(t)
    ensures Grows(s.core, t.core)
  {
    hide Stamp;
    StampBounds(s.core);
  }

  lemma RefGrows(s: Sys, step: RefStep, t: Sys)
    requires RefNext(s, step) == Some(t)
    ensures Grows(s.core, t.core)
  {
    hide RefNext, EnsureUnits, AppliedChannel, Elements, RefKeeps, Grows, RefMoves;
    if step.Ensure? {
      EnsureFrame(s, step, t);
      EnsureKeeps(s.core, step.units, s.now);
    } else {
      RefFrame(s, step, t);
      ChannelGrows(s.core);
    }
  }

  /** Only an eviction takes a unit out of scope, and none changes a unit's generation. */
  lemma StepGrows(cfg: Config, s: Sys, step: Step, t: Sys)
    requires Next(cfg, s, step) == Some(t) && !step.EvictionSweeps?
    ensures Grows(s.core, t.core)
  {
    hide *;
    AsideCases(cfg, s, step, t);
    if step.RefDoes? {
      RefGrows(s, step.r, t);
    } else if step.PushDoes? {
      PushGrows(cfg, s, step.u, t);
    } else if Aside(s, t) && t.refs == s.refs {
      AsideGrows(s, t);
    } else if step.FallbackFires? {
      FireGrows(s, step.gen, t);
    } else if step.TimePasses? {
      ChannelGrows(s.core);
    } else if InitNext(s, step.p) == Some(t) {
      InitGrows(s, step.p, t);
    } else {
      AnswerGrows(s, step.p, t);
    }
  }

  // ---- over every run ------------------------------------------------------

  ghost predicate BarrierHolds(s: Sys) {
    Bounded(s) && AppliedIsAccounted(s) && Covered(s) && RefsKeep(s)
  }

  lemma BarrierBounds(s: Sys)
    requires BarrierHolds(s)
    ensures Bounded(s) && CoreBounded(s.core)
  {
    hide CoreBounded, AppliedIsAccounted, Covered, RefsKeep;
  }

  lemma StepKeepsBarrier(cfg: Config, s: Sys, step: Step, t: Sys)
    requires BarrierHolds(s) && Next(cfg, s, step) == Some(t)
    ensures BarrierHolds(t)
  {
    hide Next, Bounded, AppliedIsAccounted, Covered, RefsKeep;
    StepKeepsBounds(cfg, s, step, t);
    StepKeepsCovered(cfg, s, step, t);
    StepKeepsRefs(cfg, s, step, t);
  }

  lemma {:induction false} RunsKeepBarrier(cfg: Config, s: Sys, steps: seq<Step>)
    requires BarrierHolds(s) && Run(cfg, s, steps).Some?
    ensures BarrierHolds(Run(cfg, s, steps).value)
    decreases steps
  {
    hide Next, BarrierHolds;
    if steps != [] {
      var t := Next(cfg, s, steps[0]).value;
      StepKeepsBarrier(cfg, s, steps[0], t);
      RunsKeepBarrier(cfg, t, steps[1..]);
    }
  }

  lemma ReachableKeepsBarrier(cfg: Config, s: Sys)
    requires Reachable(cfg, s)
    ensures BarrierHolds(s)
  {
    hide Run;
    var steps :| Run(cfg, INITIAL, steps) == Some(s);
    RunsKeepBarrier(cfg, INITIAL, steps);
  }

  /** Barrier soundness: in every reachable state the filters last written to gopls
      cover every unit in scope whose generation has been confirmed. */
  lemma BarrierIsSound(cfg: Config, s: Sys, unit: string)
    requires Reachable(cfg, s)
    requires unit in s.core.scope && 0 < s.core.scope[unit].gen <= s.confirmedGen
    ensures s.delivered.Some? && Covers(s.delivered.value, unit)
  {
    hide Reachable, Covers;
    ReachableKeepsBarrier(cfg, s);
  }

  /** A unit a waiter finds applied is covered once its generation is confirmed; until
      then a timer or an unusable answer released it, or initialize, which carries
      its filters, is still to be written. */
  lemma AppliedUnitIsCovered(cfg: Config, s: Sys, unit: string)
    requires Reachable(cfg, s) && UnitApplied(s.core, unit)
    ensures var gen := s.core.scope[unit].gen;
            && (gen <= s.confirmedGen ==> s.delivered.Some? && Covers(s.delivered.value, unit))
            && (gen <= s.confirmedGen || gen <= s.unconfirmedGen || (s.pump.Initializing? && gen <= s.pump.gen))
  {
    hide Reachable, Covers;
    ReachableKeepsBarrier(cfg, s);
    if s.core.scope[unit].gen <= s.confirmedGen {
      BarrierIsSound(cfg, s, unit);
    }
  }

  /** A held request is held for its unit: when its goroutine is about to write it, the
      filters gopls has cover the unit, if that is still in scope and its generation
      confirmed. */
  lemma ForwardedRequestIsCovered(cfg: Config, s: Sys, id: nat)
    requires Reachable(cfg, s) && id in s.waiters && id in s.held
    requires s.waiters[id].Forwarding? || s.waiters[id].Writing?
    ensures var unit := s.held[id].unit;
            unit in s.core.scope && 0 < s.core.scope[unit].gen <= s.confirmedGen
            ==> s.delivered.Some? && Covers(s.delivered.value, unit)
  {
    hide Reachable, Covers;
    var unit := s.held[id].unit;
    if unit in s.core.scope && 0 < s.core.scope[unit].gen <= s.confirmedGen {
      BarrierIsSound(cfg, s, unit);
    }
  }

  /** Cross-reference coverage: when the held request is about to be written and the
      generation it waited for is confirmed, the filters gopls has cover every
      requested unit that was not evicted since, whoever stamped it and whatever
      timers have released. */
  lemma CrossReferenceIsCovered(cfg: Config, s: Sys, ref: nat, unit: string)
    requires Reachable(cfg, s) && ref in s.refs && s.refs[ref].Ready? && s.refs[ref].need <= s.confirmedGen
    requires unit in s.refs[ref].kept
    ensures s.delivered.Some? && Covers(s.delivered.value, unit)
  {
    hide Reachable, Covers;
    ReachableKeepsBarrier(cfg, s);
    assert RefKeeps(s.core, s.refs[ref]);
    BarrierIsSound(cfg, s, unit);
  }

  /** A reference whose barrier was reached waited for a confirmed generation, unless a
      timer or an unusable answer released it or initialize is still to be written;
      so without either its units are covered. */
  lemma ReachedReferenceIsConfirmed(cfg: Config, s: Sys, ref: nat)
    requires Reachable(cfg, s) && ref in s.refs && s.refs[ref].Ready? && s.refs[ref].reached
    ensures s.refs[ref].need <= s.confirmedGen || s.refs[ref].need <= s.unconfirmedGen
            || (s.pump.Initializing? && s.refs[ref].need <= s.pump.gen)
    ensures s.unconfirmedGen < s.refs[ref].need && !s.pump.Initializing? ==>
              forall unit <- s.refs[ref].kept :: s.delivered.Some? && Covers(s.delivered.value, unit)
  {
    hide Reachable, Covers;
    ReachableKeepsBarrier(cfg, s);
    assert RefKeeps(s.core, s.refs[ref]);
    if s.unconfirmedGen < s.refs[ref].need && !s.pump.Initializing? {
      forall unit | unit in s.refs[ref].kept ensures s.delivered.Some? && Covers(s.delivered.value, unit) {
        CrossReferenceIsCovered(cfg, s, ref, unit);
      }
    }
  }
}
