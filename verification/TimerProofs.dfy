/** The fallback timers over every run, with ideal timers: no generation waits
    longer than the cap, and none is released early. */
module TimerProofs {
  import opened Options
  import opened ScopeState
  import opened ProxySystem
  import opened BarrierProofs
  import ScopeProofs

  /** How long after its fallback is armed a generation is applied at the latest. */
  function Longest(cfg: Config): nat {
    Max(Delay(cfg), Cap(cfg))
  }

  ghost predicate TimerRuns(cfg: Config, tm: Timer, armedAt: int, now: int) {
    && tm.deadline == armedAt + Cap(cfg) && tm.delay >= 1 && now <= tm.fireAt
    && armedAt + Delay(cfg) <= tm.fireAt <= armedAt + Longest(cfg)
    && (tm.delay == Delay(cfg) || tm.fireAt == tm.deadline)
  }

  /** An armed generation is applied or its timer is running. */
  ghost predicate TimersRun(cfg: Config, s: Sys) {
    && (forall g <- s.timers :: g in s.armed && TimerRuns(cfg, s.timers[g], s.armed[g], s.now))
    && (forall g <- s.armed :: s.core.appliedGen >= g || g in s.timers)
  }

  /** Some pushScope call has stamped this generation and not yet armed its timer. */
  ghost predicate Carried(pushers: map<Who, Push>, gen: nat) {
    exists w <- pushers :: pushers[w].gen == gen
  }

  /** Each generation is applied, armed or carried. */
  ghost predicate NoneForgotten(s: Sys) {
    forall g | 1 <= g <= s.core.scopeGen :: s.core.appliedGen >= g || g in s.armed || Carried(s.pushers, g)
  }

  /** Each generation is carried by one call, and armed once. */
  ghost predicate ArmedOnce(s: Sys) {
    && (forall g <- s.armed :: g <= s.core.scopeGen)
    && (forall w <- s.pushers :: s.pushers[w].gen <= s.core.scopeGen && s.pushers[w].gen !in s.armed)
    && (forall v, w | v in s.pushers && w in s.pushers :: s.pushers[v].gen == s.pushers[w].gen ==> v == w)
  }

  ghost predicate ClockHolds(cfg: Config, s: Sys) {
    TimersRun(cfg, s) && NoneForgotten(s) && ArmedOnce(s)
  }

  // ---- steps that leave timers alone ---------------------------------------

  ghost predicate LeavesTimers(s: Sys, t: Sys) {
    && t.timers == s.timers && t.armed == s.armed && t.now == s.now && t.pushers == s.pushers
    && t.core.scopeGen == s.core.scopeGen && t.core.appliedGen >= s.core.appliedGen
  }

  lemma LeavingKeepsClock(cfg: Config, s: Sys, t: Sys)
    requires ClockHolds(cfg, s) && LeavesTimers(s, t)
    ensures ClockHolds(cfg, t)
  {
    hide TimerRuns, Carried;
  }

  lemma InitKeepsClock(cfg: Config, s: Sys, step: PumpStep, t: Sys)
    requires ClockHolds(cfg, s) && CoreBounded(s.core) && InitNext(s, step) == Some(t)
    ensures ClockHolds(cfg, t)
  {
    hide ClockHolds, WithUnits, Filters, Stamp;
    if step.StampInitial? {
      StampBounds(s.core);
      FirstGenerationKeepsClock(cfg, s, t);
    } else {
      LeavingKeepsClock(cfg, s, t);
    }
  }

  lemma FirstGenerationKeepsClock(cfg: Config, s: Sys, t: Sys)
    requires ClockHolds(cfg, s)
    requires t.timers == s.timers && t.armed == s.armed && t.now == s.now && t.pushers == s.pushers
    requires t.core.scopeGen == s.core.scopeGen + 1 == t.core.appliedGen && s.core.appliedGen <= s.core.scopeGen
    ensures ClockHolds(cfg, t)
  {
    hide TimerRuns, Carried;
  }

  lemma AnswerLeavesTimers(s: Sys, step: PumpStep, t: Sys)
    requires AnswerNext(s, step) == Some(t)
    ensures LeavesTimers(s, t)
  {
    hide Filters;
  }

  lemma AsideLeavesTimers(s: Sys, t: Sys)
    requires Aside(s, t)
    ensures LeavesTimers(s, t)
  {
    hide AddsNoFilters;
  }

  // ---- pushing -------------------------------------------------------------

  lemma StampKeepsClock(cfg: Config, s: Sys, who: Who, t: Sys)
    requires ClockHolds(cfg, s) && PushNext(cfg, s, StampScope(who)) == Some(t)
    ensures ClockHolds(cfg, t)
  {
    hide TimerRuns, Stamp;
    StampBounds(s.core);
    forall g | 1 <= g <= t.core.scopeGen ensures t.core.appliedGen >= g || g in t.armed || Carried(t.pushers, g) {
      if g == t.core.scopeGen {
        assert who in t.pushers && t.pushers[who].gen == g;
      } else if Carried(s.pushers, g) {
        var w :| w in s.pushers && s.pushers[w].gen == g;
        assert t.pushers[w].gen == g;
      }
    }
  }

  lemma AnnounceFrame(cfg: Config, s: Sys, who: Who, t: Sys)
    requires PushNext(cfg, s, Announce(who)) == Some(t)
    ensures who in s.pushers && t.pushers == s.pushers[who := Announced(s.pushers[who].gen)]
    ensures t.timers == s.timers && t.armed == s.armed && t.now == s.now && t.core == s.core
  {
  }

  lemma AnnounceKeepsClock(cfg: Config, s: Sys, who: Who, t: Sys)
    requires ClockHolds(cfg, s) && PushNext(cfg, s, Announce(who)) == Some(t)
    ensures ClockHolds(cfg, t)
  {
    hide TimerRuns, PushNext;
    AnnounceFrame(cfg, s, who, t);
    forall g | Carried(s.pushers, g) ensures Carried(t.pushers, g) {
      var w :| w in s.pushers && s.pushers[w].gen == g;
      assert w in t.pushers && t.pushers[w].gen == g;
    }
    hide Carried;
  }

  lemma NewTimerRuns(cfg: Config, now: int)
    ensures TimerRuns(cfg, Timer(now + Delay(cfg), Delay(cfg), now + Cap(cfg)), now, now)
  {
  }

  lemma ArmFrame(cfg: Config, s: Sys, who: Who, t: Sys)
    requires PushNext(cfg, s, Arm(who)) == Some(t)
    ensures who in s.pushers && t.pushers == s.pushers - {who} && t.core == s.core && t.now == s.now
    ensures t.armed == s.armed[s.pushers[who].gen := s.now]
    ensures t.timers == s.timers[s.pushers[who].gen := Timer(s.now + Delay(cfg), Delay(cfg), s.now + Cap(cfg))]
  {
  }

  lemma ArmingForgetsNone(s: Sys, who: Who, t: Sys)
    requires NoneForgotten(s) && who in s.pushers && t.core == s.core
    requires t.pushers == s.pushers - {who} && t.armed == s.armed[s.pushers[who].gen := s.now]
    ensures NoneForgotten(t)
  {
    forall g | Carried(s.pushers, g) ensures Carried(t.pushers, g) || g in t.armed {
      var w :| w in s.pushers && s.pushers[w].gen == g;
      assert w != who ==> w in t.pushers && t.pushers[w].gen == g;
    }
    hide Carried;
  }

  lemma ArmKeepsClock(cfg: Config, s: Sys, who: Who, t: Sys)
    requires ClockHolds(cfg, s) && PushNext(cfg, s, Arm(who)) == Some(t)
    ensures ClockHolds(cfg, t)
  {
    hide PushNext, NoneForgotten, TimerRuns, Delay, Cap;
    ArmFrame(cfg, s, who, t);
    NewTimerRuns(cfg, s.now);
    ArmingForgetsNone(s, who, t);
  }

  // ---- firing, and time ----------------------------------------------------

  lemma AdvanceReaches(c: Core, gen: nat)
    ensures Advance(c, gen).appliedGen == Max(c.appliedGen, gen) && Advance(c, gen).scopeGen == c.scopeGen
    ensures Max(c.appliedGen, gen) >= c.appliedGen && Max(c.appliedGen, gen) >= gen
  {
  }

  lemma DoneIsApplied(c: Core, gen: nat, delay: int, deadline: int, now: int)
    requires FallbackTick(c, gen, delay, deadline, now) == Done
    ensures c.appliedGen >= gen
  {
  }

  lemma TickOutcome(s: Sys, gen: nat, t: Sys)
    requires FireNext(s, gen) == Some(t)
    ensures gen in s.timers && s.timers[gen].fireAt <= s.now
    ensures match FallbackTick(s.core, gen, s.timers[gen].delay, s.timers[gen].deadline, s.now)
            case Done => t.timers == s.timers - {gen} && t.core == s.core
            case Rearm(d) =>
              t.timers == s.timers[gen := Timer(s.now + d, d, s.timers[gen].deadline)] && t.core == s.core
            case Release => t.timers == s.timers - {gen} && t.core == Advance(s.core, gen)
  {
    hide FallbackTick, Advance, Max;
  }

  /** What a firing does to its own timer. */
  lemma FireOutcome(s: Sys, gen: nat, t: Sys)
    requires FireNext(s, gen) == Some(t)
    ensures gen in s.timers && s.timers[gen].fireAt <= s.now
    ensures t.armed == s.armed && t.now == s.now && t.pushers == s.pushers && t.core.scopeGen == s.core.scopeGen
    ensures t.core.appliedGen >= s.core.appliedGen
    ensures match FallbackTick(s.core, gen, s.timers[gen].delay, s.timers[gen].deadline, s.now)
            case Rearm(d) =>
              t.timers == s.timers[gen := Timer(s.now + d, d, s.timers[gen].deadline)] && t.core == s.core
            case _ => t.timers == s.timers - {gen} && t.core.appliedGen >= gen
  {
    hide FireNext, FallbackTick, Advance, Max;
    FireFrame(s, gen, t);
    TickOutcome(s, gen, t);
    AdvanceReaches(s.core, gen);
    var tm := s.timers[gen];
    if FallbackTick(s.core, gen, tm.delay, tm.deadline, s.now) == Done {
      DoneIsApplied(s.core, gen, tm.delay, tm.deadline, s.now);
    }
  }

  lemma FireKeepsClock(cfg: Config, s: Sys, gen: nat, t: Sys)
    requires ClockHolds(cfg, s) && FireNext(s, gen) == Some(t)
    ensures ClockHolds(cfg, t)
  {
    hide FireNext, Carried, Delay, Cap;
    FireOutcome(s, gen, t);
    assert TimerRuns(cfg, s.timers[gen], s.armed[gen], s.now);
    if gen in t.timers {
      assert TimerRuns(cfg, t.timers[gen], t.armed[gen], t.now);
    }
    hide TimerRuns, FallbackTick;
  }

  lemma TimeKeepsClock(cfg: Config, s: Sys, to: int, t: Sys)
    requires ClockHolds(cfg, s) && TimeNext(s, to) == Some(t)
    ensures ClockHolds(cfg, t)
  {
    hide Carried;
  }

  // ---- over every run ------------------------------------------------------

  lemma StepKeepsClock(cfg: Config, s: Sys, step: Step, t: Sys)
    requires ClockHolds(cfg, s) && CoreBounded(s.core) && Next(cfg, s, step) == Some(t)
    ensures ClockHolds(cfg, t)
  {
    hide *;
    AsideCases(cfg, s, step, t);
    if Aside(s, t) {
      AsideLeavesTimers(s, t);
      LeavingKeepsClock(cfg, s, t);
      return;
    }
    match step {
      case PumpDoes(p) =>
        if InitNext(s, p) == Some(t) {
          InitKeepsClock(cfg, s, p, t);
        } else {
          AnswerLeavesTimers(s, p, t);
          LeavingKeepsClock(cfg, s, t);
        }
      case PushDoes(u) =>
        match u {
          case StampScope(who) => StampKeepsClock(cfg, s, who, t);
          case Announce(who) => AnnounceKeepsClock(cfg, s, who, t);
          case Arm(who) => ArmKeepsClock(cfg, s, who, t);
        }
      case EvictionSweeps(ttl) =>
        EvictionLeavesTimers(s, ttl);
        LeavingKeepsClock(cfg, s, t);
      case FallbackFires(gen) => FireKeepsClock(cfg, s, gen, t);
      case TimePasses(to) =>
        TimeCase(cfg, s, to, t);
        TimeKeepsClock(cfg, s, to, t);
    }
  }

  lemma EvictionLeavesTimers(s: Sys, ttl: int)
    ensures LeavesTimers(s, EvictNext(s, ttl))
  {
    hide Survivors;
  }

  lemma TimeCase(cfg: Config, s: Sys, to: int, t: Sys)
    requires Next(cfg, s, TimePasses(to)) == Some(t)
    ensures TimeNext(s, to) == Some(t)
  {
    hide TimeNext;
  }

  lemma {:induction false} RunsKeepClock(cfg: Config, s: Sys, steps: seq<Step>)
    requires ClockHolds(cfg, s) && BarrierHolds(s) && Run(cfg, s, steps).Some?
    ensures ClockHolds(cfg, Run(cfg, s, steps).value)
    decreases steps
  {
    hide Next, ClockHolds, BarrierHolds;
    if steps != [] {
      var t := Next(cfg, s, steps[0]).value;
      assert CoreBounded(s.core) by { BarrierBounds(s); }
      StepKeepsBarrier(cfg, s, steps[0], t);
      StepKeepsClock(cfg, s, steps[0], t);
      RunsKeepClock(cfg, t, steps[1..]);
    }
  }

  lemma ReachableKeepsClock(cfg: Config, s: Sys)
    requires Reachable(cfg, s)
    ensures ClockHolds(cfg, s)
  {
    hide Run;
    var steps :| Run(cfg, INITIAL, steps) == Some(s);
    RunsKeepClock(cfg, INITIAL, steps);
  }

  // ---- bounded, but not early ----------------------------------------------

  /** Before any pull no timer has been re-armed. */
  ghost predicate FirstFirings(cfg: Config, s: Sys) {
    !s.core.sawConfigPull ==>
      forall g <- s.timers :: g in s.armed && s.timers[g].fireAt == s.armed[g] + Delay(cfg)
  }

  lemma UnpulledTickEnds(c: Core, gen: nat, delay: int, deadline: int, now: int)
    requires !c.sawConfigPull
    ensures !FallbackTick(c, gen, delay, deadline, now).Rearm?
  {
  }

  lemma FireKeepsFirst(cfg: Config, s: Sys, gen: nat, t: Sys)
    requires FirstFirings(cfg, s) && FireNext(s, gen) == Some(t) && (s.core.sawConfigPull ==> t.core.sawConfigPull)
    ensures FirstFirings(cfg, t)
  {
    hide FireNext, FallbackTick;
    FireOutcome(s, gen, t);
    FireFrame(s, gen, t);
    if !t.core.sawConfigPull {
      UnpulledTickEnds(s.core, gen, s.timers[gen].delay, s.timers[gen].deadline, s.now);
    }
  }

  lemma PushKeepsFirst(cfg: Config, s: Sys, step: PushStep, t: Sys)
    requires FirstFirings(cfg, s) && ArmedOnce(s) && TimersRun(cfg, s) && PushNext(cfg, s, step) == Some(t)
    requires t.core.sawConfigPull == s.core.sawConfigPull
    ensures FirstFirings(cfg, t)
  {
    hide TimerRuns, Stamp;
    if step.Arm? {
      hide PushNext;
      ArmFrame(cfg, s, step.who, t);
    }
  }

  lemma StepKeepsFirst(cfg: Config, s: Sys, step: Step, t: Sys)
    requires FirstFirings(cfg, s) && ClockHolds(cfg, s) && Next(cfg, s, step) == Some(t)
    ensures FirstFirings(cfg, t)
  {
    hide Next, NoneForgotten, ArmedOnce, TimersRun;
    ScopeProofs.StepSawPull(cfg, s, step, t);
    if step.FallbackFires? {
      hide FirstFirings;
      StepCases(cfg, s, step, t);
      FireKeepsFirst(cfg, s, step.gen, t);
    } else if step.PushDoes? {
      hide FirstFirings;
      StepCases(cfg, s, step, t);
      PushKeepsFirst(cfg, s, step.u, t);
    } else {
      OthersSpendNothing(cfg, s, step, t);
    }
  }

  lemma {:induction false} RunKeepsFirst(cfg: Config, s: Sys, steps: seq<Step>, t: Sys)
    requires FirstFirings(cfg, s) && ClockHolds(cfg, s) && BarrierHolds(s) && Run(cfg, s, steps) == Some(t)
    ensures FirstFirings(cfg, t)
    decreases steps
  {
    hide Next, FirstFirings, ClockHolds, BarrierHolds;
    if steps != [] {
      var next := Next(cfg, s, steps[0]).value;
      assert CoreBounded(s.core) by { BarrierBounds(s); }
      StepKeepsFirst(cfg, s, steps[0], next);
      StepKeepsBarrier(cfg, s, steps[0], next);
      StepKeepsClock(cfg, s, steps[0], next);
      RunKeepsFirst(cfg, next, steps[1..], t);
    }
  }

  /** Bounded release: every generation stamped so far is applied, or still being
      announced by its pushScope call, or was armed no longer ago than the larger of
      the fallback delay and the cap; and if no configuration pull has arrived, no
      longer ago than the delay. By default that is a minute, or ten seconds. */
  lemma EveryGenerationIsReleased(cfg: Config, steps: seq<Step>, s: Sys, gen: nat)
    requires Run(cfg, INITIAL, steps) == Some(s) && 1 <= gen <= s.core.scopeGen && !Carried(s.pushers, gen)
    ensures s.core.appliedGen >= gen || (gen in s.armed && s.now <= s.armed[gen] + Longest(cfg))
    ensures (forall step <- steps :: !step.PullArrives?) ==>
              s.core.appliedGen >= gen || (gen in s.armed && s.now <= s.armed[gen] + Delay(cfg))
    ensures cfg == Config(0, 0) ==> Longest(cfg) == 60 && Delay(cfg) == 10
  {
    hide Run, Carried, Next, BarrierHolds;
    assert Reachable(cfg, s);
    ReachableKeepsClock(cfg, s);
    ReachableKeepsBarrier(cfg, INITIAL) by { InitialIsReachable(cfg); }
    RunKeepsFirst(cfg, INITIAL, steps, s);
    ScopeProofs.PullsAreSeen(cfg, INITIAL, steps, s);
  }

  /** No early release: a firing that applies a generation comes no sooner than the
      fallback delay, and once a configuration pull has arrived no sooner than the
      cap. */
  lemma NoEarlyRelease(cfg: Config, steps: seq<Step>, s: Sys, gen: nat, t: Sys)
    requires Run(cfg, INITIAL, steps) == Some(s) && Next(cfg, s, FallbackFires(gen)) == Some(t)
    requires t.core.appliedGen != s.core.appliedGen
    ensures gen in s.armed && s.now >= s.armed[gen] + Delay(cfg)
    ensures (exists step <- steps :: step.PullArrives?) ==> s.now >= s.armed[gen] + Cap(cfg)
    ensures cfg == Config(0, 0) ==> Delay(cfg) == 10 && Cap(cfg) == 60
  {
    assert cfg == Config(0, 0) ==> Delay(cfg) == 10 && Cap(cfg) == 60;
    hide Run, Delay, Cap, NoneForgotten, ArmedOnce, TimerRuns, Next, FireNext;
    assert Reachable(cfg, s);
    ReachableKeepsClock(cfg, s);
    ScopeProofs.PullsAreSeen(cfg, INITIAL, steps, s);
    StepCases(cfg, s, FallbackFires(gen), t);
    FireOutcome(s, gen, t);
    FireFrame(s, gen, t);
    AdvanceReaches(s.core, gen);
    hide Advance;
    var tm := s.timers[gen];
    TimerIsDue(cfg, tm, s.armed[gen], s.now);
    if s.core.sawConfigPull && s.now < s.armed[gen] + Cap(cfg) {
      SlowPullRearms(s.core, gen, tm.delay, tm.deadline, s.now);
    }
  }

  /** What a firing does: nothing to a generation applied already; once a pull has arrived
      and the cap is not reached, it looks again after the delay, or at the cap if that
      is sooner; otherwise it applies the generation. */
  lemma FiringIsExact(cfg: Config, steps: seq<Step>, s: Sys, gen: nat, t: Sys)
    requires Run(cfg, INITIAL, steps) == Some(s) && Next(cfg, s, FallbackFires(gen)) == Some(t)
    ensures gen in s.armed && t.armed == s.armed && t.now == s.now
    ensures var pulled, cap := exists step <- steps :: step.PullArrives?, s.armed[gen] + Cap(cfg);
            if s.core.appliedGen < gen && pulled && s.now < cap then
              && t.core == s.core && t.timers.Keys == s.timers.Keys && gen in t.timers
              && t.timers[gen].fireAt == (if s.now + Delay(cfg) < cap then s.now + Delay(cfg) else cap)
            else
              && t.timers == s.timers - {gen}
              && t.core.appliedGen == (if s.core.appliedGen < gen then gen else s.core.appliedGen)
  {
    hide Run, NoneForgotten, ArmedOnce, Next, FireNext, Delay, Cap;
    assert Reachable(cfg, s);
    ReachableKeepsClock(cfg, s);
    ScopeProofs.PullsAreSeen(cfg, INITIAL, steps, s);
    StepCases(cfg, s, FallbackFires(gen), t);
    FireOutcome(s, gen, t);
    TickOutcome(s, gen, t);
    assert TimerRuns(cfg, s.timers[gen], s.armed[gen], s.now);
  }

  lemma TimerIsDue(cfg: Config, tm: Timer, armedAt: int, now: int)
    requires TimerRuns(cfg, tm, armedAt, now) && tm.fireAt <= now
    ensures now >= armedAt + Delay(cfg) && tm.deadline == armedAt + Cap(cfg)
  {
    hide Delay, Cap, Longest;
  }

  lemma SlowPullRearms(c: Core, gen: nat, delay: int, deadline: int, now: int)
    requires c.sawConfigPull && now < deadline
    ensures FallbackTick(c, gen, delay, deadline, now).Rearm? || c.appliedGen >= gen
  {
  }

  /** How often gen's timer fires in a run. */
  function Firings(steps: seq<Step>, gen: nat): nat
    decreases steps
  {
    if steps == [] then 0 else (if steps[0] == FallbackFires(gen) then 1 else 0) + Firings(steps[1..], gen)
  }

  function Positive(n: int): nat {
    if n > 0 then n else 0
  }

  /** How often gen's timer can still fire. */
  ghost function Budget(cfg: Config, s: Sys, gen: nat): nat {
    if gen in s.timers then Positive(s.timers[gen].deadline - s.timers[gen].fireAt) + 1
    else if gen in s.armed then 0
    else Positive(Cap(cfg) - Delay(cfg)) + 1
  }

  lemma FiringSpends(cfg: Config, s: Sys, gen: nat, t: Sys)
    requires ClockHolds(cfg, s) && FireNext(s, gen) == Some(t)
    ensures Budget(cfg, t, gen) < Budget(cfg, s, gen)
    ensures forall g: nat | g != gen :: Budget(cfg, t, g) == Budget(cfg, s, g)
  {
    hide FireNext, NoneForgotten, ArmedOnce, Delay, Cap;
    FireOutcome(s, gen, t);
    assert TimerRuns(cfg, s.timers[gen], s.armed[gen], s.now);
  }

  lemma PushSpendsNothing(cfg: Config, s: Sys, step: PushStep, t: Sys, gen: nat)
    requires ClockHolds(cfg, s) && PushNext(cfg, s, step) == Some(t)
    ensures Budget(cfg, t, gen) <= Budget(cfg, s, gen)
  {
    hide NoneForgotten, TimerRuns, Delay, Cap;
    if step.Arm? {
      hide PushNext;
      ArmFrame(cfg, s, step.who, t);
    }
  }

  lemma OthersSpendNothing(cfg: Config, s: Sys, step: Step, t: Sys)
    requires Next(cfg, s, step) == Some(t) && !step.FallbackFires? && !step.PushDoes?
    ensures t.timers == s.timers && t.armed == s.armed
  {
    hide *;
    AsideCases(cfg, s, step, t);
    if Aside(s, t) {
      AsideSetsNoTimer(s, t);
    } else if step.PumpDoes? {
      FiltersSetNoTimer(s, step.p, t);
    } else if step.EvictionSweeps? {
      EvictionSetsNoTimer(s, step.ttl);
    }
  }

  lemma AsideSetsNoTimer(s: Sys, t: Sys)
    requires Aside(s, t)
    ensures t.timers == s.timers && t.armed == s.armed
  {
  }

  lemma FiltersSetNoTimer(s: Sys, step: PumpStep, t: Sys)
    requires InitNext(s, step) == Some(t) || AnswerNext(s, step) == Some(t)
    ensures t.timers == s.timers && t.armed == s.armed
  {
    hide WithUnits, Filters, Stamp, Advance;
  }

  lemma EvictionSetsNoTimer(s: Sys, ttl: int)
    ensures EvictNext(s, ttl).timers == s.timers && EvictNext(s, ttl).armed == s.armed
  {
  }

  lemma {:induction false} FiringsAreBudgeted(cfg: Config, s: Sys, steps: seq<Step>, gen: nat)
    requires ClockHolds(cfg, s) && BarrierHolds(s) && Run(cfg, s, steps).Some?
    ensures Firings(steps, gen) + Budget(cfg, Run(cfg, s, steps).value, gen) <= Budget(cfg, s, gen)
    decreases steps
  {
    hide Next, ClockHolds, BarrierHolds, Budget;
    if steps != [] {
      var step := steps[0];
      var t := Next(cfg, s, step).value;
      assert CoreBounded(s.core) by { BarrierBounds(s); }
      StepKeepsBarrier(cfg, s, step, t);
      StepKeepsClock(cfg, s, step, t);
      FiringsAreBudgeted(cfg, t, steps[1..], gen);
      StepStaysInBudget(cfg, s, step, t, gen);
    }
  }

  lemma StepStaysInBudget(cfg: Config, s: Sys, step: Step, t: Sys, gen: nat)
    requires ClockHolds(cfg, s) && Next(cfg, s, step) == Some(t)
    ensures Budget(cfg, t, gen) + (if step == FallbackFires(gen) then 1 else 0) <= Budget(cfg, s, gen)
  {
    hide Next, ClockHolds;
    if step.FallbackFires? {
      hide Budget;
      StepCases(cfg, s, step, t);
      FiringSpends(cfg, s, step.gen, t);
    } else if step.PushDoes? {
      hide Budget;
      StepCases(cfg, s, step, t);
      PushSpendsNothing(cfg, s, step.u, t, gen);
    } else {
      OthersSpendNothing(cfg, s, step, t);
    }
  }

  /** The re-arm chain ends: in any run at all, one generation's fallback fires at
      most once more than the cap exceeds the delay. */
  lemma RearmingEnds(cfg: Config, steps: seq<Step>, gen: nat)
    requires Run(cfg, INITIAL, steps).Some?
    ensures Firings(steps, gen) <= Positive(Cap(cfg) - Delay(cfg)) + 1
  {
    hide Run, Firings, Delay, Cap;
    FiringsAreBudgeted(cfg, INITIAL, steps, gen);
  }
}
