/** When a request for a file is held for its unit, and what it can count on when it
    is not, or not any longer. */
module RequestProofs {
  import opened Options
  import opened ScopeState
  import opened ProxySystem
  import opened BarrierProofs
  import opened References

  /** The unit has been applied under this generation. */
  predicate AppliedUnder(c: Core, unit: string, gen: nat) {
    unit in c.scope && c.scope[unit].gen == gen && 0 < gen <= c.appliedGen
  }

  lemma StepKeepsApplied(cfg: Config, s: Sys, step: Step, t: Sys,
                         unit: string, gen: nat)
    requires Next(cfg, s, step) == Some(t) && AppliedUnder(s.core, unit, gen) && unit in t.core.scope
    ensures AppliedUnder(t.core, unit, gen)
  {
    if !step.EvictionSweeps? {
      hide Next;
      StepGrows(cfg, s, step, t);
    }
  }

  lemma {:induction false} RunKeepsApplied(cfg: Config, s: Sys, steps: seq<Step>,
                                           t: Sys, unit: string, gen: nat)
    requires Run(cfg, s, steps) == Some(t) && StaysInScope(cfg, s, steps, unit)
    requires AppliedUnder(s.core, unit, gen)
    ensures AppliedUnder(t.core, unit, gen)
    decreases steps
  {
    hide Next, AppliedUnder;
    if steps != [] {
      var next := Next(cfg, s, steps[0]).value;
      assert unit in next.core.scope by {
        assert StaysInScope(cfg, next, steps[1..], unit);
      }
      StepKeepsApplied(cfg, s, steps[0], next, unit, gen);
      RunKeepsApplied(cfg, next, steps[1..], t, unit, gen);
    }
  }

  /** What finding its unit applied is worth to a held request, whatever happens before
      its write: while the unit stays in scope its generation stands, and once that is
      confirmed the filters gopls has cover the unit; it is unconfirmed only if a timer
      or an unusable answer released it, or initialize is still to be written. */
  lemma HeldRequestIsCovered(cfg: Config, s: Sys, id: nat, start: Sys,
                             steps: seq<Step>, t: Sys, unit: string)
    requires Reachable(cfg, s)
    requires Next(cfg, s, WaiterDoes(PollUnit(id))) == Some(start)
    requires id in start.waiters && start.waiters[id].Forwarding? && id in s.held && unit == s.held[id].unit
    requires Run(cfg, start, steps) == Some(t) && StaysInScope(cfg, start, steps, unit)
    ensures unit in start.core.scope && unit in t.core.scope
    ensures var gen := start.core.scope[unit].gen;
            && t.core.scope[unit].gen == gen
            && (gen <= t.confirmedGen ==> t.delivered.Some? && Covers(t.delivered.value, unit))
            && (gen <= t.confirmedGen || gen <= t.unconfirmedGen || (t.pump.Initializing? && gen <= t.pump.gen))
  {
    hide StaysInScope, Covers, Reachable, Run, Next;
    PollPassesAppliedUnits(cfg, s, id, start);
    StepReaches(cfg, s, WaiterDoes(PollUnit(id)), start);
    RunReaches(cfg, start, steps, t);
    RunKeepsApplied(cfg, start, steps, t, unit, start.core.scope[unit].gen);
    AppliedUnitIsCovered(cfg, t, unit);
  }

  // ---- holding -------------------------------------------------------------

  /** A request is held if and only if its file's unit is in scope and not yet
      published and applied; otherwise it is about to be written as it is. */
  lemma AskHoldsUnappliedUnits(cfg: Config, s: Sys, uri: string, unit: string, t: Sys)
    requires Next(cfg, s, PumpDoes(Ask(uri, unit))) == Some(t)
    ensures t == s.(received := s.received + [Request(uri)], pump := t.pump)
    ensures t.pump == Holding(|s.received|, uri, unit) || t.pump == Inline(|s.received|)
    ensures t.pump.Holding?
            <==> unit in s.core.scope && (s.core.scope[unit].gen == 0 || s.core.appliedGen < s.core.scope[unit].gen)
  {
    assert HoldNext(s, Ask(uri, unit)) == Some(t);
  }

  /** A goroutine that looks at a held request's unit goes on to forward the request if
      and only if the unit is published and applied; otherwise it parks on the channel
      the next advance closes. */
  lemma PollPassesAppliedUnits(cfg: Config, s: Sys, id: nat, t: Sys)
    requires Next(cfg, s, WaiterDoes(PollUnit(id))) == Some(t)
    ensures id in s.held && id in t.waiters && t.held == s.held && t.core.scope == s.core.scope
    ensures var unit := s.held[id].unit;
            t.waiters[id] == Forwarding
            <==> unit in s.core.scope && 0 < s.core.scope[unit].gen <= s.core.appliedGen
    ensures t.waiters[id] != Forwarding ==>
              t.waiters[id].Parked? && t.core.appliedCh == Some(t.waiters[id].ch)
    ensures t.core.appliedGen == s.core.appliedGen
  {
    assert WaitNext(s, PollUnit(id)) == Some(t);
    hide Next;
    if UnitApplied(s.core, s.held[id].unit) {
      assert t == s.(waiters := s.waiters[id := Forwarding]);
    } else {
      var (core, ch) := AppliedChannel(s.core);
      assert t == s.(core := core, waiters := s.waiters[id := Parked(ch)]);
    }
  }

  /** A request written without being held finds its unit covered as well: if the unit
      was in scope when the request was read and stays there, its generation is the same
      when the request is written, and once that is confirmed the filters gopls has cover
      the unit; it is unconfirmed only if a timer or an unusable answer released it, or
      initialize is still to be written. */
  lemma InlineRequestIsCovered(cfg: Config, s: Sys, uri: string, unit: string, start: Sys, steps: seq<Step>, t: Sys)
    requires Reachable(cfg, s) && unit in s.core.scope
    requires Next(cfg, s, PumpDoes(Ask(uri, unit))) == Some(start) && start.pump.Inline?
    requires Run(cfg, start, steps) == Some(t) && StaysInScope(cfg, start, steps, unit)
    ensures unit in t.core.scope && t.core.scope[unit].gen == s.core.scope[unit].gen
    ensures var gen := s.core.scope[unit].gen;
            && 0 < gen <= t.core.appliedGen
            && (gen <= t.confirmedGen ==> t.delivered.Some? && Covers(t.delivered.value, unit))
            && (gen <= t.confirmedGen || gen <= t.unconfirmedGen || (t.pump.Initializing? && gen <= t.pump.gen))
  {
    hide StaysInScope, Covers, Reachable, Run, Next;
    AskHoldsUnappliedUnits(cfg, s, uri, unit, start);
    StepReaches(cfg, s, PumpDoes(Ask(uri, unit)), start);
    RunReaches(cfg, start, steps, t);
    RunKeepsApplied(cfg, start, steps, t, unit, start.core.scope[unit].gen);
    AppliedUnitIsCovered(cfg, t, unit);
  }

  /** It matters that the unit was in scope when the request was read: a reference may
      bring it into scope, unpublished, before the request is written. */
  lemma InlineUnitMayBeUnpublished(cfg: Config)
    ensures exists s, unit :: Reachable(cfg, s) && s.pump.Inline? && unit in s.core.scope && s.core.scope[unit].gen == 0
  {
    hide Reachable;
    InitialIsReachable(cfg);
    var s1 := INITIAL.(received := [Request("f")], pump := Inline(0));
    assert INITIAL.received + [Request("f")] == s1.received;
    assert HoldNext(INITIAL, Ask("f", "a")) == Some(s1);
    assert Next(cfg, INITIAL, PumpDoes(Ask("f", "a"))) == Some(s1);
    StepReaches(cfg, INITIAL, PumpDoes(Ask("f", "a")), s1);
    EnsureUnitsIsEnough(s1.core, ["a"], s1.now);
    var s2 := RefNext(s1, Ensure(0, ["a"])).value;
    hide EnsureUnits;
    assert "a" in ["a"];
    assert Next(cfg, s1, RefDoes(Ensure(0, ["a"]))) == Some(s2);
    StepReaches(cfg, s1, RefDoes(Ensure(0, ["a"])), s2);
    assert s2.pump.Inline? && s2.core.scope["a"].gen == 0;
  }
}
