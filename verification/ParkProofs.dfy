/** Waiting on the barrier, over every run: nothing stays parked on a channel that
    will not be closed for it. */
module ParkProofs {
  import opened Options
  import opened ScopeState
  import opened ProxySystem
  import opened BarrierProofs

  // ---- channels ------------------------------------------------------------

  /** The channel for the next advance is open; closed channels were made. */
  ghost predicate Channels(c: Core) {
    && (forall ch <- c.closed :: ch < c.nextCh)
    && (c.appliedCh.Some? ==> c.appliedCh.value < c.nextCh && c.appliedCh.value !in c.closed)
  }

  /** Whoever waits on an open channel waits on the current one, for something that
      has not happened. */
  ghost predicate WellParked(c: Core, ch: nat, reached: bool) {
    ch < c.nextCh && (ch !in c.closed ==> c.appliedCh == Some(ch) && !reached)
  }

  ghost predicate RefsParked(c: Core, refs: map<nat, Ref>) {
    forall r <- refs :: refs[r].Waiting? ==> WellParked(c, refs[r].ch, c.appliedGen >= refs[r].need)
  }

  ghost predicate WaitersParked(c: Core, held: map<nat, Held>, waiters: map<nat, Waiter>) {
    forall id <- waiters :: waiters[id].Parked? ==>
      id in held && WellParked(c, waiters[id].ch, UnitApplied(c, held[id].unit))
  }

  ghost predicate Parks(s: Sys) {
    Channels(s.core) && RefsParked(s.core, s.refs) && WaitersParked(s.core, s.held, s.waiters)
  }

  // ---- what may happen to p.mu's state -------------------------------------

  /** Nothing is applied or awaited: no unit becomes applied and no channel moves. */
  ghost predicate Quiet(c: Core, d: Core) {
    && d.appliedGen == c.appliedGen && d.appliedCh == c.appliedCh && d.nextCh == c.nextCh && d.closed == c.closed
    && forall u | UnitApplied(d, u) :: UnitApplied(c, u)
  }

  ghost predicate Moves(c: Core, d: Core) {
    Quiet(c, d) || d == AppliedChannel(c).0 || exists gen :: d == Advance(c, gen)
  }

  lemma MovesKeepChannels(c: Core, d: Core)
    requires Channels(c) && Moves(c, d)
    ensures Channels(d)
  {
    hide UnitApplied;
  }

  lemma ChannelKeepsParked(c: Core, ch: nat, reached: bool)
    requires Channels(c) && WellParked(c, ch, reached)
    ensures WellParked(AppliedChannel(c).0, ch, reached)
  {
  }

  /** An advance closes the channel everyone waits on. */
  lemma AdvanceKeepsParked(c: Core, gen: nat, ch: nat, before: bool, after: bool)
    requires Channels(c) && WellParked(c, ch, before)
    requires Advance(c, gen) == c ==> after == before
    ensures WellParked(Advance(c, gen), ch, after)
  {
  }

  lemma RefStaysParked(c: Core, d: Core, ch: nat, need: nat)
    requires Channels(c) && Moves(c, d) && WellParked(c, ch, c.appliedGen >= need)
    ensures WellParked(d, ch, d.appliedGen >= need)
  {
    hide Channels, WellParked, UnitApplied, Advance, AppliedChannel;
    if Quiet(c, d) {
      QuietKeepsParked(c, d, ch, c.appliedGen >= need, d.appliedGen >= need);
    } else if d == AppliedChannel(c).0 {
      ChannelKeepsParked(c, ch, c.appliedGen >= need);
      ChannelFrame(c);
    } else {
      var gen :| d == Advance(c, gen);
      AdvanceKeepsParked(c, gen, ch, c.appliedGen >= need, d.appliedGen >= need);
    }
  }

  lemma QuietKeepsParked(c: Core, d: Core, ch: nat, before: bool, after: bool)
    requires Quiet(c, d) && WellParked(c, ch, before) && (after ==> before)
    ensures WellParked(d, ch, after)
  {
  }

  lemma UnitStaysParked(c: Core, d: Core, ch: nat, unit: string)
    requires Channels(c) && Moves(c, d) && WellParked(c, ch, UnitApplied(c, unit))
    ensures WellParked(d, ch, UnitApplied(d, unit))
  {
    hide Channels, WellParked, Advance, AppliedChannel;
    if Quiet(c, d) {
      QuietKeepsParked(c, d, ch, UnitApplied(c, unit), UnitApplied(d, unit));
    } else if d == AppliedChannel(c).0 {
      ChannelKeepsParked(c, ch, UnitApplied(c, unit));
      ChannelFrame(c);
    } else {
      var gen :| d == Advance(c, gen);
      AdvanceKeepsParked(c, gen, ch, UnitApplied(c, unit), UnitApplied(d, unit));
    }
  }

  /** Nobody new parks. */
  ghost predicate NoNewParks(s: Sys, t: Sys) {
    && (forall r <- t.refs :: t.refs[r].Waiting? ==>
          r in s.refs && s.refs[r].Waiting? && s.refs[r].ch == t.refs[r].ch && s.refs[r].need == t.refs[r].need)
    && (forall id <- t.waiters :: t.waiters[id].Parked? ==>
          && id in s.waiters && s.waiters[id] == t.waiters[id]
          && (id in s.held ==> id in t.held && t.held[id].unit == s.held[id].unit))
  }

  lemma MovesKeepParks(s: Sys, t: Sys)
    requires Parks(s) && Moves(s.core, t.core) && NoNewParks(s, t)
    ensures Parks(t)
  {
    hide Channels, WellParked, UnitApplied, Moves;
    MovesKeepChannels(s.core, t.core);
    forall r | r in t.refs && t.refs[r].Waiting?
      ensures WellParked(t.core, t.refs[r].ch, t.core.appliedGen >= t.refs[r].need)
    {
      RefStaysParked(s.core, t.core, t.refs[r].ch, t.refs[r].need);
    }
    forall id | id in t.waiters && t.waiters[id].Parked?
      ensures id in t.held && WellParked(t.core, t.waiters[id].ch, UnitApplied(t.core, t.held[id].unit))
    {
      UnitStaysParked(s.core, t.core, t.waiters[id].ch, s.held[id].unit);
    }
  }

  // ---- the moves of each actor ---------------------------------------------

  lemma SameIsQuiet(c: Core)
    ensures Quiet(c, c)
  {
  }

  lemma StampIsQuiet(c: Core)
    requires CoreBounded(c)
    ensures Quiet(c, Stamp(c))
  {
  }

  lemma RestoreIsQuiet(c: Core, units: seq<string>, now: int)
    ensures Quiet(c, c.(scope := WithUnits(c.scope, units, now)))
  {
    hide WithUnits;
    WithUnitsHolds(c.scope, units, now);
  }

  lemma EnsureIsQuiet(c: Core, units: seq<string>, now: int)
    ensures Quiet(c, EnsureUnits(c, units, now).0)
  {
    hide WithUnits, Needed;
    WithUnitsHolds(c.scope, units, now);
  }

  /** The first generation is stamped and applied at once. */
  lemma InitialMoves(s: Sys, t: Sys)
    requires Parks(s) && NoNewParks(s, t) && CoreBounded(s.core)
    requires t.core == Advance(Stamp(s.core), s.core.scopeGen + 1)
    ensures Parks(t)
  {
    hide Parks, Stamp, Advance;
    StampIsQuiet(s.core);
    var m := s.(core := Stamp(s.core));
    assert Parks(m) by { SameParks(s, m); MovesKeepParks(s, m); }
    assert NoNewParks(m, t);
    MovesKeepParks(m, t);
  }

  lemma SameParks(s: Sys, t: Sys)
    requires t.refs == s.refs && t.waiters == s.waiters && t.held == s.held
    ensures NoNewParks(s, t)
  {
  }

  lemma InitKeepsParks(s: Sys, step: PumpStep, t: Sys)
    requires Parks(s) && CoreBounded(s.core) && InitNext(s, step) == Some(t)
    ensures Parks(t)
  {
    hide Parks, WithUnits, Filters, Stamp, Advance, Quiet, CoreBounded, NoNewParks;
    assert NoNewParks(s, t) by { SameParks(s, t); }
    match step
    case RestoreScope(restored) =>
      RestoreIsQuiet(s.core, restored, s.now);
      MovesKeepParks(s, t);
    case StampInitial =>
      StampBounds(s.core);
      InitialMoves(s, t);
    case _ =>
      SameIsQuiet(s.core);
      MovesKeepParks(s, t);
  }

  lemma AnswerKeepsParks(s: Sys, step: PumpStep, t: Sys)
    requires Parks(s) && AnswerNext(s, step) == Some(t)
    ensures Parks(t)
  {
    hide Parks, Filters, Advance, NoNewParks;
    SameParks(s, t);
    assert Moves(s.core, t.core) by { hide Moves; AnswerMoves(s, step, t); }
    MovesKeepParks(s, t);
  }

  lemma AnswerMoves(s: Sys, step: PumpStep, t: Sys)
    requires AnswerNext(s, step) == Some(t)
    ensures Moves(s.core, t.core)
  {
    hide Filters, Advance;
  }

  lemma DocMoves(s: Sys, step: PumpStep, t: Sys)
    requires DocNext(s, step) == Some(t)
    ensures Moves(s.core, t.core) && NoNewParks(s, t)
  {
    SameParks(s, t);
    hide NoNewParks;
  }

  lemma HoldMoves(s: Sys, step: PumpStep, t: Sys)
    requires HoldNext(s, step) == Some(t)
    ensures Moves(s.core, t.core) && NoNewParks(s, t)
  {
    hide UnitPending;
  }

  lemma ReleaseMoves(s: Sys, step: PumpStep, t: Sys)
    requires ReleaseNext(s, step) == Some(t)
    ensures Moves(s.core, t.core) && NoNewParks(s, t)
  {
    hide WriterIsWaiter;
  }

  lemma PushMoves(cfg: Config, s: Sys, step: PushStep, t: Sys)
    requires CoreBounded(s.core) && PushNext(cfg, s, step) == Some(t)
    ensures Moves(s.core, t.core) && NoNewParks(s, t)
  {
    hide Stamp, Quiet, CoreBounded;
    StampIsQuiet(s.core);
    SameIsQuiet(s.core);
  }

  lemma EvictionMoves(s: Sys, ttl: int)
    ensures Moves(s.core, EvictNext(s, ttl).core) && NoNewParks(s, EvictNext(s, ttl))
  {
  }

  lemma FireMoves(s: Sys, gen: nat, t: Sys)
    requires FireNext(s, gen) == Some(t)
    ensures Moves(s.core, t.core) && NoNewParks(s, t)
  {
    hide FireNext, Advance, Quiet;
    FireFrame(s, gen, t);
    SameIsQuiet(s.core);
  }

  lemma PullMoves(s: Sys, id: string)
    ensures Moves(s.core, Pulled(s.core, id))
  {
  }

  // ---- parking -------------------------------------------------------------

  /** A poll that fails parks on the current channel. */
  lemma ParkingIsWell(c: Core, reached: bool)
    requires Channels(c) && !reached
    ensures var (d, ch) := AppliedChannel(c); WellParked(d, ch, reached)
  {
  }

  lemma PollRefKeepsParks(s: Sys, r: nat, t: Sys)
    requires Parks(s) && RefNext(s, PollRef(r)) == Some(t) && s.core.appliedGen < s.refs[r].need
    ensures Parks(t)
  {
    hide Channels, WellParked, AppliedChannel, UnitApplied;
    var (d, ch) := AppliedChannel(s.core);
    var m := s.(core := d);
    MovesKeepParks(s, m);
    ParkingIsWell(s.core, false);
    ChannelFrame(s.core);
  }

  lemma RefKeepsParks(s: Sys, step: RefStep, t: Sys)
    requires Parks(s) && RefNext(s, step) == Some(t)
    ensures Parks(t)
  {
    hide Parks, EnsureUnits, Quiet, AppliedChannel;
    if step.PollRef? && s.core.appliedGen < s.refs[step.ref].need {
      PollRefKeepsParks(s, step.ref, t);
      return;
    }
    if step.Ensure? {
      EnsureIsQuiet(s.core, step.units, s.now);
    }
    SameIsQuiet(s.core);
    MovesKeepParks(s, t);
  }

  lemma PollUnitKeepsParks(s: Sys, id: nat, t: Sys)
    requires Parks(s) && WaitNext(s, PollUnit(id)) == Some(t) && !UnitApplied(s.core, s.held[id].unit)
    ensures Parks(t)
  {
    hide Channels, WellParked, AppliedChannel;
    var (d, ch) := AppliedChannel(s.core);
    var m := s.(core := d);
    MovesKeepParks(s, m);
    ParkingIsWell(s.core, false);
    ChannelFrame(s.core);
    assert !UnitApplied(d, s.held[id].unit);
    hide UnitApplied;
  }

  lemma WaitMoves(s: Sys, step: WaitStep, t: Sys)
    requires WaitNext(s, step) == Some(t)
    requires step.PollUnit? ==> UnitApplied(s.core, s.held[step.id].unit)
    ensures Moves(s.core, t.core) && NoNewParks(s, t)
  {
    hide RemoveFirst, AppliedChannel;
  }

  lemma WaitKeepsParks(s: Sys, step: WaitStep, t: Sys)
    requires Parks(s) && WaitNext(s, step) == Some(t)
    ensures Parks(t)
  {
    hide Parks, Moves, NoNewParks, UnitApplied;
    assert step.id in s.held;
    hide WaitNext;
    if step.PollUnit? && !UnitApplied(s.core, s.held[step.id].unit) {
      PollUnitKeepsParks(s, step.id, t);
    } else {
      WaitMoves(s, step, t);
      MovesKeepParks(s, t);
    }
  }

  // ---- over every run ------------------------------------------------------

  lemma StepKeepsParks(cfg: Config, s: Sys, step: Step, t: Sys)
    requires Parks(s) && CoreBounded(s.core) && Next(cfg, s, step) == Some(t)
    ensures Parks(t)
  {
    hide *;
    StepCases(cfg, s, step, t);
    if step.PumpDoes? {
      PumpCases(s, step.p, t);
      if InitNext(s, step.p) == Some(t) {
        InitKeepsParks(s, step.p, t);
        return;
      }
      if AnswerNext(s, step.p) == Some(t) {
        AnswerKeepsParks(s, step.p, t);
        return;
      }
      if DocNext(s, step.p) == Some(t) {
        DocMoves(s, step.p, t);
      } else if HoldNext(s, step.p) == Some(t) {
        HoldMoves(s, step.p, t);
      } else {
        ReleaseMoves(s, step.p, t);
      }
    } else if step.RefDoes? {
      RefKeepsParks(s, step.r, t);
      return;
    } else if step.WaiterDoes? {
      WaitKeepsParks(s, step.w, t);
      return;
    } else if step.PushDoes? {
      PushMoves(cfg, s, step.u, t);
    } else if step.EvictionSweeps? {
      EvictionMoves(s, step.ttl);
    } else if step.PullArrives? {
      PullMoves(s, step.configId);
      SameParks(s, t);
    } else if step.FallbackFires? {
      FireMoves(s, step.gen, t);
    } else {
      assert Moves(s.core, s.core) by { StillMoves(s.core); }
      SameParks(s, t);
    }
    MovesKeepParks(s, t);
  }

  lemma StillMoves(c: Core)
    ensures Moves(c, c)
  {
    hide Quiet, AppliedChannel, Advance;
    SameIsQuiet(c);
  }

  lemma {:induction false} RunsKeepParks(cfg: Config, s: Sys, steps: seq<Step>)
    requires Parks(s) && BarrierHolds(s) && Run(cfg, s, steps).Some?
    ensures Parks(Run(cfg, s, steps).value)
    decreases steps
  {
    hide Next, Parks, BarrierHolds;
    if steps != [] {
      var t := Next(cfg, s, steps[0]).value;
      assert CoreBounded(s.core) by { BarrierBounds(s); }
      StepKeepsBarrier(cfg, s, steps[0], t);
      StepKeepsParks(cfg, s, steps[0], t);
      RunsKeepParks(cfg, t, steps[1..]);
    }
  }

  lemma ReachableKeepsParks(cfg: Config, s: Sys)
    requires Reachable(cfg, s)
    ensures Parks(s)
  {
    hide Run;
    var steps :| Run(cfg, INITIAL, steps) == Some(s);
    RunsKeepParks(cfg, INITIAL, steps);
  }

  /** A cross-reference parked on an open channel waits for a generation still to be
      applied; once it is applied, the channel is closed and the wait can end. */
  lemma NoReferenceSleepsThroughItsGeneration(cfg: Config, s: Sys, ref: nat)
    requires Reachable(cfg, s) && ref in s.refs && s.refs[ref].Waiting?
    ensures s.core.appliedGen >= s.refs[ref].need ==> s.refs[ref].ch in s.core.closed
    ensures s.core.appliedGen >= s.refs[ref].need ==> RefNext(s, WakeRef(ref)).Some?
  {
    hide Reachable;
    ReachableKeepsParks(cfg, s);
    assert RefsParked(s.core, s.refs);
  }

  /** The same for a held request and its unit, even without the ticker: once the unit's
      generation is applied the goroutine can wake and look again. */
  lemma NoRequestSleepsThroughItsUnit(cfg: Config, s: Sys, id: nat)
    requires Reachable(cfg, s) && id in s.waiters && s.waiters[id].Parked?
    ensures id in s.held && WaitNext(s, WakeUnit(id)) == Some(s.(waiters := s.waiters[id := Checking]))
    ensures var unit := s.held[id].unit;
            unit in s.core.scope && 0 < s.core.scope[unit].gen <= s.core.appliedGen
            ==> s.waiters[id].ch in s.core.closed
  {
    hide Reachable;
    ReachableKeepsParks(cfg, s);
    assert WaitersParked(s.core, s.held, s.waiters);
  }
}
