/** The filters gopls has, as read off the wire, and the answers that confirm
    nothing. */
module WireProofs {
  import opened Options
  import opened Strings
  import opened ScopeState
  import opened ProxySystem
  import opened BarrierProofs

  /** The filters of the last message that carried any. */
  function LastFilters(wire: seq<Wire>): Option<seq<string>> {
    if wire == [] then None
    else match wire[|wire| - 1]
      case InitMsg(fs) => Some(fs)
      case ConfigMsg(Some(fs)) => Some(fs)
      case _ => LastFilters(wire[..|wire| - 1])
  }

  ghost predicate DeliveredIsLast(s: Sys) {
    s.delivered == LastFilters(s.wire)
  }

  lemma SendKeepsLast(s: Sys, m: Wire)
    requires DeliveredIsLast(s)
    ensures DeliveredIsLast(Send(s, m))
  {
    assert (s.wire + [m])[..|s.wire|] == s.wire;
  }

  /** A step writes nothing, or sends one message. */
  ghost predicate Writes(s: Sys, t: Sys) {
    (t.wire == s.wire && t.delivered == s.delivered)
    || exists m :: t.wire == Send(s, m).wire && t.delivered == Send(s, m).delivered
  }

  lemma WritingKeepsLast(s: Sys, t: Sys)
    requires DeliveredIsLast(s) && Writes(s, t)
    ensures DeliveredIsLast(t)
  {
    hide Send, LastFilters;
    if !(t.wire == s.wire && t.delivered == s.delivered) {
      var m :| t.wire == Send(s, m).wire && t.delivered == Send(s, m).delivered;
      SendKeepsLast(s, m);
    }
  }

  lemma InitWrites(s: Sys, step: PumpStep, t: Sys)
    requires InitNext(s, step) == Some(t)
    ensures Writes(s, t)
  {
    hide WithUnits, Filters, Stamp, Advance;
    if step.WriteInitialize? {
      assert t.wire == Send(s, InitMsg(s.pump.filters)).wire;
    }
  }

  lemma AnswerWrites(s: Sys, step: PumpStep, t: Sys)
    requires AnswerNext(s, step) == Some(t)
    ensures Writes(s, t)
  {
    hide Filters, Advance;
    if step.WriteAnswer? {
      assert t.wire == Send(s, ConfigMsg(s.pump.answer)).wire;
    }
  }

  lemma PushWrites(cfg: Config, s: Sys, step: PushStep, t: Sys)
    requires PushNext(cfg, s, step) == Some(t)
    ensures Writes(s, t)
  {
    hide Stamp, Delay, Cap;
    if step.Announce? {
      assert t.wire == Send(s, ConfigurationChanged(s.pushers[step.who].gen)).wire;
    }
  }

  lemma AsideWrites(s: Sys, t: Sys)
    requires Aside(s, t)
    ensures Writes(s, t)
  {
    hide SameGenerations;
    if t.wire != s.wire {
      var m := t.wire[|s.wire|];
      assert t.wire == Send(s, m).wire && t.delivered == Send(s, m).delivered;
    }
  }

  lemma FireWrites(s: Sys, gen: nat, t: Sys)
    requires FireNext(s, gen) == Some(t)
    ensures Writes(s, t)
  {
    hide FireNext;
    FireFrame(s, gen, t);
  }

  lemma StillWrites(s: Sys, t: Sys)
    requires t.wire == s.wire && t.delivered == s.delivered
    ensures Writes(s, t)
  {
  }

  lemma EvictionWrites(s: Sys, ttl: int)
    ensures Writes(s, EvictNext(s, ttl))
  {
  }

  lemma StepWrites(cfg: Config, s: Sys, step: Step, t: Sys)
    requires Next(cfg, s, step) == Some(t)
    ensures Writes(s, t)
  {
    hide *;
    AsideCases(cfg, s, step, t);
    if Aside(s, t) {
      AsideWrites(s, t);
    } else if step.PumpDoes? {
      if InitNext(s, step.p) == Some(t) {
        InitWrites(s, step.p, t);
      } else {
        AnswerWrites(s, step.p, t);
      }
    } else if step.PushDoes? {
      PushWrites(cfg, s, step.u, t);
    } else if step.FallbackFires? {
      FireWrites(s, step.gen, t);
    } else if step.EvictionSweeps? {
      EvictionWrites(s, step.ttl);
    } else {
      StillWrites(s, t);
    }
  }

  lemma {:induction false} RunsKeepLast(cfg: Config, s: Sys, steps: seq<Step>)
    requires DeliveredIsLast(s) && Run(cfg, s, steps).Some?
    ensures DeliveredIsLast(Run(cfg, s, steps).value)
    decreases steps
  {
    hide Next, DeliveredIsLast, Writes;
    if steps != [] {
      var t := Next(cfg, s, steps[0]).value;
      StepWrites(cfg, s, steps[0], t);
      WritingKeepsLast(s, t);
      RunsKeepLast(cfg, t, steps[1..]);
    }
  }

  /** The barrier, stated on the wire alone: a unit in scope with a confirmed
      generation is covered by the last filters gopls was sent. */
  lemma WireCoversConfirmed(cfg: Config, s: Sys, unit: string)
    requires Reachable(cfg, s)
    requires unit in s.core.scope && 0 < s.core.scope[unit].gen <= s.confirmedGen
    ensures LastFilters(s.wire).Some? && Covers(LastFilters(s.wire).value, unit)
  {
    hide Run, Covers;
    BarrierIsSound(cfg, s, unit);
    var steps :| Run(cfg, INITIAL, steps) == Some(s);
    RunsKeepLast(cfg, INITIAL, steps);
  }

  // ---- an answer without filters -------------------------------------------

  const UNIT: string := "a"
  const URI: string := "file:///w/a/x.go"
  const PULL: string := "1"

  /** initialize with no saved scope has been written. */
  lemma Initialized(cfg: Config, s3: Sys)
    requires s3 == INITIAL.(core := EMPTY.(scopeGen := 1, appliedGen := 1), wire := [InitMsg([EXCLUDE_ALL])],
                            delivered := Some([EXCLUDE_ALL]), confirmedGen := 1)
    ensures Reachable(cfg, s3)
  {
    hide Reachable, Filters;
    InitialIsReachable(cfg);
    var s1 := INITIAL.(pump := Restored);
    assert InitNext(INITIAL, RestoreScope([])) == Some(s1);
    StepReaches(cfg, INITIAL, PumpDoes(RestoreScope([])), s1);
    var s2 := s1.(core := EMPTY.(scopeGen := 1, appliedGen := 1), pump := Initializing([EXCLUDE_ALL], 1));
    assert Stamp(EMPTY) == EMPTY.(scopeGen := 1);
    NoUnitsExcludeAll();
    assert Stamp(s1.core).scope.Keys == {};
    assert InitNext(s1, StampInitial) == Some(s2);
    StepReaches(cfg, s1, PumpDoes(StampInitial), s2);
    assert s3.wire == s2.wire + [InitMsg([EXCLUDE_ALL])];
    assert InitNext(s2, WriteInitialize) == Some(s3);
    StepReaches(cfg, s2, PumpDoes(WriteInitialize), s3);
  }

  /** Then a first document is opened, and the rescope for it is stamped. */
  lemma OpenedAndStamped(cfg: Config, s: Sys)
    requires s == INITIAL.(core := EMPTY.(scope := map[UNIT := Entry({URI}, 0, 2)], scopeGen := 2, appliedGen := 1),
                           wire := [InitMsg([EXCLUDE_ALL])], delivered := Some([EXCLUDE_ALL]),
                           pushers := map[Rescope(0) := Stamped(2)], confirmedGen := 1)
    ensures Reachable(cfg, s)
  {
    hide Reachable;
    var s3 := INITIAL.(core := EMPTY.(scopeGen := 1, appliedGen := 1), wire := [InitMsg([EXCLUDE_ALL])],
                       delivered := Some([EXCLUDE_ALL]), confirmedGen := 1);
    Initialized(cfg, s3);
    var s4 := s3.(core := s3.core.(scope := map[UNIT := Entry({URI}, 0, 0)]));
    assert DocNext(s3, DidOpen(UNIT, URI)) == Some(s4);
    StepReaches(cfg, s3, PumpDoes(DidOpen(UNIT, URI)), s4);
    assert Stamp(s4.core) == s.core;
    assert PushNext(cfg, s4, StampScope(Rescope(0))) == Some(s);
    StepReaches(cfg, s4, PushDoes(StampScope(Rescope(0))), s);
  }

  lemma SomeElement(q: seq<string>)
    requires q != []
    ensures Elements(q) != {}
  {
    assert q[0] in Elements(q);
  }

  lemma NoUnitsExcludeAll()
    ensures Filters({}) == [EXCLUDE_ALL]
  {
    var q := SortedSeq({});
    if q != [] {
      SomeElement(q);
    }
  }

  /** A pull for generation 2 is answered without filters. */
  lemma EmptyAnswer(cfg: Config, s2: Sys, t: Sys)
    requires Reachable(cfg, s2) && s2.pump == Reading && s2.unconfirmedGen <= 2
    requires PULL in s2.core.configIDs && PULL in s2.core.configGens && s2.core.configGens[PULL] == 2
    requires t == s2.(core := Advance(ScopeState.Answered(s2.core, PULL), 2), pump := Reading,
                      wire := s2.wire + [ConfigMsg(None)], unconfirmedGen := 2)
    ensures Reachable(cfg, t)
  {
    hide Reachable, Advance, ScopeState.Answered;
    var s3 := s2.(core := ScopeState.Answered(s2.core, PULL), pump := Answering(2, false));
    assert AnswerNext(s2, Answer(PULL, false)) == Some(s3);
    StepReaches(cfg, s2, PumpDoes(Answer(PULL, false)), s3);
    var s4 := s3.(pump := Patched(2, None));
    assert AnswerNext(s3, PatchAnswer) == Some(s4);
    StepReaches(cfg, s3, PumpDoes(PatchAnswer), s4);
    var s5 := s4.(pump := ProxySystem.Answered(2, false), wire := s4.wire + [ConfigMsg(None)]);
    assert AnswerNext(s4, WriteAnswer) == Some(s5);
    StepReaches(cfg, s4, PumpDoes(WriteAnswer), s5);
    assert AnswerNext(s5, AdvanceAnswer) == Some(t);
    StepReaches(cfg, s5, PumpDoes(AdvanceAnswer), t);
  }

  /** An answer that carries no filters still advances the applied generation: the
      unit opened last counts as applied although gopls still excludes it. */
  lemma UnusableAnswerReleasesTooEarly(cfg: Config)
    ensures exists s :: Reachable(cfg, s) && UnitApplied(s.core, UNIT)
              && s.delivered.Some? && !Covers(s.delivered.value, UNIT)
  {
    hide Reachable;
    var s0 := INITIAL.(core := EMPTY.(scope := map[UNIT := Entry({URI}, 0, 2)], scopeGen := 2, appliedGen := 1),
                       wire := [InitMsg([EXCLUDE_ALL])], delivered := Some([EXCLUDE_ALL]),
                       pushers := map[Rescope(0) := Stamped(2)], confirmedGen := 1);
    OpenedAndStamped(cfg, s0);
    var s1 := s0.(wire := s0.wire + [ConfigurationChanged(2)], pushers := map[Rescope(0) := Announced(2)]);
    assert s1.pushers == s0.pushers[Rescope(0) := Announced(2)];
    assert PushNext(cfg, s0, Announce(Rescope(0))) == Some(s1);
    StepReaches(cfg, s0, PushDoes(Announce(Rescope(0))), s1);
    var s2 := s1.(core := Pulled(s1.core, PULL));
    StepReaches(cfg, s1, PullArrives(PULL), s2);
    var t := s2.(core := Advance(ScopeState.Answered(s2.core, PULL), 2), pump := Reading,
                 wire := s2.wire + [ConfigMsg(None)], unconfirmedGen := 2);
    EmptyAnswer(cfg, s2, t);
    assert !Covers([EXCLUDE_ALL], UNIT) by {
      assert EXCLUDE_ALL[0] == '-';
    }
  }

  // ---- a unit evicted while its reference waits ----------------------------

  /** t is reached from s. */
  ghost predicate Later(cfg: Config, s: Sys, t: Sys) {
    exists steps :: Run(cfg, s, steps) == Some(t)
  }

  lemma LaterStep(cfg: Config, s: Sys, t: Sys, step: Step, u: Sys)
    requires Later(cfg, s, t) && Next(cfg, t, step) == Some(u)
    ensures Later(cfg, s, u)
  {
    hide Next, Run;
    var steps :| Run(cfg, s, steps) == Some(t);
    RunsExtend(cfg, s, steps, step);
  }

  lemma NowIsLater(cfg: Config, s: Sys)
    ensures Later(cfg, s, s)
  {
    assert Run(cfg, s, []) == Some(s);
  }

  /** A reference waits for a published unit with nothing open in it. */
  lemma ReferenceAwaits(cfg: Config) returns (s: Sys)
    ensures Reachable(cfg, s) && s.pump == Reading && s.now == 0 && s.timers == map[] && s.unconfirmedGen == 0
    ensures s.core == EMPTY.(scope := map[UNIT := Entry({}, 0, 2)], scopeGen := 2, appliedGen := 1)
    ensures s.refs == map[0 := Awaiting(2, {UNIT})]
  {
    hide Reachable;
    var s0 := INITIAL.(core := EMPTY.(scope := map[UNIT := Entry({URI}, 0, 2)], scopeGen := 2, appliedGen := 1),
                       wire := [InitMsg([EXCLUDE_ALL])], delivered := Some([EXCLUDE_ALL]),
                       pushers := map[Rescope(0) := Stamped(2)], confirmedGen := 1);
    OpenedAndStamped(cfg, s0);
    var s1 := s0.(core := s0.core.(scope := map[UNIT := Entry({}, 0, 2)]));
    assert {URI} - {URI} == {} && s0.core.scope[UNIT := Entry({}, 0, 2)] == s1.core.scope;
    assert DocNext(s0, DidClose(UNIT, URI)) == Some(s1);
    StepReaches(cfg, s0, PumpDoes(DidClose(UNIT, URI)), s1);
    s := s1.(refs := map[0 := Awaiting(2, {UNIT})]);
    OneUnit(s1.core);
    StepReaches(cfg, s1, RefDoes(Ensure(0, [UNIT])), s);
  }

  lemma OneUnit(c: Core)
    requires c.scope == map[UNIT := Entry({}, 0, 2)]
    ensures EnsureUnits(c, [UNIT], 0) == (c, 2, false) && Elements([UNIT]) == {UNIT}
  {
    assert [UNIT][1..] == [] && [UNIT][..0] == [];
    assert WithUnits(c.scope, [UNIT], 0) == c.scope;
    assert Needed(c.scope, [UNIT]) == (2, false);
  }

  /** The sweep evicts the unit; then a pull is answered, with filters. */
  lemma SweptAndAnswered(cfg: Config, s: Sys) returns (t: Sys)
    requires s.pump == Reading && s.now == 0 && s.timers == map[] && s.unconfirmedGen == 0
    requires s.core == EMPTY.(scope := map[UNIT := Entry({}, 0, 2)], scopeGen := 2, appliedGen := 1)
    requires s.refs == map[0 := Awaiting(2, {UNIT})]
    ensures Later(cfg, s, t) && t.pump == Answering(2, true) && t.unconfirmedGen == 0
    ensures t.core.scope == map[] && t.core.appliedGen == 1 && t.refs == map[0 := Awaiting(2, {})]
  {
    hide Later;
    NowIsLater(cfg, s);
    var s1 := s.(now := 100);
    assert TimeNext(s, 100) == Some(s1);
    LaterStep(cfg, s, s, TimePasses(100), s1);
    var s2 := EvictNext(s1, 10);
    assert Idle(s1.core.scope[UNIT], 10, 100) && s2.core.scope == map[];
    assert {UNIT} * s2.core.scope.Keys == {};
    assert s2.refs == map[0 := Awaiting(2, {})];
    LaterStep(cfg, s, s1, EvictionSweeps(10), s2);
    var s3 := s2.(core := Pulled(s2.core, PULL));
    LaterStep(cfg, s, s2, PullArrives(PULL), s3);
    t := s3.(core := ScopeState.Answered(s3.core, PULL), pump := Answering(2, true));
    assert AnswerNext(s3, Answer(PULL, true)) == Some(t);
    LaterStep(cfg, s, s3, PumpDoes(Answer(PULL, true)), t);
  }

  lemma AnsweredWithFilters(cfg: Config, s: Sys, s0: Sys) returns (t: Sys)
    requires Later(cfg, s, s0) && s0.pump == Answering(2, true) && s0.unconfirmedGen == 0
    requires s0.core.scope == map[] && s0.core.appliedGen == 1
    ensures Later(cfg, s, t) && t.refs == s0.refs && t.unconfirmedGen == 0 && t.confirmedGen >= 2
    ensures t.delivered == Some([EXCLUDE_ALL]) && t.core.appliedGen == 2
  {
    hide Later, Filters;
    NoUnitsExcludeAll();
    var s1 := s0.(pump := Patched(2, Some([EXCLUDE_ALL])));
    assert s0.core.scope.Keys == {};
    assert AnswerNext(s0, PatchAnswer) == Some(s1);
    LaterStep(cfg, s, s0, PumpDoes(PatchAnswer), s1);
    var s2 := Send(s1, ConfigMsg(Some([EXCLUDE_ALL]))).(pump := ProxySystem.Answered(2, true));
    assert AnswerNext(s1, WriteAnswer) == Some(s2);
    LaterStep(cfg, s, s1, PumpDoes(WriteAnswer), s2);
    t := s2.(core := Advance(s2.core, 2), pump := Reading, confirmedGen := Max(s2.confirmedGen, 2));
    assert AnswerNext(s2, AdvanceAnswer) == Some(t);
    LaterStep(cfg, s, s2, PumpDoes(AdvanceAnswer), t);
  }

  lemma AnsweredAndReached(cfg: Config, s: Sys, s0: Sys) returns (t: Sys)
    requires Later(cfg, s, s0) && s0.pump == Answering(2, true) && s0.unconfirmedGen == 0
    requires s0.core.scope == map[] && s0.core.appliedGen == 1 && s0.refs == map[0 := Awaiting(2, {})]
    ensures Later(cfg, s, t) && t.refs == map[0 := Ready(2, {}, true)] && t.confirmedGen >= 2
    ensures t.delivered == Some([EXCLUDE_ALL])
  {
    hide Later;
    var s3 := AnsweredWithFilters(cfg, s, s0);
    t := s3.(refs := map[0 := Ready(2, {}, true)]);
    assert s3.refs[0 := Ready(2, {}, true)] == t.refs;
    assert RefNext(s3, PollRef(0)) == Some(t);
    LaterStep(cfg, s, s3, RefDoes(PollRef(0)), t);
  }

  /** A requested unit that is evicted while its reference waits can be missing when
      the reference is released, its barrier duly confirmed. */
  lemma EvictedUnitIsMissing(cfg: Config)
    ensures exists s, t :: Reachable(cfg, s) && Later(cfg, s, t)
              && 0 in s.refs && s.refs[0].Awaiting? && UNIT in s.refs[0].kept
              && 0 in t.refs && t.refs[0].Ready? && t.refs[0].reached && t.refs[0].need <= t.confirmedGen
              && t.delivered.Some? && !Covers(t.delivered.value, UNIT)
  {
    hide Reachable, Later;
    var s := ReferenceAwaits(cfg);
    var m := SweptAndAnswered(cfg, s);
    var t := AnsweredAndReached(cfg, s, m);
    assert !Covers([EXCLUDE_ALL], UNIT) by {
      assert EXCLUDE_ALL[0] == '-';
    }
  }
}
