/** What stays in scope, and what configuration answers bring about, told from the
    steps of a run alone. */
module ScopeProofs {
  import opened Options
  import opened Strings
  import opened ScopeState
  import opened ProxySystem
  import opened BarrierProofs
  import References

  // ---- the documents open in a unit ----------------------------------------

  predicate Opens(step: Step, unit: string) {
    step.PumpDoes? && step.p.DidOpen? && step.p.openUnit == unit
  }

  predicate Closes(step: Step, unit: string) {
    step.PumpDoes? && step.p.DidClose? && step.p.closeUnit == unit
  }

  function OpenStep(open: set<string>, step: Step, unit: string): set<string> {
    if Opens(step, unit) then open + {step.p.openUri}
    else if Closes(step, unit) then open - {step.p.closeUri}
    else open
  }

  /** The documents of the unit opened and not closed again. */
  function OpenAfter(open: set<string>, steps: seq<Step>, unit: string): set<string>
    decreases steps
  {
    if steps == [] then open else OpenAfter(OpenStep(open, steps[0], unit), steps[1..], unit)
  }

  function TouchStep(s: Sys, step: Step, unit: string, last: int): int {
    if Opens(step, unit) || Closes(step, unit) || unit !in s.core.scope then s.now else last
  }

  /** When a document of the unit was last opened or closed, or the unit was last out of
      scope, whichever is later. */
  ghost function TouchedAfter(cfg: Config, s: Sys, steps: seq<Step>, unit: string, last: int): int
    decreases steps
  {
    if steps == [] then last
    else match Next(cfg, s, steps[0])
      case None => last
      case Some(t) => TouchedAfter(cfg, t, steps[1..], unit, TouchStep(s, steps[0], unit, last))
  }

  ghost predicate EntryIs(c: Core, unit: string, open: set<string>, last: int) {
    if unit in c.scope then c.scope[unit].open == open && c.scope[unit].lastActive == last else open == {}
  }

  /** The unit's entry stays, is new, or goes with nothing open; and the configuration
      pulls stay. */
  ghost predicate Spares(c: Core, d: Core, unit: string, now: int) {
    && (unit in c.scope && unit in d.scope ==>
          d.scope[unit].open == c.scope[unit].open && d.scope[unit].lastActive == c.scope[unit].lastActive)
    && (unit in c.scope && unit !in d.scope ==> c.scope[unit].open == {})
    && (unit !in c.scope && unit in d.scope ==> d.scope[unit].open == {} && d.scope[unit].lastActive == now)
  }

  ghost predicate SamePulls(c: Core, d: Core) {
    d.configIDs == c.configIDs && d.configGens == c.configGens && d.sawConfigPull == c.sawConfigPull
  }

  lemma InitSpares(s: Sys, step: PumpStep, t: Sys, unit: string)
    requires InitNext(s, step) == Some(t)
    ensures Spares(s.core, t.core, unit, s.now) && SamePulls(s.core, t.core)
  {
    hide WithUnits, Filters;
    if step.RestoreScope? {
      WithUnitsHolds(s.core.scope, step.restored, s.now);
    }
  }

  lemma AnswerSpares(s: Sys, step: PumpStep, t: Sys, unit: string)
    requires AnswerNext(s, step) == Some(t)
    ensures Spares(s.core, t.core, unit, s.now) && (!step.Answer? ==> SamePulls(s.core, t.core))
  {
    hide Filters;
  }

  lemma DocTouches(s: Sys, step: PumpStep, t: Sys, unit: string, open: set<string>, last: int)
    requires DocNext(s, step) == Some(t) && EntryIs(s.core, unit, open, last)
    ensures SamePulls(s.core, t.core)
    ensures EntryIs(t.core, unit, OpenStep(open, PumpDoes(step), unit), TouchStep(s, PumpDoes(step), unit, last))
  {
  }

  lemma HoldSpares(s: Sys, step: PumpStep, t: Sys, unit: string)
    requires HoldNext(s, step) == Some(t) || ReleaseNext(s, step) == Some(t)
    ensures Spares(s.core, t.core, unit, s.now) && SamePulls(s.core, t.core)
  {
    hide UnitPending, WriterIsWaiter;
  }

  lemma PushSpares(cfg: Config, s: Sys, step: PushStep, t: Sys, unit: string)
    requires PushNext(cfg, s, step) == Some(t)
    ensures Spares(s.core, t.core, unit, s.now) && SamePulls(s.core, t.core)
  {
  }

  lemma RefSpares(s: Sys, step: RefStep, t: Sys, unit: string)
    requires RefNext(s, step) == Some(t)
    ensures Spares(s.core, t.core, unit, s.now) && SamePulls(s.core, t.core)
  {
    hide RefNext, EnsureUnits, AppliedChannel, Elements, RefMoves;
    if step.Ensure? {
      EnsureFrame(s, step, t);
      EnsureUnitsIsEnough(s.core, step.units, s.now);
    } else {
      RefFrame(s, step, t);
      ChannelFrame(s.core);
    }
  }

  lemma WaitSpares(s: Sys, step: WaitStep, t: Sys, unit: string)
    requires WaitNext(s, step) == Some(t)
    ensures Spares(s.core, t.core, unit, s.now) && SamePulls(s.core, t.core)
  {
    hide WaitNext;
    WaitCore(s, step, t);
  }

  lemma RestSpares(cfg: Config, s: Sys, step: Step, t: Sys, unit: string)
    requires Next(cfg, s, step) == Some(t)
    requires step.PullArrives? || step.EvictionSweeps? || step.FallbackFires? || step.TimePasses?
    ensures Spares(s.core, t.core, unit, s.now) && (!step.PullArrives? ==> SamePulls(s.core, t.core))
  {
    hide FireNext;
    if step.FallbackFires? {
      FireFrame(s, step.gen, t);
    }
  }

  lemma SparedEntryIs(s: Sys, step: Step, t: Sys, unit: string, open: set<string>, last: int)
    requires EntryIs(s.core, unit, open, last) && Spares(s.core, t.core, unit, s.now)
    requires !Opens(step, unit) && !Closes(step, unit)
    ensures EntryIs(t.core, unit, OpenStep(open, step, unit), TouchStep(s, step, unit, last))
  {
  }

  lemma OnlyDocsTouch(s: Sys, step: PumpStep, t: Sys, unit: string)
    requires InitNext(s, step) == Some(t) || AnswerNext(s, step) == Some(t) || HoldNext(s, step) == Some(t)
             || ReleaseNext(s, step) == Some(t)
    ensures !Opens(PumpDoes(step), unit) && !Closes(PumpDoes(step), unit)
  {
    hide Filters, UnitPending, WriterIsWaiter;
  }

  lemma StepKeepsEntry(cfg: Config, s: Sys, step: Step, t: Sys, unit: string, open: set<string>, last: int)
    requires Next(cfg, s, step) == Some(t) && EntryIs(s.core, unit, open, last)
    ensures EntryIs(t.core, unit, OpenStep(open, step, unit), TouchStep(s, step, unit, last))
    ensures !step.PullArrives? && !(step.PumpDoes? && step.p.Answer?) ==> SamePulls(s.core, t.core)
  {
    hide *;
    StepCases(cfg, s, step, t);
    match step {
      case PumpDoes(p) =>
        PumpCases(s, p, t);
        if DocNext(s, p) == Some(t) {
          DocTouches(s, p, t, unit, open, last);
          return;
        }
        OnlyDocsTouch(s, p, t, unit);
        if InitNext(s, p) == Some(t) {
          InitSpares(s, p, t, unit);
        } else if AnswerNext(s, p) == Some(t) {
          AnswerSpares(s, p, t, unit);
        } else {
          HoldSpares(s, p, t, unit);
        }
      case PushDoes(u) => PushSpares(cfg, s, u, t, unit);
      case RefDoes(r) => RefSpares(s, r, t, unit);
      case WaiterDoes(w) => WaitSpares(s, w, t, unit);
      case _ => RestSpares(cfg, s, step, t, unit);
    }
    OthersTouchNothing(step, unit);
    SparedEntryIs(s, step, t, unit, open, last);
  }

  lemma OthersTouchNothing(step: Step, unit: string)
    ensures !step.PumpDoes? ==> !Opens(step, unit) && !Closes(step, unit)
  {
  }

  lemma {:induction false} RunKeepsEntry(cfg: Config, s: Sys, steps: seq<Step>, t: Sys, unit: string,
                                         open: set<string>, last: int)
    requires Run(cfg, s, steps) == Some(t) && EntryIs(s.core, unit, open, last)
    ensures EntryIs(t.core, unit, OpenAfter(open, steps, unit), TouchedAfter(cfg, s, steps, unit, last))
    decreases steps
  {
    hide Next, EntryIs, OpenStep, TouchStep;
    if steps != [] {
      var next := Next(cfg, s, steps[0]).value;
      StepKeepsEntry(cfg, s, steps[0], next, unit, open, last);
      RunKeepsEntry(cfg, next, steps[1..], t, unit, OpenStep(open, steps[0], unit), TouchStep(s, steps[0], unit, last));
    }
  }

  /** A unit with an open document is in scope, whatever is evicted; and each unit in
      scope knows exactly the documents opened in it and not closed again, and when that
      last changed. */
  lemma OpenDocumentsKeepTheirUnit(cfg: Config, steps: seq<Step>, t: Sys, unit: string)
    requires Run(cfg, INITIAL, steps) == Some(t)
    ensures OpenAfter({}, steps, unit) != {} ==> unit in t.core.scope
    ensures unit in t.core.scope ==>
              && t.core.scope[unit].open == OpenAfter({}, steps, unit)
              && t.core.scope[unit].lastActive == TouchedAfter(cfg, INITIAL, steps, unit, 0)
  {
    hide Run, OpenAfter, TouchedAfter;
    RunKeepsEntry(cfg, INITIAL, steps, t, unit, {}, 0);
  }

  /** A sweep takes out of scope exactly the units whose documents are all closed and
      which have been like that, and in scope, for longer than the TTL. */
  lemma SweepIsExact(cfg: Config, steps: seq<Step>, s: Sys, ttl: int, t: Sys, unit: string)
    requires Run(cfg, INITIAL, steps) == Some(s) && Next(cfg, s, EvictionSweeps(ttl)) == Some(t)
    ensures unit in t.core.scope <==>
              unit in s.core.scope
              && (OpenAfter({}, steps, unit) != {} || s.now - TouchedAfter(cfg, INITIAL, steps, unit, 0) <= ttl)
    ensures unit in t.core.scope ==> t.core.scope[unit] == s.core.scope[unit]
  {
    hide Run, OpenAfter, TouchedAfter;
    OpenDocumentsKeepTheirUnit(cfg, steps, s, unit);
  }

  // ---- configuration pulls and their answers -------------------------------

  /** The pull is remembered with the generation live when it arrived. */
  ghost predicate Remembers(c: Core, id: string, gen: nat) {
    id in c.configIDs && id in c.configGens && c.configGens[id] == gen
  }

  predicate Names(step: Step, id: string) {
    step == PullArrives(id) || (step.PumpDoes? && step.p.Answer? && step.p.configId == id)
  }

  lemma StepRemembers(cfg: Config, s: Sys, step: Step, t: Sys, id: string, gen: nat)
    requires Next(cfg, s, step) == Some(t) && !Names(step, id)
    ensures Remembers(s.core, id, gen) ==> Remembers(t.core, id, gen)
    ensures id !in s.core.configIDs ==> id !in t.core.configIDs
  {
    if step.PullArrives? {
    } else if step.PumpDoes? && step.p.Answer? {
      assert AnswerNext(s, step.p) == Some(t);
    } else {
      hide Next;
      var open := if "" in s.core.scope then s.core.scope[""].open else {};
      var last := if "" in s.core.scope then s.core.scope[""].lastActive else 0;
      StepKeepsEntry(cfg, s, step, t, "", open, last);
    }
  }

  lemma {:induction false} RunRemembers(cfg: Config, s: Sys, steps: seq<Step>, t: Sys, id: string, gen: nat)
    requires Run(cfg, s, steps) == Some(t) && forall step <- steps :: !Names(step, id)
    ensures Remembers(s.core, id, gen) ==> Remembers(t.core, id, gen)
    ensures id !in s.core.configIDs ==> id !in t.core.configIDs
    decreases steps
  {
    hide Next, Remembers, Names;
    if steps != [] {
      var next := Next(cfg, s, steps[0]).value;
      assert forall step <- steps[1..] :: step in steps;
      StepRemembers(cfg, s, steps[0], next, id, gen);
      RunRemembers(cfg, next, steps[1..], t, id, gen);
    }
  }

  predicate Handling(p: Pump) {
    p.Answering? || p.Patched? || p.Answered?
  }

  /** The pump is handling an answer for gen, or has applied gen. */
  predicate AnswersFor(s: Sys, gen: nat, usable: bool) {
    || (s.pump == Answering(gen, usable))
    || (s.pump.Patched? && s.pump.gen == gen && s.pump.answer.Some? == usable)
    || (s.pump == ProxySystem.Answered(gen, usable))
    || (gen <= s.core.appliedGen && (usable ==> gen <= s.confirmedGen))
  }

  lemma AnswerKeepsAnswering(s: Sys, step: PumpStep, t: Sys, gen: nat, usable: bool)
    requires AnswerNext(s, step) == Some(t) && AnswersFor(s, gen, usable)
    ensures AnswersFor(t, gen, usable)
  {
    hide Filters;
  }

  lemma StepKeepsAnswering(cfg: Config, s: Sys, step: Step, t: Sys, gen: nat, usable: bool)
    requires Next(cfg, s, step) == Some(t) && AnswersFor(s, gen, usable)
    ensures AnswersFor(t, gen, usable)
  {
    hide Next;
    StepCases(cfg, s, step, t);
    if step.PumpDoes? && AnswerNext(s, step.p) == Some(t) {
      AnswerKeepsAnswering(s, step.p, t, gen, usable);
    } else {
      hide AnswerNext;
      OthersLeaveAnswers(cfg, s, step, t);
    }
  }

  /** No other step touches an answer in the pump's hands, and none un-applies or
      un-confirms a generation. */
  lemma OthersLeaveAnswers(cfg: Config, s: Sys, step: Step, t: Sys)
    requires Next(cfg, s, step) == Some(t) && !(step.PumpDoes? && AnswerNext(s, step.p) == Some(t))
    ensures Handling(s.pump) ==> t.pump == s.pump
    ensures s.core.appliedGen <= t.core.appliedGen && s.confirmedGen <= t.confirmedGen
  {
    hide *;
    AsideCases(cfg, s, step, t);
    if step.PumpDoes? && InitNext(s, step.p) == Some(t) {
      InitLeavesAnswers(s, step.p, t);
    } else if step.PushDoes? {
      PushLeavesAnswers(cfg, s, step.u, t);
    } else if step.FallbackFires? {
      FireLeavesAnswers(s, step.gen, t);
    } else if step.EvictionSweeps? {
      EvictionLeavesAnswers(s, step.ttl);
    } else if Aside(s, t) {
      AsideLeavesAnswers(s, t);
    }
  }

  lemma InitLeavesAnswers(s: Sys, step: PumpStep, t: Sys)
    requires InitNext(s, step) == Some(t)
    ensures !Handling(s.pump) && s.core.appliedGen <= t.core.appliedGen && s.confirmedGen <= t.confirmedGen
  {
    hide WithUnits, Filters;
  }

  lemma PushLeavesAnswers(cfg: Config, s: Sys, step: PushStep, t: Sys)
    requires PushNext(cfg, s, step) == Some(t)
    ensures t.pump == s.pump && s.core.appliedGen == t.core.appliedGen && s.confirmedGen == t.confirmedGen
  {
  }

  lemma FireLeavesAnswers(s: Sys, gen: nat, t: Sys)
    requires FireNext(s, gen) == Some(t)
    ensures t.pump == s.pump && s.core.appliedGen <= t.core.appliedGen && s.confirmedGen == t.confirmedGen
  {
    hide FireNext;
    FireFrame(s, gen, t);
  }

  lemma EvictionLeavesAnswers(s: Sys, ttl: int)
    ensures var t := EvictNext(s, ttl);
            t.pump == s.pump && s.core.appliedGen == t.core.appliedGen && s.confirmedGen == t.confirmedGen
  {
  }

  lemma AsideLeavesAnswers(s: Sys, t: Sys)
    requires Aside(s, t)
    ensures Handling(s.pump) ==> t.pump == s.pump
    ensures s.core.appliedGen <= t.core.appliedGen && s.confirmedGen <= t.confirmedGen
  {
    hide AddsNoFilters;
  }

  lemma {:induction false} RunKeepsAnswering(cfg: Config, s: Sys, steps: seq<Step>, t: Sys, gen: nat, usable: bool)
    requires Run(cfg, s, steps) == Some(t) && AnswersFor(s, gen, usable)
    ensures AnswersFor(t, gen, usable)
    decreases steps
  {
    hide Next, AnswersFor;
    if steps != [] {
      var next := Next(cfg, s, steps[0]).value;
      StepKeepsAnswering(cfg, s, steps[0], next, gen, usable);
      RunKeepsAnswering(cfg, next, steps[1..], t, gen, usable);
    }
  }

  /** An answer to a configuration pull applies the generation live when the pull
      arrived, and with filters in it confirms that generation, whatever happens between
      the pull, the answer and the end of its handling. */
  lemma AnswersApplyTheirPull(cfg: Config, s: Sys, id: string, pulled: Sys, before: seq<Step>, m: Sys, usable: bool,
                              taken: Sys, after: seq<Step>, t: Sys)
    requires Next(cfg, s, PullArrives(id)) == Some(pulled)
    requires Run(cfg, pulled, before) == Some(m) && forall step <- before :: !Names(step, id)
    requires Next(cfg, m, PumpDoes(Answer(id, usable))) == Some(taken)
    requires Run(cfg, taken, after) == Some(t) && !Handling(t.pump)
    ensures s.core.scopeGen <= t.core.appliedGen && (usable ==> s.core.scopeGen <= t.confirmedGen)
  {
    hide Run, Handling;
    assert Remembers(pulled.core, id, s.core.scopeGen);
    RunRemembers(cfg, pulled, before, m, id, s.core.scopeGen);
    assert AnswerNext(m, Answer(id, usable)) == Some(taken);
    assert AnswersFor(taken, s.core.scopeGen, usable);
    hide Next, AnswerNext;
    RunKeepsAnswering(cfg, taken, after, t, s.core.scopeGen, usable);
    assert Handling(t.pump) <==> t.pump.Answering? || t.pump.Patched? || t.pump.Answered? by {
      HandlingCases(t.pump);
    }
  }

  lemma HandlingCases(p: Pump)
    ensures Handling(p) <==> p.Answering? || p.Patched? || p.Answered?
  {
  }

  /** So every unit published by the time of the pull, if it is still in scope, is
      covered by the filters gopls has once a usable answer to it has been handled. */
  lemma AnsweredPullCoversUnits(cfg: Config, s: Sys, id: string, pulled: Sys, before: seq<Step>, m: Sys, taken: Sys,
                                after: seq<Step>, t: Sys, unit: string)
    requires Reachable(cfg, s) && Next(cfg, s, PullArrives(id)) == Some(pulled)
    requires Run(cfg, pulled, before) == Some(m) && forall step <- before :: !Names(step, id)
    requires Next(cfg, m, PumpDoes(Answer(id, true))) == Some(taken)
    requires Run(cfg, taken, after) == Some(t) && !Handling(t.pump)
    requires unit in t.core.scope && 0 < t.core.scope[unit].gen <= s.core.scopeGen
    ensures t.delivered.Some? && Covers(t.delivered.value, unit)
  {
    hide Run, Handling, Next, Reachable, Covers;
    AnswersApplyTheirPull(cfg, s, id, pulled, before, m, true, taken, after, t);
    StepReaches(cfg, s, PullArrives(id), pulled);
    References.RunReaches(cfg, pulled, before, m);
    StepReaches(cfg, m, PumpDoes(Answer(id, true)), taken);
    References.RunReaches(cfg, taken, after, t);
    BarrierIsSound(cfg, t, unit);
  }

  /** A pull is answered once: until gopls asks again under the same id, a further answer
      to it passes through unpatched. */
  lemma SecondAnswerIsPlain(cfg: Config, s: Sys, id: string, usable: bool, taken: Sys, steps: seq<Step>, m: Sys,
                            again: bool, t: Sys)
    requires Next(cfg, s, PumpDoes(Answer(id, usable))) == Some(taken)
    requires Run(cfg, taken, steps) == Some(m) && forall step <- steps :: !Names(step, id)
    requires Next(cfg, m, PumpDoes(Answer(id, again))) == Some(t)
    ensures t.pump == Reading && t.core.scope == m.core.scope && t.core.appliedGen == m.core.appliedGen
  {
    hide Run;
    assert AnswerNext(s, Answer(id, usable)) == Some(taken);
    assert id !in taken.core.configIDs;
    RunRemembers(cfg, taken, steps, m, id, 0);
    assert AnswerNext(m, Answer(id, again)) == Some(t);
  }

  lemma StepSawPull(cfg: Config, s: Sys, step: Step, t: Sys)
    requires Next(cfg, s, step) == Some(t)
    ensures t.core.sawConfigPull <==> s.core.sawConfigPull || step.PullArrives?
  {
    if step.PullArrives? {
    } else if step.PumpDoes? && step.p.Answer? {
      assert AnswerNext(s, step.p) == Some(t);
    } else {
      hide Next;
      var open := if "" in s.core.scope then s.core.scope[""].open else {};
      var last := if "" in s.core.scope then s.core.scope[""].lastActive else 0;
      StepKeepsEntry(cfg, s, step, t, "", open, last);
    }
  }

  /** A pull has been seen if and only if one has arrived. */
  lemma {:induction false} PullsAreSeen(cfg: Config, s: Sys, steps: seq<Step>, t: Sys)
    requires Run(cfg, s, steps) == Some(t)
    ensures t.core.sawConfigPull <==> s.core.sawConfigPull || exists step <- steps :: step.PullArrives?
    decreases steps
  {
    hide Next;
    if steps != [] {
      var next := Next(cfg, s, steps[0]).value;
      StepSawPull(cfg, s, steps[0], next);
      PullsAreSeen(cfg, next, steps[1..], t);
      assert forall step :: step in steps <==> step == steps[0] || step in steps[1..];
    }
  }

  // ---- what initialize asks for --------------------------------------------

  /** The unit is on its way into initialize's filters, or confirmed. */
  predicate Asked(s: Sys, unit: string) {
    unit in s.core.scope &&
    (s.pump.Restored? || (s.pump.Initializing? && 0 < s.core.scope[unit].gen <= s.pump.gen)
     || 0 < s.core.scope[unit].gen <= s.confirmedGen)
  }

  lemma InitKeepsAsked(s: Sys, step: PumpStep, t: Sys, unit: string)
    requires InitNext(s, step) == Some(t) && CoreBounded(s.core) && Asked(s, unit) && unit in t.core.scope
    ensures Asked(t, unit)
  {
    hide WithUnits, Filters, Stamp;
    match step
    case RestoreScope(restored) => WithUnitsHolds(s.core.scope, restored, s.now);
    case StampInitial => StampBounds(s.core);
    case _ =>
  }

  lemma AnswerKeepsAsked(s: Sys, step: PumpStep, t: Sys, unit: string)
    requires AnswerNext(s, step) == Some(t) && Asked(s, unit)
    ensures Asked(t, unit)
  {
    hide Filters;
  }

  /** Only the pump moves itself, and from between the sections of initialize only on. */
  lemma OthersLeavePump(cfg: Config, s: Sys, step: Step, t: Sys)
    requires Next(cfg, s, step) == Some(t)
    ensures !step.PumpDoes? ==> t.pump == s.pump && t.confirmedGen == s.confirmedGen
    ensures step.PumpDoes? && (s.pump.Restored? || s.pump.Initializing?) ==> InitNext(s, step.p) == Some(t)
  {
    hide *;
    StepCases(cfg, s, step, t);
    match step {
      case PumpDoes(p) =>
        PumpCases(s, p, t);
        OnlyInitializing(s, p, t);
      case PushDoes(u) => PushLeavesAnswers(cfg, s, u, t);
      case RefDoes(r) => RefLeavesPump(s, r, t);
      case WaiterDoes(w) => WaitCore(s, w, t);
      case FallbackFires(gen) => FireFrame(s, gen, t);
      case EvictionSweeps(ttl) => EvictionLeavesAnswers(s, ttl);
      case _ =>
    }
  }

  lemma OnlyInitializing(s: Sys, step: PumpStep, t: Sys)
    requires AnswerNext(s, step) == Some(t) || DocNext(s, step) == Some(t) || HoldNext(s, step) == Some(t)
             || ReleaseNext(s, step) == Some(t) || InitNext(s, step) == Some(t)
    ensures s.pump.Restored? || s.pump.Initializing? ==> InitNext(s, step) == Some(t)
  {
    hide InitNext, Filters, UnitPending, WriterIsWaiter;
  }

  lemma RefLeavesPump(s: Sys, step: RefStep, t: Sys)
    requires RefNext(s, step) == Some(t)
    ensures t.pump == s.pump && t.confirmedGen == s.confirmedGen
  {
    hide RefNext, EnsureUnits, Elements, AppliedChannel;
    if step.Ensure? {
      EnsureFrame(s, step, t);
    } else {
      RefFrame(s, step, t);
    }
  }

  lemma StepKeepsAsked(cfg: Config, s: Sys, step: Step, t: Sys, unit: string)
    requires Next(cfg, s, step) == Some(t) && BarrierHolds(s) && Asked(s, unit) && unit in t.core.scope
    ensures Asked(t, unit)
  {
    hide Next, BarrierHolds, InitNext, AnswerNext;
    BarrierBounds(s);
    OthersLeavePump(cfg, s, step, t);
    if step.PumpDoes? && InitNext(s, step.p) == Some(t) {
      InitKeepsAsked(s, step.p, t, unit);
    } else if step.PumpDoes? && AnswerNext(s, step.p) == Some(t) {
      AnswerKeepsAsked(s, step.p, t, unit);
    } else {
      OthersLeaveAnswers(cfg, s, step, t);
      SameGeneration(cfg, s, step, t, unit);
    }
  }

  /** A published unit that stays in scope keeps its generation. */
  lemma SameGeneration(cfg: Config, s: Sys, step: Step, t: Sys, unit: string)
    requires Next(cfg, s, step) == Some(t) && unit in s.core.scope && unit in t.core.scope
    ensures s.core.scope[unit].gen > 0 ==> t.core.scope[unit].gen == s.core.scope[unit].gen
  {
    if !step.EvictionSweeps? {
      hide Next;
      StepGrows(cfg, s, step, t);
    }
  }

  lemma {:induction false} RunKeepsAsked(cfg: Config, s: Sys, steps: seq<Step>, t: Sys, unit: string)
    requires Run(cfg, s, steps) == Some(t) && References.StaysInScope(cfg, s, steps, unit)
    requires BarrierHolds(s) && Asked(s, unit)
    ensures Asked(t, unit)
    decreases steps
  {
    hide Next, BarrierHolds, Asked;
    if steps != [] {
      var next := Next(cfg, s, steps[0]).value;
      assert unit in next.core.scope by {
        assert References.StaysInScope(cfg, next, steps[1..], unit);
      }
      StepKeepsAsked(cfg, s, steps[0], next, unit);
      StepKeepsBarrier(cfg, s, steps[0], next);
      RunKeepsAsked(cfg, next, steps[1..], t, unit);
    }
  }

  /** What a session left in scope is loaded from the start of the next: once initialize
      is written, the filters gopls has cover every restored unit, as long as it stays in
      scope. */
  lemma RestoredUnitsAreLoaded(cfg: Config, s: Sys, restored: seq<string>, start: Sys, steps: seq<Step>, t: Sys,
                               unit: string)
    requires Reachable(cfg, s) && Next(cfg, s, PumpDoes(RestoreScope(restored))) == Some(start) && unit in restored
    requires Run(cfg, start, steps) == Some(t) && References.StaysInScope(cfg, start, steps, unit)
    requires !t.pump.Restored? && !t.pump.Initializing?
    ensures t.delivered.Some? && Covers(t.delivered.value, unit)
  {
    hide Run, Reachable, Covers, BarrierHolds, References.StaysInScope;
    assert InitNext(s, RestoreScope(restored)) == Some(start);
    WithUnitsHolds(s.core.scope, restored, s.now);
    assert Asked(start, unit);
    hide Next, InitNext;
    StepReaches(cfg, s, PumpDoes(RestoreScope(restored)), start);
    ReachableKeepsBarrier(cfg, start);
    RunKeepsAsked(cfg, start, steps, t, unit);
    References.RunReaches(cfg, start, steps, t);
    BarrierIsSound(cfg, t, unit);
  }
}
