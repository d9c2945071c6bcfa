/** The state p.mu guards, and what each critical section does to it. */
module ScopeState {
  import opened Options
  import opened Strings

  /** Why a unit is in scope; gen is 0 until the unit is published. */
  datatype Entry = Entry(open: set<string>, lastActive: int, gen: nat)

  type Scope = map<string, Entry>

  /** Channels are numbered in the order they are made; closed holds the ones that
      have been closed. Held requests are known by number too. */
  datatype Core = Core(
    scope: Scope,
    configIDs: set<string>,
    configGens: map<string, nat>,
    sawConfigPull: bool,
    scopeGen: nat,
    appliedGen: nat,
    appliedCh: Option<nat>,
    nextCh: nat,
    closed: set<nat>,
    heldDefs: map<string, seq<nat>>)

  const EMPTY: Core := Core(map[], {}, map[], false, 0, 0, None, 0, {}, map[])

  // ---- directory filters ---------------------------------------------------

  const EXCLUDE_ALL: string := "-**"

  function Included(units: seq<string>): (r: seq<string>)
    ensures |r| == |units| && forall i :: 0 <= i < |r| ==> r[i] == "+" + units[i]
  {
    seq(|units|, i requires 0 <= i < |units| => "+" + units[i])
  }

  ghost function Filters(units: set<string>): seq<string> {
    if "." in units then [] else [EXCLUDE_ALL] + Included(SortedSeq(units))
  }

  /** gopls loads a unit when nothing is filtered or the unit is included. */
  predicate Covers(filters: seq<string>, unit: string) {
    filters == [] || "+" + unit in filters
  }

  /** The filters cover exactly the units in scope, or everything when the
      workspace root itself is in scope. */
  lemma FiltersCoverScope(units: set<string>, unit: string)
    ensures Covers(Filters(units), unit) <==> "." in units || unit in units
  {
    var q := SortedSeq(units);
    if "." !in units {
      if unit in units {
        assert unit in Elements(q);
        var i :| 0 <= i < |q| && q[i] == unit;
        assert Included(q)[i] == "+" + unit;
      }
      if "+" + unit in Filters(units) {
        var i :| 0 <= i < |Filters(units)| && Filters(units)[i] == "+" + unit;
        assert Filters(units)[i][0] == '+';
        assert Included(q)[i - 1] == "+" + q[i - 1];
        assert ("+" + unit)[1..] == unit && ("+" + q[i - 1])[1..] == q[i - 1];
        assert q[i - 1] in Elements(q);
      }
    }
  }

  /** Without the root in scope, everything is excluded first and units only included. */
  lemma FiltersExcludeFirst(units: set<string>, i: nat)
    ensures "." in units <==> Filters(units) == []
    ensures i < |Filters(units)| ==>
              if i == 0 then Filters(units)[i] == "-**" else Filters(units)[i] != "" && Filters(units)[i][0] == '+'
  {
    if "." !in units && 0 < i < |Filters(units)| {
      var q := SortedSeq(units);
      assert Filters(units)[i] == Included(q)[i - 1] == "+" + q[i - 1];
    }
  }

  // ---- the generation barrier ----------------------------------------------

  function StampedEntry(e: Entry, gen: nat): Entry {
    if e.gen == 0 then e.(gen := gen) else e
  }

  /** A new generation, given to every entry not yet published. */
  function Stamp(c: Core): Core {
    var gen := c.scopeGen + 1;
    c.(scopeGen := gen, scope := map u | u in c.scope :: StampedEntry(c.scope[u], gen))
  }

  function WithUnits(scope: Scope, units: seq<string>, now: int): Scope
    decreases units
  {
    if units == [] then scope
    else WithUnits(if units[0] in scope then scope else scope[units[0] := Entry({}, now, 0)], units[1..], now)
  }

  lemma {:induction false} WithUnitsHolds(scope: Scope, units: seq<string>, now: int)
    ensures var r := WithUnits(scope, units, now);
            && (forall u :: u in r <==> u in scope || u in units)
            && (forall u <- r :: r[u] == if u in scope then scope[u] else Entry({}, now, 0))
    decreases units
  {
    if units != [] {
      var next := if units[0] in scope then scope else scope[units[0] := Entry({}, now, 0)];
      WithUnitsHolds(next, units[1..], now);
      assert forall u :: u in units <==> u == units[0] || u in units[1..];
    }
  }

  /** The highest generation among units, and whether one is unpublished. */
  function Needed(scope: Scope, units: seq<string>): (nat, bool)
    requires forall u <- units :: u in scope
  {
    if units == [] then (0, false)
    else
      var n := |units| - 1;
      assert forall u <- units[..n] :: u in units;
      assert units[n] in units;
      var (gen, push) := Needed(scope, units[..n]);
      var e := scope[units[n]];
      if e.gen == 0 then (gen, true) else (if e.gen > gen then e.gen else gen, push)
  }

  lemma {:induction false} NeededIsEnough(scope: Scope, units: seq<string>)
    requires forall u <- units :: u in scope
    ensures Needed(scope, units).1 <==> exists u <- units :: scope[u].gen == 0
    ensures forall u <- units :: scope[u].gen <= Needed(scope, units).0
    ensures Needed(scope, units).0 == 0 || exists u <- units :: scope[u].gen == Needed(scope, units).0
  {
    if units != [] {
      var n := |units| - 1;
      assert forall u <- units[..n] :: u in units;
      assert units[n] in units;
      NeededIsEnough(scope, units[..n]);
      assert forall u :: u in units <==> u == units[n] || u in units[..n] by {
        assert units == units[..n] + [units[n]];
      }
    }
  }

  /** ensureUnitsLocked: the new state, the generation to await, and whether a
      push is needed first. */
  function EnsureUnits(c: Core, units: seq<string>, now: int): (Core, nat, bool) {
    WithUnitsHolds(c.scope, units, now);
    var scope := WithUnits(c.scope, units, now);
    var (gen, needPush) := Needed(scope, units);
    (c.(scope := scope), gen, needPush)
  }

  /** Without a push, every unit is published no later than the generation to
      await, which is one of theirs. */
  lemma EnsureUnitsIsEnough(c: Core, units: seq<string>, now: int)
    ensures var (after, gen, needPush) := EnsureUnits(c, units, now);
            && after == c.(scope := after.scope)
            && (forall u :: u in after.scope <==> u in c.scope || u in units)
            && (forall u <- after.scope :: after.scope[u] == if u in c.scope then c.scope[u] else Entry({}, now, 0))
            && (!needPush ==> forall u <- units :: 0 < after.scope[u].gen <= gen)
            && (gen == 0 || exists u <- units :: after.scope[u].gen == gen)
  {
    hide WithUnits, Needed;
    WithUnitsHolds(c.scope, units, now);
    NeededIsEnough(WithUnits(c.scope, units, now), units);
  }

  function AppliedChannel(c: Core): (Core, nat) {
    match c.appliedCh
    case Some(ch) => (c, ch)
    case None => (c.(appliedCh := Some(c.nextCh), nextCh := c.nextCh + 1), c.nextCh)
  }

  function Advance(c: Core, gen: nat): Core {
    if gen <= c.appliedGen then c
    else c.(appliedGen := gen,
            closed := if c.appliedCh.Some? then c.closed + {c.appliedCh.value} else c.closed,
            appliedCh := None)
  }

  /** The unit is published and its generation applied. */
  predicate UnitApplied(c: Core, unit: string) {
    unit in c.scope && 0 < c.scope[unit].gen <= c.appliedGen
  }

  // ---- scope changes -------------------------------------------------------

  function Open(c: Core, unit: string, uri: string, now: int): Core {
    if unit in c.scope
    then c.(scope := c.scope[unit := c.scope[unit].(open := c.scope[unit].open + {uri}, lastActive := now)])
    else c.(scope := c.scope[unit := Entry({uri}, now, 0)])
  }

  function Close(c: Core, unit: string, uri: string, now: int): Core {
    if unit in c.scope
    then c.(scope := c.scope[unit := c.scope[unit].(open := c.scope[unit].open - {uri}, lastActive := now)])
    else c
  }

  predicate Idle(e: Entry, ttl: int, now: int) {
    e.open == {} && now - e.lastActive > ttl
  }

  function Evict(c: Core, ttl: int, now: int): Core {
    c.(scope := map u | u in c.scope && !Idle(c.scope[u], ttl, now) :: c.scope[u])
  }

  // ---- configuration pulls and answers -------------------------------------

  function Pulled(c: Core, id: string): Core {
    c.(configIDs := c.configIDs + {id}, sawConfigPull := true, configGens := c.configGens[id := c.scopeGen])
  }

  function AnswerGen(c: Core, id: string): nat {
    if id in c.configGens then c.configGens[id] else 0
  }

  function Answered(c: Core, id: string): Core {
    c.(configIDs := c.configIDs - {id}, configGens := c.configGens - {id})
  }

  // ---- held requests -------------------------------------------------------

  function HeldFor(c: Core, uri: string): seq<nat> {
    if uri in c.heldDefs then c.heldDefs[uri] else []
  }

  function Registered(c: Core, uri: string, id: nat): Core {
    c.(heldDefs := c.heldDefs[uri := HeldFor(c, uri) + [id]])
  }

  /** items without the first occurrence of x. */
  function RemoveFirst(items: seq<nat>, x: nat): seq<nat> {
    if items == [] then []
    else if items[0] == x then items[1..]
    else [items[0]] + RemoveFirst(items[1..], x)
  }

  lemma {:induction false} RemoveFirstKeeps(items: seq<nat>, x: nat)
    ensures forall y :: y != x ==> (y in RemoveFirst(items, x) <==> y in items)
  {
    if items != [] {
      RemoveFirstKeeps(items[1..], x);
    }
  }

  lemma {:induction false} RemoveFirstAt(items: seq<nat>, i: nat)
    requires i < |items| && items[i] !in items[..i]
    ensures RemoveFirst(items, items[i]) == items[..i] + items[i + 1..]
  {
    if i > 0 {
      assert items[1..][..i - 1] == items[..i][1..];
      assert items[0] in items[..i];
      RemoveFirstAt(items[1..], i - 1);
    }
  }

  lemma {:induction false} RemoveFirstAbsent(items: seq<nat>, x: nat)
    ensures x !in items ==> RemoveFirst(items, x) == items
  {
    if items != [] {
      RemoveFirstAbsent(items[1..], x);
    }
  }

  function Unregistered(c: Core, uri: string, id: nat): Core {
    var left := RemoveFirst(HeldFor(c, uri), id);
    c.(heldDefs := if left == [] then c.heldDefs - {uri} else c.heldDefs[uri := left])
  }

  function Detached(c: Core, uri: string): Core {
    c.(heldDefs := c.heldDefs - {uri})
  }

  // ---- the fallback --------------------------------------------------------

  /** What one fallback tick decides. */
  datatype Tick = Done | Rearm(delay: int) | Release

  function FallbackTick(c: Core, gen: nat, delay: int, deadline: int, now: int): Tick {
    if c.appliedGen >= gen then Done
    else if c.sawConfigPull && deadline - now > 0 then
      Rearm(if delay > deadline - now then deadline - now else delay)
    else Release
  }
}
