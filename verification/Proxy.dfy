/** The proxy's own fields and the critical sections that change them. */
module Proxy {
  import opened Options
  import opened Strings
  import opened ScopeState

  class Proxy {
    var scope: Scope
    var configIDs: set<string>
    var configGens: map<string, nat>
    var sawConfigPull: bool
    var scopeGen: nat
    var appliedGen: nat
    var appliedCh: Option<nat>
    var nextCh: nat
    var closed: set<nat>
    var heldDefs: map<string, seq<nat>>

    ghost function View(): Core
      reads this
    {
      Core(scope, configIDs, configGens, sawConfigPull, scopeGen, appliedGen, appliedCh, nextCh, closed, heldDefs)
    }

    constructor ()
      ensures View() == EMPTY
    {
      scope, configIDs, configGens, heldDefs := map[], {}, map[], map[];
      sawConfigPull, scopeGen, appliedGen := false, 0, 0;
      appliedCh, nextCh, closed := None, 0, {};
    }

    method FiltersLocked() returns (fs: seq<string>)
      ensures fs == Filters(scope.Keys)
    {
      hide Lists, SortedSeq, Elements, Included;
      var dirs := AnyOrder(scope.Keys);
      dirs := SortStrings(dirs);
      SortedHolds(scope.Keys);
      for i := 0 to |dirs|
        invariant "." !in dirs[..i]
      {
        if dirs[i] == "." {
          return [];
        }
        assert dirs[..i + 1] == dirs[..i] + [dirs[i]];
      }
      assert dirs[..|dirs|] == dirs;
      fs := IncludeAll(dirs);
    }

    static method IncludeAll(dirs: seq<string>) returns (fs: seq<string>)
      ensures fs == [EXCLUDE_ALL] + Included(dirs)
    {
      fs := [EXCLUDE_ALL];
      for i := 0 to |dirs|
        invariant |fs| == i + 1 && fs[0] == EXCLUDE_ALL
        invariant forall j :: 0 <= j < i ==> fs[j + 1] == "+" + dirs[j]
      {
        fs := fs + ["+" + dirs[i]];
      }
    }

    method StampScopeGenLocked() returns (gen: nat)
      modifies this
      ensures View() == Stamp(old(View())) && gen == scopeGen
    {
      scopeGen := scopeGen + 1;
      var todo := scope.Keys;
      while todo != {}
        invariant scope.Keys == old(scope).Keys && todo <= scope.Keys
        invariant forall u <- scope ::
          scope[u] == if u in todo then old(scope)[u] else StampedEntry(old(scope)[u], scopeGen)
        invariant View() == old(View()).(scopeGen := scopeGen, scope := scope)
        invariant scopeGen == old(scopeGen) + 1
        decreases todo
      {
        var u :| u in todo;
        if scope[u].gen == 0 {
          scope := scope[u := scope[u].(gen := scopeGen)];
        }
        todo := todo - {u};
      }
      gen := scopeGen;
    }

    method EnsureUnitsLocked(units: seq<string>, now: int) returns (gen: nat, needPush: bool)
      modifies this
      ensures (View(), gen, needPush) == EnsureUnits(old(View()), units, now)
    {
      gen, needPush := 0, false;
      WithUnitsHolds(scope, units, now);
      for i := 0 to |units|
        invariant WithUnits(old(scope), units, now) == WithUnits(scope, units[i..], now)
        invariant View() == old(View()).(scope := scope)
        invariant forall u <- units[..i] :: u in scope
        invariant (gen, needPush) == Needed(scope, units[..i])
      {
        var u := units[i];
        assert units[i..][0] == u && units[i..][1..] == units[i + 1..];
        ghost var before := scope;
        if u !in scope {
          scope := scope[u := Entry({}, now, 0)];
        }
        NeededIsLocal(before, scope, units[..i]);
        var e := scope[u];
        if e.gen == 0 {
          needPush := true;
        } else if e.gen > gen {
          gen := e.gen;
        }
        assert units[..i + 1] == units[..i] + [u];
        assert units[..i + 1][..i] == units[..i];
      }
      assert units[..|units|] == units;
    }

    method AppliedChLocked() returns (ch: nat)
      modifies this
      ensures (View(), ch) == AppliedChannel(old(View()))
    {
      if appliedCh == None {
        appliedCh := Some(nextCh);
        nextCh := nextCh + 1;
      }
      ch := appliedCh.value;
    }

    method AdvanceAppliedLocked(gen: nat)
      modifies this
      ensures View() == Advance(old(View()), gen)
    {
      if gen <= appliedGen {
        return;
      }
      appliedGen := gen;
      if appliedCh != None {
        closed := closed + {appliedCh.value};
        appliedCh := None;
      }
    }

    /** One turn of awaitApplied: either the barrier is reached, or the channel to
        wait on is returned. */
    method PollApplied(gen: nat) returns (reached: bool, ch: nat)
      modifies this
      ensures reached <==> old(appliedGen) >= gen
      ensures if reached then View() == old(View()) else (View(), ch) == AppliedChannel(old(View()))
    {
      if appliedGen >= gen {
        return true, 0;
      }
      ch := AppliedChLocked();
      reached := false;
    }

    /** One turn of awaitUnitApplied. */
    method PollUnitApplied(unit: string) returns (reached: bool, ch: nat)
      modifies this
      ensures reached <==> UnitApplied(old(View()), unit)
      ensures if reached then View() == old(View()) else (View(), ch) == AppliedChannel(old(View()))
    {
      reached := unit in scope && scope[unit].gen > 0 && scope[unit].gen <= appliedGen;
      ch := 0;
      if !reached {
        ch := AppliedChLocked();
      }
    }

    /** The critical section of restoreScope; dirs are the saved units whose directory
        still exists. */
    method RestoreScope(saved: seq<string>, dirs: set<string>, now: int)
      modifies this
      ensures View() == old(View()).(scope := WithUnits(old(scope), Existing(saved, dirs), now))
    {
      for i := 0 to |saved|
        invariant WithUnits(old(scope), Existing(saved, dirs), now) == WithUnits(scope, Existing(saved[i..], dirs), now)
        invariant View() == old(View()).(scope := scope)
      {
        assert saved[i..][0] == saved[i] && saved[i..][1..] == saved[i + 1..];
        if saved[i] !in dirs {
          assert Existing(saved[i..], dirs) == Existing(saved[i + 1..], dirs);
          continue;
        }
        assert Existing(saved[i..], dirs)[1..] == Existing(saved[i + 1..], dirs);
        if saved[i] !in scope {
          scope := scope[saved[i] := Entry({}, now, 0)];
        }
      }
    }

    /** The critical section of patchInitialize that computes the first filters. */
    method StampInitial() returns (fs: seq<string>)
      modifies this
      ensures View() == Advance(Stamp(old(View())), old(scopeGen) + 1)
      ensures fs == Filters(old(scope).Keys)
    {
      hide Filters;
      assert Stamp(old(View())).scope.Keys == old(scope).Keys;
      var gen := StampScopeGenLocked();
      AdvanceAppliedLocked(gen);
      fs := FiltersLocked();
    }

    method ObserveOpen(unit: string, uri: string, now: int)
      modifies this
      ensures View() == Open(old(View()), unit, uri, now)
    {
      if unit in scope {
        scope := scope[unit := scope[unit].(open := scope[unit].open + {uri}, lastActive := now)];
        return;
      }
      scope := scope[unit := Entry({uri}, now, 0)];
    }

    method ObserveClose(unit: string, uri: string, now: int)
      modifies this
      ensures View() == Close(old(View()), unit, uri, now)
    {
      if unit in scope {
        scope := scope[unit := scope[unit].(open := scope[unit].open - {uri}, lastActive := now)];
      }
    }

    method EvictIdleUnits(ttl: int, now: int) returns (changed: bool)
      modifies this
      ensures View() == Evict(old(View()), ttl, now)
      ensures changed <==> scope != old(scope)
    {
      changed := false;
      var todo := scope.Keys;
      while todo != {}
        invariant todo <= scope.Keys <= old(scope).Keys
        invariant forall u <- old(scope) :: u in scope <==> u in todo || !Idle(old(scope)[u], ttl, now)
        invariant forall u <- scope :: scope[u] == old(scope)[u]
        invariant changed <==> scope.Keys != old(scope).Keys
        invariant View() == old(View()).(scope := scope)
        decreases todo
      {
        var u :| u in todo;
        if |scope[u].open| == 0 && now - scope[u].lastActive > ttl {
          scope := scope - {u};
          assert u !in scope && u in old(scope);
          changed := true;
        }
        todo := todo - {u};
      }
      assert scope == Evict(old(View()), ttl, now).scope;
    }

    method HandleConfigPull(id: string)
      modifies this
      ensures View() == Pulled(old(View()), id)
    {
      configIDs := configIDs + {id};
      sawConfigPull := true;
      configGens := configGens[id := scopeGen];
    }

    /** The critical section of handleClientResponse. */
    method TakeAnswer(id: string) returns (isConfig: bool, gen: nat)
      modifies this
      ensures View() == Answered(old(View()), id)
      ensures isConfig == (id in old(configIDs)) && gen == AnswerGen(old(View()), id)
    {
      isConfig := id in configIDs;
      gen := if id in configGens then configGens[id] else 0;
      configIDs := configIDs - {id};
      configGens := configGens - {id};
    }

    method RegisterHeldDef(uri: string, id: nat)
      modifies this
      ensures View() == Registered(old(View()), uri, id)
    {
      heldDefs := heldDefs[uri := (if uri in heldDefs then heldDefs[uri] else []) + [id]];
    }

    method UnregisterHeldDef(uri: string, id: nat)
      modifies this
      ensures View() == Unregistered(old(View()), uri, id)
    {
      var s := if uri in heldDefs then heldDefs[uri] else [];
      ghost var found := false;
      for i := 0 to |s|
        invariant id !in s[..i] && heldDefs == old(heldDefs) && !found
      {
        if s[i] == id {
          found := true;
          RemoveFirstAt(s, i);
          heldDefs := heldDefs[uri := s[..i] + s[i + 1..]];
          break;
        }
        assert s[..i + 1] == s[..i] + [s[i]];
      }
      if !found {
        assert s[..|s|] == s;
        RemoveFirstAbsent(s, id);
      }
      if uri !in heldDefs || |heldDefs[uri]| == 0 {
        heldDefs := heldDefs - {uri};
      }
    }

    /** The critical section of releaseHeldDefs. */
    method DetachHeldDefs(uri: string) returns (held: seq<nat>)
      modifies this
      ensures View() == Detached(old(View()), uri) && held == HeldFor(old(View()), uri)
    {
      held := if uri in heldDefs then heldDefs[uri] else [];
      heldDefs := heldDefs - {uri};
    }

    /** One firing of the fallback timer of gen. */
    method FallbackFires(gen: nat, delay: int, deadline: int, now: int) returns (next: Option<int>)
      modifies this
      ensures match FallbackTick(old(View()), gen, delay, deadline, now)
              case Done => View() == old(View()) && next == None
              case Rearm(d) => View() == old(View()) && next == Some(d)
              case Release => View() == Advance(old(View()), gen) && next == None
    {
      if appliedGen >= gen {
        return None;
      }
      if sawConfigPull {
        var remaining := deadline - now;
        if remaining > 0 {
          var d := delay;
          if d > remaining {
            d := remaining;
          }
          return Some(d);
        }
        AdvanceAppliedLocked(gen);
        return None;
      }
      AdvanceAppliedLocked(gen);
      return None;
    }
  }

  /** The units whose directory exists, in order. */
  function Existing(units: seq<string>, dirs: set<string>): (r: seq<string>)
    ensures forall u :: u in r <==> u in units && u in dirs
    decreases units
  {
    if units == [] then []
    else
      assert forall u :: u in units <==> u == units[0] || u in units[1..];
      (if units[0] in dirs then [units[0]] else []) + Existing(units[1..], dirs)
  }

  lemma SortedHolds(units: set<string>)
    ensures forall x :: x in SortedSeq(units) <==> x in units
  {
    assert forall x :: x in SortedSeq(units) <==> x in Elements(SortedSeq(units));
  }

  lemma {:induction false} NeededIsLocal(before: Scope, after: Scope, units: seq<string>)
    requires forall u <- units :: u in before && u in after && before[u] == after[u]
    ensures Needed(before, units) == Needed(after, units)
  {
    if units != [] {
      var n := |units| - 1;
      assert forall u <- units[..n] :: u in units;
      assert units[n] in units;
      NeededIsLocal(before, after, units[..n]);
    }
  }
}
