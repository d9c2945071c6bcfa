/** Cross-references end to end: from the import edges ever indexed to the filters
    gopls has when the held request is written. */
module References {
  import opened Options
  import opened Paths
  import opened ModRoot
  import opened Strings
  import opened ScopeUnits
  import opened RevIndex
  import opened UnitAgreement
  import opened ScopeState
  import ProxySystem
  import BarrierProofs

  // ---- what is published ---------------------------------------------------

  /** Directories of a module, each holding a file that imports the package in the one
      before it. */
  ghost predicate ImportChain(base: Path, files: seq<File>, dirs: seq<Path>) {
    && dirs != [] && (forall i | 0 <= i < |dirs| :: base <= dirs[i])
    && forall i | 0 <= i < |dirs| - 1 :: ImportsFrom(base, files, dirs[i + 1], RelString(dirs[i][|base|..]))
  }

  /** def and file lie in one module of the workspace, and among the files indexed there
      is a chain of imports from def's package to file's directory. */
  ghost predicate Refers(files: seq<File>, root: Path, gomods: set<Path>, def: Path, file: Path) {
    && Clean(file) && Clean(def) && Inside(def, root) && Inside(file, root) && root <= Dir(def)
    && Walk(Dir(file), root, gomods) == Walk(Dir(def), root, gomods)
    && var base := Base(root, Walk(Dir(def), root, gomods));
       && root <= base && InModule(Dir(def), base) && InModule(Dir(file), base)
       && exists dirs :: ImportChain(base, files, dirs) && dirs[0] == Dir(def) && dirs[|dirs| - 1] == Dir(file)
  }

  /** The units a reference to def asks for, once the files of its module are indexed. */
  ghost function AskedUnits(modPath: string, files: seq<File>, root: Path, gomods: set<Path>, def: Path,
                            granularity: nat): seq<string>
    requires var base := Base(root, Walk(Dir(def), root, gomods)); root <= base && InModule(Dir(def), base)
  {
    var modRoot := Walk(Dir(def), root, gomods);
    var updates := UpdatesOf(Some(Base(root, modRoot)), modPath, files);
    Published(AfterUpdates(map[], updates), root, Dir(def), modRoot, granularity)
  }

  lemma ChainIsRecorded(base: Path, modPath: string, files: seq<File>, dirs: seq<Path>)
    requires modPath != "" && ImportChain(base, files, dirs)
    ensures Imports(UpdatesOf(Some(base), modPath, files), RelString(dirs[0][|base|..]),
                    RelString(dirs[|dirs| - 1][|base|..]))
  {
    hide ImportsFrom, UpdatesOf, Indexed, RelString;
    var updates := UpdatesOf(Some(base), modPath, files);
    var path := seq(|dirs|, i requires 0 <= i < |dirs| => RelString(dirs[i][|base|..]));
    forall i | 0 <= i < |path| - 1 ensures Indexed(updates, path[i], path[i + 1]) {
      var imp := RelString(dirs[i][|base|..]);
      assert path[i] == imp && path[i + 1] == RelString(dirs[i + 1][|base|..]);
      ImportIsRecorded(base, modPath, files, dirs[i + 1], imp);
    }
    hide ImportChain;
    assert ImportPath(updates, path) && path[0] == RelString(dirs[0][|base|..]);
  }

  /** Whatever order files were indexed in, a file whose directory imports the
      definition's package, however indirectly, has its unit among those asked for. */
  lemma IndexedReferencesArePublished(modPath: string, files: seq<File>, root: Path, gomods: set<Path>, def: Path,
                                      file: Path, granularity: nat)
    requires modPath != "" && Refers(files, root, gomods, def, file) && granularity >= 1
    ensures UnitFor(file, root, gomods, granularity).Some?
    ensures UnitFor(file, root, gomods, granularity).value in
              AskedUnits(modPath, files, root, gomods, def, granularity)
  {
    var base := Base(root, Walk(Dir(def), root, gomods));
    var dirs :| ImportChain(base, files, dirs) && dirs[0] == Dir(def) && dirs[|dirs| - 1] == Dir(file);
    hide Clean, Inside, Walk, Imports, UnitFor, Published, Reaches, AfterUpdates, UpdatesOf;
    var updates := UpdatesOf(Some(base), modPath, files);
    ChainIsRecorded(base, modPath, files, dirs);
    ClosureIsImports(updates, RelString(Dir(def)[|base|..]), RelString(Dir(file)[|base|..]));
    ReferencesArePublished(AfterUpdates(map[], updates), root, gomods, def, file, granularity);
  }

  // ---- while the request is held -------------------------------------------

  /** The unit is in scope in every state of the run. */
  ghost predicate StaysInScope(cfg: ProxySystem.Config, s: ProxySystem.Sys, steps: seq<ProxySystem.Step>, unit: string)
    decreases steps
  {
    unit in s.core.scope &&
    (steps == [] || match ProxySystem.Next(cfg, s, steps[0])
                    case None => true
                    case Some(t) => StaysInScope(cfg, t, steps[1..], unit))
  }

  predicate Keeps(refs: map<nat, ProxySystem.Ref>, ref: nat, unit: string) {
    ref in refs && (refs[ref].Finished? || unit in refs[ref].kept)
  }

  lemma PushKeepsUnit(cfg: ProxySystem.Config, s: ProxySystem.Sys, u: ProxySystem.PushStep, t: ProxySystem.Sys,
                      ref: nat, unit: string)
    requires ProxySystem.PushNext(cfg, s, u) == Some(t) && Keeps(s.refs, ref, unit)
    ensures Keeps(t.refs, ref, unit)
  {
    hide Stamp;
  }

  lemma RefKeepsUnit(s: ProxySystem.Sys, r: ProxySystem.RefStep, t: ProxySystem.Sys, ref: nat, unit: string)
    requires ProxySystem.RefNext(s, r) == Some(t) && Keeps(s.refs, ref, unit)
    ensures Keeps(t.refs, ref, unit)
  {
    hide ProxySystem.RefNext, EnsureUnits, Elements, AppliedChannel;
    if r.Ensure? {
      ProxySystem.EnsureFrame(s, r, t);
    } else {
      ProxySystem.RefFrame(s, r, t);
    }
  }

  lemma EvictionKeepsUnit(s: ProxySystem.Sys, ttl: int, ref: nat, unit: string)
    requires Keeps(s.refs, ref, unit) && unit in ProxySystem.EvictNext(s, ttl).core.scope
    ensures Keeps(ProxySystem.EvictNext(s, ttl).refs, ref, unit)
  {
  }

  lemma StepKeepsUnit(cfg: ProxySystem.Config, s: ProxySystem.Sys, step: ProxySystem.Step, t: ProxySystem.Sys,
                      ref: nat, unit: string)
    requires ProxySystem.Next(cfg, s, step) == Some(t) && Keeps(s.refs, ref, unit) && unit in t.core.scope
    ensures Keeps(t.refs, ref, unit)
  {
    hide *;
    ProxySystem.AsideCases(cfg, s, step, t);
    match step {
      case PumpDoes(p) =>
        if ProxySystem.InitNext(s, p) == Some(t) {
          BarrierProofs.InitGrows(s, p, t);
        } else if ProxySystem.AnswerNext(s, p) == Some(t) {
          BarrierProofs.AnswerGrows(s, p, t);
        }
      case PushDoes(u) => PushKeepsUnit(cfg, s, u, t, ref, unit);
      case EvictionSweeps(ttl) => EvictionKeepsUnit(s, ttl, ref, unit);
      case RefDoes(r) => RefKeepsUnit(s, r, t, ref, unit);
      case FallbackFires(gen) => BarrierProofs.FireGrows(s, gen, t);
      case _ =>
    }
  }

  lemma {:induction false} RunKeepsUnit(cfg: ProxySystem.Config, s: ProxySystem.Sys, steps: seq<ProxySystem.Step>,
                                        t: ProxySystem.Sys, ref: nat, unit: string)
    requires ProxySystem.Run(cfg, s, steps) == Some(t) && StaysInScope(cfg, s, steps, unit)
    requires Keeps(s.refs, ref, unit)
    ensures Keeps(t.refs, ref, unit)
    decreases steps
  {
    hide ProxySystem.Next, Keeps;
    if steps != [] {
      var next := ProxySystem.Next(cfg, s, steps[0]).value;
      assert unit in next.core.scope by {
        assert StaysInScope(cfg, next, steps[1..], unit);
      }
      StepKeepsUnit(cfg, s, steps[0], next, ref, unit);
      RunKeepsUnit(cfg, next, steps[1..], t, ref, unit);
    }
  }

  lemma {:induction false} RunReaches(cfg: ProxySystem.Config, s: ProxySystem.Sys, steps: seq<ProxySystem.Step>,
                                      t: ProxySystem.Sys)
    requires ProxySystem.Reachable(cfg, s) && ProxySystem.Run(cfg, s, steps) == Some(t)
    ensures ProxySystem.Reachable(cfg, t)
    decreases steps
  {
    hide ProxySystem.Next, ProxySystem.Reachable;
    if steps != [] {
      var next := ProxySystem.Next(cfg, s, steps[0]).value;
      ProxySystem.StepReaches(cfg, s, steps[0], next);
      RunReaches(cfg, next, steps[1..], t);
    }
  }

  /** ensureUnitsLocked starts a reference with every unit asked for. */
  lemma EnsuredUnitsAreKept(cfg: ProxySystem.Config, s: ProxySystem.Sys, ref: nat, units: seq<string>,
                            t: ProxySystem.Sys)
    requires ProxySystem.Next(cfg, s, ProxySystem.RefDoes(ProxySystem.Ensure(ref, units))) == Some(t)
    ensures forall unit <- units :: Keeps(t.refs, ref, unit)
  {
    hide ProxySystem.Next, ProxySystem.RefNext, EnsureUnits;
    ProxySystem.StepCases(cfg, s, ProxySystem.RefDoes(ProxySystem.Ensure(ref, units)), t);
    ProxySystem.EnsureFrame(s, ProxySystem.Ensure(ref, units), t);
  }

  /** While a reference has all units asked for, as it has once they are ensured, a file
      that refers to the definition has its unit covered when the request is written. */
  lemma KeptReferencesAreCovered(cfg: ProxySystem.Config, s: ProxySystem.Sys, ref: nat, steps: seq<ProxySystem.Step>,
                                 t: ProxySystem.Sys, modPath: string, files: seq<File>, root: Path, gomods: set<Path>,
                                 def: Path, file: Path, granularity: nat, unit: string)
    requires modPath != "" && Refers(files, root, gomods, def, file) && granularity >= 1
    requires UnitFor(file, root, gomods, granularity) == Some(unit)
    requires ProxySystem.Reachable(cfg, s) && ProxySystem.Run(cfg, s, steps) == Some(t)
    requires forall u <- AskedUnits(modPath, files, root, gomods, def, granularity) :: Keeps(s.refs, ref, u)
    requires StaysInScope(cfg, s, steps, unit)
    requires ref in t.refs && t.refs[ref].Ready? && t.refs[ref].need <= t.confirmedGen
    ensures t.delivered.Some? && Covers(t.delivered.value, unit)
  {
    hide UnitFor, AskedUnits, StaysInScope, Covers, ProxySystem.Reachable, ProxySystem.Run;
    IndexedReferencesArePublished(modPath, files, root, gomods, def, file, granularity);
    hide Refers;
    RunReaches(cfg, s, steps, t);
    RunKeepsUnit(cfg, s, steps, t, ref, unit);
    BarrierProofs.CrossReferenceIsCovered(cfg, t, ref, unit);
  }

  /** One of the steps ensures the units for ref, and from then on the unit stays in
      scope. */
  ghost predicate AsksAndKeeps(cfg: ProxySystem.Config, s: ProxySystem.Sys, steps: seq<ProxySystem.Step>, ref: nat,
                               units: seq<string>, unit: string)
    decreases steps
  {
    steps != [] && match ProxySystem.Next(cfg, s, steps[0])
                   case None => false
                   case Some(t) =>
                     if steps[0] == ProxySystem.RefDoes(ProxySystem.Ensure(ref, units))
                     then StaysInScope(cfg, t, steps[1..], unit)
                     else AsksAndKeeps(cfg, t, steps[1..], ref, units, unit)
  }

  /** Every file that refers to the definition is loaded for its reference: in any run
      that ensures the units asked for, whatever else it does, the filters gopls has when
      the held request is about to be written cover the file's unit, provided the
      generation waited for is confirmed and the unit was not evicted meanwhile. */
  lemma {:induction false} ReferencesAreCovered(cfg: ProxySystem.Config, s: ProxySystem.Sys,
                                                steps: seq<ProxySystem.Step>, t: ProxySystem.Sys, ref: nat,
                                                modPath: string, files: seq<File>, root: Path, gomods: set<Path>,
                                                def: Path, file: Path, granularity: nat, unit: string)
    requires modPath != "" && Refers(files, root, gomods, def, file) && granularity >= 1
    requires UnitFor(file, root, gomods, granularity) == Some(unit)
    requires ProxySystem.Reachable(cfg, s) && ProxySystem.Run(cfg, s, steps) == Some(t)
    requires AsksAndKeeps(cfg, s, steps, ref, AskedUnits(modPath, files, root, gomods, def, granularity), unit)
    requires ref in t.refs && t.refs[ref].Ready? && t.refs[ref].need <= t.confirmedGen
    ensures t.delivered.Some? && Covers(t.delivered.value, unit)
    decreases steps
  {
    hide UnitFor, AskedUnits, StaysInScope, Covers, Keeps, ProxySystem.Reachable, ProxySystem.Next;
    var units := AskedUnits(modPath, files, root, gomods, def, granularity);
    hide Refers;
    var next := ProxySystem.Next(cfg, s, steps[0]).value;
    ProxySystem.StepReaches(cfg, s, steps[0], next);
    if steps[0] == ProxySystem.RefDoes(ProxySystem.Ensure(ref, units)) {
      EnsuredUnitsAreKept(cfg, s, ref, units, next);
      KeptReferencesAreCovered(cfg, next, ref, steps[1..], t, modPath, files, root, gomods, def, file, granularity,
                               unit);
    } else {
      ReferencesAreCovered(cfg, next, steps[1..], t, ref, modPath, files, root, gomods, def, file, granularity, unit);
    }
  }
}
