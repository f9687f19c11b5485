/**
 pkg/poller/epp_data.go: the handler of assignment snapshots. Whatever the map orders, and with drain workers
 and start goroutines going on, what it does to the registry is a round as Rounds.dfy describes it.
 */
module EppData {
  import opened Types
  import opened Registry
  import opened RegistryRuns
  import opened RegistryTheorems
  import opened Rounds
  import M = ManagerClasses

  /** The keys of the first `i` cells of a list. */
  function KeysTo(cells: seq<M.Cell>, i: nat): set<Key>
    requires i <= |cells|
  {
    set j | 0 <= j < i :: cells[j].key
  }

  /** Those of them no role is held for. */
  function OthersTo(cells: seq<M.Cell>, i: nat, mine: set<Key>): set<Key>
    requires i <= |cells|
  {
    KeysTo(cells, i) - mine
  }

  lemma OthersToNext(cells: seq<M.Cell>, i: nat, mine: set<Key>)
    requires i < |cells| && M.DistinctKeys(cells)
    ensures cells[i].key !in OthersTo(cells, i, mine)
    ensures var done := OthersTo(cells, i, mine);
            OthersTo(cells, i + 1, mine) == if cells[i].key in mine then done else done + {cells[i].key}
  {}

  class EppDataWatcher {
    const instance: string
    const manager: M.Manager

    constructor (instance: string, manager: M.Manager)
      ensures this.instance == instance && this.manager == manager
    {
      this.instance, this.manager := instance, manager;
    }

    method Resolve(assignment: map<Key, Entry>) returns (mine: map<Key, Role>)
      ensures mine == Mine(instance, assignment)
      ensures forall k ::
                && (k in mine && mine[k] == RolePrimary <==> k in assignment && assignment[k].primary == Some(instance))
                && (k in mine && mine[k] == RoleStandby <==>
                      && k in assignment && assignment[k].standby == Some(instance)
                      && assignment[k].primary != Some(instance))
                && (k in mine ==> mine[k] != RoleNone)
    {
      mine := map[];
      var todo := assignment.Keys;
      while todo != {}
        invariant todo <= assignment.Keys
        invariant forall k :: k in mine <==> k in assignment && k !in todo && ResolveRole(instance, assignment[k]).Some?
        invariant forall k <- mine :: mine[k] == ResolveRole(instance, assignment[k]).value
      {
        var cluster :| cluster in todo;
        todo := todo - {cluster};
        var role := ResolveRole(instance, assignment[cluster]);
        if role.Some? { mine := mine[cluster := role.value]; }
      }
    }

    // The three loops of Handle. Before each call any number of background steps may happen; `run` is
    // what happened to the registry since the loop began at `w1`, background steps included.

    ghost predicate Going(r: Round, s: Stage, w1: World, run: seq<Action>, done: set<Key>)
      reads manager, manager.allCells, manager.allEngines
    {
      manager.Valid() && Progress(r, s, w1, manager.world, run, done)
    }

    method Wait(ghost r: Round, ghost s: Stage, ghost w1: World, ghost done: set<Key>, ghost run: seq<Action>)
      returns (ghost run': seq<Action>)
      requires Going(r, s, w1, run, done)
      modifies manager`cells, manager`drainCh, manager`busy, manager`world, manager.allCells, manager.allEngines
      ensures Going(r, s, w1, run', done) && Verdicts(w1, run') == Verdicts(w1, run)
    {
      ghost var w := manager.world;
      ghost var back := manager.Background();
      ProgressWaits(r, s, w1, w, run, done, back);
      run' := run + back;
    }

    method EnsureNow(cluster: Key, role: Role, created: bool,
                     ghost r: Round, ghost w1: World, ghost done: set<Key>, ghost run: seq<Action>)
      returns (ok: bool, ghost run': seq<Action>)
      requires Going(r, Ensuring, w1, run, done) && done <= r.mine.Keys && cluster in r.mine.Keys - done
      requires role == r.mine[cluster] && created == r.newCell(cluster)
      modifies manager, manager.allCells, manager.allEngines
      ensures manager.Valid() && manager.Grown()
      ensures if ok then Going(r, Ensuring, w1, run', done + {cluster})
              else AbortedRound(r, w1, run') && manager.world == Exec(w1, run')
    {
      ProgressEnsures(r, w1, manager.world, run, done, cluster);
      run' := run + [Call(r, Ensuring, cluster)];
      var c := manager.Ensure(cluster, role, created);
      ok := c != null;
    }

    method EnsureNext(cluster: Key, role: Role, created: bool,
                      ghost r: Round, ghost w1: World, ghost done: set<Key>, ghost run: seq<Action>)
      returns (ok: bool, ghost run': seq<Action>)
      requires Going(r, Ensuring, w1, run, done) && done <= r.mine.Keys && cluster in r.mine.Keys - done
      requires role == r.mine[cluster] && created == r.newCell(cluster)
      modifies manager, manager.allCells, manager.allEngines
      ensures manager.Valid() && manager.Grown()
      ensures if ok then Going(r, Ensuring, w1, run', done + {cluster})
              else AbortedRound(r, w1, run') && manager.world == Exec(w1, run')
    {
      run' := Wait(r, Ensuring, w1, done, run);
      ok, run' := EnsureNow(cluster, role, created, r, w1, done, run');
    }

    method EnsureAll(mine: map<Key, Role>, newCell: Key -> bool, ghost r: Round)
      returns (ok: bool, ghost run: seq<Action>)
      requires manager.Valid() && mine == r.mine && newCell == r.newCell
      modifies manager, manager.allCells, manager.allEngines
      ensures manager.Valid() && manager.Grown()
      ensures if ok then Going(r, Ensuring, old(manager.world), run, mine.Keys)
              else AbortedRound(r, old(manager.world), run) && manager.world == Exec(old(manager.world), run)
    {
      ghost var w1 := manager.world;
      ProgressStart(r, Ensuring, w1);
      var todo := mine.Keys;
      ghost var done := {};
      run := [];
      while todo != {}
        invariant manager.Grown() && done <= mine.Keys && todo == mine.Keys - done
        invariant Going(r, Ensuring, w1, run, done)
      {
        var cluster :| cluster in todo;
        ok, run := EnsureNext(cluster, mine[cluster], newCell(cluster), r, w1, done, run);
        if !ok { return; }
        todo, done := todo - {cluster}, done + {cluster};
      }
      assert done == mine.Keys;
      return true, run;
    }

    method DropNow(cluster: Key, ghost r: Round, ghost w1: World, ghost done: set<Key>, ghost run: seq<Action>)
      returns (ghost run': seq<Action>)
      requires Going(r, Dropping, w1, run, done) && cluster !in done
      modifies manager`cells, manager`drainCh, manager`world, manager.allCells, manager.allEngines
      ensures Going(r, Dropping, w1, run', done + {cluster})
    {
      ProgressDrops(r, w1, manager.world, run, done, cluster);
      run' := run + [DoDrop(cluster)];
      manager.Drop(cluster);
    }

    method DropNext(cluster: Key, ghost r: Round, ghost w1: World, ghost done: set<Key>, ghost run: seq<Action>)
      returns (ghost run': seq<Action>)
      requires Going(r, Dropping, w1, run, done) && cluster !in done
      modifies manager`cells, manager`drainCh, manager`busy, manager`world, manager.allCells, manager.allEngines
      ensures Going(r, Dropping, w1, run', done + {cluster})
    {
      run' := Wait(r, Dropping, w1, done, run);
      run' := DropNow(cluster, r, w1, done, run');
    }

    method ListAll() returns (listed: seq<M.Cell>)
      requires manager.Valid()
      ensures KeysTo(listed, |listed|) == manager.world.reg.Keys
      ensures M.DistinctKeys(listed)
    {
      listed := manager.List();
      forall k | k in manager.cells ensures k in KeysTo(listed, |listed|) {
        assert manager.cells[k] in listed;
      }
    }

    method DropOthers(mine: map<Key, Role>, ghost r: Round) returns (ghost run: seq<Action>)
      requires manager.Valid() && mine == r.mine
      modifies manager`cells, manager`drainCh, manager`busy, manager`world, manager.allCells, manager.allEngines
      ensures Going(r, Dropping, old(manager.world), run, old(manager.world).reg.Keys - mine.Keys)
    {
      ghost var w1 := manager.world;
      var listed := ListAll();
      ProgressStart(r, Dropping, w1);
      run := [];
      ghost var done := {};
      for i := 0 to |listed|
        invariant Going(r, Dropping, w1, run, done) && done == OthersTo(listed, i, mine.Keys)
      {
        OthersToNext(listed, i, mine.Keys);
        if listed[i].key !in mine {
          run := DropNext(listed[i].key, r, w1, done, run);
          done := done + {listed[i].key};
        }
      }
    }

    method ApplyNow(cluster: Key, raw: string, outcome: Outcome,
                    ghost r: Round, ghost w1: World, ghost done: set<Key>, ghost run: seq<Action>)
      returns (res: ApplyResult, ghost run': seq<Action>)
      requires Going(r, Applying, w1, run, done) && cluster !in done
      requires cluster in r.config && raw == r.config[cluster] && outcome == r.compile(cluster)
      modifies manager, manager.allCells, manager.allEngines
      ensures manager.Grown() && Going(r, Applying, w1, run', done + {cluster})
      ensures Verdicts(w1, run') == Verdicts(w1, run)[cluster := res]
    {
      ProgressApplies(r, w1, manager.world, run, done, cluster);
      run' := run + [Call(r, Applying, cluster)];
      res := manager.ApplyConfig(cluster, raw, outcome);
    }

    method ApplyNext(cluster: Key, raw: string, outcome: Outcome, log: map<Key, ApplyResult>,
                     ghost r: Round, ghost w1: World, ghost done: set<Key>, ghost run: seq<Action>)
      returns (log': map<Key, ApplyResult>, ghost run': seq<Action>)
      requires Going(r, Applying, w1, run, done) && cluster !in done && log == Verdicts(w1, run)
      requires cluster in r.config && raw == r.config[cluster] && outcome == r.compile(cluster)
      modifies manager, manager.allCells, manager.allEngines
      ensures manager.Grown() && Going(r, Applying, w1, run', done + {cluster}) && log' == Verdicts(w1, run')
    {
      var res;
      run' := Wait(r, Applying, w1, done, run);
      res, run' := ApplyNow(cluster, raw, outcome, r, w1, done, run');
      log' := log[cluster := res];
    }

    method ApplyAll(mine: map<Key, Role>, config: map<Key, string>, compile: Key -> Outcome, ghost r: Round)
      returns (log: map<Key, ApplyResult>, ghost run: seq<Action>)
      requires manager.Valid() && mine == r.mine && config == r.config && compile == r.compile
      modifies manager, manager.allCells, manager.allEngines
      ensures manager.Grown() && Going(r, Applying, old(manager.world), run, config.Keys * mine.Keys)
      ensures log == Verdicts(old(manager.world), run)
    {
      ghost var w1 := manager.world;
      ProgressStart(r, Applying, w1);
      log, run := map[], [];
      var todo := config.Keys;
      ghost var done := {};
      while todo != {}
        invariant manager.Grown() && todo <= config.Keys && done == (config.Keys - todo) * mine.Keys
        invariant Going(r, Applying, w1, run, done) && log == Verdicts(w1, run)
      {
        var cluster :| cluster in todo;
        todo := todo - {cluster};
        if cluster in mine {
          log, run := ApplyNext(cluster, config[cluster], compile(cluster), log, r, w1, done, run);
          done := done + {cluster};
        }
      }
      assert done == config.Keys * mine.Keys;
    }

    /** The three loops one after the other. */
    method Drive(mine: map<Key, Role>, config: map<Key, string>, newCell: Key -> bool, compile: Key -> Outcome)
      returns (ok: bool, log: map<Key, ApplyResult>, ghost t: Trace)
      requires manager.Valid()
      modifies manager, manager.allCells, manager.allEngines
      ensures manager.Valid() && manager.Grown()
      ensures manager.world == After(old(manager.world), t) && log == RoundVerdicts(old(manager.world), t)
      ensures var r := Round(mine, config, newCell, compile);
              if ok then CleanRound(r, old(manager.world), t)
              else AbortedRound(r, old(manager.world), t.roles) && t.drops == t.configs == []
    {
      ghost var r := Round(mine, config, newCell, compile);
      ghost var roles, drops, configs;
      ok, roles := EnsureAll(mine, newCell, r);
      if !ok { return false, map[], Trace(roles, [], []); }
      drops := DropOthers(mine, r);
      log, configs := ApplyAll(mine, config, compile, r);
      t := Trace(roles, drops, configs);
    }

    /** `newCell` and `compile` are what creating a cell and compiling a cluster's entry answer in this round; a round
        that goes through has the trace `t`, one that returns an error has made the calls of `t.roles` only. */
    method Handle(cfg: Snapshot, newCell: Key -> bool, compile: Key -> Outcome)
      returns (ok: bool, log: map<Key, ApplyResult>, ghost t: Trace)
      requires manager.Valid() && Inv(manager.world)
      modifies manager, manager.allCells, manager.allEngines
      ensures manager.Valid() && manager.Grown() && Inv(manager.world)
      ensures manager.world == After(old(manager.world), t) && log == RoundVerdicts(old(manager.world), t)
      ensures ok ==> CleanRound(RoundOf(instance, cfg, newCell, compile), old(manager.world), t)
      ensures ok ==> Reconciled(old(manager.world), manager.world, instance, cfg, compile,
                                Met(old(manager.world), t.roles), log)
      ensures !ok ==> AbortedRound(RoundOf(instance, cfg, newCell, compile), old(manager.world), t.roles)
      ensures !ok ==> t.drops == t.configs == [] && log == map[]
      ensures !ok ==> Aborted(old(manager.world), manager.world, instance, cfg)
    {
      ghost var w0 := manager.world;
      var mine := Resolve(cfg.assignment);
      ok, log, t := Drive(mine, cfg.eppConfig, newCell, compile);
      if ok {
        CleanRoundReconciles(instance, cfg, newCell, compile, w0, t);
      } else {
        AbortedRoundKeeps(instance, cfg, newCell, compile, w0, t.roles);
      }
    }
  }
}
