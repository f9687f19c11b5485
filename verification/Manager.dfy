/**
 The classes of pkg/cell: Engine, Cell and Manager with the fields and methods of the source.
 `Manager.world` is the registry value the heap stands for, kept so by `Valid`; every method is
 proved to do to it exactly what the function of the same name in Registry.dfy does.
 */
module ManagerClasses {
  import opened Types
  import R = Registry

  class Engine {
    ghost const id: EngineId
    ghost const owner: CellId
    const version: Hash
    var cancelled: bool
    var starting: bool
    ghost var demoted: bool
    /** In-flight requests; Admission.dfy treats it under interleaving. */
    var wg: nat
    /** The counter at each moment a stream was handed to this engine's streamer. */
    ghost var served: seq<nat>

    constructor (ghost id: EngineId, ghost owner: CellId, version: Hash)
      ensures this.id == id && this.owner == owner && wg == 0 && served == []
      ensures Rec() == R.EngineRec(owner, version, false, false, false)
    {
      this.id, this.owner, this.version := id, owner, version;
      cancelled, starting, demoted, wg, served := false, false, false, 0, [];
    }

    ghost function Rec(): R.EngineRec
      reads this
    {
      R.EngineRec(owner, version, cancelled, starting, demoted)
    }
  }

  class Cell {
    ghost const id: CellId
    const key: Key
    var engine: Engine?
    var role: Role
    var state: State
    var currentHash: Option<Hash>
    /** Whether the channel returned by Ready() is closed, which is also whether readyOnce has run. */
    var ready: bool
    /** Whether the context of the data plane is cancelled. */
    var closed: bool

    constructor (ghost id: CellId, key: Key)
      ensures this.id == id && engine == null
      ensures Rec() == R.CellRec(key, RoleNone, StateCreating, None, None, false, false)
    {
      this.id, this.key := id, key;
      engine, role, state, currentHash, ready, closed := null, RoleNone, StateCreating, None, false, false;
    }

    ghost function Rec(): R.CellRec
      reads this
    {
      R.CellRec(key, role, state, if engine == null then None else Some(engine.id), currentHash, ready, closed)
    }

    /** Closes `ready` once and performs the creating-to-standby transition. */
    method MarkReady()
      modifies this
      ensures unchanged(`engine, `role, `currentHash, `closed) && ready
      ensures state == if !old(ready) && old(state) == StateCreating then StateStandby else old(state)
    {
      if !ready {
        ready := true;
        if state == StateCreating { state := StateStandby; }
      }
    }

    /** Counts the request, looks at the pointer again and takes the count back when the engine was swapped out. */
    method Track(e: Engine) returns (ok: bool)
      modifies e`wg
      ensures ok <==> engine == e
      ensures e.wg == old(e.wg) + if ok then 1 else 0
    {
      e.wg := e.wg + 1;
      ok := engine == e;
      if !ok { e.wg := e.wg - 1; }
    }

    method Close()
      modifies this`closed
      ensures closed
    {
      closed := true;
    }
  }

  datatype DrainTask = DrainTask(cell: Cell, eng: Engine, teardown: bool) {
    ghost function Abs(): R.Task {
      R.Task(cell.id, eng.id, teardown)
    }
  }

  datatype DrainJob = DrainJob(t: DrainTask, phase: R.Phase) {
    ghost function Abs(): R.Job {
      R.Job(t.Abs(), phase)
    }
  }

  ghost predicate CellIn(all: seq<Cell>, c: Cell) {
    c.id < |all| && all[c.id] == c
  }

  ghost predicate EngineIn(all: seq<Engine>, e: Engine) {
    e.id < |all| && all[e.id] == e
  }

  ghost predicate TaskIn(cs: seq<Cell>, es: seq<Engine>, t: DrainTask) {
    CellIn(cs, t.cell) && EngineIn(es, t.eng)
  }

  ghost predicate CellsMatch(recs: seq<R.CellRec>, cs: seq<Cell>, es: seq<Engine>)
    reads cs
  {
    |recs| == |cs| && forall i | 0 <= i < |cs| ::
      cs[i].id == i && recs[i] == cs[i].Rec() && (cs[i].engine != null ==> EngineIn(es, cs[i].engine))
  }

  ghost predicate EnginesMatch(recs: seq<R.EngineRec>, es: seq<Engine>)
    reads es
  {
    |recs| == |es| && forall i | 0 <= i < |es| :: es[i].id == i && recs[i] == es[i].Rec()
  }

  ghost predicate RegMatches(reg: map<Key, CellId>, cells: map<Key, Cell>, cs: seq<Cell>) {
    reg.Keys == cells.Keys && forall k <- cells :: CellIn(cs, cells[k]) && reg[k] == cells[k].id && cells[k].key == k
  }

  ghost predicate QueueMatches(queue: seq<R.Task>, ch: seq<DrainTask>, cs: seq<Cell>, es: seq<Engine>) {
    |queue| == |ch| && forall i | 0 <= i < |ch| :: TaskIn(cs, es, ch[i]) && queue[i] == ch[i].Abs()
  }

  ghost predicate BusyMatches(jobs: seq<R.Job>, busy: seq<DrainJob>, cs: seq<Cell>, es: seq<Engine>) {
    |jobs| == |busy| && forall i | 0 <= i < |busy| :: TaskIn(cs, es, busy[i].t) && jobs[i] == busy[i].Abs()
  }

  /** A goroutine of Engine.start waiting for the discovery plugins of `eng`. */
  datatype Starter = Starter(cell: Cell, eng: Engine)

  ghost predicate StartersIn(cs: seq<Cell>, es: seq<Engine>, starters: seq<Starter>) {
    forall i | 0 <= i < |starters| ::
      CellIn(cs, starters[i].cell) && EngineIn(es, starters[i].eng) && starters[i].eng.owner == starters[i].cell.id
  }

  /** No key twice. */
  ghost predicate DistinctKeys(cells: seq<Cell>) {
    forall i, j | 0 <= i < j < |cells| :: cells[i].key != cells[j].key
  }

  /** `out` lists the cells of exactly the keys in `done`, each once. */
  ghost predicate Lists(out: seq<Cell>, cells: map<Key, Cell>, done: set<Key>) {
    && |out| == |done| && DistinctKeys(out)
    && (forall k <- done :: k in cells && cells[k] in out)
    && (forall i | 0 <= i < |out| :: out[i].key in done && out[i].key in cells && cells[out[i].key] == out[i])
  }

  lemma ListsNext(out: seq<Cell>, cells: map<Key, Cell>, done: set<Key>, k: Key)
    requires Lists(out, cells, done) && k in cells && k !in done && cells[k].key == k
    ensures Lists(out + [cells[k]], cells, done + {k})
  {
    var out' := out + [cells[k]];
    forall j | j in done + {k} ensures j in cells && cells[j] in out' {
      if j == k { assert out'[|out|] == cells[k]; }
    }
  }

  /** The cells of a map, in the order of some iteration over it. */
  method Range(cells: map<Key, Cell>) returns (out: seq<Cell>)
    requires forall k <- cells :: cells[k].key == k
    ensures Lists(out, cells, cells.Keys)
  {
    out := [];
    var todo := cells.Keys;
    ghost var done := {};
    while todo != {}
      invariant done == cells.Keys - todo && todo <= cells.Keys && Lists(out, cells, done)
    {
      var k :| k in todo;
      ListsNext(out, cells, done, k);
      out := out + [cells[k]];
      todo, done := todo - {k}, done + {k};
    }
    assert done == cells.Keys;
  }

  ghost predicate HasStarter(starters: seq<Starter>, e: Engine) {
    exists i | 0 <= i < |starters| :: starters[i].eng == e
  }

  lemma HasStarterGrows(starters: seq<Starter>, s: Starter)
    ensures HasStarter(starters + [s], s.eng)
    ensures forall e :: HasStarter(starters, e) ==> HasStarter(starters + [s], e)
  {
    var more := starters + [s];
    assert more[|starters|] == s;
    forall e | HasStarter(starters, e) ensures HasStarter(more, e) {
      var i :| 0 <= i < |starters| && starters[i].eng == e;
      assert more[i] == starters[i];
    }
  }

  /** Every engine that is still starting has a goroutine waiting for its discovery plugins. */
  ghost predicate StartersCover(es: seq<Engine>, starters: seq<Starter>)
    reads es
  {
    forall i | 0 <= i < |es| :: es[i].starting ==> HasStarter(starters, es[i])
  }

  class Manager {
    var cells: map<Key, Cell>
    var drainCh: seq<DrainTask>
    /** What the goroutines running drainWorker hold, and how far each of them is. */
    var busy: seq<DrainJob>
    var starters: seq<Starter>
    const workers: nat
    /** Every cell and every engine ever allocated, by identity, and the registry value they stand for. */
    ghost var allCells: seq<Cell>
    ghost var allEngines: seq<Engine>
    ghost var world: R.World

    ghost predicate HasCell(c: Cell)
      reads this`allCells
    {
      CellIn(allCells, c)
    }

    ghost predicate HasEngine(e: Engine)
      reads this`allEngines
    {
      EngineIn(allEngines, e)
    }

    /** `world` is exactly what the objects hold. */
    ghost predicate Valid()
      reads this, allCells, allEngines
    {
      && R.Wf(world) && world.workers == workers
      && CellsMatch(world.cells, allCells, allEngines)
      && EnginesMatch(world.engines, allEngines)
      && RegMatches(world.reg, cells, allCells)
      && QueueMatches(world.queue, drainCh, allCells, allEngines)
      && BusyMatches(world.busy, busy, allCells, allEngines)
      && StartersIn(allCells, allEngines, starters)
      && StartersCover(allEngines, starters)
    }

    /** Every object of the roster was there before or is newly allocated. */
    twostate predicate Grown()
      reads this
    {
      && (forall i | 0 <= i < |allCells| :: allCells[i] in old(allCells) || fresh(allCells[i]))
      && (forall i | 0 <= i < |allEngines| :: allEngines[i] in old(allEngines) || fresh(allEngines[i]))
    }

    lemma Sees(c: Cell)
      requires Valid() && HasCell(c)
      ensures world.cells[c.id] == c.Rec()
      ensures c.engine != null ==> HasEngine(c.engine)
    {}

    lemma Finds(key: Key)
      requires Valid()
      ensures key in cells <==> key in world.reg
      ensures key in cells ==> HasCell(cells[key]) && world.reg[key] == cells[key].id && cells[key].key == key
    {}

    /** The drain workers are started by NewManager; a count of zero means the default of four. */
    constructor (drainWorkers: nat)
      ensures Valid() && world == R.Init(if drainWorkers == 0 then 4 else drainWorkers)
      ensures allCells == [] && allEngines == []
    {
      workers := if drainWorkers == 0 then 4 else drainWorkers;
      world := R.Init(if drainWorkers == 0 then 4 else drainWorkers);
      cells, drainCh, busy, starters, allCells, allEngines := map[], [], [], [], [], [];
    }

    /** setRole followed by setState. */
    method SetRoleState(c: Cell, role: Role, state: State)
      requires Valid() && HasCell(c)
      modifies this`world, c`role, c`state
      ensures Valid() && world == R.SetCell(old(world), c.id, old(world).cells[c.id].(role := role, state := state))
    {
      SetRole(c, role);
      SetState(c, state);
      ghost var r := old(world).cells[c.id];
      R.SetCellTwice(old(world), c.id, r.(role := role), r.(role := role, state := state));
    }

    /** Every registered cell once, in the order of some iteration over the map. */
    method List() returns (out: seq<Cell>)
      requires Valid()
      ensures |out| == |cells|
      ensures forall k <- cells :: cells[k] in out
      ensures forall i | 0 <= i < |out| :: out[i].key in cells && cells[out[i].key] == out[i]
      ensures DistinctKeys(out)
    {
      forall k | k in cells ensures cells[k].key == k { Finds(k); }
      out := Range(cells);
    }

    method SetRole(c: Cell, role: Role)
      requires Valid() && HasCell(c)
      modifies this`world, c`role
      ensures Valid() && world == R.SetCell(old(world), c.id, old(world).cells[c.id].(role := role)) && c.role == role
    {
      c.role := role;
      world := R.SetCell(world, c.id, world.cells[c.id].(role := role));
    }

    method SetState(c: Cell, state: State)
      requires Valid() && HasCell(c)
      modifies this`world, c`state
      ensures Valid() && world == R.SetCell(old(world), c.id, old(world).cells[c.id].(state := state))
                && c.state == state
    {
      c.state := state;
      world := R.SetCell(world, c.id, world.cells[c.id].(state := state));
    }

    method Promote(key: Key)
      requires Valid()
      modifies this`world, allCells
      ensures Valid() && world == R.Promote(old(world), key)
    {
      if key !in cells || cells[key].state == StateDraining { return; }
      var c := cells[key];
      var started := c.state == StateStandby || c.state == StateCreating;
      SetRoleState(c, RolePrimary, if started then StatePrimary else c.state);
    }

    method Cancel(e: Engine)
      requires Valid() && HasEngine(e)
      modifies this`world, e`cancelled
      ensures Valid() && world == R.CancelEngine(old(world), e.id)
    {
      e.cancelled := true;
      world := R.CancelEngine(world, e.id);
    }

    method CloseCell(c: Cell)
      requires Valid() && HasCell(c)
      modifies this`world, c`closed
      ensures Valid() && world == R.CloseCell(old(world), c.id)
    {
      c.Close();
      world := R.CloseCell(world, c.id);
    }

    method CompareAndDelete(key: Key, c: Cell)
      requires Valid() && HasCell(c) && key == c.key
      modifies this`cells, this`world
      ensures Valid() && world == R.CompareAndDelete(old(world), c.id)
    {
      if key in cells && cells[key] == c { cells := cells - {key}; }
      world := R.CompareAndDelete(world, c.id);
    }

    /** Runs one drain to its end. */
    method Drain(t: DrainTask)
      requires Valid() && TaskIn(allCells, allEngines, t)
      modifies this`cells, this`world, t.eng`cancelled, t.cell`closed
      ensures Valid() && world == R.Drain(old(world), t.Abs())
    {
      Cancel(t.eng);
      if t.teardown {
        CloseCell(t.cell);
        CompareAndDelete(t.cell.key, t.cell);
      }
    }

    method ScheduleDrain(c: Cell, eng: Engine, teardown: bool)
      requires Valid() && HasCell(c) && HasEngine(eng)
      modifies this`cells, this`drainCh, this`world, eng`cancelled, c`closed
      ensures Valid() && world == R.ScheduleDrain(old(world), R.Task(c.id, eng.id, teardown))
    {
      if |drainCh| < R.DRAIN_QUEUE {
        drainCh := drainCh + [DrainTask(c, eng, teardown)];
        world := world.(queue := world.queue + [R.Task(c.id, eng.id, teardown)]);
      } else {
        Drain(DrainTask(c, eng, teardown));
      }
    }

    ghost method MarkDemoted(e: Engine)
      requires Valid() && HasEngine(e)
      modifies this`world, e`demoted
      ensures var engines := old(world).engines;
              Valid() && world == old(world).(engines := engines[e.id := engines[e.id].(demoted := true)])
    {
      e.demoted := true;
      world := world.(engines := world.engines[e.id := world.engines[e.id].(demoted := true)]);
    }

    method Demote(key: Key)
      requires Valid()
      modifies this`cells, this`drainCh, this`world, allCells, allEngines
      ensures Valid() && world == R.Demote(old(world), key)
    {
      Finds(key);
      if key in cells { Sees(cells[key]); }
      if key !in cells || cells[key].state == StateDraining { return; }
      var c := cells[key];
      SetRoleState(c, RoleStandby, if c.state == StatePrimary then StateStandby else c.state);
      Sees(c);
      var eng := c.engine;
      if eng != null {
        MarkDemoted(eng);
        ScheduleDrain(c, eng, false);
      }
    }

    method Drop(key: Key)
      requires Valid()
      modifies this`cells, this`drainCh, this`world, allCells, allEngines
      ensures Valid() && world == R.Drop(old(world), key)
    {
      if key !in cells { return; }
      var c := cells[key];
      SetState(c, StateDraining);
      if c.engine != null {
        ScheduleDrain(c, c.engine, true);
        return;
      }
      CloseCell(c);
      CompareAndDelete(key, c);
    }

    method SwitchRole(key: Key, role: Role)
      requires Valid() && key in cells
      modifies this`cells, this`drainCh, this`world, allCells, allEngines
      ensures Valid() && world == R.SwitchRole(old(world), key, role)
    {
      var c := cells[key];
      if c.role == role {
      } else if role == RolePrimary {
        Promote(key);
      } else if role == RoleStandby {
        if c.role == RoleNone {
          SetRole(c, RoleStandby);
        } else {
          Demote(key);
        }
      }
    }

    /** What is known about queued and busy drains does not depend on cells allocated later. */
    lemma MatchesGrow(c: Cell)
      requires Valid()
      ensures QueueMatches(world.queue, drainCh, allCells + [c], allEngines)
      ensures BusyMatches(world.busy, busy, allCells + [c], allEngines)
      ensures StartersIn(allCells + [c], allEngines, starters)
    {}

    /** A new cell takes its place at the end of the roster and under its key. */
    lemma RosterGrows(key: Key, c: Cell)
      requires Valid() && key !in cells
      requires c.id == |allCells| && c.Rec() == R.CellRec(key, RoleNone, StateCreating, None, None, false, false)
      ensures CellsMatch(R.Create(world, key).cells, allCells + [c], allEngines)
      ensures RegMatches(R.Create(world, key).reg, cells[key := c], allCells + [c])
      ensures R.Wf(R.Create(world, key))
    {}

    /** Stores a new cell under a free key. */
    method Create(key: Key) returns (c: Cell)
      requires Valid() && key !in cells
      modifies this`cells, this`allCells, this`world
      ensures Valid() && world == R.Create(old(world), key)
      ensures fresh(c) && allCells == old(allCells) + [c] && HasCell(c) && key in cells && cells[key] == c
    {
      c := new Cell(|allCells|, key);
      Register(key, c);
    }

    /** LoadOrStore on a free key. */
    method Register(key: Key, c: Cell)
      requires Valid() && key !in cells
      requires c.id == |allCells| && c.Rec() == R.CellRec(key, RoleNone, StateCreating, None, None, false, false)
      modifies this`cells, this`allCells, this`world
      ensures Valid() && world == R.Create(old(world), key)
      ensures allCells == old(allCells) + [c] && cells == old(cells)[key := c]
    {
      MatchesGrow(c);
      RosterGrows(key, c);
      allCells := allCells + [c];
      cells := cells[key := c];
      world := R.Create(world, key);
    }

    /** Lookup, creation and load-or-store; `created` is the answer of newCell. */
    method Obtain(key: Key, created: bool) returns (c: Cell?)
      requires Valid()
      modifies this`cells, this`world, this`allCells
      ensures Valid() && Grown()
      ensures world == if key !in old(cells) && created then R.Create(old(world), key) else old(world)
      ensures c == null <==> R.EnsureFails(old(world), key, created)
      ensures c != null ==> HasCell(c) && key in cells && cells[key] == c && c.key == key
    {
      Finds(key);
      if key in cells { return cells[key]; }
      if !created { return null; }
      c := Create(key);
    }

    /** Returns the cell under the key, created if needed, and applies the role. */
    method Ensure(key: Key, role: Role, created: bool) returns (c: Cell?)
      requires Valid()
      modifies this`cells, this`drainCh, this`world, this`allCells, allCells, allEngines
      ensures Valid() && Grown() && world == R.Ensure(old(world), key, role, created)
      ensures c == null <==> R.EnsureFails(old(world), key, created)
      ensures c != null ==> HasCell(c) && c.key == key
    {
      Finds(key);
      c := Obtain(key, created);
      if c != null { SwitchRole(key, role); }
    }

    method MarkReady(c: Cell)
      requires Valid() && HasCell(c)
      modifies this`world, c
      ensures Valid() && world == R.MarkReady(old(world), c.id)
    {
      c.MarkReady();
      world := R.MarkReady(world, c.id);
    }

    /** A successful compile: an engine no cell has held before, not started yet. */
    method NewEngine(c: Cell, hash: Hash) returns (eng: Engine)
      requires Valid() && HasCell(c)
      modifies this`world, this`allEngines
      ensures Valid() && fresh(eng) && allEngines == old(allEngines) + [eng]
      ensures eng.id == |old(allEngines)| && eng.owner == c.id
      ensures world == old(world).(engines := old(world).engines + [R.EngineRec(c.id, hash, false, false, false)])
    {
      eng := new Engine(|allEngines|, c.id, hash);
      allEngines := allEngines + [eng];
      world := world.(engines := world.engines + [eng.Rec()]);
    }

    method SetEngine(c: Cell, eng: Engine)
      requires Valid() && HasCell(c) && HasEngine(eng)
      modifies this`world, c`engine
      ensures Valid() && world == R.SetCell(old(world), c.id, old(world).cells[c.id].(engine := Some(eng.id)))
      ensures c.engine == eng
    {
      c.engine := eng;
      world := R.SetCell(world, c.id, world.cells[c.id].(engine := Some(eng.id)));
    }

    method SetHash(c: Cell, hash: Hash)
      requires Valid() && HasCell(c)
      modifies this`world, c`currentHash
      ensures Valid() && world == R.SetCell(old(world), c.id, old(world).cells[c.id].(hash := Some(hash)))
    {
      c.currentHash := Some(hash);
      world := R.SetCell(world, c.id, world.cells[c.id].(hash := Some(hash)));
    }

    /** The pointer swap and the hash store of the control loop. */
    method Swap(c: Cell, eng: Engine, hash: Hash) returns (prev: Engine?)
      requires Valid() && HasCell(c) && HasEngine(eng)
      modifies this`world, c`engine, c`currentHash
      ensures Valid() && prev == old(c.engine) && (prev != null ==> HasEngine(prev)) && c.engine == eng
      ensures world == R.SetCell(old(world), c.id, old(world).cells[c.id].(engine := Some(eng.id), hash := Some(hash)))
    {
      Sees(c);
      ghost var r := world.cells[c.id];
      prev := c.engine;
      SetEngine(c, eng);
      SetHash(c, hash);
      R.SetCellTwice(old(world), c.id, r.(engine := Some(eng.id)), r.(engine := Some(eng.id), hash := Some(hash)));
    }

    /** Compiles and hot-swaps; `outcome` is the answer of compile. */
    method ApplyConfig(key: Key, raw: string, outcome: Outcome) returns (res: R.ApplyResult)
      requires Valid()
      modifies this`cells, this`drainCh, this`world, this`allEngines, this`starters, allCells, allEngines
      ensures Valid() && Grown() && world == R.ApplyConfig(old(world), key, raw, outcome)
      ensures res == R.Verdict(old(world), key, raw, outcome)
    {
      Finds(key);
      if key in cells { Sees(cells[key]); }
      if key !in cells || cells[key].state == StateDraining { return R.NotAssigned; }
      var c := cells[key];
      var hash := Sha256(raw);
      if c.currentHash == Some(hash) { return R.Unchanged; }
      if outcome.CompileError? { return R.CompileFailed; }
      HotSwap(c, hash, outcome.discovers);
      return R.Swapped;
    }

    method HotSwap(c: Cell, hash: Hash, discovers: bool)
      requires Valid() && HasCell(c)
      modifies this`cells, this`drainCh, this`world, this`allEngines, this`starters, allCells, allEngines
      ensures Valid() && Grown()
      ensures var w1 := R.Install(old(world), c.id, hash, discovers);
              var prev := old(world).cells[c.id].engine;
              world == if prev.Some? then R.ScheduleDrain(w1, R.Task(c.id, prev.value, false)) else w1
    {
      Sees(c);
      var prev, eng := Install(c, hash, discovers);
      if prev != null { ScheduleDrain(c, prev, false); }
    }

    /** Swaps the engine in and starts it; the one swapped out is returned. */
    method Install(c: Cell, hash: Hash, discovers: bool) returns (prev: Engine?, eng: Engine)
      requires Valid() && HasCell(c)
      modifies this`world, this`allEngines, this`starters, c
      ensures Valid() && world == R.Install(old(world), c.id, hash, discovers)
      ensures prev == old(c.engine) && (prev != null ==> HasEngine(prev) && prev in old(allEngines))
      ensures fresh(eng) && allEngines == old(allEngines) + [eng] && c.engine == eng
      ensures starters == old(starters) + if discovers then [Starter(c, eng)] else []
    {
      Sees(c);
      ghost var w := world;
      eng := NewEngine(c, hash);
      prev := Swap(c, eng, hash);
      Start(c, eng, discovers);
      R.InstallInSteps(w, c.id, hash, discovers);
    }

    /** Engine.start: without discovery plugins the cell is ready at once, otherwise a goroutine waits for them. */
    method Start(c: Cell, eng: Engine, discovers: bool)
      requires Valid() && HasCell(c) && HasEngine(eng) && eng.owner == c.id
      modifies this`world, this`starters, c, eng`starting
      ensures Valid() && world == R.Begin(old(world), c.id, eng.id, discovers)
      ensures starters == old(starters) + if discovers then [Starter(c, eng)] else []
      ensures c.engine == old(c.engine)
    {
      if discovers {
        Launch(c, eng);
      } else {
        MarkReady(c);
      }
    }

    method Launch(c: Cell, eng: Engine)
      requires Valid() && HasCell(c) && HasEngine(eng) && eng.owner == c.id
      modifies this`world, this`starters, eng`starting
      ensures Valid() && world == R.Begin(old(world), c.id, eng.id, true)
      ensures starters == old(starters) + [Starter(c, eng)]
    {
      AddStarter(Starter(c, eng));
      SetStarting(eng);
    }

    method AddStarter(s: Starter)
      requires Valid() && HasCell(s.cell) && HasEngine(s.eng) && s.eng.owner == s.cell.id
      modifies this`starters
      ensures Valid() && starters == old(starters) + [s] && HasStarter(starters, s.eng)
    {
      HasStarterGrows(starters, s);
      starters := starters + [s];
    }

    method SetStarting(eng: Engine)
      requires Valid() && HasEngine(eng) && HasStarter(starters, eng)
      modifies this`world, eng`starting
      ensures Valid()
      ensures var engines := old(world).engines;
              world == old(world).(engines := engines[eng.id := engines[eng.id].(starting := true)])
    {
      eng.starting := true;
      world := world.(engines := world.engines[eng.id := world.engines[eng.id].(starting := true)]);
    }

    // ---- what goroutines do on their own ----

    /** One receive of a free drain worker. */
    method WorkerTake()
      requires Valid()
      modifies this`drainCh, this`busy, this`world
      ensures Valid() && world == R.WorkerTake(old(world))
    {
      if |drainCh| > 0 && |busy| < workers {
        busy := busy + [DrainJob(drainCh[0], R.Taken)];
        drainCh := drainCh[1..];
        world := R.WorkerTake(world);
      }
    }

    method SetPhase(i: nat, phase: R.Phase)
      requires Valid() && i < |busy|
      modifies this`busy, this`world
      ensures Valid() && world == old(world).(busy := old(world).busy[i := R.Job(old(world).busy[i].task, phase)])
    {
      busy := busy[i := DrainJob(busy[i].t, phase)];
      world := world.(busy := world.busy[i := R.Job(world.busy[i].task, phase)]);
    }

    method Release(i: nat)
      requires Valid() && i < |busy|
      modifies this`busy, this`world
      ensures Valid() && world == old(world).(busy := R.RemoveJob(old(world).busy, i))
    {
      busy := busy[..i] + busy[i + 1..];
      world := world.(busy := R.RemoveJob(world.busy, i));
    }

    /** The next effect of the i-th busy worker on its way through drain. */
    method WorkerAdvance(i: nat)
      requires Valid()
      modifies this`cells, this`busy, this`world, allCells, allEngines
      ensures Valid() && world == R.WorkerAdvance(old(world), i)
    {
      if i >= |busy| { return; }
      var t := busy[i].t;
      match busy[i].phase {
        case Taken =>
          Cancel(t.eng);
          SetPhase(i, R.Waiting);
        case Waiting =>
          if t.teardown {
            CloseCell(t.cell);
            SetPhase(i, R.Closed);
          } else {
            Release(i);
          }
        case Closed =>
          CompareAndDelete(t.cell.key, t.cell);
          Release(i);
      }
    }

    /** The goroutine of Engine.start ends, because every discovery is ready or because its context ended. */
    method StartEnds(i: nat, synced: bool)
      requires Valid() && i < |starters|
      modifies this`world, allCells, allEngines
      ensures Valid() && world == R.StartEnds(old(world), starters[i].eng.id, synced)
    {
      var c, e := starters[i].cell, starters[i].eng;
      Sees(c);
      if !e.starting || (!synced && !e.cancelled && !c.closed) { return; }
      Stop(e);
      if synced { MarkReady(c); }
    }

    /** The goroutine of an engine is through. */
    method Stop(e: Engine)
      requires Valid() && HasEngine(e)
      modifies this`world, e`starting
      ensures Valid()
      ensures world == old(world).(engines := old(world).engines[e.id := old(world).engines[e.id].(starting := false)])
    {
      e.starting := false;
      world := world.(engines := world.engines[e.id := world.engines[e.id].(starting := false)]);
    }

    method TakeStep() returns (ghost a: R.Action)
      requires Valid()
      modifies this`drainCh, this`busy, this`world
      ensures Valid() && R.Background(a) && world == R.Step(old(world), a)
    {
      a := R.DoTake;
      WorkerTake();
    }

    method AdvanceStep(i: nat) returns (ghost a: R.Action)
      requires Valid()
      modifies this`cells, this`busy, this`world, allCells, allEngines
      ensures Valid() && R.Background(a) && world == R.Step(old(world), a)
    {
      a := R.DoAdvance(i);
      WorkerAdvance(i);
    }

    method StartEndsStep(i: nat, synced: bool) returns (ghost a: R.Action)
      requires Valid() && i < |starters|
      modifies this`world, allCells, allEngines
      ensures Valid() && R.Background(a) && world == R.Step(old(world), a)
    {
      a := R.DoStartEnds(starters[i].eng.id, synced);
      StartEnds(i, synced);
    }

    /** Whatever the drain workers or the start goroutines may do next. */
    method BackgroundStep() returns (ghost a: R.Action)
      requires Valid()
      modifies this`cells, this`drainCh, this`busy, this`world, allCells, allEngines
      ensures Valid() && R.Background(a) && world == R.Step(old(world), a)
    {
      var k: nat :| true;
      if * {
        a := TakeStep();
      } else if k < |starters| {
        var synced :| synced || !synced;
        a := StartEndsStep(k, synced);
      } else {
        a := AdvanceStep(k - |starters|);
      }
    }

    /** Any number of such steps. */
    method Background() returns (ghost run: seq<R.Action>)
      requires Valid()
      modifies this`cells, this`drainCh, this`busy, this`world, allCells, allEngines
      ensures Valid() && world == R.Exec(old(world), run) && forall i | 0 <= i < |run| :: R.Background(run[i])
    {
      run := [];
      var n: nat :| true;
      for i := 0 to n
        invariant Valid() && world == R.Exec(old(world), run) && forall i | 0 <= i < |run| :: R.Background(run[i])
      {
        ghost var a := BackgroundStep();
        assert (run + [a])[..|run|] == run;
        run := run + [a];
      }
    }
  }
}
