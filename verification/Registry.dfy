/**
 The cell registry of pkg/cell as values: what each Manager method, each step of a drain
 worker and each readiness notification does to the whole registry. The classes in
 Manager.dfy are proved against these functions, RegistryRuns.dfy proves what every run keeps.
 */
module Registry {
  import opened Types

  /** Capacity of the drain channel. */
  const DRAIN_QUEUE: nat := 64

  datatype CellRec = CellRec(
    key: Key, role: Role, state: State,
    engine: Option<EngineId>, hash: Option<Hash>,
    ready: bool, closed: bool)

  /** `starting`: the goroutine waiting for the discovery plugins has not ended.
      `demoted`: a history variable no branch reads; the engine was current during a Demote. */
  datatype EngineRec = EngineRec(owner: CellId, version: Hash, cancelled: bool, starting: bool, demoted: bool)

  datatype Task = Task(cell: CellId, eng: EngineId, teardown: bool)

  /** Where a drain worker is: it holds the entry, it has cancelled the engine, it has closed the cell. */
  datatype Phase = Taken | Waiting | Closed

  datatype Job = Job(task: Task, phase: Phase)

  datatype World = World(
    cells: seq<CellRec>, engines: seq<EngineRec>, reg: map<Key, CellId>,
    queue: seq<Task>, busy: seq<Job>, workers: nat)

  datatype ApplyResult = NotAssigned | Unchanged | CompileFailed | Swapped

  ghost predicate WfTask(w: World, t: Task) {
    t.cell < |w.cells| && t.eng < |w.engines|
  }

  /** Every identity mentioned exists. */
  ghost predicate Wf(w: World) {
    && (forall k <- w.reg :: w.reg[k] < |w.cells|)
    && (forall c | 0 <= c < |w.cells| :: w.cells[c].engine.Some? ==> w.cells[c].engine.value < |w.engines|)
    && (forall e | 0 <= e < |w.engines| :: w.engines[e].owner < |w.cells|)
    && (forall i | 0 <= i < |w.queue| :: WfTask(w, w.queue[i]))
    && (forall i | 0 <= i < |w.busy| :: WfTask(w, w.busy[i].task))
  }

  function SetCell(w: World, c: CellId, r: CellRec): World
    requires c < |w.cells|
  {
    w.(cells := w.cells[c := r])
  }

  lemma SetCellTwice(w: World, c: CellId, r: CellRec, s: CellRec)
    requires c < |w.cells|
    ensures SetCell(SetCell(w, c, r), c, s) == SetCell(w, c, s)
  {
    assert w.cells[c := r][c := s] == w.cells[c := s];
  }

  function CancelEngine(w: World, e: EngineId): World
    requires e < |w.engines|
  {
    w.(engines := w.engines[e := w.engines[e].(cancelled := true)])
  }

  function CloseCell(w: World, c: CellId): World
    requires c < |w.cells|
  {
    SetCell(w, c, w.cells[c].(closed := true))
  }

  /** Unregister this very cell; a successor under the same key stays. */
  function CompareAndDelete(w: World, c: CellId): World
    requires c < |w.cells|
  {
    var key := w.cells[c].key;
    if key in w.reg && w.reg[key] == c then w.(reg := w.reg - {key}) else w
  }

  /** A drain run to its end: cancel, wait or time out, and tear the cell down when asked to. */
  function Drain(w: World, t: Task): World
    requires WfTask(w, t)
  {
    var w1 := CancelEngine(w, t.eng);
    if t.teardown then CompareAndDelete(CloseCell(w1, t.cell), t.cell) else w1
  }

  /** Enqueue, or drain on the spot when the channel is full. */
  function ScheduleDrain(w: World, t: Task): (w': World)
    requires WfTask(w, t)
    ensures Wf(w) ==> Wf(w')
  {
    if |w.queue| < DRAIN_QUEUE then w.(queue := w.queue + [t]) else Drain(w, t)
  }

  function Promote(w: World, key: Key): (w': World)
    requires Wf(w)
    ensures Wf(w')
  {
    if key !in w.reg || w.cells[w.reg[key]].state == StateDraining then w
    else
      var r := w.cells[w.reg[key]];
      var s := if r.state == StateStandby || r.state == StateCreating then StatePrimary else r.state;
      SetCell(w, w.reg[key], r.(role := RolePrimary, state := s))
  }

  function Demote(w: World, key: Key): (w': World)
    requires Wf(w)
    ensures Wf(w')
  {
    if key !in w.reg || w.cells[w.reg[key]].state == StateDraining then w
    else
      var c := w.reg[key];
      var r := w.cells[c];
      var s := if r.state == StatePrimary then StateStandby else r.state;
      var w1 := SetCell(w, c, r.(role := RoleStandby, state := s));
      if r.engine.None? then w1
      else
        var e := r.engine.value;
        var w2 := w1.(engines := w1.engines[e := w1.engines[e].(demoted := true)]);
        ScheduleDrain(w2, Task(c, e, false))
  }

  function Drop(w: World, key: Key): (w': World)
    requires Wf(w)
    ensures Wf(w')
  {
    if key !in w.reg then w
    else
      var c := w.reg[key];
      var r := w.cells[c];
      var w1 := SetCell(w, c, r.(state := StateDraining));
      if r.engine.Some? then ScheduleDrain(w1, Task(c, r.engine.value, true))
      else CompareAndDelete(CloseCell(w1, c), c)
  }

  function Create(w: World, key: Key): World {
    w.(cells := w.cells + [CellRec(key, RoleNone, StateCreating, None, None, false, false)],
       reg := w.reg[key := |w.cells|])
  }

  /** The role switch at the end of Ensure. */
  function SwitchRole(w: World, key: Key, role: Role): (w': World)
    requires Wf(w) && key in w.reg
    ensures Wf(w')
  {
    var c := w.reg[key];
    if w.cells[c].role == role then w
    else if role == RolePrimary then Promote(w, key)
    else if role == RoleStandby then
      if w.cells[c].role == RoleNone then SetCell(w, c, w.cells[c].(role := RoleStandby))
      else Demote(w, key)
    else w
  }

  /** `created` says whether building a new cell succeeds; false is the error return. */
  function Ensure(w: World, key: Key, role: Role, created: bool): (w': World)
    requires Wf(w)
    ensures Wf(w')
  {
    if key in w.reg then SwitchRole(w, key, role)
    else if created then SwitchRole(Create(w, key), key, role)
    else w
  }

  predicate EnsureFails(w: World, key: Key, created: bool) {
    key !in w.reg && !created
  }

  /** Idempotent: closes `ready` and ends the creating state. */
  function MarkReady(w: World, c: CellId): (w': World)
    requires c < |w.cells|
    ensures Wf(w) ==> Wf(w')
  {
    var r := w.cells[c];
    if r.ready then w
    else SetCell(w, c, r.(ready := true, state := if r.state == StateCreating then StateStandby else r.state))
  }

  function Verdict(w: World, key: Key, raw: string, outcome: Outcome): ApplyResult
    requires Wf(w)
  {
    if key !in w.reg || w.cells[w.reg[key]].state == StateDraining then NotAssigned
    else if w.cells[w.reg[key]].hash == Some(Sha256(raw)) then Unchanged
    else if outcome.CompileError? then CompileFailed
    else Swapped
  }

  /** A fresh engine becomes the cell's current one and its hash is recorded. */
  function WithEngine(w: World, c: CellId, hash: Hash, discovers: bool): (w': World)
    requires c < |w.cells|
    ensures Wf(w) ==> Wf(w')
  {
    w.(engines := w.engines + [EngineRec(c, hash, false, discovers, false)],
       cells := w.cells[c := w.cells[c].(engine := Some(|w.engines|), hash := Some(hash))])
  }

  /** Swap in a fresh engine, record its hash and start it. */
  function Install(w: World, c: CellId, hash: Hash, discovers: bool): (w': World)
    requires c < |w.cells|
    ensures Wf(w) ==> Wf(w')
  {
    if discovers then WithEngine(w, c, hash, discovers) else MarkReady(WithEngine(w, c, hash, discovers), c)
  }

  /** An engine begins: a goroutine waits for its discovery plugins, or the cell is ready when it has none. */
  function Begin(w: World, c: CellId, e: EngineId, discovers: bool): World
    requires c < |w.cells| && e < |w.engines|
  {
    if discovers then w.(engines := w.engines[e := w.engines[e].(starting := true)]) else MarkReady(w, c)
  }

  /** Compile, pointer swap with hash store, and start, one after the other, are Install. */
  lemma InstallInSteps(w: World, c: CellId, hash: Hash, discovers: bool)
    requires c < |w.cells|
    ensures var compiled := w.(engines := w.engines + [EngineRec(c, hash, false, false, false)]);
            var swapped := SetCell(compiled, c, compiled.cells[c].(engine := Some(|w.engines|), hash := Some(hash)));
            Begin(swapped, c, |w.engines|, discovers) == Install(w, c, hash, discovers)
  {
    var rec := EngineRec(c, hash, false, false, false);
    assert (w.engines + [rec])[|w.engines| := rec.(starting := true)] == w.engines + [rec.(starting := true)];
  }

  function ApplyConfig(w: World, key: Key, raw: string, outcome: Outcome): (w': World)
    requires Wf(w)
    ensures Wf(w')
  {
    if Verdict(w, key, raw, outcome) != Swapped then w
    else
      var c := w.reg[key];
      var w1 := Install(w, c, Sha256(raw), outcome.discovers);
      if w.cells[c].engine.Some? then ScheduleDrain(w1, Task(c, w.cells[c].engine.value, false)) else w1
  }

  /** A free worker receives the head of the channel. */
  function WorkerTake(w: World): (w': World)
    requires Wf(w)
    ensures Wf(w')
  {
    if |w.queue| == 0 || |w.busy| >= w.workers then w
    else w.(queue := w.queue[1..], busy := w.busy + [Job(w.queue[0], Taken)])
  }

  function RemoveJob(busy: seq<Job>, i: nat): seq<Job>
    requires i < |busy|
  {
    busy[..i] + busy[i + 1..]
  }

  /** The next atomic effect of the i-th busy worker; whether the wait ended by zero or by timeout does not matter
      here. */
  function WorkerAdvance(w: World, i: nat): (w': World)
    requires Wf(w)
    ensures Wf(w')
  {
    if i >= |w.busy| then w
    else
      var t := w.busy[i].task;
      match w.busy[i].phase
      case Taken => CancelEngine(w, t.eng).(busy := w.busy[i := Job(t, Waiting)])
      case Waiting =>
        if t.teardown then CloseCell(w, t.cell).(busy := w.busy[i := Job(t, Closed)])
        else w.(busy := RemoveJob(w.busy, i))
      case Closed => CompareAndDelete(w, t.cell).(busy := RemoveJob(w.busy, i))
  }

  /** The goroutine of Engine.start ends: every discovery is ready, or its context ended first. */
  function StartEnds(w: World, e: EngineId, synced: bool): (w': World)
    requires Wf(w)
    ensures Wf(w')
  {
    if e >= |w.engines| || !w.engines[e].starting then w
    else
      var c := w.engines[e].owner;
      if !synced && !w.engines[e].cancelled && !w.cells[c].closed then w
      else
        var w1 := w.(engines := w.engines[e := w.engines[e].(starting := false)]);
        if synced then MarkReady(w1, c) else w1
  }

  datatype Action =
    | DoEnsure(key: Key, role: Role, created: bool)
    | DoPromote(key: Key)
    | DoDemote(key: Key)
    | DoDrop(key: Key)
    | DoApply(key: Key, raw: string, outcome: Outcome)
    | DoTake
    | DoAdvance(worker: nat)
    | DoStartEnds(eng: EngineId, synced: bool)

  /** Steps that happen on their own, without a control call. */
  predicate Background(a: Action) {
    a.DoTake? || a.DoAdvance? || a.DoStartEnds?
  }

  /** One atomic step; an action that is not possible leaves the registry as it is. */
  function Step(w: World, a: Action): (w': World)
    requires Wf(w)
    ensures Wf(w')
  {
    match a
    case DoEnsure(key, role, created) => Ensure(w, key, role, created)
    case DoPromote(key) => Promote(w, key)
    case DoDemote(key) => Demote(w, key)
    case DoDrop(key) => Drop(w, key)
    case DoApply(key, raw, outcome) => ApplyConfig(w, key, raw, outcome)
    case DoTake => WorkerTake(w)
    case DoAdvance(i) => WorkerAdvance(w, i)
    case DoStartEnds(e, synced) => StartEnds(w, e, synced)
  }

  function Exec(w: World, run: seq<Action>): (w': World)
    requires Wf(w)
    ensures Wf(w')
  {
    if |run| == 0 then w else Step(Exec(w, run[..|run| - 1]), run[|run| - 1])
  }

  function Init(workers: nat): World {
    World([], [], map[], [], [], workers)
  }
}
