/** What every run of the registry keeps: lifecycle, teardown and engine accounting. */
module RegistryRuns {
  import opened Types
  import opened Registry

  predicate Draining(w: World, c: CellId)
    requires c < |w.cells|
  {
    w.cells[c].state == StateDraining
  }

  predicate Registered(w: World, c: CellId)
    requires c < |w.cells|
  {
    w.cells[c].key in w.reg && w.reg[w.cells[c].key] == c
  }

  /** Queued, or in the hands of a worker at any point before it lets go of it. */
  predicate Pending(w: World, t: Task) {
    t in w.queue || Job(t, Taken) in w.busy || Job(t, Waiting) in w.busy || Job(t, Closed) in w.busy
  }

  /** Pending, or about to be scheduled by the control method that is running. */
  predicate Owed(w: World, due: Option<Task>, t: Task) {
    Pending(w, t) || due == Some(t)
  }

  /** The recorded hash is the hash of the current engine's configuration. */
  ghost predicate HashOk(w: World, c: CellId)
    requires c < |w.cells|
  {
    match w.cells[c].engine
    case None => w.cells[c].hash == None
    case Some(e) => e < |w.engines| && w.engines[e].owner == c && w.cells[c].hash == Some(w.engines[e].version)
  }

  predicate EngineStopped(w: World, c: CellId)
    requires c < |w.cells|
  {
    w.cells[c].engine.Some? ==> w.cells[c].engine.value < |w.engines| && w.engines[w.cells[c].engine.value].cancelled
  }

  /** A live cell is registered and open and its role and state agree; a registered draining
      cell has its teardown ahead of it; a cell is never forgotten before it is closed and its engine cancelled. */
  ghost predicate CellOk(w: World, due: Option<Task>, c: CellId)
    requires c < |w.cells|
  {
    var r := w.cells[c];
    && HashOk(w, c)
    && (r.state != StateDraining ==>
          Registered(w, c) && !r.closed && (r.role == RolePrimary <==> r.state == StatePrimary))
    && (r.state == StateCreating ==> !r.ready)
    && (!Registered(w, c) ==> r.closed && EngineStopped(w, c))
    && (Draining(w, c) && Registered(w, c) ==> r.engine.Some? && Owed(w, due, Task(c, r.engine.value, true)))
  }

  /** No engine is forgotten, and no live cell runs on a cancelled one unless it was demoted. */
  ghost predicate EngineOk(w: World, due: Option<Task>, e: EngineId)
    requires e < |w.engines| && w.engines[e].owner < |w.cells|
  {
    var g := w.engines[e];
    var current := w.cells[g.owner].engine == Some(e);
    var ending := g.cancelled || Owed(w, due, Task(g.owner, e, false));
    && (current || ending)
    && (g.demoted ==> ending)
    && (current && ending && w.cells[g.owner].state != StateDraining ==> g.demoted)
  }

  ghost predicate TaskOk(w: World, t: Task) {
    && WfTask(w, t) && w.engines[t.eng].owner == t.cell
    && (t.teardown ==> Draining(w, t.cell) && w.cells[t.cell].engine == Some(t.eng))
  }

  ghost predicate JobOk(w: World, j: Job) {
    && TaskOk(w, j.task)
    && (j.phase != Taken ==> w.engines[j.task.eng].cancelled)
    && (j.phase == Closed ==> j.task.teardown && w.cells[j.task.cell].closed)
  }

  ghost predicate InvDue(w: World, due: Option<Task>) {
    && Wf(w)
    && (forall k <- w.reg :: w.cells[w.reg[k]].key == k)
    && (forall c | 0 <= c < |w.cells| :: CellOk(w, due, c))
    && (forall e | 0 <= e < |w.engines| :: EngineOk(w, due, e))
    && (forall t <- w.queue :: TaskOk(w, t))
    && (forall j <- w.busy :: JobOk(w, j))
    && (due.Some? ==> TaskOk(w, due.value))
    && |w.queue| <= DRAIN_QUEUE
    && |w.busy| <= w.workers
  }

  ghost predicate Inv(w: World) {
    InvDue(w, None)
  }

  lemma InitKeeps(workers: nat)
    ensures Inv(Init(workers))
  {}

  // ---- scheduling a drain ----

  lemma EnqueueKeeps(w: World, t: Task)
    requires InvDue(w, Some(t)) && |w.queue| < DRAIN_QUEUE
    ensures Inv(w.(queue := w.queue + [t]))
  {
    var w' := w.(queue := w.queue + [t]);
    assert forall u :: Owed(w', None, u) <==> Owed(w, Some(t), u);
    forall c | 0 <= c < |w'.cells| ensures CellOk(w', None, c) { assert CellOk(w, Some(t), c); }
    forall e | 0 <= e < |w'.engines| ensures EngineOk(w', None, e) { assert EngineOk(w, Some(t), e); }
    forall u <- w'.queue ensures TaskOk(w', u) { assert TaskOk(w, u); }
    forall j <- w'.busy ensures JobOk(w', j) { assert JobOk(w, j); }
  }

  lemma CancelKeeps(w: World, due: Option<Task>, e: EngineId)
    requires InvDue(w, due) && e < |w.engines|
    requires due == Some(Task(w.engines[e].owner, e, true)) || due == Some(Task(w.engines[e].owner, e, false))
          || Pending(w, Task(w.engines[e].owner, e, true)) || Pending(w, Task(w.engines[e].owner, e, false))
    ensures InvDue(CancelEngine(w, e), due)
  {
    var w' := CancelEngine(w, e);
    assert forall u :: Owed(w', due, u) <==> Owed(w, due, u);
    forall c | 0 <= c < |w'.cells| ensures CellOk(w', due, c) { assert CellOk(w, due, c); }
    forall f | 0 <= f < |w'.engines| ensures EngineOk(w', due, f) {
      assert EngineOk(w, due, f);
      var teardown := Task(w.engines[e].owner, e, true);
      assert Pending(w, teardown) ==> TaskOk(w, teardown) by { PendingOk(w, due); }
    }
    forall u <- w'.queue ensures TaskOk(w', u) { assert TaskOk(w, u); }
    forall j <- w'.busy ensures JobOk(w', j) { assert JobOk(w, j); }
  }

  lemma PendingOk(w: World, due: Option<Task>)
    requires InvDue(w, due)
    ensures forall t :: Owed(w, due, t) ==> TaskOk(w, t)
  {
    forall t | Owed(w, due, t) ensures TaskOk(w, t) {
      if Job(t, Taken) in w.busy { assert JobOk(w, Job(t, Taken)); }
      if Job(t, Waiting) in w.busy { assert JobOk(w, Job(t, Waiting)); }
      if Job(t, Closed) in w.busy { assert JobOk(w, Job(t, Closed)); }
    }
  }

  lemma CloseKeeps(w: World, due: Option<Task>, c: CellId)
    requires InvDue(w, due) && c < |w.cells| && Draining(w, c)
    ensures InvDue(CloseCell(w, c), due)
  {
    var w' := CloseCell(w, c);
    assert forall u :: Owed(w', due, u) <==> Owed(w, due, u);
    forall d | 0 <= d < |w'.cells| ensures CellOk(w', due, d) { assert CellOk(w, due, d); }
    forall f | 0 <= f < |w'.engines| ensures EngineOk(w', due, f) { assert EngineOk(w, due, f); }
    forall u <- w'.queue ensures TaskOk(w', u) { assert TaskOk(w, u); }
    forall j <- w'.busy ensures JobOk(w', j) { assert JobOk(w, j); }
  }

  lemma DeleteKeeps(w: World, due: Option<Task>, c: CellId)
    requires InvDue(w, due) && c < |w.cells| && Draining(w, c) && w.cells[c].closed && EngineStopped(w, c)
    ensures InvDue(CompareAndDelete(w, c), due)
  {
    var w' := CompareAndDelete(w, c);
    assert forall u :: Owed(w', due, u) <==> Owed(w, due, u);
    forall d | 0 <= d < |w'.cells| ensures CellOk(w', due, d) { assert CellOk(w, due, d); }
    forall f | 0 <= f < |w'.engines| ensures EngineOk(w', due, f) { assert EngineOk(w, due, f); }
    forall u <- w'.queue ensures TaskOk(w', u) { assert TaskOk(w, u); }
    forall j <- w'.busy ensures JobOk(w', j) { assert JobOk(w, j); }
  }

  /** What was due is settled once the engine is cancelled and, for a teardown, the cell is gone. */
  lemma SettleKeeps(w: World, t: Task)
    requires InvDue(w, Some(t)) && w.engines[t.eng].cancelled
    requires t.teardown ==> !Registered(w, t.cell)
    ensures Inv(w)
  {
    forall c | 0 <= c < |w.cells| ensures CellOk(w, None, c) { assert CellOk(w, Some(t), c); }
    forall f | 0 <= f < |w.engines| ensures EngineOk(w, None, f) { assert EngineOk(w, Some(t), f); }
  }

  lemma ScheduleKeeps(w: World, t: Task)
    requires InvDue(w, Some(t))
    ensures Inv(ScheduleDrain(w, t))
  {
    if |w.queue| < DRAIN_QUEUE {
      EnqueueKeeps(w, t);
    } else {
      CancelKeeps(w, Some(t), t.eng);
      var w1 := CancelEngine(w, t.eng);
      if t.teardown {
        CloseKeeps(w1, Some(t), t.cell);
        DeleteKeeps(CloseCell(w1, t.cell), Some(t), t.cell);
      }
      SettleKeeps(Drain(w, t), t);
    }
  }

  // ---- the control methods ----

  /** `r` may stand in for the record of `c`: at most its role, its readiness and its state, short of draining,
      differ. */
  ghost predicate Fits(w: World, c: CellId, r: CellRec)
    requires c < |w.cells|
  {
    var q := w.cells[c];
    && r.key == q.key && r.engine == q.engine && r.hash == q.hash && r.closed == q.closed
    && (r.state == StateDraining <==> q.state == StateDraining)
    && (r.state != StateDraining ==> (r.role == RolePrimary <==> r.state == StatePrimary))
    && (r.state == StateCreating ==> !r.ready)
  }

  lemma RecordCells(w: World, due: Option<Task>, c: CellId, r: CellRec)
    requires InvDue(w, due) && c < |w.cells| && Fits(w, c, r)
    ensures forall d | 0 <= d < |w.cells| :: CellOk(SetCell(w, c, r), due, d)
  {
    var w' := SetCell(w, c, r);
    assert forall u :: Owed(w', due, u) <==> Owed(w, due, u);
    forall d | 0 <= d < |w.cells| ensures CellOk(w', due, d) { assert CellOk(w, due, d) && CellOk(w, due, c); }
  }

  /** A cell record changes, its key, engine and closed flag do not. */
  lemma RecordKeeps(w: World, due: Option<Task>, c: CellId, r: CellRec)
    requires InvDue(w, due) && c < |w.cells| && Fits(w, c, r)
    ensures InvDue(SetCell(w, c, r), due)
  {
    var w' := SetCell(w, c, r);
    RecordCells(w, due, c, r);
    assert forall u :: Owed(w', due, u) <==> Owed(w, due, u);
    forall f | 0 <= f < |w'.engines| ensures EngineOk(w', due, f) { assert EngineOk(w, due, f); }
    forall u <- w'.queue ensures TaskOk(w', u) { assert TaskOk(w, u); }
    forall j <- w'.busy ensures JobOk(w', j) { assert JobOk(w, j); }
  }

  lemma PromoteKeeps(w: World, key: Key)
    requires Inv(w)
    ensures Inv(Promote(w, key))
  {
    if key in w.reg && !Draining(w, w.reg[key]) {
      var c := w.reg[key];
      assert CellOk(w, None, c);
      RecordKeeps(w, None, c, Promote(w, key).cells[c]);
    }
  }

  lemma DemoteKeeps(w: World, key: Key)
    requires Inv(w)
    ensures Inv(Demote(w, key))
  {
    if key in w.reg && !Draining(w, w.reg[key]) {
      var c := w.reg[key];
      assert CellOk(w, None, c);
      var s := if w.cells[c].state == StatePrimary then StateStandby else w.cells[c].state;
      var r := w.cells[c].(role := RoleStandby, state := s);
      RecordKeeps(w, None, c, r);
      var w1 := SetCell(w, c, r);
      if r.engine.Some? {
        var e := r.engine.value;
        DemotedKeeps(w1, c, e);
        ScheduleKeeps(w1.(engines := w1.engines[e := w1.engines[e].(demoted := true)]), Task(c, e, false));
      }
    }
  }

  lemma DemotedKeeps(w: World, c: CellId, e: EngineId)
    requires Inv(w) && c < |w.cells| && w.cells[c].engine == Some(e)
    ensures InvDue(w.(engines := w.engines[e := w.engines[e].(demoted := true)]), Some(Task(c, e, false)))
  {
    assert CellOk(w, None, c);
    var w' := w.(engines := w.engines[e := w.engines[e].(demoted := true)]);
    var due := Some(Task(c, e, false));
    assert forall u :: Owed(w', due, u) <==> Owed(w, None, u) || u == due.value;
    forall d | 0 <= d < |w'.cells| ensures CellOk(w', due, d) { assert CellOk(w, None, d); }
    forall f | 0 <= f < |w'.engines| ensures EngineOk(w', due, f) { assert EngineOk(w, None, f); }
    forall u <- w'.queue ensures TaskOk(w', u) { assert TaskOk(w, u); }
    forall j <- w'.busy ensures JobOk(w', j) { assert JobOk(w, j); }
  }

  /** A cell with an engine starts draining: its teardown is due. */
  lemma StopKeeps(w: World, c: CellId)
    requires Inv(w) && c < |w.cells| && Registered(w, c) && w.cells[c].engine.Some?
    ensures InvDue(SetCell(w, c, w.cells[c].(state := StateDraining)), Some(Task(c, w.cells[c].engine.value, true)))
  {
    var w' := SetCell(w, c, w.cells[c].(state := StateDraining));
    var due := Some(Task(c, w.cells[c].engine.value, true));
    assert CellOk(w, None, c);
    assert forall u :: Owed(w', due, u) <==> Owed(w, None, u) || due == Some(u);
    forall d | 0 <= d < |w'.cells| ensures CellOk(w', due, d) { assert CellOk(w, None, d); }
    forall f | 0 <= f < |w'.engines| ensures EngineOk(w', due, f) { assert EngineOk(w, None, f); }
    forall u <- w'.queue ensures TaskOk(w', u) { assert TaskOk(w, u); }
    forall j <- w'.busy ensures JobOk(w', j) { assert JobOk(w, j); }
  }

  /** A cell that never had an engine is closed and unregistered at once. */
  lemma DiscardKeeps(w: World, key: Key)
    requires Inv(w) && key in w.reg && w.cells[w.reg[key]].engine.None?
    ensures Inv(Drop(w, key))
  {
    var c := w.reg[key];
    var w' := Drop(w, key);
    assert CellOk(w, None, c);
    assert forall u :: Owed(w', None, u) <==> Owed(w, None, u);
    forall d | 0 <= d < |w'.cells| ensures CellOk(w', None, d) { assert CellOk(w, None, d); }
    forall f | 0 <= f < |w'.engines| ensures EngineOk(w', None, f) { assert EngineOk(w, None, f); }
    forall u <- w'.queue ensures TaskOk(w', u) { assert TaskOk(w, u); }
    forall j <- w'.busy ensures JobOk(w', j) { assert JobOk(w, j); }
  }

  lemma DropKeeps(w: World, key: Key)
    requires Inv(w)
    ensures Inv(Drop(w, key))
  {
    if key in w.reg {
      var c := w.reg[key];
      if w.cells[c].engine.Some? {
        StopKeeps(w, c);
        ScheduleKeeps(SetCell(w, c, w.cells[c].(state := StateDraining)), Task(c, w.cells[c].engine.value, true));
      } else {
        DiscardKeeps(w, key);
      }
    }
  }

  lemma CreateKeeps(w: World, key: Key)
    requires Inv(w) && key !in w.reg
    ensures Inv(Create(w, key))
  {
    var w' := Create(w, key);
    assert forall u :: Owed(w', None, u) <==> Owed(w, None, u);
    forall d | 0 <= d < |w'.cells| ensures CellOk(w', None, d) {
      if d < |w.cells| { assert CellOk(w, None, d); }
    }
    forall f | 0 <= f < |w'.engines| ensures EngineOk(w', None, f) { assert EngineOk(w, None, f); }
    forall u <- w'.queue ensures TaskOk(w', u) { assert TaskOk(w, u); }
    forall j <- w'.busy ensures JobOk(w', j) { assert JobOk(w, j); }
  }

  lemma SwitchRoleKeeps(w: World, key: Key, role: Role)
    requires Inv(w) && key in w.reg
    ensures Inv(SwitchRole(w, key, role))
  {
    var c := w.reg[key];
    assert CellOk(w, None, c);
    PromoteKeeps(w, key);
    DemoteKeeps(w, key);
    if w.cells[c].role == RoleNone {
      RecordKeeps(w, None, c, w.cells[c].(role := RoleStandby));
    }
  }

  lemma EnsureKeeps(w: World, key: Key, role: Role, created: bool)
    requires Inv(w)
    ensures Inv(Ensure(w, key, role, created))
  {
    if key in w.reg {
      SwitchRoleKeeps(w, key, role);
    } else {
      CreateKeeps(w, key);
      SwitchRoleKeeps(Create(w, key), key, role);
    }
  }

  lemma MarkReadyKeeps(w: World, due: Option<Task>, c: CellId)
    requires InvDue(w, due) && c < |w.cells|
    ensures InvDue(MarkReady(w, c), due)
  {
    assert CellOk(w, due, c);
    RecordKeeps(w, due, c, MarkReady(w, c).cells[c]);
  }

  /** A live cell points at a fresh engine and records its hash: the engine it held is due for a drain. */
  lemma SwapKeeps(w: World, c: CellId, hash: Hash, discovers: bool)
    requires Inv(w) && c < |w.cells| && !Draining(w, c)
    ensures InvDue(WithEngine(w, c, hash, discovers), Replaced(w, c))
  {
    var due := Replaced(w, c);
    var w' := WithEngine(w, c, hash, discovers);
    PendingOk(w, None);
    assert CellOk(w, None, c);
    assert forall u :: Owed(w', due, u) <==> Owed(w, None, u) || due == Some(u);
    forall d | 0 <= d < |w'.cells| ensures CellOk(w', due, d) { assert CellOk(w, None, d); }
    forall f | 0 <= f < |w.engines| ensures EngineOk(w', due, f) {
      assert EngineOk(w, None, f);
    }
    assert EngineOk(w', due, |w.engines|);
    forall u <- w'.queue ensures TaskOk(w', u) { assert TaskOk(w, u); }
    forall j <- w'.busy ensures JobOk(w', j) { assert JobOk(w, j); }
  }

  function Replaced(w: World, c: CellId): Option<Task>
    requires c < |w.cells|
  {
    if w.cells[c].engine.Some? then Some(Task(c, w.cells[c].engine.value, false)) else None
  }

  lemma InstallKeeps(w: World, c: CellId, hash: Hash, discovers: bool)
    requires Inv(w) && c < |w.cells| && !Draining(w, c)
    ensures InvDue(Install(w, c, hash, discovers), Replaced(w, c))
  {
    SwapKeeps(w, c, hash, discovers);
    MarkReadyKeeps(WithEngine(w, c, hash, discovers), Replaced(w, c), c);
  }

  lemma ApplyKeeps(w: World, key: Key, raw: string, outcome: Outcome)
    requires Inv(w)
    ensures Inv(ApplyConfig(w, key, raw, outcome))
  {
    if Verdict(w, key, raw, outcome) == Swapped {
      var c := w.reg[key];
      InstallKeeps(w, c, Sha256(raw), outcome.discovers);
      if w.cells[c].engine.Some? {
        ScheduleKeeps(Install(w, c, Sha256(raw), outcome.discovers), Task(c, w.cells[c].engine.value, false));
      }
    }
  }

  // ---- what happens in the background ----

  lemma TakeKeeps(w: World)
    requires Inv(w)
    ensures Inv(WorkerTake(w))
  {
    var w' := WorkerTake(w);
    if w' != w {
      assert w.queue == [w.queue[0]] + w.queue[1..];
      assert forall u :: Owed(w', None, u) <==> Owed(w, None, u);
      forall c | 0 <= c < |w'.cells| ensures CellOk(w', None, c) { assert CellOk(w, None, c); }
      forall f | 0 <= f < |w'.engines| ensures EngineOk(w', None, f) { assert EngineOk(w, None, f); }
      forall u <- w'.queue ensures TaskOk(w', u) { assert TaskOk(w, u); }
      forall j <- w'.busy ensures JobOk(w', j) {
        if j in w.busy { assert JobOk(w, j); } else { assert TaskOk(w, w.queue[0]); }
      }
    }
  }

  lemma JobsAfterUpdate(busy: seq<Job>, i: nat, j: Job)
    requires i < |busy|
    ensures forall x :: x in busy[i := j] ==> x == j || x in busy
    ensures forall x :: x in busy && x != busy[i] ==> x in busy[i := j]
    ensures j in busy[i := j]
  {
    var b := busy[i := j];
    assert b[i] == j;
    forall x | x in busy && x != busy[i] ensures x in b {
      var k :| 0 <= k < |busy| && busy[k] == x;
      assert b[k] == x;
    }
  }

  lemma JobsAfterRemove(busy: seq<Job>, i: nat)
    requires i < |busy|
    ensures forall x :: x in RemoveJob(busy, i) ==> x in busy
    ensures forall x :: x in busy && x != busy[i] ==> x in RemoveJob(busy, i)
  {
    assert busy == busy[..i] + [busy[i]] + busy[i + 1..];
  }

  /** A worker moves on: what it holds stays pending. */
  lemma PhaseKeeps(w: World, i: nat, p: Phase)
    requires Inv(w) && i < |w.busy| && JobOk(w, Job(w.busy[i].task, p))
    ensures Inv(w.(busy := w.busy[i := Job(w.busy[i].task, p)]))
  {
    var j := Job(w.busy[i].task, p);
    JobsAfterUpdate(w.busy, i, j);
    var w' := w.(busy := w.busy[i := j]);
    forall u ensures Owed(w', None, u) <==> Owed(w, None, u) {
      if u == j.task {
        assert j == Job(u, p) && w.busy[i] == Job(u, w.busy[i].phase) && w.busy[i] in w.busy;
        assert Owed(w, None, u) && Owed(w', None, u);
      }
    }
    forall c | 0 <= c < |w'.cells| ensures CellOk(w', None, c) { assert CellOk(w, None, c); }
    forall f | 0 <= f < |w'.engines| ensures EngineOk(w', None, f) { assert EngineOk(w, None, f); }
    forall u <- w'.queue ensures TaskOk(w', u) { assert TaskOk(w, u); }
    forall k <- w'.busy ensures JobOk(w', k) { assert JobOk(w, k); }
  }

  /** A worker lets go: from here on the entry is only due. */
  lemma ReleaseKeeps(w: World, i: nat)
    requires Inv(w) && i < |w.busy|
    ensures InvDue(w.(busy := RemoveJob(w.busy, i)), Some(w.busy[i].task))
  {
    JobsAfterRemove(w.busy, i);
    var due := Some(w.busy[i].task);
    var w' := w.(busy := RemoveJob(w.busy, i));
    PendingOk(w, None);
    assert forall u :: Owed(w', due, u) <==> Owed(w, None, u) by {
      assert w.busy[i] in w.busy;
    }
    forall c | 0 <= c < |w'.cells| ensures CellOk(w', due, c) { assert CellOk(w, None, c); }
    forall f | 0 <= f < |w'.engines| ensures EngineOk(w', due, f) { assert EngineOk(w, None, f); }
    forall u <- w'.queue ensures TaskOk(w', u) { assert TaskOk(w, u); }
    forall k <- w'.busy ensures JobOk(w', k) { assert JobOk(w, k); }
  }

  lemma AdvanceKeeps(w: World, i: nat)
    requires Inv(w)
    ensures Inv(WorkerAdvance(w, i))
  {
    if i < |w.busy| {
      var t := w.busy[i].task;
      assert JobOk(w, w.busy[i]);
      assert t in w.queue || Pending(w, t);
      match w.busy[i].phase {
        case Taken =>
          CancelKeeps(w, None, t.eng);
          PhaseKeeps(CancelEngine(w, t.eng), i, Waiting);
        case Waiting =>
          if t.teardown {
            CloseKeeps(w, None, t.cell);
            PhaseKeeps(CloseCell(w, t.cell), i, Closed);
          } else {
            ReleaseKeeps(w, i);
            SettleKeeps(w.(busy := RemoveJob(w.busy, i)), t);
          }
        case Closed =>
          DeleteKeeps(w, None, t.cell);
          var w1 := CompareAndDelete(w, t.cell);
          ReleaseKeeps(w1, i);
          SettleKeeps(w1.(busy := RemoveJob(w1.busy, i)), t);
      }
    }
  }

  lemma StartEndsKeeps(w: World, e: EngineId, synced: bool)
    requires Inv(w)
    ensures Inv(StartEnds(w, e, synced))
  {
    if e < |w.engines| {
      var w1 := w.(engines := w.engines[e := w.engines[e].(starting := false)]);
      assert forall u :: Owed(w1, None, u) <==> Owed(w, None, u);
      forall c | 0 <= c < |w1.cells| ensures CellOk(w1, None, c) { assert CellOk(w, None, c); }
      forall f | 0 <= f < |w1.engines| ensures EngineOk(w1, None, f) { assert EngineOk(w, None, f); }
      forall u <- w1.queue ensures TaskOk(w1, u) { assert TaskOk(w, u); }
      forall j <- w1.busy ensures JobOk(w1, j) { assert JobOk(w, j); }
      MarkReadyKeeps(w1, None, w.engines[e].owner);
    }
  }
}
