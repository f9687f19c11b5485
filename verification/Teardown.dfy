/** Teardown reaches every draining cell and harms no other; every engine is accounted for. */
module Teardown {
  import opened Types
  import opened Registry
  import opened RegistryRuns
  import opened RegistryTheorems

  /** In every reachable registry: a live cell is registered, open and primary in role exactly when
      primary in state; a registered draining cell has a teardown pending; the channel is never over its capacity. */
  lemma {:induction false} Lifecycle(workers: nat, run: seq<Action>, c: CellId)
    requires c < |Exec(Init(workers), run).cells|
    ensures var w := Exec(Init(workers), run);
            var r := w.cells[c];
            && (!Draining(w, c) ==>
                  Registered(w, c) && !r.closed && (r.role == RolePrimary <==> r.state == StatePrimary))
            && (Draining(w, c) && Registered(w, c) ==> exists e :: Pending(w, Task(c, e, true)))
            && (!Registered(w, c) ==> r.closed)
            && |w.queue| <= 64
  {
    InitKeeps(workers);
    RunKeeps(Init(workers), run);
    assert CellOk(Exec(Init(workers), run), None, c);
  }

  /** Along any continuation: draining, `ready` and closing are permanent, a cell once unregistered stays so,
      and a cell that ends up alive was alive all along. */
  lemma {:induction false} OneWay(workers: nat, run: seq<Action>, more: seq<Action>, c: CellId)
    requires c < |Exec(Init(workers), run).cells|
    ensures var w, w' := Exec(Init(workers), run), Exec(Exec(Init(workers), run), more);
            && c < |w'.cells|
            && (Draining(w, c) ==> Draining(w', c))
            && (w.cells[c].ready ==> w'.cells[c].ready)
            && (w.cells[c].closed ==> w'.cells[c].closed)
            && (!Registered(w, c) ==> !Registered(w', c))
            && (!Draining(w', c) ==> Registered(w, c) && !w.cells[c].closed)
  {
    var w := Exec(Init(workers), run);
    InitKeeps(workers);
    RunKeeps(Init(workers), run);
    RunGrows(w, more);
    RunKeeps(w, more);
    assert CellGrows(w, Exec(w, more), c) && CellOk(Exec(w, more), None, c) && CellOk(w, None, c);
  }

  /** Once the discovery plugins of an engine that was still starting are ready, its cell is ready and past
      the creating state; a cell given an engine without any is ready at once. No other cell is touched. */
  lemma ReadyWhenSynced(w: World, e: EngineId, c: CellId, hash: Hash)
    requires Inv(w) && e < |w.engines| && c < |w.cells| && w.engines[e].starting
    ensures var w', o := StartEnds(w, e, true), w.engines[e].owner;
            && w'.cells[o].ready && w'.cells[o].state != StateCreating
            && (forall d | 0 <= d < |w.cells| && d != o :: w'.cells[d] == w.cells[d])
    ensures Install(w, c, hash, false).cells[c].ready && Install(w, c, hash, false).cells[c].state != StateCreating
    ensures Install(w, c, hash, true).cells[c].ready == w.cells[c].ready
  {
    assert CellOk(w, None, w.engines[e].owner) && CellOk(w, None, c);
  }

  /** A cell becomes ready in two ways only: the discovery plugins of one of its engines are all ready, or an engine
      without any is swapped in. In particular never before its first successful compile. */
  lemma ReadyMeans(w: World, a: Action, c: CellId)
    requires Inv(w) && c < |w.cells|
    ensures c < |Step(w, a).cells|
    ensures Step(w, a).cells[c].ready && !w.cells[c].ready <==>
              && !w.cells[c].ready
              && (|| (&& a.DoStartEnds? && a.synced && a.eng < |w.engines|
                      && w.engines[a.eng].owner == c && w.engines[a.eng].starting)
                  || (&& a.DoApply? && Verdict(w, a.key, a.raw, a.outcome) == Swapped
                      && c == w.reg[a.key] && !a.outcome.discovers))
  {
    match a
    case DoEnsure(key, role, created) => EnsureFrame(w, key, role, created);
    case DoDemote(key) => DemoteFrame(w, key);
    case DoDrop(key) => DropFrame(w, key);
    case DoApply(key, raw, outcome) => ApplyFrame(w, key, raw, outcome);
    case _ =>
  }

  // ---- every engine is accounted for ----

  /** Every engine ever installed is the current one of a live cell, has a drain or a teardown pending, or is
      cancelled. */
  lemma {:induction false} NoEngineForgotten(workers: nat, run: seq<Action>, e: EngineId)
    requires e < |Exec(Init(workers), run).engines|
    ensures var w := Exec(Init(workers), run);
            var c := w.engines[e].owner;
            || (w.cells[c].engine == Some(e) && !Draining(w, c) && Registered(w, c))
            || Pending(w, Task(c, e, false)) || Pending(w, Task(c, e, true))
            || w.engines[e].cancelled
  {
    var w := Exec(Init(workers), run);
    InitKeeps(workers);
    RunKeeps(Init(workers), run);
    assert EngineOk(w, None, e) && CellOk(w, None, w.engines[e].owner);
  }

  /** The current engine of a live cell is cancelled only if the cell was demoted since it was
      installed, and once no drain of it is pending it is cancelled exactly then. */
  lemma {:induction false} LiveEngineCancelledIffDemoted(workers: nat, run: seq<Action>, c: CellId)
    requires c < |Exec(Init(workers), run).cells|
    requires var w := Exec(Init(workers), run); !Draining(w, c) && w.cells[c].engine.Some?
    ensures var w := Exec(Init(workers), run);
            var e := w.cells[c].engine.value;
            && e < |w.engines|
            && (w.engines[e].cancelled ==> w.engines[e].demoted)
            && (!Pending(w, Task(c, e, false)) ==> (w.engines[e].cancelled <==> w.engines[e].demoted))
  {
    var w := Exec(Init(workers), run);
    InitKeeps(workers);
    RunKeeps(Init(workers), run);
    assert CellOk(w, None, c) && EngineOk(w, None, w.cells[c].engine.value);
  }

  /** `demoted` says what its name says: it is set by a Demote that found the cell live, whatever called it,
      on the engine current at that moment, and by nothing else. */
  lemma DemotedMeans(w: World, a: Action, e: EngineId)
    requires Inv(w) && e < |w.engines|
    ensures e < |Step(w, a).engines|
    ensures Step(w, a).engines[e].demoted && !w.engines[e].demoted ==>
              exists k :: SlotOf(w, k).Alive? && w.cells[w.reg[k]].engine == Some(e)
                && (|| a == DoDemote(k)
                    || (&& a.DoEnsure? && a.key == k && a.role == RoleStandby
                        && SlotOf(w, k).cell.role == RolePrimary))
    ensures a.DoDemote? && SlotOf(w, a.key).Alive? && w.cells[w.reg[a.key]].engine == Some(e) ==>
              Step(w, a).engines[e].demoted
    ensures (&& a.DoEnsure? && a.role == RoleStandby
             && SlotOf(w, a.key).Alive? && SlotOf(w, a.key).cell.role == RolePrimary
             && w.cells[w.reg[a.key]].engine == Some(e)) ==> Step(w, a).engines[e].demoted
  {
    StepGrows(w, a);
    if a.DoDemote? {
      DemoteMarks(w, a.key, e);
    } else if a.DoEnsure? {
      if a.key in w.reg { DemoteMarks(w, a.key, e); }
    } else {
      OthersMarkNothing(w, a, e);
    }
  }

  lemma DemoteMarks(w: World, key: Key, e: EngineId)
    requires Inv(w) && e < |w.engines|
    ensures e < |Demote(w, key).engines|
    ensures Demote(w, key).engines[e].demoted <==>
              w.engines[e].demoted || (SlotOf(w, key).Alive? && w.cells[w.reg[key]].engine == Some(e))
  {}

  lemma OthersMarkNothing(w: World, a: Action, e: EngineId)
    requires Inv(w) && e < |w.engines| && !a.DoDemote? && !a.DoEnsure?
    ensures e < |Step(w, a).engines| && Step(w, a).engines[e].demoted == w.engines[e].demoted
  {
    match a
    case DoDrop(key) => DropFrame(w, key);
    case DoApply(key, raw, outcome) => ApplyFrame(w, key, raw, outcome);
    case _ =>
  }

  // The steps behind DemotedThenPromoted, each on the registry the one before it left.

  lemma WitnessCreate() ensures Step(Init(1), DoEnsure("c", RolePrimary, true)) == World1() {}

  lemma WitnessApply() ensures Step(World1(), DoApply("c", "cfg", Compiled(false))) == World2() {}

  lemma WitnessDemote() ensures Step(World2(), DoDemote("c")) == World3() {}

  lemma WitnessTake() ensures Step(World3(), DoTake) == World4() {}

  lemma WitnessCancel() ensures Step(World4(), DoAdvance(0)) == World5() {}

  lemma WitnessPromote() ensures Step(World5(), DoPromote("c")) == World6() {}

  /** The cell "c" alone, under configuration "cfg". */
  function OneCell(role: Role, state: State, cancelled: bool, demoted: bool, queue: seq<Task>,
                   busy: seq<Job>): (w: World)
    requires queue in {[], [Task(0, 0, false)]}
    requires busy in {[], [Job(Task(0, 0, false), Taken)], [Job(Task(0, 0, false), Waiting)]}
    ensures Wf(w)
  {
    World([CellRec("c", role, state, Some(0), Some(Sha256("cfg")), true, false)],
          [EngineRec(0, Sha256("cfg"), cancelled, false, demoted)], map["c" := 0], queue, busy, 1)
  }

  function World1(): (w: World) ensures Wf(w) {
    World([CellRec("c", RolePrimary, StatePrimary, None, None, false, false)], [], map["c" := 0], [], [], 1)
  }

  function World2(): (w: World) ensures Wf(w) {
    OneCell(RolePrimary, StatePrimary, false, false, [], [])
  }

  function World3(): (w: World) ensures Wf(w) {
    OneCell(RoleStandby, StateStandby, false, true, [Task(0, 0, false)], [])
  }

  function World4(): (w: World) ensures Wf(w) {
    OneCell(RoleStandby, StateStandby, false, true, [], [Job(Task(0, 0, false), Taken)])
  }

  function World5(): (w: World) ensures Wf(w) {
    OneCell(RoleStandby, StateStandby, true, true, [], [Job(Task(0, 0, false), Waiting)])
  }

  function World6(): (w: World) ensures Wf(w) {
    OneCell(RolePrimary, StatePrimary, true, true, [], [Job(Task(0, 0, false), Waiting)])
  }

  /** A cell demoted and promoted again under an unchanged configuration serves on a cancelled engine. */
  lemma DemotedThenPromoted()
    ensures exists run: seq<Action> :: Exec(Init(1), run) == World6()
    ensures var w := World6();
            && SlotOf(w, "c") == Alive(LiveCell(RolePrimary, Some(Sha256("cfg"))))
            && w.cells[w.reg["c"]].engine == Some(0) && w.engines[0].cancelled
            && Verdict(w, "c", "cfg", Compiled(false)) == Unchanged
  {
    WitnessCreate();
    WitnessApply();
    WitnessDemote();
    WitnessTake();
    WitnessCancel();
    WitnessPromote();
    var run1 := Extend([], DoEnsure("c", RolePrimary, true), Init(1));
    var run2 := Extend(run1, DoApply("c", "cfg", Compiled(false)), World1());
    var run3 := Extend(run2, DoDemote("c"), World2());
    var run4 := Extend(run3, DoTake, World3());
    var run5 := Extend(run4, DoAdvance(0), World4());
    var run6 := Extend(run5, DoPromote("c"), World5());
  }

  lemma Extend(run: seq<Action>, a: Action, w: World) returns (longer: seq<Action>)
    requires Wf(w) && Exec(Init(1), run) == w
    ensures Exec(Init(1), longer) == Step(w, a)
  {
    ExecSnoc(Init(1), run, a);
    longer := run + [a];
  }

  /** What admission checks on a cell it holds: an engine and the primary role. */
  predicate PassesChecks(w: World, c: CellId)
    requires c < |w.cells|
  {
    w.cells[c].engine.Some? && w.cells[c].role == RolePrimary
  }

  /** A request that arrives now is routed to this cell and passes the checks. */
  predicate Admits(w: World, c: CellId)
    requires c < |w.cells|
  {
    Registered(w, c) && PassesChecks(w, c)
  }

  lemma {:induction false} DrainingKeepsChecks(w: World, a: Action, c: CellId)
    requires Inv(w) && c < |w.cells| && Draining(w, c)
    ensures c < |Step(w, a).cells| && Draining(Step(w, a), c)
    ensures PassesChecks(Step(w, a), c) <==> PassesChecks(w, c)
  {
    StepGrows(w, a);
    assert CellGrows(w, Step(w, a), c);
    match a
    case DoEnsure(key, role, created) => EnsureFrame(w, key, role, created);
    case DoDemote(key) => DemoteFrame(w, key);
    case DoDrop(key) => DropFrame(w, key);
    case DoApply(key, raw, outcome) => ApplyFrame(w, key, raw, outcome);
    case _ =>
  }

  lemma {:induction false} DrainingRunKeepsChecks(w: World, run: seq<Action>, c: CellId)
    requires Inv(w) && c < |w.cells| && Draining(w, c)
    ensures c < |Exec(w, run).cells| && Draining(Exec(w, run), c)
    ensures PassesChecks(Exec(w, run), c) <==> PassesChecks(w, c)
    ensures Registered(Exec(w, run), c) ==> Registered(w, c)
  {
    if |run| > 0 {
      var prefix := run[..|run| - 1];
      RunKeeps(w, prefix);
      DrainingRunKeepsChecks(w, prefix, c);
      DrainingKeepsChecks(Exec(w, prefix), run[|run| - 1], c);
    }
    RunGrows(w, run);
    assert CellGrows(w, Exec(w, run), c);
  }

  /** What Drop makes of a live cell. */
  lemma DropLeaves(w: World, key: Key)
    requires Inv(w) && SlotOf(w, key).Alive?
    ensures var w', c := Drop(w, key), w.reg[key];
            && Inv(w') && c < |w'.cells| && Draining(w', c)
            && (PassesChecks(w', c) <==> PassesChecks(w, c))
            && (Registered(w', c) <==> w.cells[c].engine.Some? && |w.queue| < DRAIN_QUEUE)
  {
    DropKeeps(w, key);
    assert CellOk(w, None, w.reg[key]);
  }

  /** Dropping a live cell stops it from admitting new requests, then and ever after, unless it is a primary with an
      engine and the drain channel has room: exactly then some continuation admits on it. A request that was routed
      to the cell before passes the checks in every continuation, the teardown included, exactly when the cell was a
      primary with an engine. */
  lemma {:induction false} DroppedStillPrimary(w: World, key: Key)
    requires Inv(w) && SlotOf(w, key).Alive?
    ensures var w', c := Drop(w, key), w.reg[key];
            && (forall run :: c < |Exec(w', run).cells|)
            && ((exists run :: Admits(Exec(w', run), c)) <==>
                  w.cells[c].role == RolePrimary && w.cells[c].engine.Some? && |w.queue| < 64)
            && (forall run :: PassesChecks(Exec(w', run), c) <==>
                  w.cells[c].role == RolePrimary && w.cells[c].engine.Some?)
  {
    var w', c := Drop(w, key), w.reg[key];
    DropLeaves(w, key);
    forall run
      ensures c < |Exec(w', run).cells|
      ensures PassesChecks(Exec(w', run), c) <==> PassesChecks(w, c)
      ensures Registered(Exec(w', run), c) ==> Registered(w', c)
    {
      DrainingRunKeepsChecks(w', run, c);
    }
    if Admits(w', c) {
      assert Exec(w', []) == w';
    }
  }

  // ---- teardown terminates ----

  function Weight(p: Phase): nat {
    match p case Taken => 3 case Waiting => 2 case Closed => 1
  }

  function JobsWeight(busy: seq<Job>): nat {
    if |busy| == 0 then 0 else Weight(busy[0].phase) + JobsWeight(busy[1..])
  }

  /** Worker steps still needed to run every pending drain to its end, at most. */
  function Remaining(w: World): nat {
    4 * |w.queue| + JobsWeight(w.busy)
  }

  lemma {:induction false} JobsWeightSplit(a: seq<Job>, b: seq<Job>)
    ensures JobsWeight(a + b) == JobsWeight(a) + JobsWeight(b)
  {
    if |a| == 0 {
      assert a + b == b;
    } else {
      assert (a + b)[1..] == a[1..] + b;
      JobsWeightSplit(a[1..], b);
    }
  }

  lemma JobsWeightAt(busy: seq<Job>, i: nat, j: Job)
    requires i < |busy|
    ensures JobsWeight(busy) == JobsWeight(RemoveJob(busy, i)) + Weight(busy[i].phase)
    ensures JobsWeight(busy[i := j]) == JobsWeight(RemoveJob(busy, i)) + Weight(j.phase)
  {
    assert busy == busy[..i] + ([busy[i]] + busy[i + 1..]);
    assert busy[i := j] == busy[..i] + ([j] + busy[i + 1..]);
    JobsWeightSplit(busy[..i], [busy[i]] + busy[i + 1..]);
    JobsWeightSplit(busy[..i], [j] + busy[i + 1..]);
    JobsWeightSplit(busy[..i], busy[i + 1..]);
  }

  /** A worker can take this step now. */
  predicate WorkerMoves(w: World, a: Action) {
    (a.DoTake? && |w.queue| > 0 && |w.busy| < w.workers) || (a.DoAdvance? && a.worker < |w.busy|)
  }

  lemma BackgroundShrinks(w: World, a: Action)
    requires Inv(w) && Background(a)
    ensures Remaining(Step(w, a)) + (if WorkerMoves(w, a) then 1 else 0) <= Remaining(w)
  {
    if a.DoTake? && WorkerMoves(w, a) {
      JobsWeightSplit(w.busy, [Job(w.queue[0], Taken)]);
    } else if a.DoAdvance? && a.worker < |w.busy| {
      JobsWeightAt(w.busy, a.worker, Job(w.busy[a.worker].task, Waiting));
      JobsWeightAt(w.busy, a.worker, Job(w.busy[a.worker].task, Closed));
    }
  }

  lemma NothingLeft(w: World)
    requires Inv(w) && Remaining(w) == 0
    ensures forall k :: !SlotOf(w, k).Dying?
  {
    assert |w.queue| == 0;
    assert JobsWeight(w.busy) == 0;
    assert |w.busy| == 0;
    forall k ensures !SlotOf(w, k).Dying? {
      if k in w.reg { assert CellOk(w, None, w.reg[k]); }
    }
  }

  /** As long as a drain is pending some worker can move. */
  lemma SomeWorkerMoves(w: World) returns (a: Action)
    requires Inv(w) && w.workers >= 1 && Remaining(w) > 0
    ensures Background(a) && WorkerMoves(w, a)
  {
    a := if |w.busy| > 0 then DoAdvance(0) else DoTake;
  }

  /** How many steps of a run were moves of a worker. */
  function Moves(w: World, run: seq<Action>): nat
    requires Wf(w)
  {
    if |run| == 0 then 0
    else Moves(w, run[..|run| - 1]) + if WorkerMoves(Exec(w, run[..|run| - 1]), run[|run| - 1]) then 1 else 0
  }

  /** With no new control call, under any scheduling: at most Remaining worker moves are possible, live
      cells are untouched throughout, and when no worker can move any more no draining cell is registered. */
  lemma {:induction false} TeardownTerminates(w: World, run: seq<Action>)
    requires Inv(w) && forall a <- run :: Background(a)
    ensures Moves(w, run) + Remaining(Exec(w, run)) <= Remaining(w)
    ensures OnlyFrees(w, Exec(w, run))
    ensures w.workers >= 1 && (forall a :: !WorkerMoves(Exec(w, run), a)) ==>
              forall k :: !SlotOf(Exec(w, run), k).Dying?
  {
    RunKeeps(w, run);
    if |run| > 0 {
      var prefix := run[..|run| - 1];
      assert forall a <- prefix :: a in run;
      TeardownTerminates(w, prefix);
      RunKeeps(w, prefix);
      BackgroundShrinks(Exec(w, prefix), run[|run| - 1]);
      SlotBackground(Exec(w, prefix), run[|run| - 1]);
    }
    var w' := Exec(w, run);
    WorkersFixed(w, run);
    if w.workers >= 1 && (forall a :: !WorkerMoves(w', a)) {
      if Remaining(w') > 0 { var a := SomeWorkerMoves(w'); }
      NothingLeft(w');
    }
  }

  lemma StepWorkers(w: World, a: Action)
    requires Wf(w)
    ensures Step(w, a).workers == w.workers
  {}

  lemma {:induction false} WorkersFixed(w: World, run: seq<Action>)
    requires Wf(w)
    ensures Exec(w, run).workers == w.workers
  {
    if |run| > 0 {
      WorkersFixed(w, run[..|run| - 1]);
      StepWorkers(Exec(w, run[..|run| - 1]), run[|run| - 1]);
    }
  }
}
