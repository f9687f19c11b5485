/** Single steps of the registry told by their effects: readiness of fresh engines, states of cells, the drain
    channel. */
module RegistrySteps {
  import opened Types
  import opened Registry
  import opened RegistryRuns
  import opened RegistryTheorems

  // ---- engines that are starting ----

  /** The engine a configuration brings in is current and starting exactly when it has discovery plugins; if it has, its
      discovery becoming ready makes the cell ready and ends the creating state, otherwise that has happened already. */
  lemma FreshEngineStarts(w: World, key: Key, raw: string, outcome: Outcome)
    requires Inv(w) && Verdict(w, key, raw, outcome) == Swapped
    ensures var w', e, c := ApplyConfig(w, key, raw, outcome), |w.engines|, w.reg[key];
            && |w'.engines| == e + 1 && w'.engines[e].owner == c && w'.cells[c].engine == Some(e)
            && !w'.engines[e].cancelled && w'.engines[e].starting == outcome.discovers
            && (var ready := if outcome.discovers then Step(w', DoStartEnds(e, true)) else w';
                ready.cells[c].ready && ready.cells[c].state != StateCreating)
  {
    InstallStarts(w, w.reg[key], Sha256(raw), outcome.discovers);
    assert w.cells[w.reg[key]].key == key;
    if w.cells[w.reg[key]].engine.Some? {
      DrainSparesOthers(Install(w, w.reg[key], Sha256(raw), outcome.discovers),
                        Task(w.reg[key], w.cells[w.reg[key]].engine.value, false), |w.engines|);
    }
  }

  lemma InstallStarts(w: World, c: CellId, hash: Hash, discovers: bool)
    requires Inv(w) && c < |w.cells|
    ensures var w', e := Install(w, c, hash, discovers), |w.engines|;
            && |w'.engines| == e + 1 && w'.engines[e] == EngineRec(c, hash, false, discovers, false)
            && |w'.cells| == |w.cells| && w'.cells[c].engine == Some(e)
            && (!discovers ==> w'.cells[c].ready && w'.cells[c].state != StateCreating)
            && (w'.cells[c].ready ==> w'.cells[c].state != StateCreating)
  {
    assert CellOk(w, None, c);
  }

  /** A drain without teardown touches no cell and no other engine. */
  lemma DrainSparesOthers(w: World, t: Task, e: EngineId)
    requires WfTask(w, t) && !t.teardown && e < |w.engines| && e != t.eng
    ensures var w' := ScheduleDrain(w, t);
            w'.cells == w.cells && |w'.engines| == |w.engines| && w'.engines[e] == w.engines[e]
  {}

  /** An engine goes on starting until its discovery is ready, or its own or its cell's context has ended and is
      noticed. */
  lemma StartingUntil(w: World, a: Action, e: EngineId)
    requires Inv(w) && e < |w.engines|
    ensures e < |Step(w, a).engines|
    ensures Step(w, a).engines[e].starting <==>
              w.engines[e].starting
              && !(&& a.DoStartEnds? && a.eng == e
                   && (a.synced || w.engines[e].cancelled || w.cells[w.engines[e].owner].closed))
  {
    match a
    case DoEnsure(key, role, created) => EnsureStarts(w, key, role, created);
    case DoDemote(key) => DemoteStarts(w, key);
    case DoDrop(key) => DropStarts(w, key);
    case DoApply(key, raw, outcome) => ApplyStarts(w, key, raw, outcome);
    case _ =>
  }

  ghost predicate SameStarts(w: World, w': World) {
    |w.engines| <= |w'.engines| && forall e | 0 <= e < |w.engines| :: w'.engines[e].starting == w.engines[e].starting
  }

  lemma DemoteStarts(w: World, key: Key)
    requires Wf(w)
    ensures SameStarts(w, Demote(w, key))
  {}

  lemma EnsureStarts(w: World, key: Key, role: Role, created: bool)
    requires Wf(w)
    ensures SameStarts(w, Ensure(w, key, role, created))
  {
    DemoteStarts(if key in w.reg then w else Create(w, key), key);
  }

  lemma DropStarts(w: World, key: Key)
    requires Wf(w)
    ensures SameStarts(w, Drop(w, key))
  {}

  lemma ApplyStarts(w: World, key: Key, raw: string, outcome: Outcome)
    requires Wf(w)
    ensures SameStarts(w, ApplyConfig(w, key, raw, outcome))
  {}

  // ---- states ----

  /** Ensure on a free key adds one cell under that key, creating unless it is a primary, neither ready nor closed and
      without an engine, and touches no other; when creating it fails nothing happens. */
  lemma FreshCell(w: World, key: Key, role: Role, created: bool)
    requires Wf(w) && key !in w.reg
    ensures var w', c := Ensure(w, key, role, created), |w.cells|;
            if !created then w' == w
            else
              && |w'.cells| == c + 1 && w'.cells[..c] == w.cells && w'.reg == w.reg[key := c]
              && w'.cells[c].key == key && w'.cells[c].role == role
              && w'.cells[c].state == (if role == RolePrimary then StatePrimary else StateCreating)
              && !w'.cells[c].ready && !w'.cells[c].closed && w'.cells[c].engine.None? && w'.cells[c].hash.None?
              && w'.engines == w.engines && w'.queue == w.queue && w'.busy == w.busy
  {}

  /** What the state of a cell that is alive after a step follows from: its role, its readiness and whether it was
      creating. */
  function StateFrom(before: CellRec, after: CellRec): State {
    if after.role == RolePrimary then StatePrimary
    else if before.state == StateCreating && !after.ready then StateCreating
    else StateStandby
  }

  /** A live cell is primary by its role alone, and leaves creating only by becoming ready or primary. */
  lemma StateFollows(w: World, a: Action, c: CellId)
    requires Inv(w) && c < |w.cells|
    ensures c < |Step(w, a).cells|
    ensures Step(w, a).cells[c].state == StateDraining ||
            Step(w, a).cells[c].state == StateFrom(w.cells[c], Step(w, a).cells[c])
  {
    StepKeeps(w, a);
    StepGrows(w, a);
    assert CellOk(Step(w, a), None, c) && CellGrows(w, Step(w, a), c) && CellOk(w, None, c);
    match a
    case DoEnsure(key, role, created) =>
      if key in w.reg {
        SwitchRoleStates(w, key, role, c);
      } else if created {
        CreateKeeps(w, key);
        SwitchRoleStates(Create(w, key), key, role, c);
      }
    case DoDemote(key) => DemoteStates(w, key, c);
    case DoDrop(key) => DropStates(w, key, c);
    case DoApply(key, raw, outcome) => ApplyStates(w, key, raw, outcome, c);
    case _ =>
  }

  /** Between the two records the state moves as it should, or is draining. */
  ghost predicate Moves(w: World, w': World, c: CellId)
    requires c < |w.cells|
  {
    c < |w'.cells| && (w'.cells[c].state == StateDraining || w'.cells[c].state == StateFrom(w.cells[c], w'.cells[c]))
  }

  lemma DemoteStates(w: World, key: Key, c: CellId)
    requires Inv(w) && c < |w.cells|
    ensures Moves(w, Demote(w, key), c)
  {
    assert CellOk(w, None, c);
    DemoteKeeps(w, key);
  }

  lemma PromoteStates(w: World, key: Key, c: CellId)
    requires Inv(w) && c < |w.cells|
    ensures Moves(w, Promote(w, key), c)
  {
    assert CellOk(w, None, c);
  }

  lemma SwitchRoleStates(w: World, key: Key, role: Role, c: CellId)
    requires Inv(w) && key in w.reg && c < |w.cells|
    ensures Moves(w, SwitchRole(w, key, role), c)
  {
    assert CellOk(w, None, c);
    DemoteStates(w, key, c);
    PromoteStates(w, key, c);
  }

  lemma DropStates(w: World, key: Key, c: CellId)
    requires Inv(w) && c < |w.cells|
    ensures Moves(w, Drop(w, key), c)
  {
    assert CellOk(w, None, c);
  }

  lemma ApplyStates(w: World, key: Key, raw: string, outcome: Outcome, c: CellId)
    requires Inv(w) && c < |w.cells|
    ensures Moves(w, ApplyConfig(w, key, raw, outcome), c)
  {
    assert CellOk(w, None, c);
    if Verdict(w, key, raw, outcome) == Swapped {
      var d := w.reg[key];
      InstallStates(w, d, Sha256(raw), outcome.discovers, c);
      if w.cells[d].engine.Some? {
        DrainSparesOthers(Install(w, d, Sha256(raw), outcome.discovers),
                          Task(d, w.cells[d].engine.value, false), |w.engines|);
      }
    }
  }

  lemma InstallStates(w: World, d: CellId, hash: Hash, discovers: bool, c: CellId)
    requires Inv(w) && d < |w.cells| && c < |w.cells|
    ensures Moves(w, Install(w, d, hash, discovers), c)
  {
    assert CellOk(w, None, c) && CellOk(w, None, d);
  }

  // ---- the drain channel ----

  /** Control calls add at most one entry, at the end; they run a drain themselves only when 64 entries are waiting,
      and then add none. */
  lemma ChannelInOrder(w: World, a: Action)
    requires Inv(w) && !Background(a)
    ensures var q, q' := w.queue, Step(w, a).queue;
            && (q' == q || (|q'| == |q| + 1 && q'[..|q|] == q))
            && (|q| == 64 ==> q' == q)
            && (|q| < 64 ==> forall e | 0 <= e < |w.engines| ::
                  e < |Step(w, a).engines| && Step(w, a).engines[e].cancelled == w.engines[e].cancelled)
  {
    match a
    case DoEnsure(key, role, created) => EnsureChannel(w, key, role, created);
    case DoDemote(key) => DemoteChannel(w, key);
    case DoDrop(key) => DropChannel(w, key);
    case DoApply(key, raw, outcome) => ApplyChannel(w, key, raw, outcome);
    case _ =>
  }

  ghost predicate Queues(w: World, w': World) {
    && (w'.queue == w.queue || (|w'.queue| == |w.queue| + 1 && w'.queue[..|w.queue|] == w.queue))
    && (|w.queue| >= 64 ==> w'.queue == w.queue)
    && (|w.queue| < 64 ==> forall e | 0 <= e < |w.engines| ::
          e < |w'.engines| && w'.engines[e].cancelled == w.engines[e].cancelled)
  }

  lemma DemoteChannel(w: World, key: Key)
    requires Wf(w)
    ensures Queues(w, Demote(w, key))
  {}

  lemma EnsureChannel(w: World, key: Key, role: Role, created: bool)
    requires Wf(w)
    ensures Queues(w, Ensure(w, key, role, created))
  {
    DemoteChannel(if key in w.reg then w else Create(w, key), key);
  }

  lemma DropChannel(w: World, key: Key)
    requires Wf(w)
    ensures Queues(w, Drop(w, key))
  {}

  lemma ApplyChannel(w: World, key: Key, raw: string, outcome: Outcome)
    requires Wf(w)
    ensures Queues(w, ApplyConfig(w, key, raw, outcome))
  {}

  /** Workers receive the entries in the order in which they were sent: a background run takes entries off the front
      only. */
  lemma {:induction false} FirstInFirstOut(w: World, run: seq<Action>) returns (n: nat)
    requires Wf(w) && forall i | 0 <= i < |run| :: Background(run[i])
    ensures n <= |w.queue| && Exec(w, run).queue == w.queue[n..]
  {
    if |run| == 0 {
      n := 0;
    } else {
      var prefix := run[..|run| - 1];
      n := FirstInFirstOut(w, prefix);
      TakesHead(Exec(w, prefix), run[|run| - 1]);
      if Exec(w, run).queue != Exec(w, prefix).queue {
        assert w.queue[n..][1..] == w.queue[n + 1..];
        n := n + 1;
      }
    }
  }

  /** What a worker receives is the entry at the front. */
  lemma TakesHead(w: World, a: Action)
    requires Wf(w) && Background(a)
    ensures var w' := Step(w, a);
            || w'.queue == w.queue
            || (&& a.DoTake? && |w.queue| > 0 && w'.queue == w.queue[1..]
                && w'.busy == w.busy + [Job(w.queue[0], Taken)])
  {}
}
