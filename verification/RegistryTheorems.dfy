/** Theorems about every run of the registry, built on the invariant of RegistryRuns. */
module RegistryTheorems {
  import opened Types
  import opened Registry
  import opened RegistryRuns

  lemma StepKeeps(w: World, a: Action)
    requires Inv(w)
    ensures Inv(Step(w, a))
  {
    match a
    case DoEnsure(key, role, created) => EnsureKeeps(w, key, role, created);
    case DoPromote(key) => PromoteKeeps(w, key);
    case DoDemote(key) => DemoteKeeps(w, key);
    case DoDrop(key) => DropKeeps(w, key);
    case DoApply(key, raw, outcome) => ApplyKeeps(w, key, raw, outcome);
    case DoTake => TakeKeeps(w);
    case DoAdvance(i) => AdvanceKeeps(w, i);
    case DoStartEnds(e, synced) => StartEndsKeeps(w, e, synced);
  }

  lemma {:induction false} RunKeeps(w: World, run: seq<Action>)
    requires Inv(w)
    ensures Inv(Exec(w, run))
  {
    if |run| > 0 {
      RunKeeps(w, run[..|run| - 1]);
      StepKeeps(Exec(w, run[..|run| - 1]), run[|run| - 1]);
    }
  }

  // ---- what never goes back ----

  /** Draining is absorbing, `ready`, closing and cancelling happen once, an unregistered cell never returns. */
  ghost predicate Grows(w: World, w': World) {
    && |w.cells| <= |w'.cells| && |w.engines| <= |w'.engines|
    && (forall c | 0 <= c < |w.cells| :: CellGrows(w, w', c))
    && (forall e | 0 <= e < |w.engines| :: EngineGrows(w, w', e))
  }

  ghost predicate CellGrows(w: World, w': World, c: CellId)
    requires c < |w.cells| && c < |w'.cells|
  {
    && w'.cells[c].key == w.cells[c].key
    && (Draining(w, c) ==> Draining(w', c) && w'.cells[c].engine == w.cells[c].engine)
    && (w.cells[c].ready ==> w'.cells[c].ready)
    && (w.cells[c].closed ==> w'.cells[c].closed)
    && (Registered(w', c) ==> Registered(w, c))
  }

  ghost predicate EngineGrows(w: World, w': World, e: EngineId)
    requires e < |w.engines| && e < |w'.engines|
  {
    && w'.engines[e].owner == w.engines[e].owner && w'.engines[e].version == w.engines[e].version
    && (w.engines[e].cancelled ==> w'.engines[e].cancelled)
    && (w.engines[e].demoted ==> w'.engines[e].demoted)
  }

  lemma GrowsTransitive(a: World, b: World, c: World)
    requires Grows(a, b) && Grows(b, c)
    ensures Grows(a, c)
  {
    forall i | 0 <= i < |a.cells| ensures CellGrows(a, c, i) { assert CellGrows(a, b, i) && CellGrows(b, c, i); }
    forall e | 0 <= e < |a.engines| ensures EngineGrows(a, c, e) {
      assert EngineGrows(a, b, e) && EngineGrows(b, c, e);
    }
  }

  lemma PromoteGrows(w: World, key: Key)
    requires Inv(w)
    ensures Grows(w, Promote(w, key))
  {}

  lemma DemoteGrows(w: World, key: Key)
    requires Inv(w)
    ensures Grows(w, Demote(w, key))
  {}

  lemma DropGrows(w: World, key: Key)
    requires Inv(w)
    ensures Grows(w, Drop(w, key))
  {}

  lemma SwitchRoleGrows(w: World, key: Key, role: Role)
    requires Inv(w) && key in w.reg
    ensures Grows(w, SwitchRole(w, key, role))
  {
    PromoteGrows(w, key);
    DemoteGrows(w, key);
  }

  lemma EnsureGrows(w: World, key: Key, role: Role, created: bool)
    requires Inv(w)
    ensures Grows(w, Ensure(w, key, role, created))
  {
    if key in w.reg {
      SwitchRoleGrows(w, key, role);
    } else if created {
      var w1 := Create(w, key);
      CreateKeeps(w, key);
      SwitchRoleGrows(w1, key, role);
      GrowsTransitive(w, w1, SwitchRole(w1, key, role));
    }
  }

  lemma InstallGrows(w: World, c: CellId, hash: Hash, discovers: bool)
    requires Inv(w) && c < |w.cells| && !Draining(w, c)
    ensures Grows(w, Install(w, c, hash, discovers))
  {}

  lemma ScheduleGrows(w: World, t: Task)
    requires WfTask(w, t)
    ensures Grows(w, ScheduleDrain(w, t))
  {}

  lemma ApplyGrows(w: World, key: Key, raw: string, outcome: Outcome)
    requires Inv(w)
    ensures Grows(w, ApplyConfig(w, key, raw, outcome))
  {
    if Verdict(w, key, raw, outcome) == Swapped {
      var c := w.reg[key];
      var w1 := Install(w, c, Sha256(raw), outcome.discovers);
      InstallGrows(w, c, Sha256(raw), outcome.discovers);
      if w.cells[c].engine.Some? {
        ScheduleGrows(w1, Task(c, w.cells[c].engine.value, false));
        GrowsTransitive(w, w1, ApplyConfig(w, key, raw, outcome));
      }
    }
  }

  lemma AdvanceGrows(w: World, i: nat)
    requires Inv(w)
    ensures Grows(w, WorkerAdvance(w, i))
  {
    if i < |w.busy| {
      var t := w.busy[i].task;
      CancelGrows(w, t.eng);
      CloseGrows(w, t.cell);
      DeleteGrows(w, t.cell);
    }
  }

  lemma CancelGrows(w: World, e: EngineId)
    requires e < |w.engines|
    ensures Grows(w, CancelEngine(w, e))
  {}

  lemma CloseGrows(w: World, c: CellId)
    requires c < |w.cells|
    ensures Grows(w, CloseCell(w, c))
  {}

  lemma DeleteGrows(w: World, c: CellId)
    requires c < |w.cells|
    ensures Grows(w, CompareAndDelete(w, c))
  {}

  lemma StartEndsGrows(w: World, e: EngineId, synced: bool)
    requires Inv(w)
    ensures Grows(w, StartEnds(w, e, synced))
  {}

  lemma StepGrows(w: World, a: Action)
    requires Inv(w)
    ensures Grows(w, Step(w, a))
  {
    match a
    case DoEnsure(key, role, created) => EnsureGrows(w, key, role, created);
    case DoPromote(key) => PromoteGrows(w, key);
    case DoDemote(key) => DemoteGrows(w, key);
    case DoDrop(key) => DropGrows(w, key);
    case DoApply(key, raw, outcome) => ApplyGrows(w, key, raw, outcome);
    case DoTake =>
    case DoAdvance(i) => AdvanceGrows(w, i);
    case DoStartEnds(e, synced) => StartEndsGrows(w, e, synced);
  }

  lemma {:induction false} RunGrows(w: World, run: seq<Action>)
    requires Inv(w)
    ensures Grows(w, Exec(w, run))
  {
    if |run| > 0 {
      var w1 := Exec(w, run[..|run| - 1]);
      RunKeeps(w, run[..|run| - 1]);
      RunGrows(w, run[..|run| - 1]);
      StepGrows(w1, run[|run| - 1]);
      GrowsTransitive(w, w1, Exec(w, run));
    }
  }

  // ---- what the role methods and Apply leave alone ----

  /** Only an engine's flags may differ. */
  ghost predicate SameEngines(a: seq<EngineRec>, b: seq<EngineRec>) {
    |a| == |b| && forall e | 0 <= e < |a| :: a[e].owner == b[e].owner && a[e].version == b[e].version
  }

  ghost predicate SameVersions(w: World, w': World) {
    && |w.cells| <= |w'.cells| && SameEngines(w'.engines, w.engines)
    && forall c | 0 <= c < |w.cells| :: w'.cells[c].hash == w.cells[c].hash
  }

  /** Nothing is installed or made ready, and no draining cell becomes a primary or stops being one. */
  ghost predicate Framed(w: World, w': World) {
    && SameVersions(w, w')
    && forall c | 0 <= c < |w.cells| ::
         && w'.cells[c].ready == w.cells[c].ready
         && (Draining(w, c) ==> (w'.cells[c].role == RolePrimary <==> w.cells[c].role == RolePrimary))
  }

  lemma DemoteFrame(w: World, key: Key)
    requires Wf(w)
    ensures Framed(w, Demote(w, key))
  {}

  lemma SwitchRoleFrame(w: World, key: Key, role: Role)
    requires Wf(w) && key in w.reg
    ensures Framed(w, SwitchRole(w, key, role))
  {
    DemoteFrame(w, key);
  }

  lemma CreateFrame(w: World, key: Key)
    requires Wf(w) && key !in w.reg
    ensures Wf(Create(w, key)) && Framed(w, Create(w, key))
  {}

  lemma FramedTwice(w: World, w1: World, w2: World)
    requires Framed(w, w1) && Framed(w1, w2)
    requires forall c | 0 <= c < |w.cells| :: Draining(w, c) ==> Draining(w1, c)
    ensures Framed(w, w2)
  {}

  lemma EnsureFrame(w: World, key: Key, role: Role, created: bool)
    requires Wf(w)
    ensures Framed(w, Ensure(w, key, role, created))
  {
    if key in w.reg {
      SwitchRoleFrame(w, key, role);
    } else if created {
      var w1 := Create(w, key);
      CreateFrame(w, key);
      SwitchRoleFrame(w1, key, role);
      FramedTwice(w, w1, SwitchRole(w1, key, role));
    }
  }

  /** Roles and marks stay as they are. */
  ghost predicate SameMarks(w: World, w': World) {
    && |w.cells| <= |w'.cells| && |w.engines| <= |w'.engines|
    && (forall c | 0 <= c < |w.cells| :: w'.cells[c].role == w.cells[c].role)
    && (forall e | 0 <= e < |w.engines| :: w'.engines[e].demoted == w.engines[e].demoted)
  }

  lemma ScheduleFrame(w: World, t: Task)
    requires WfTask(w, t)
    ensures Framed(w, ScheduleDrain(w, t)) && SameMarks(w, ScheduleDrain(w, t))
  {}

  lemma DropFrame(w: World, key: Key)
    requires Wf(w)
    ensures Framed(w, Drop(w, key)) && SameMarks(w, Drop(w, key))
  {
    if key in w.reg && w.cells[w.reg[key]].engine.Some? {
      var c := w.reg[key];
      ScheduleFrame(SetCell(w, c, w.cells[c].(state := StateDraining)), Task(c, w.cells[c].engine.value, true));
    }
  }

  lemma ApplyFrame(w: World, key: Key, raw: string, outcome: Outcome)
    requires Wf(w)
    ensures var w' := ApplyConfig(w, key, raw, outcome);
            var readied := Verdict(w, key, raw, outcome) == Swapped && !outcome.discovers;
            && SameMarks(w, w')
            && (forall c | 0 <= c < |w.cells| ::
                  w'.cells[c].ready <==> w.cells[c].ready || (readied && c == w.reg[key]))
  {}

  // ---- the registry read from outside: one entry per live cell ----

  datatype LiveCell = LiveCell(role: Role, hash: Option<Hash>)

  /** What a key leads to: nothing, a draining cell, or a live one. */
  datatype Slot = Free | Dying | Alive(cell: LiveCell)

  function SlotOf(w: World, key: Key): Slot
    requires Wf(w)
  {
    if key !in w.reg then Free
    else if Draining(w, w.reg[key]) then Dying
    else Alive(LiveCell(w.cells[w.reg[key]].role, w.cells[w.reg[key]].hash))
  }

  function RoleAfter(prev: Role, role: Role): Role {
    if role == RoleNone then prev else role
  }

  /** The registry with one slot replaced, every other one untouched. */
  ghost predicate OnlySlot(w: World, w': World, key: Key, s: Slot)
    requires Wf(w) && Wf(w')
  {
    SlotOf(w', key) == s && forall k :: k != key ==> SlotOf(w', k) == SlotOf(w, k)
  }

  /** A drain entry that starts, waits or ends changes at most a draining slot into a free one. */
  ghost predicate OnlyFrees(w: World, w': World)
    requires Wf(w) && Wf(w')
  {
    forall k :: SlotOf(w', k) == SlotOf(w, k) || (SlotOf(w, k) == Dying && SlotOf(w', k) == Free)
  }

  ghost predicate KeysAgree(w: World)
    requires Wf(w)
  {
    forall k <- w.reg :: w.cells[w.reg[k]].key == k
  }

  lemma SlotSetCell(w: World, key: Key, r: CellRec)
    requires Wf(w) && KeysAgree(w) && key in w.reg
    requires r.key == key && r.engine == w.cells[w.reg[key]].engine
    ensures var w' := SetCell(w, w.reg[key], r);
            && Wf(w') && KeysAgree(w')
            && OnlySlot(w, w', key, if r.state == StateDraining then Dying else Alive(LiveCell(r.role, r.hash)))
  {}

  lemma SlotSchedule(w: World, t: Task)
    requires Wf(w) && KeysAgree(w) && WfTask(w, t) && !t.teardown
    ensures forall k :: SlotOf(ScheduleDrain(w, t), k) == SlotOf(w, k)
  {}

  lemma SlotTeardown(w: World, t: Task)
    requires Wf(w) && KeysAgree(w) && WfTask(w, t) && Draining(w, t.cell)
    ensures OnlyFrees(w, ScheduleDrain(w, t))
  {}

  lemma SlotPromote(w: World, key: Key)
    requires Inv(w) && SlotOf(w, key).Alive?
    ensures OnlySlot(w, Promote(w, key), key, Alive(SlotOf(w, key).cell.(role := RolePrimary)))
  {
    SlotSetCell(w, key, Promote(w, key).cells[w.reg[key]]);
  }

  lemma SlotDemote(w: World, key: Key)
    requires Inv(w) && SlotOf(w, key).Alive?
    ensures OnlySlot(w, Demote(w, key), key, Alive(SlotOf(w, key).cell.(role := RoleStandby)))
  {
    var c := w.reg[key];
    var s := if w.cells[c].state == StatePrimary then StateStandby else w.cells[c].state;
    var r := w.cells[c].(role := RoleStandby, state := s);
    SlotSetCell(w, key, r);
    if r.engine.Some? {
      var w1 := SetCell(w, c, r);
      var e := r.engine.value;
      var w2 := w1.(engines := w1.engines[e := w1.engines[e].(demoted := true)]);
      assert Wf(w2);
      assert forall k :: SlotOf(w2, k) == SlotOf(w1, k);
      SlotSchedule(w2, Task(c, e, false));
    }
  }

  /** Ensure gives a live or newly created cell the role; it leaves a dying one dying. */
  lemma SlotEnsure(w: World, key: Key, role: Role, created: bool)
    requires Inv(w)
    ensures OnlySlot(w, Ensure(w, key, role, created), key,
              match SlotOf(w, key)
              case Dying => Dying
              case Alive(cell) => Alive(cell.(role := RoleAfter(cell.role, role)))
              case Free => if created then Alive(LiveCell(role, None)) else Free)
  {
    if SlotOf(w, key).Alive? {
      SlotSwitch(w, key, role);
    } else if SlotOf(w, key).Dying? {
      var c := w.reg[key];
      if w.cells[c].role == RoleNone { SlotSetCell(w, key, w.cells[c].(role := RoleStandby)); }
    } else if created {
      CreateKeeps(w, key);
      var w1 := Create(w, key);
      assert OnlySlot(w, w1, key, Alive(LiveCell(RoleNone, None)));
      SlotSwitch(w1, key, role);
    }
  }

  lemma SlotSwitch(w: World, key: Key, role: Role)
    requires Inv(w) && SlotOf(w, key).Alive?
    ensures var cell := SlotOf(w, key).cell;
            OnlySlot(w, SwitchRole(w, key, role), key, Alive(cell.(role := RoleAfter(cell.role, role))))
  {
    var c := w.reg[key];
    SlotPromote(w, key);
    SlotDemote(w, key);
    if w.cells[c].role == RoleNone { SlotSetCell(w, key, w.cells[c].(role := RoleStandby)); }
  }

  /** Drop takes the cell out of service; the key is dying, or free at once when there was nothing to drain. */
  lemma SlotDrop(w: World, key: Key)
    requires Inv(w)
    ensures !SlotOf(Drop(w, key), key).Alive?
    ensures forall k :: k != key ==> SlotOf(Drop(w, key), k) == SlotOf(w, k)
  {
    if key in w.reg {
      var c := w.reg[key];
      var w1 := SetCell(w, c, w.cells[c].(state := StateDraining));
      SlotSetCell(w, key, w.cells[c].(state := StateDraining));
      if w.cells[c].engine.Some? { SlotTeardown(w1, Task(c, w.cells[c].engine.value, true)); }
      forall k | k != key ensures SlotOf(Drop(w, key), k) == SlotOf(w, k) {
        if k in w.reg { assert w.cells[w.reg[k]].key == k; }
      }
    }
  }

  /** A new configuration reaches exactly the live cells; whatever the verdict, no other slot moves. */
  lemma SlotApply(w: World, key: Key, raw: string, outcome: Outcome)
    requires Inv(w)
    ensures Verdict(w, key, raw, outcome) == NotAssigned <==> !SlotOf(w, key).Alive?
    ensures OnlySlot(w, ApplyConfig(w, key, raw, outcome), key,
              if Verdict(w, key, raw, outcome) == Swapped then Alive(SlotOf(w, key).cell.(hash := Some(Sha256(raw))))
              else SlotOf(w, key))
  {
    if Verdict(w, key, raw, outcome) == Swapped {
      var c := w.reg[key];
      var w1 := Install(w, c, Sha256(raw), outcome.discovers);
      InstallKeeps(w, c, Sha256(raw), outcome.discovers);
      forall k | k != key ensures SlotOf(w1, k) == SlotOf(w, k) {
        if k in w.reg { assert w.cells[w.reg[k]].key == k; }
      }
      if w.cells[c].engine.Some? { SlotSchedule(w1, Task(c, w.cells[c].engine.value, false)); }
    }
  }

  /** Drain workers and readiness never touch a live cell's registration, role or configuration;
      in particular a leftover teardown cannot unregister the cell created after it. */
  lemma SlotBackground(w: World, a: Action)
    requires Inv(w) && Background(a)
    ensures OnlyFrees(w, Step(w, a))
  {
    if a.DoAdvance? { SlotAdvance(w, a.worker); }
  }

  lemma SlotAdvance(w: World, i: nat)
    requires Inv(w)
    ensures OnlyFrees(w, WorkerAdvance(w, i))
  {
    if i < |w.busy| { assert JobOk(w, w.busy[i]); }
  }

  /** The same for any number of background steps. */
  lemma {:induction false} SlotBackgroundRun(w: World, run: seq<Action>)
    requires Inv(w) && forall i | 0 <= i < |run| :: Background(run[i])
    ensures Inv(Exec(w, run)) && OnlyFrees(w, Exec(w, run))
  {
    if |run| > 0 {
      var prefix := run[..|run| - 1];
      SlotBackgroundRun(w, prefix);
      StepKeeps(Exec(w, prefix), run[|run| - 1]);
      SlotBackground(Exec(w, prefix), run[|run| - 1]);
    }
  }

  lemma ExecSnoc(w: World, run: seq<Action>, a: Action)
    requires Wf(w)
    ensures Exec(w, run + [a]) == Step(Exec(w, run), a)
  {
    assert (run + [a])[..|run|] == run;
  }

  lemma {:induction false} ExecConcat(w: World, a: seq<Action>, b: seq<Action>)
    requires Wf(w)
    ensures Exec(w, a + b) == Exec(Exec(w, a), b)
  {
    if |b| == 0 {
      assert a + b == a;
    } else {
      var b0, last := b[..|b| - 1], b[|b| - 1];
      var ab0 := a + b0;
      ExecConcat(w, a, b0);
      ExecSnoc(w, ab0, last);
      ExecSnoc(Exec(w, a), b0, last);
      assert a + b == ab0 + [last] && b == b0 + [last];
    }
  }

  /** The run with every configuration whose compile fails taken out. */
  function WithoutFailures(run: seq<Action>): seq<Action> {
    if |run| == 0 then []
    else
      var a := run[|run| - 1];
      var kept := WithoutFailures(run[..|run| - 1]);
      if a.DoApply? && a.outcome.CompileError? then kept else kept + [a]
  }

  lemma FailureChangesNothing(w: World, a: Action)
    requires Wf(w) && a.DoApply? && a.outcome.CompileError?
    ensures Step(w, a) == w
  {}

  /** A failed compile leaves the registry, engines and hashes included, and everything that becomes of it later as
      if it had not been attempted. What compiling itself does to a cell's data plane is not part of the registry. */
  lemma {:induction false} FailuresLeaveNoTrace(w: World, run: seq<Action>)
    requires Wf(w)
    ensures Exec(w, run) == Exec(w, WithoutFailures(run))
  {
    if |run| > 0 {
      var a := run[|run| - 1];
      var kept := WithoutFailures(run[..|run| - 1]);
      FailuresLeaveNoTrace(w, run[..|run| - 1]);
      if a.DoApply? && a.outcome.CompileError? {
        FailureChangesNothing(Exec(w, run[..|run| - 1]), a);
      } else {
        assert (kept + [a])[..|kept|] == kept;
      }
    }
  }
}
