/**
 One assignment snapshot handled by the epp_data poller, as a run of the registry: Ensure, Drop and
 ApplyConfig calls in whatever order the maps are iterated, with background steps anywhere in between.
 */
module Rounds {
  import opened Types
  import opened Registry
  import opened RegistryRuns
  import opened RegistryTheorems

  datatype Entry = Entry(primary: Option<string>, standby: Option<string>)

  datatype Snapshot = Snapshot(assignment: map<Key, Entry>, eppConfig: map<Key, string>)

  /** Only an exact instance id assigns a role; primary wins when both name this instance. */
  function ResolveRole(self: string, e: Entry): Option<Role> {
    if e.primary == Some(self) then Some(RolePrimary)
    else if e.standby == Some(self) then Some(RoleStandby)
    else None
  }

  /** The clusters resolved to this instance. */
  function Mine(self: string, assignment: map<Key, Entry>): map<Key, Role> {
    map k <- assignment | ResolveRole(self, assignment[k]).Some? :: ResolveRole(self, assignment[k]).value
  }

  /** The configuration a key's live cell carries, if any. */
  function HashAt(w: World, k: Key): Option<Hash>
    requires Wf(w)
  {
    if SlotOf(w, k).Alive? then SlotOf(w, k).cell.hash else None
  }

  /** The verdict on one configuration entry, read off the registry before the snapshot. */
  function EntryVerdict(w: World, k: Key, raw: string, outcome: Outcome, dying: set<Key>): ApplyResult
    requires Wf(w)
  {
    if k in dying then NotAssigned
    else if HashAt(w, k) == Some(Sha256(raw)) then Unchanged
    else if outcome.CompileError? then CompileFailed
    else Swapped
  }

  function HashAfter(w: World, k: Key, raw: string, outcome: Outcome): Option<Hash>
    requires Wf(w)
  {
    if outcome.Compiled? then Some(Sha256(raw)) else HashAt(w, k)
  }

  // ---- what a stage does to each key ----

  /** A slot no call has been made for: a draining cell may have gone meanwhile, nothing else. */
  predicate Undisturbed(before: Slot, now: Slot) {
    now == before || (before == Dying && now == Free)
  }

  /** `k` after Ensure was called for `mine` without `todo`; keys in `dying` had a draining predecessor in the way. */
  ghost predicate EnsuredAt(w0: World, w: World, mine: map<Key, Role>, todo: set<Key>, dying: set<Key>, k: Key)
    requires Wf(w0) && Wf(w)
  {
    if k !in mine || k in todo then Undisturbed(SlotOf(w0, k), SlotOf(w, k)) && k !in dying
    else if k in dying then SlotOf(w0, k) == Dying && !SlotOf(w, k).Alive?
    else SlotOf(w, k) == Alive(LiveCell(mine[k], HashAt(w0, k)))
  }

  ghost predicate Ensured(w0: World, w: World, mine: map<Key, Role>, todo: set<Key>, dying: set<Key>) {
    Wf(w0) && Inv(w) && todo <= mine.Keys && forall k :: EnsuredAt(w0, w, mine, todo, dying, k)
  }

  lemma EnsuredStart(w: World, mine: map<Key, Role>)
    requires Inv(w)
    ensures Ensured(w, w, mine, mine.Keys, {})
  {}

  lemma EnsuredBackground(w0: World, w: World, mine: map<Key, Role>, todo: set<Key>, dying: set<Key>, a: Action)
    requires Ensured(w0, w, mine, todo, dying) && Background(a)
    ensures Ensured(w0, Step(w, a), mine, todo, dying)
  {
    SlotBackground(w, a);
    StepKeeps(w, a);
    forall k ensures EnsuredAt(w0, Step(w, a), mine, todo, dying, k) { assert EnsuredAt(w0, w, mine, todo, dying, k); }
  }

  lemma EnsuredNext(w0: World, w: World, mine: map<Key, Role>, todo: set<Key>, dying: set<Key>, k: Key, created: bool)
    requires Ensured(w0, w, mine, todo, dying) && k in todo && mine[k] != RoleNone && !EnsureFails(w, k, created)
    ensures Ensured(w0, Ensure(w, k, mine[k], created), mine, todo - {k},
                    dying + if SlotOf(w, k).Dying? then {k} else {})
  {
    var w' := Ensure(w, k, mine[k], created);
    SlotEnsure(w, k, mine[k], created);
    EnsureKeeps(w, k, mine[k], created);
    var dying' := dying + if SlotOf(w, k).Dying? then {k} else {};
    forall j ensures EnsuredAt(w0, w', mine, todo - {k}, dying', j) {
      assert EnsuredAt(w0, w, mine, todo, dying, j);
    }
  }

  /** `k` while the keys outside `mine` are being dropped; those in `todo` are still to be looked at. */
  ghost predicate DroppedAt(w0: World, w: World, mine: map<Key, Role>, todo: set<Key>, dying: set<Key>, k: Key)
    requires Wf(w0) && Wf(w)
  {
    if k !in mine then SlotOf(w, k).Alive? ==> k in todo
    else EnsuredAt(w0, w, mine, {}, dying, k)
  }

  ghost predicate Dropped(w0: World, w: World, mine: map<Key, Role>, todo: set<Key>, dying: set<Key>) {
    Wf(w0) && Inv(w) && dying <= mine.Keys && forall k :: DroppedAt(w0, w, mine, todo, dying, k)
  }

  lemma DroppedStart(w0: World, w: World, mine: map<Key, Role>, todo: set<Key>, dying: set<Key>)
    requires Ensured(w0, w, mine, {}, dying) && w.reg.Keys - mine.Keys <= todo
    ensures Dropped(w0, w, mine, todo, dying)
  {
    forall k ensures DroppedAt(w0, w, mine, todo, dying, k) { assert EnsuredAt(w0, w, mine, {}, dying, k); }
    forall k | k in dying ensures k in mine { assert EnsuredAt(w0, w, mine, {}, dying, k); }
  }

  lemma DroppedBackground(w0: World, w: World, mine: map<Key, Role>, todo: set<Key>, dying: set<Key>, a: Action)
    requires Dropped(w0, w, mine, todo, dying) && Background(a)
    ensures Dropped(w0, Step(w, a), mine, todo, dying)
  {
    SlotBackground(w, a);
    StepKeeps(w, a);
    forall k ensures DroppedAt(w0, Step(w, a), mine, todo, dying, k) { assert DroppedAt(w0, w, mine, todo, dying, k); }
  }

  lemma DroppedNext(w0: World, w: World, mine: map<Key, Role>, todo: set<Key>, dying: set<Key>, k: Key)
    requires Dropped(w0, w, mine, todo, dying) && k !in mine
    ensures Dropped(w0, Drop(w, k), mine, todo - {k}, dying)
  {
    SlotDrop(w, k);
    DropKeeps(w, k);
    forall j ensures DroppedAt(w0, Drop(w, k), mine, todo - {k}, dying, j) {
      assert DroppedAt(w0, w, mine, todo, dying, j);
    }
  }

  /** `k` while the configuration entries outside `todo` have been applied and `log` holds their verdicts. */
  ghost predicate AppliedAt(w0: World, w: World, mine: map<Key, Role>, config: map<Key, string>,
                            compile: Key -> Outcome,
                            todo: set<Key>, dying: set<Key>, log: map<Key, ApplyResult>, k: Key)
    requires Wf(w0) && Wf(w)
  {
    && (if k !in mine then !SlotOf(w, k).Alive?
        else if k in dying then SlotOf(w0, k) == Dying && !SlotOf(w, k).Alive?
        else SlotOf(w, k) == Alive(LiveCell(mine[k],
               if k in config && k !in todo then HashAfter(w0, k, config[k], compile(k)) else HashAt(w0, k))))
    && (k in log <==> k in config && k in mine && k !in todo)
    && (k in log ==> log[k] == EntryVerdict(w0, k, config[k], compile(k), dying))
  }

  ghost predicate Applied(w0: World, w: World, mine: map<Key, Role>, config: map<Key, string>, compile: Key -> Outcome,
                          todo: set<Key>, dying: set<Key>, log: map<Key, ApplyResult>) {
    Wf(w0) && Inv(w) && dying <= mine.Keys && forall k :: AppliedAt(w0, w, mine, config, compile, todo, dying, log, k)
  }

  lemma AppliedStart(w0: World, w: World, mine: map<Key, Role>, config: map<Key, string>, compile: Key -> Outcome,
                     dying: set<Key>)
    requires Dropped(w0, w, mine, {}, dying)
    ensures Applied(w0, w, mine, config, compile, config.Keys * mine.Keys, dying, map[])
  {
    forall k ensures AppliedAt(w0, w, mine, config, compile, config.Keys * mine.Keys, dying, map[], k) {
      assert DroppedAt(w0, w, mine, {}, dying, k);
    }
  }

  lemma AppliedBackground(w0: World, w: World, mine: map<Key, Role>, config: map<Key, string>, compile: Key -> Outcome,
                          todo: set<Key>, dying: set<Key>, log: map<Key, ApplyResult>, a: Action)
    requires Applied(w0, w, mine, config, compile, todo, dying, log) && Background(a)
    ensures Applied(w0, Step(w, a), mine, config, compile, todo, dying, log)
  {
    SlotBackground(w, a);
    StepKeeps(w, a);
    forall k ensures AppliedAt(w0, Step(w, a), mine, config, compile, todo, dying, log, k) {
      assert AppliedAt(w0, w, mine, config, compile, todo, dying, log, k);
    }
  }

  lemma AppliedNext(w0: World, w: World, mine: map<Key, Role>, config: map<Key, string>, compile: Key -> Outcome,
                    todo: set<Key>, dying: set<Key>, log: map<Key, ApplyResult>, k: Key)
    requires Applied(w0, w, mine, config, compile, todo, dying, log) && k in todo && k in config && k in mine
    ensures Applied(w0, ApplyConfig(w, k, config[k], compile(k)), mine, config, compile, todo - {k}, dying,
                    log[k := Verdict(w, k, config[k], compile(k))])
  {
    SlotApply(w, k, config[k], compile(k));
    ApplyKeeps(w, k, config[k], compile(k));
    var w', log' := ApplyConfig(w, k, config[k], compile(k)), log[k := Verdict(w, k, config[k], compile(k))];
    forall j ensures AppliedAt(w0, w', mine, config, compile, todo - {k}, dying, log', j) {
      assert AppliedAt(w0, w, mine, config, compile, todo, dying, log, j);
    }
  }

  /** What a clean round leaves, from any registry and under any iteration order. */
  ghost predicate Reconciled(w0: World, w: World, self: string, cfg: Snapshot, compile: Key -> Outcome,
                             dying: set<Key>, log: map<Key, ApplyResult>) {
    Applied(w0, w, Mine(self, cfg.assignment), cfg.eppConfig, compile, {}, dying, log)
  }

  /** What an error return leaves at `k`: a live cell stays live with its configuration, and its role is the old one
      or the one asked for. */
  ghost predicate AbortedAt(w0: World, w: World, mine: map<Key, Role>, k: Key)
    requires Wf(w0) && Wf(w)
  {
    && (SlotOf(w0, k).Alive? ==> SlotOf(w, k).Alive?)
    && (SlotOf(w, k).Alive? ==>
          && SlotOf(w, k).cell.hash == HashAt(w0, k)
          && (SlotOf(w, k) == SlotOf(w0, k) || (k in mine && SlotOf(w, k).cell.role == mine[k])))
  }

  ghost predicate Aborted(w0: World, w: World, self: string, cfg: Snapshot) {
    Wf(w0) && Inv(w) && forall k :: AbortedAt(w0, w, Mine(self, cfg.assignment), k)
  }

  lemma EnsuredAborts(w0: World, w: World, self: string, cfg: Snapshot, todo: set<Key>, dying: set<Key>)
    requires Ensured(w0, w, Mine(self, cfg.assignment), todo, dying)
    ensures Aborted(w0, w, self, cfg)
  {
    var mine := Mine(self, cfg.assignment);
    forall k ensures AbortedAt(w0, w, mine, k) { assert EnsuredAt(w0, w, mine, todo, dying, k); }
  }

  // ---- a round as a run of the registry ----

  /** What one round of Handle works with: the roles, the configuration entries, and what creating a cell and
      compiling an entry answer. */
  datatype Round = Round(mine: map<Key, Role>, config: map<Key, string>, newCell: Key -> bool, compile: Key -> Outcome)

  function RoundOf(self: string, cfg: Snapshot, newCell: Key -> bool, compile: Key -> Outcome): Round {
    Round(Mine(self, cfg.assignment), cfg.eppConfig, newCell, compile)
  }

  /** The three loops of Handle. */
  datatype Stage = Ensuring | Dropping | Applying

  /** The call a stage makes for a key. */
  function Call(r: Round, s: Stage, k: Key): Action {
    match s
    case Ensuring => DoEnsure(k, if k in r.mine then r.mine[k] else RoleNone, r.newCell(k))
    case Dropping => DoDrop(k)
    case Applying => DoApply(k, if k in r.config then r.config[k] else "", r.compile(k))
  }

  /** Background steps aside, the run makes the call of the stage once for each of the keys, in some order, and no
      other call. */
  predicate EachOnce(r: Round, s: Stage, run: seq<Action>, keys: set<Key>)
    decreases |run|
  {
    if |run| == 0 then keys == {}
    else
      var a, prefix := run[|run| - 1], run[..|run| - 1];
      if Background(a) then EachOnce(r, s, prefix, keys)
      else a.key in keys && a == Call(r, s, a.key) && EachOnce(r, s, prefix, keys - {a.key})
  }

  /** No Ensure of the run fails. */
  predicate Succeeds(w: World, run: seq<Action>)
    requires Wf(w)
  {
    |run| == 0 ||
    var a, prefix := run[|run| - 1], run[..|run| - 1];
    Succeeds(w, prefix) && (a.DoEnsure? ==> !EnsureFails(Exec(w, prefix), a.key, a.created))
  }

  /** The keys whose Ensure met a draining cell. */
  function Met(w: World, run: seq<Action>): set<Key>
    requires Wf(w)
  {
    if |run| == 0 then {}
    else
      var a, prefix := run[|run| - 1], run[..|run| - 1];
      Met(w, prefix) + if a.DoEnsure? && SlotOf(Exec(w, prefix), a.key).Dying? then {a.key} else {}
  }

  /** The verdicts of the ApplyConfig calls. */
  function Verdicts(w: World, run: seq<Action>): map<Key, ApplyResult>
    requires Wf(w)
  {
    if |run| == 0 then map[]
    else
      var a, prefix := run[|run| - 1], run[..|run| - 1];
      if a.DoApply? then Verdicts(w, prefix)[a.key := Verdict(Exec(w, prefix), a.key, a.raw, a.outcome)]
      else Verdicts(w, prefix)
  }

  /** The runs of the three loops. */
  datatype Trace = Trace(roles: seq<Action>, drops: seq<Action>, configs: seq<Action>) {
    function Run(): seq<Action> {
      roles + drops + configs
    }
  }

  /** A round that goes through: every wanted key is ensured, then every other key registered at that moment is
      dropped, then every entry of a wanted key is applied; anything may happen in the background in between. */
  ghost predicate CleanRound(r: Round, w0: World, t: Trace) {
    && Wf(w0) && Succeeds(w0, t.roles)
    && EachOnce(r, Ensuring, t.roles, r.mine.Keys)
    && EachOnce(r, Dropping, t.drops, Exec(w0, t.roles).reg.Keys - r.mine.Keys)
    && EachOnce(r, Applying, t.configs, r.config.Keys * r.mine.Keys)
  }

  /** A round that returns an error: some keys were ensured, then creating a cell for another one failed. */
  ghost predicate AbortedRound(r: Round, w0: World, run: seq<Action>) {
    && Wf(w0) && |run| > 0
    && var a, prefix := run[|run| - 1], run[..|run| - 1];
    && Succeeds(w0, prefix)
    && a.DoEnsure? && a.key in r.mine
    && (exists done :: done <= r.mine.Keys - {a.key} && EachOnce(r, Ensuring, prefix, done))
    && a == Call(r, Ensuring, a.key) && EnsureFails(Exec(w0, prefix), a.key, a.created)
  }

  lemma {:induction false} Waits(r: Round, s: Stage, run: seq<Action>, keys: set<Key>, back: seq<Action>)
    requires EachOnce(r, s, run, keys) && forall i | 0 <= i < |back| :: Background(back[i])
    ensures EachOnce(r, s, run + back, keys)
  {
    if |back| == 0 {
      assert run + back == run;
    } else {
      var n := |back| - 1;
      Waits(r, s, run, keys, back[..n]);
      assert (run + back)[..|run + back| - 1] == run + back[..n];
    }
  }

  lemma Calls(r: Round, s: Stage, run: seq<Action>, keys: set<Key>, k: Key)
    requires EachOnce(r, s, run, keys) && k !in keys
    ensures EachOnce(r, s, run + [Call(r, s, k)], keys + {k})
  {
    assert (run + [Call(r, s, k)])[..|run|] == run;
    assert keys + {k} - {k} == keys;
  }

  lemma {:induction false} SucceedsWaits(w: World, run: seq<Action>, back: seq<Action>)
    requires Wf(w) && Succeeds(w, run) && forall i | 0 <= i < |back| :: Background(back[i])
    ensures Succeeds(w, run + back)
  {
    if |back| == 0 {
      assert run + back == run;
    } else {
      var n := |back| - 1;
      SucceedsWaits(w, run, back[..n]);
      assert (run + back)[..|run + back| - 1] == run + back[..n];
    }
  }

  lemma {:induction false} VerdictsWait(w: World, run: seq<Action>, back: seq<Action>)
    requires Wf(w) && forall i | 0 <= i < |back| :: Background(back[i])
    ensures Verdicts(w, run + back) == Verdicts(w, run)
  {
    if |back| == 0 {
      assert run + back == run;
    } else {
      var n := |back| - 1;
      VerdictsWait(w, run, back[..n]);
      assert (run + back)[..|run + back| - 1] == run + back[..n];
    }
  }

  /** A stage that began at `w1` has led to `w`: `done` are the keys it has made its call for. */
  ghost predicate Progress(r: Round, s: Stage, w1: World, w: World, run: seq<Action>, done: set<Key>) {
    Wf(w1) && w == Exec(w1, run) && EachOnce(r, s, run, done) && Succeeds(w1, run)
  }

  lemma ProgressStart(r: Round, s: Stage, w1: World)
    requires Wf(w1)
    ensures Progress(r, s, w1, w1, [], {}) && Verdicts(w1, []) == map[]
  {}

  lemma ProgressWaits(r: Round, s: Stage, w1: World, w: World, run: seq<Action>, done: set<Key>, back: seq<Action>)
    requires Progress(r, s, w1, w, run, done) && forall i | 0 <= i < |back| :: Background(back[i])
    ensures Progress(r, s, w1, Exec(w, back), run + back, done) && Verdicts(w1, run + back) == Verdicts(w1, run)
  {
    Waits(r, s, run, done, back);
    SucceedsWaits(w1, run, back);
    VerdictsWait(w1, run, back);
    ExecConcat(w1, run, back);
  }

  lemma ProgressEnsures(r: Round, w1: World, w: World, run: seq<Action>, done: set<Key>, k: Key)
    requires Progress(r, Ensuring, w1, w, run, done) && done <= r.mine.Keys && k in r.mine.Keys - done
    ensures var next := run + [Call(r, Ensuring, k)];
            var w' := Ensure(w, k, r.mine[k], r.newCell(k));
            if EnsureFails(w, k, r.newCell(k)) then AbortedRound(r, w1, next) && w' == Exec(w1, next)
            else Progress(r, Ensuring, w1, w', next, done + {k})
  {
    var next := run + [Call(r, Ensuring, k)];
    assert next[..|next| - 1] == run;
    Calls(r, Ensuring, run, done, k);
    ExecSnoc(w1, run, Call(r, Ensuring, k));
  }

  lemma ProgressDrops(r: Round, w1: World, w: World, run: seq<Action>, done: set<Key>, k: Key)
    requires Progress(r, Dropping, w1, w, run, done) && k !in done
    ensures Progress(r, Dropping, w1, Drop(w, k), run + [DoDrop(k)], done + {k})
  {
    var next := run + [DoDrop(k)];
    assert next[..|next| - 1] == run;
    Calls(r, Dropping, run, done, k);
    ExecSnoc(w1, run, DoDrop(k));
  }

  lemma ProgressApplies(r: Round, w1: World, w: World, run: seq<Action>, done: set<Key>, k: Key)
    requires Progress(r, Applying, w1, w, run, done) && k !in done && k in r.config
    ensures var next := run + [Call(r, Applying, k)];
            && Progress(r, Applying, w1, ApplyConfig(w, k, r.config[k], r.compile(k)), next, done + {k})
            && Verdicts(w1, next) == Verdicts(w1, run)[k := Verdict(w, k, r.config[k], r.compile(k))]
  {
    var next := run + [Call(r, Applying, k)];
    assert next[..|next| - 1] == run;
    Calls(r, Applying, run, done, k);
    ExecSnoc(w1, run, Call(r, Applying, k));
  }

  // ---- what the stages do ----

  lemma {:induction false} EnsureStage(r: Round, w0: World, run: seq<Action>, done: set<Key>)
    requires Inv(w0) && done <= r.mine.Keys && RoleNone !in r.mine.Values
    requires EachOnce(r, Ensuring, run, done) && Succeeds(w0, run)
    ensures Ensured(w0, Exec(w0, run), r.mine, r.mine.Keys - done, Met(w0, run))
    decreases |run|
  {
    if |run| == 0 {
      EnsuredStart(w0, r.mine);
    } else {
      var a, prefix := run[|run| - 1], run[..|run| - 1];
      if Background(a) {
        EnsureStage(r, w0, prefix, done);
        assert Met(w0, run) == Met(w0, prefix);
        EnsuredBackground(w0, Exec(w0, prefix), r.mine, r.mine.Keys - done, Met(w0, prefix), a);
      } else {
        EnsureStage(r, w0, prefix, done - {a.key});
        assert r.mine[a.key] in r.mine.Values;
        EnsuredNext(w0, Exec(w0, prefix), r.mine, r.mine.Keys - (done - {a.key}), Met(w0, prefix), a.key, a.created);
        assert r.mine.Keys - (done - {a.key}) - {a.key} == r.mine.Keys - done;
      }
    }
  }

  lemma {:induction false} DropStage(r: Round, w0: World, w1: World, run: seq<Action>, done: set<Key>,
                                     todo: set<Key>, dying: set<Key>)
    requires Dropped(w0, w1, r.mine, todo, dying) && done !! r.mine.Keys
    requires EachOnce(r, Dropping, run, done)
    ensures Dropped(w0, Exec(w1, run), r.mine, todo - done, dying)
    decreases |run|
  {
    if |run| == 0 {
      assert todo - done == todo;
    } else {
      var a, prefix := run[|run| - 1], run[..|run| - 1];
      if Background(a) {
        DropStage(r, w0, w1, prefix, done, todo, dying);
        DroppedBackground(w0, Exec(w1, prefix), r.mine, todo - done, dying, a);
      } else {
        DropStage(r, w0, w1, prefix, done - {a.key}, todo, dying);
        DroppedNext(w0, Exec(w1, prefix), r.mine, todo - (done - {a.key}), dying, a.key);
        assert todo - (done - {a.key}) - {a.key} == todo - done;
      }
    }
  }

  lemma {:induction false} ApplyStage(r: Round, w0: World, w2: World, run: seq<Action>, done: set<Key>, dying: set<Key>)
    requires Applied(w0, w2, r.mine, r.config, r.compile, r.config.Keys * r.mine.Keys, dying, map[])
    requires done <= r.config.Keys * r.mine.Keys && EachOnce(r, Applying, run, done)
    ensures Applied(w0, Exec(w2, run), r.mine, r.config, r.compile, r.config.Keys * r.mine.Keys - done, dying,
                    Verdicts(w2, run))
    decreases |run|
  {
    var all := r.config.Keys * r.mine.Keys;
    if |run| == 0 {
      assert all - done == all;
    } else {
      var a, prefix := run[|run| - 1], run[..|run| - 1];
      if Background(a) {
        ApplyStage(r, w0, w2, prefix, done, dying);
        AppliedBackground(w0, Exec(w2, prefix), r.mine, r.config, r.compile, all - done, dying,
                          Verdicts(w2, prefix), a);
      } else {
        ApplyStage(r, w0, w2, prefix, done - {a.key}, dying);
        AppliedNext(w0, Exec(w2, prefix), r.mine, r.config, r.compile, all - (done - {a.key}), dying,
                    Verdicts(w2, prefix), a.key);
        assert all - (done - {a.key}) - {a.key} == all - done;
      }
    }
  }

  lemma RolesAreReal(self: string, assignment: map<Key, Entry>)
    ensures RoleNone !in Mine(self, assignment).Values
  {}

  /** The registry after a round, stage by stage. */
  function After(w0: World, t: Trace): (w: World)
    requires Wf(w0)
    ensures Wf(w)
  {
    Exec(Exec(Exec(w0, t.roles), t.drops), t.configs)
  }

  lemma AfterRun(w0: World, t: Trace)
    requires Wf(w0)
    ensures After(w0, t) == Exec(w0, t.Run())
  {
    ExecConcat(w0, t.roles, t.drops);
    ExecConcat(w0, t.roles + t.drops, t.configs);
  }

  function RoundVerdicts(w0: World, t: Trace): map<Key, ApplyResult>
    requires Wf(w0)
  {
    Verdicts(Exec(Exec(w0, t.roles), t.drops), t.configs)
  }

  /** Every round that goes through reconciles the registry, and its verdicts are those read off the registry before
      it. */
  lemma {:induction false} CleanRoundReconciles(self: string, cfg: Snapshot, newCell: Key -> bool,
                                                compile: Key -> Outcome, w0: World, t: Trace)
    requires Inv(w0) && CleanRound(RoundOf(self, cfg, newCell, compile), w0, t)
    ensures Reconciled(w0, After(w0, t), self, cfg, compile, Met(w0, t.roles), RoundVerdicts(w0, t))
    ensures Ensured(w0, Exec(w0, t.roles), Mine(self, cfg.assignment), {}, Met(w0, t.roles))
  {
    var r := RoundOf(self, cfg, newCell, compile);
    var dying := Met(w0, t.roles);
    var w1 := Exec(w0, t.roles);
    var w2 := Exec(w1, t.drops);
    var others := w1.reg.Keys - r.mine.Keys;
    RolesAreReal(self, cfg.assignment);
    EnsureStage(r, w0, t.roles, r.mine.Keys);
    assert r.mine.Keys - r.mine.Keys == {};
    DroppedStart(w0, w1, r.mine, others, dying);
    DropStage(r, w0, w1, t.drops, others, others, dying);
    assert others - others == {};
    AppliedStart(w0, w2, r.mine, r.config, compile, dying);
    ApplyStage(r, w0, w2, t.configs, r.config.Keys * r.mine.Keys, dying);
    assert r.config.Keys * r.mine.Keys - r.config.Keys * r.mine.Keys == {};
  }

  /** A round that returns an error has dropped no live cell and applied no configuration. */
  lemma {:induction false} AbortedRoundKeeps(self: string, cfg: Snapshot, newCell: Key -> bool, compile: Key -> Outcome,
                                             w0: World, run: seq<Action>)
    requires Inv(w0) && AbortedRound(RoundOf(self, cfg, newCell, compile), w0, run)
    ensures Aborted(w0, Exec(w0, run), self, cfg)
  {
    var r := RoundOf(self, cfg, newCell, compile);
    var a, prefix := run[|run| - 1], run[..|run| - 1];
    var done :| done <= r.mine.Keys - {a.key} && EachOnce(r, Ensuring, prefix, done);
    RolesAreReal(self, cfg.assignment);
    EnsureStage(r, w0, prefix, done);
    assert Exec(w0, run) == Exec(w0, prefix);
    EnsuredAborts(w0, Exec(w0, run), self, cfg, r.mine.Keys - done, Met(w0, prefix));
  }
}
