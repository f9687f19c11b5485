/** What EppDataWatcher.Handle guarantees across rounds, orders and instances. */
module Reconcile {
  import opened Types
  import opened Registry
  import opened RegistryRuns
  import opened RegistryTheorems
  import opened Rounds
  import W = Teardown

  lemma {:induction false} ReconciledLive(w0: World, w: World, self: string, cfg: Snapshot, compile: Key -> Outcome,
                       dying: set<Key>, log: map<Key, ApplyResult>)
    requires Reconciled(w0, w, self, cfg, compile, dying, log)
    ensures forall k :: SlotOf(w, k).Alive? <==> k in Mine(self, cfg.assignment) && k !in dying
    ensures forall k :: SlotOf(w, k).Alive? ==> SlotOf(w, k).cell.role == Mine(self, cfg.assignment)[k]
    ensures forall k <- dying :: k in Mine(self, cfg.assignment) && SlotOf(w0, k) == Dying
  {
    var mine := Mine(self, cfg.assignment);
    forall k
      ensures SlotOf(w, k).Alive? <==> k in mine && k !in dying
      ensures SlotOf(w, k).Alive? ==> SlotOf(w, k).cell.role == mine[k]
      ensures k in dying ==> k in mine && SlotOf(w0, k) == Dying
    {
      assert AppliedAt(w0, w, mine, cfg.eppConfig, compile, {}, dying, log, k);
    }
  }

  /** The i-th action of the run is the Ensure call of the round for `k`, made while a draining cell was registered
      under it. */
  predicate MetAt(r: Round, w0: World, run: seq<Action>, k: Key, i: nat)
    requires Wf(w0)
  {
    i < |run| && run[i] == Call(r, Ensuring, k) && SlotOf(Exec(w0, run[..i]), k).Dying?
  }

  predicate MetDying(r: Round, w0: World, run: seq<Action>, k: Key)
    requires Wf(w0)
  {
    exists i | 0 <= i < |run| :: MetAt(r, w0, run, k, i)
  }

  lemma MetAtPrefix(r: Round, w0: World, run: seq<Action>, k: Key, i: nat, n: nat)
    requires Wf(w0) && i < n <= |run|
    ensures MetAt(r, w0, run[..n], k, i) <==> MetAt(r, w0, run, k, i)
  {
    assert run[..n][..i] == run[..i];
  }

  lemma MetDyingLast(r: Round, w0: World, run: seq<Action>, k: Key)
    requires Wf(w0) && |run| > 0
    ensures MetDying(r, w0, run, k) <==> MetDying(r, w0, run[..|run| - 1], k) || MetAt(r, w0, run, k, |run| - 1)
  {
    var n := |run| - 1;
    forall i: nat | i < n ensures MetAt(r, w0, run[..n], k, i) <==> MetAt(r, w0, run, k, i) {
      MetAtPrefix(r, w0, run, k, i, n);
    }
  }

  lemma {:induction false} MetIff(r: Round, w0: World, run: seq<Action>, keys: set<Key>, k: Key)
    requires Wf(w0) && EachOnce(r, Ensuring, run, keys)
    ensures k in Met(w0, run) <==> MetDying(r, w0, run, k)
    decreases |run|
  {
    if |run| > 0 {
      var a := run[|run| - 1];
      MetIff(r, w0, run[..|run| - 1], if Background(a) then keys else keys - {a.key}, k);
      MetDyingLast(r, w0, run, k);
    }
  }

  /** After a round that goes through, the live cells are the clusters resolved to this instance, each with its role,
      except exactly those whose Ensure call met a draining predecessor; that one was there before the round. */
  lemma {:induction false} LiveAreMine(self: string, cfg: Snapshot, newCell: Key -> bool, compile: Key -> Outcome,
                                       w0: World, t: Trace, k: Key)
    requires Inv(w0) && CleanRound(RoundOf(self, cfg, newCell, compile), w0, t)
    ensures var s, mine := SlotOf(After(w0, t), k), Mine(self, cfg.assignment);
            var met := MetDying(RoundOf(self, cfg, newCell, compile), w0, t.roles, k);
            && (s.Alive? <==> k in mine && !met)
            && (s.Alive? ==> s.cell.role == mine[k])
            && (met ==> k in mine && SlotOf(w0, k) == Dying)
  {
    var r := RoundOf(self, cfg, newCell, compile);
    CleanRoundReconciles(self, cfg, newCell, compile, w0, t);
    ReconciledLive(w0, After(w0, t), self, cfg, compile, Met(w0, t.roles), RoundVerdicts(w0, t));
    MetIff(r, w0, t.roles, r.mine.Keys, k);
  }

  /** The assignment read entry by entry: after a round that goes through, a key whose Ensure call met no draining
      cell has a live primary exactly when the entry names this instance as primary, a live standby exactly when it
      names it as standby and not as primary, and no live cell otherwise; a key that met one has no live cell. */
  lemma {:induction false} AssignmentDecides(self: string, cfg: Snapshot, newCell: Key -> bool,
                                             compile: Key -> Outcome, w0: World, t: Trace, k: Key)
    requires Inv(w0) && CleanRound(RoundOf(self, cfg, newCell, compile), w0, t)
    ensures var s := SlotOf(After(w0, t), k);
            var primary := k in cfg.assignment && cfg.assignment[k].primary == Some(self);
            var standby := k in cfg.assignment && cfg.assignment[k].standby == Some(self);
            if MetDying(RoundOf(self, cfg, newCell, compile), w0, t.roles, k) then !s.Alive? && (primary || standby)
            else
              && (s.Alive? && s.cell.role == RolePrimary <==> primary)
              && (s.Alive? && s.cell.role == RoleStandby <==> standby && !primary)
              && (s.Alive? <==> primary || standby)
  {
    LiveAreMine(self, cfg, newCell, compile, w0, t, k);
  }

  // ---- when every wanted cluster gets its cell ----

  predicate AllWantedLive(w: World, self: string, cfg: Snapshot)
    requires Wf(w)
  {
    forall k <- Mine(self, cfg.assignment) :: SlotOf(w, k).Alive?
  }

  /** A run of one stage with nothing in the background. */
  lemma {:induction false} JustTheCalls(r: Round, s: Stage, keys: set<Key>) returns (run: seq<Action>)
    ensures EachOnce(r, s, run, keys) && forall i | 0 <= i < |run| :: !Background(run[i])
    decreases |keys|
  {
    if keys == {} {
      run := [];
    } else {
      var k :| k in keys;
      var rest := JustTheCalls(r, s, keys - {k});
      Calls(r, s, rest, keys - {k}, k);
      assert keys - {k} + {k} == keys;
      run := rest + [Call(r, s, k)];
    }
  }

  lemma {:induction false} CreationSucceeds(r: Round, w: World, run: seq<Action>, keys: set<Key>)
    requires Wf(w) && EachOnce(r, Ensuring, run, keys) && forall k :: r.newCell(k)
    ensures Succeeds(w, run)
    decreases |run|
  {
    if |run| > 0 {
      var a := run[|run| - 1];
      CreationSucceeds(r, w, run[..|run| - 1], if Background(a) then keys else keys - {a.key});
    }
  }

  /** With nothing in the background a dying cell is still there when all Ensure calls are made. */
  lemma {:induction false} DyingStays(r: Round, w: World, run: seq<Action>, keys: set<Key>, k: Key)
    requires Inv(w) && SlotOf(w, k).Dying?
    requires EachOnce(r, Ensuring, run, keys) && forall i | 0 <= i < |run| :: !Background(run[i])
    ensures Inv(Exec(w, run)) && SlotOf(Exec(w, run), k).Dying?
    decreases |run|
  {
    if |run| > 0 {
      var a, prefix := run[|run| - 1], run[..|run| - 1];
      DyingStays(r, w, prefix, keys - {a.key}, k);
      EnsureKeeps(Exec(w, prefix), a.key, a.role, a.created);
      SlotEnsure(Exec(w, prefix), a.key, a.role, a.created);
    }
  }

  /** A round with nothing in the background. */
  lemma QuietRound(r: Round, w0: World, k: Key) returns (t: Trace)
    requires Inv(w0) && SlotOf(w0, k).Dying? && (forall j :: r.newCell(j))
    ensures CleanRound(r, w0, t) && SlotOf(Exec(w0, t.roles), k).Dying?
  {
    var roles := JustTheCalls(r, Ensuring, r.mine.Keys);
    CreationSucceeds(r, w0, roles, r.mine.Keys);
    DyingStays(r, w0, roles, r.mine.Keys, k);
    var drops := JustTheCalls(r, Dropping, Exec(w0, roles).reg.Keys - r.mine.Keys);
    var configs := JustTheCalls(r, Applying, r.config.Keys * r.mine.Keys);
    t := Trace(roles, drops, configs);
  }

  /** Such a round misses every wanted key that is dying. */
  lemma QuietRoundMisses(self: string, cfg: Snapshot, newCell: Key -> bool, compile: Key -> Outcome, w0: World, k: Key)
    returns (t: Trace)
    requires Inv(w0) && SlotOf(w0, k).Dying? && k in Mine(self, cfg.assignment) && (forall j :: newCell(j))
    ensures CleanRound(RoundOf(self, cfg, newCell, compile), w0, t) && !SlotOf(After(w0, t), k).Alive?
  {
    t := QuietRound(RoundOf(self, cfg, newCell, compile), w0, k);
    var mine, dying := Mine(self, cfg.assignment), Met(w0, t.roles);
    CleanRoundReconciles(self, cfg, newCell, compile, w0, t);
    assert EnsuredAt(w0, Exec(w0, t.roles), mine, {}, dying, k);
    assert AppliedAt(w0, After(w0, t), mine, cfg.eppConfig, compile, {}, dying, RoundVerdicts(w0, t), k);
  }

  /** Every round that goes through, whatever the orders, the background and the answers, leaves a live cell for all
      wanted clusters if and only if none of them has a draining cell registered before the round. */
  lemma {:induction false} AllWantedLiveIff(w0: World, self: string, cfg: Snapshot)
    requires Inv(w0)
    ensures (forall newCell: Key -> bool, compile: Key -> Outcome, t: Trace |
               CleanRound(RoundOf(self, cfg, newCell, compile), w0, t) :: AllWantedLive(After(w0, t), self, cfg))
            <==> (forall k <- Mine(self, cfg.assignment) :: !SlotOf(w0, k).Dying?)
  {
    var mine := Mine(self, cfg.assignment);
    if k :| k in mine && SlotOf(w0, k).Dying? {
      var newCell: Key -> bool := _ => true;
      var compile: Key -> Outcome := _ => CompileError;
      var t := QuietRoundMisses(self, cfg, newCell, compile, w0, k);
    } else {
      forall newCell: Key -> bool, compile: Key -> Outcome, t: Trace |
        CleanRound(RoundOf(self, cfg, newCell, compile), w0, t)
        ensures AllWantedLive(After(w0, t), self, cfg)
      {
        forall k | k in mine ensures SlotOf(After(w0, t), k).Alive? {
          LiveAreMine(self, cfg, newCell, compile, w0, t, k);
        }
      }
    }
  }

  lemma DyingIsReachable() returns (run: seq<Action>)
    ensures Inv(Exec(Init(1), run)) && SlotOf(Exec(Init(1), run), "c").Dying?
  {
    W.WitnessCreate();
    W.WitnessApply();
    WitnessDrop();
    var run1 := W.Extend([], DoEnsure("c", RolePrimary, true), Init(1));
    var run2 := W.Extend(run1, DoApply("c", "cfg", Compiled(false)), W.World1());
    run := W.Extend(run2, DoDrop("c"), W.World2());
    InitKeeps(1);
    RunKeeps(Init(1), run);
  }

  lemma WitnessDrop()
    ensures SlotOf(Step(W.World2(), DoDrop("c")), "c").Dying?
  {}

  /** Such a registry is reachable: a cluster dropped and assigned again while its teardown is pending is left without a
      live cell by a round that returns no error. */
  lemma {:induction false} WantedButNotLive()
    returns (run: seq<Action>, cfg: Snapshot, newCell: Key -> bool, compile: Key -> Outcome, t: Trace)
    ensures var w0 := Exec(Init(1), run);
            && CleanRound(RoundOf("me", cfg, newCell, compile), w0, t)
            && "c" in Mine("me", cfg.assignment) && !SlotOf(After(w0, t), "c").Alive?
  {
    run := DyingIsReachable();
    cfg := Snapshot(map["c" := Entry(Some("me"), None)], map[]);
    newCell, compile := _ => true, _ => CompileError;
    t := QuietRoundMisses("me", cfg, newCell, compile, Exec(Init(1), run), "c");
  }

  /** The outcome does not depend on the order in which the maps were iterated, nor on what happened in the background:
      two rounds from the same registry agree wherever no dying predecessor was met. */
  lemma OrderIndependent(w0: World, w1: World, w2: World, self: string, cfg: Snapshot, compile: Key -> Outcome,
                         dying1: set<Key>, dying2: set<Key>, log1: map<Key, ApplyResult>, log2: map<Key, ApplyResult>)
    requires Reconciled(w0, w1, self, cfg, compile, dying1, log1)
    requires Reconciled(w0, w2, self, cfg, compile, dying2, log2)
    ensures forall k :: k !in dying1 + dying2 ==>
              && (SlotOf(w1, k).Alive? <==> SlotOf(w2, k).Alive?)
              && (SlotOf(w1, k).Alive? ==> SlotOf(w1, k) == SlotOf(w2, k))
    ensures (forall k <- Mine(self, cfg.assignment) :: !SlotOf(w0, k).Dying?) ==> dying1 == dying2 == {} && log1 == log2
  {
    var mine := Mine(self, cfg.assignment);
    ReconciledLive(w0, w1, self, cfg, compile, dying1, log1);
    ReconciledLive(w0, w2, self, cfg, compile, dying2, log2);
    forall k
      ensures k !in dying1 + dying2 && SlotOf(w1, k).Alive? ==> SlotOf(w1, k) == SlotOf(w2, k)
      ensures k in log1 <==> k in log2
      ensures k in log1 && (k in dying1 <==> k in dying2) ==> log1[k] == log2[k]
    {
      assert AppliedAt(w0, w1, mine, cfg.eppConfig, compile, {}, dying1, log1, k);
      assert AppliedAt(w0, w2, mine, cfg.eppConfig, compile, {}, dying2, log2, k);
    }
  }

  /** Roles depend on the last snapshot alone, whatever the registry was before. */
  lemma RolesFollowSnapshot(w0: World, w: World, v0: World, v: World, self: string, cfg: Snapshot,
                            compile1: Key -> Outcome, compile2: Key -> Outcome,
                            log1: map<Key, ApplyResult>, log2: map<Key, ApplyResult>, k: Key)
    requires Reconciled(w0, w, self, cfg, compile1, {}, log1) && Reconciled(v0, v, self, cfg, compile2, {}, log2)
    ensures SlotOf(w, k).Alive? <==> SlotOf(v, k).Alive?
    ensures SlotOf(w, k).Alive? ==> SlotOf(w, k).cell.role == SlotOf(v, k).cell.role
    ensures SlotOf(w, k).Alive? && k in cfg.eppConfig && compile1(k).Compiled? && compile2(k).Compiled? ==>
              SlotOf(w, k) == SlotOf(v, k)
  {
    var mine := Mine(self, cfg.assignment);
    assert AppliedAt(w0, w, mine, cfg.eppConfig, compile1, {}, {}, log1, k);
    assert AppliedAt(v0, v, mine, cfg.eppConfig, compile2, {}, {}, log2, k);
  }

  /** Handling the same snapshot again, after any background activity, compiles again only clusters whose
      compile failed the first time or whose cell was dying then; every other entry is found unchanged. */
  lemma {:induction false} SecondRoundIsQuiet(w0: World, w1: World, run: seq<Action>, w3: World, self: string,
                                              cfg: Snapshot,
                           compile1: Key -> Outcome, compile2: Key -> Outcome, dying1: set<Key>, dying2: set<Key>,
                           log1: map<Key, ApplyResult>, log2: map<Key, ApplyResult>, k: Key)
    requires Reconciled(w0, w1, self, cfg, compile1, dying1, log1)
    requires forall i | 0 <= i < |run| :: Background(run[i])
    requires Reconciled(Exec(w1, run), w3, self, cfg, compile2, dying2, log2)
    requires k in log2
    ensures k in log1
    ensures log2[k] in {CompileFailed, Swapped} ==> log1[k] in {CompileFailed, NotAssigned}
    ensures log1[k] in {Unchanged, Swapped} ==> log2[k] == Unchanged && SlotOf(w3, k) == SlotOf(w1, k)
  {
    var mine := Mine(self, cfg.assignment);
    var w2 := Exec(w1, run);
    SlotBackgroundRun(w1, run);
    assert AppliedAt(w0, w1, mine, cfg.eppConfig, compile1, {}, dying1, log1, k);
    assert AppliedAt(w2, w3, mine, cfg.eppConfig, compile2, {}, dying2, log2, k);
    assert SlotOf(w2, k) == SlotOf(w1, k) || SlotOf(w1, k) == Dying;
  }

  /** The configuration entries whose compile succeeds. */
  function Compiling(r: Round): map<Key, string> {
    map k <- r.config | r.compile(k).Compiled? :: r.config[k]
  }

  lemma {:induction false} SameCalls(r: Round, other: Round, s: Stage, run: seq<Action>, keys: set<Key>)
    requires s != Applying && other.mine == r.mine && other.newCell == r.newCell && EachOnce(r, s, run, keys)
    ensures EachOnce(other, s, run, keys)
    decreases |run|
  {
    if |run| > 0 {
      var a := run[|run| - 1];
      SameCalls(r, other, s, run[..|run| - 1], if Background(a) then keys else keys - {a.key});
    }
  }

  lemma {:induction false} KeptCalls(r: Round, run: seq<Action>, keys: set<Key>)
    requires EachOnce(r, Applying, run, keys) && keys <= r.config.Keys
    ensures EachOnce(r.(config := Compiling(r)), Applying, WithoutFailures(run), keys * Compiling(r).Keys)
    decreases |run|
  {
    if |run| > 0 {
      var a, prefix := run[|run| - 1], run[..|run| - 1];
      if Background(a) {
        KeptCalls(r, prefix, keys);
        Waits(r.(config := Compiling(r)), Applying, WithoutFailures(prefix), keys * Compiling(r).Keys, [a]);
      } else {
        KeptCalls(r, prefix, keys - {a.key});
        var kept := (keys - {a.key}) * Compiling(r).Keys;
        if a.outcome.CompileError? {
          assert kept == keys * Compiling(r).Keys;
        } else {
          Calls(r.(config := Compiling(r)), Applying, WithoutFailures(prefix), kept, a.key);
          assert kept + {a.key} == keys * Compiling(r).Keys;
        }
      }
    }
  }

  function Restrict(log: map<Key, ApplyResult>, keys: set<Key>): map<Key, ApplyResult> {
    map k <- log | k in keys :: log[k]
  }

  lemma RestrictUpdate(log: map<Key, ApplyResult>, keys: set<Key>, k: Key, v: ApplyResult)
    ensures Restrict(log[k := v], keys) == if k in keys then Restrict(log, keys)[k := v] else Restrict(log, keys)
  {}

  ghost predicate SameVerdicts(r: Round, w: World, run: seq<Action>) {
    Wf(w) && Verdicts(w, WithoutFailures(run)) == Restrict(Verdicts(w, run), Compiling(r).Keys)
  }

  lemma {:induction false} KeptVerdicts(r: Round, w: World, run: seq<Action>, keys: set<Key>)
    requires Wf(w) && EachOnce(r, Applying, run, keys) && keys <= r.config.Keys
    ensures SameVerdicts(r, w, run)
    decreases |run|
  {
    if |run| > 0 {
      var a, prefix := run[|run| - 1], run[..|run| - 1];
      KeptVerdicts(r, w, prefix, if Background(a) then keys else keys - {a.key});
      KeptVerdictsLast(r, w, prefix, a);
      assert run == prefix + [a];
    }
  }

  lemma VerdictsSnoc(w: World, run: seq<Action>, a: Action)
    requires Wf(w)
    ensures Verdicts(w, run + [a]) ==
              if a.DoApply? then Verdicts(w, run)[a.key := Verdict(Exec(w, run), a.key, a.raw, a.outcome)]
              else Verdicts(w, run)
  {
    assert (run + [a])[..|run|] == run;
  }

  lemma KeptSnoc(run: seq<Action>, a: Action)
    ensures WithoutFailures(run + [a]) ==
              WithoutFailures(run) + if a.DoApply? && a.outcome.CompileError? then [] else [a]
  {
    assert (run + [a])[..|run|] == run;
  }

  lemma KeptVerdictsLast(r: Round, w: World, run: seq<Action>, a: Action)
    requires Wf(w) && (Background(a) || (a.DoApply? && a.outcome == r.compile(a.key) && a.key in r.config))
    requires SameVerdicts(r, w, run)
    ensures SameVerdicts(r, w, run + [a])
  {
    var kept, log, keys := WithoutFailures(run), Verdicts(w, run), Compiling(r).Keys;
    KeptSnoc(run, a);
    VerdictsSnoc(w, run, a);
    if a.DoApply? {
      var v := Verdict(Exec(w, run), a.key, a.raw, a.outcome);
      RestrictUpdate(log, keys, a.key, v);
      if a.outcome.CompileError? {
        assert kept + [] == kept;
      } else {
        VerdictsSnoc(w, kept, a);
        FailuresLeaveNoTrace(w, run);
      }
    } else {
      VerdictsSnoc(w, kept, a);
    }
  }

  /** From every round that goes through, taking out the calls whose compile fails leaves a round over the configuration
      without those entries; it goes through, ends in the very same registry, engines and drain channel
      included, and its verdicts are the same. So each failure is as if its entry were absent. */
  lemma {:induction false} FailuresAsIfAbsent(r: Round, w0: World, t: Trace)
    requires CleanRound(r, w0, t)
    ensures var kept, t' := r.(config := Compiling(r)), t.(configs := WithoutFailures(t.configs));
            && CleanRound(kept, w0, t') && After(w0, t') == After(w0, t)
            && RoundVerdicts(w0, t') == Restrict(RoundVerdicts(w0, t), Compiling(r).Keys)
  {
    var kept := r.(config := Compiling(r));
    var w2 := Exec(Exec(w0, t.roles), t.drops);
    var keys := r.config.Keys * r.mine.Keys;
    SameCalls(r, kept, Ensuring, t.roles, r.mine.Keys);
    SameCalls(r, kept, Dropping, t.drops, Exec(w0, t.roles).reg.Keys - r.mine.Keys);
    KeptCalls(r, t.configs, keys);
    assert keys * Compiling(r).Keys == kept.config.Keys * kept.mine.Keys;
    FailuresLeaveNoTrace(w2, t.configs);
    KeptVerdicts(r, w2, t.configs, keys);
  }

  /** One process: its registry before and after its last clean round, and what has happened in the background since. */
  datatype Instance = Instance(id: string, before: World, after: World, compile: Key -> Outcome,
                               dying: set<Key>, log: map<Key, ApplyResult>, since: seq<Action>)

  ghost predicate Settled(n: Instance, cfg: Snapshot) {
    && Reconciled(n.before, n.after, n.id, cfg, n.compile, n.dying, n.log)
    && forall b | 0 <= b < |n.since| :: Background(n.since[b])
  }

  ghost predicate HoldsPrimary(n: Instance, cfg: Snapshot, k: Key)
    requires Settled(n, cfg)
  {
    var s := SlotOf(Exec(n.after, n.since), k);
    s.Alive? && s.cell.role == RolePrimary
  }

  lemma PrimaryIsNamed(n: Instance, cfg: Snapshot, k: Key)
    requires Settled(n, cfg) && HoldsPrimary(n, cfg, k)
    ensures k in cfg.assignment && cfg.assignment[k].primary == Some(n.id)
  {
    SlotBackgroundRun(n.after, n.since);
    assert AppliedAt(n.before, n.after, Mine(n.id, cfg.assignment), cfg.eppConfig, n.compile, {}, n.dying, n.log, k);
  }

  /** Among any instances with distinct ids whose last clean round handled the same snapshot, at most one
      holds a live primary cell for a cluster, whatever has happened in the background since. */
  lemma AtMostOnePrimary(instances: set<Instance>, cfg: Snapshot, k: Key)
    requires forall n <- instances :: Settled(n, cfg)
    requires forall m, n :: m in instances && n in instances && m != n ==> m.id != n.id
    ensures forall m, n :: m in instances && n in instances && HoldsPrimary(m, cfg, k) && HoldsPrimary(n, cfg, k) ==>
              m == n
  {
    forall m, n | m in instances && n in instances && HoldsPrimary(m, cfg, k) && HoldsPrimary(n, cfg, k)
      ensures m == n
    {
      PrimaryIsNamed(m, cfg, k);
      PrimaryIsNamed(n, cfg, k);
    }
  }
}
