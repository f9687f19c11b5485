/** Which engines a sequence of configurations installs. */
module EngineTrace {
  import opened Types
  import opened Registry
  import opened RegistryRuns
  import opened RegistryTheorems

  /** The configurations whose engines cell `c` has been given, oldest first. */
  function Installed(engines: seq<EngineRec>, c: CellId): seq<Hash> {
    if |engines| == 0 then []
    else Installed(engines[..|engines| - 1], c)
         + if engines[|engines| - 1].owner == c then [engines[|engines| - 1].version] else []
  }

  /** The compilable configurations sent to `key`, oldest first; a failing compile leaves no trace. */
  function Compilable(run: seq<Action>, key: Key): seq<Hash> {
    if |run| == 0 then []
    else
      var a := run[|run| - 1];
      Compilable(run[..|run| - 1], key)
      + if a.DoApply? && a.key == key && a.outcome.Compiled? then [Sha256(a.raw)] else []
  }

  function LastOr(first: Option<Hash>, s: seq<Hash>): Option<Hash> {
    if |s| == 0 then first else Some(s[|s| - 1])
  }

  /** Without consecutive repeats; `first` stands before the sequence. */
  function Distinct(first: Option<Hash>, s: seq<Hash>): seq<Hash> {
    if |s| == 0 then []
    else
      var n := |s| - 1;
      Distinct(first, s[..n]) + if LastOr(first, s[..n]) == Some(s[n]) then [] else [s[n]]
  }

  lemma {:induction false} InstalledSame(a: seq<EngineRec>, b: seq<EngineRec>, c: CellId)
    requires SameEngines(a, b)
    ensures Installed(a, c) == Installed(b, c)
  {
    if |a| > 0 { InstalledSame(a[..|a| - 1], b[..|b| - 1], c); }
  }

  lemma SwapInstalls(w: World, key: Key, raw: string, outcome: Outcome, c: CellId)
    requires Inv(w) && c < |w.cells| && Verdict(w, key, raw, outcome) == Swapped
    ensures var w' := ApplyConfig(w, key, raw, outcome);
            var h := Sha256(raw);
            && c < |w'.cells|
            && Installed(w'.engines, c) == Installed(w.engines, c) + (if c == w.reg[key] then [h] else [])
            && w'.cells[c].hash == if c == w.reg[key] then Some(h) else w.cells[c].hash
  {
    var d := w.reg[key];
    var w1 := Install(w, d, Sha256(raw), outcome.discovers);
    var n := |w.engines|;
    assert w1.engines == w.engines + [EngineRec(d, Sha256(raw), false, outcome.discovers, false)];
    assert w1.engines[..n] == w.engines;
    assert Installed(w1.engines, c) == Installed(w.engines, c) + (if c == d then [Sha256(raw)] else []);
    if w.cells[d].engine.Some? {
      ScheduleInstallsNothing(w1, Task(d, w.cells[d].engine.value, false), c);
    }
  }

  lemma ScheduleInstallsNothing(w: World, t: Task, c: CellId)
    requires WfTask(w, t) && c < |w.cells|
    ensures var w' := ScheduleDrain(w, t);
            && |w'.cells| == |w.cells| && w'.cells[c].hash == w.cells[c].hash
            && Installed(w'.engines, c) == Installed(w.engines, c)
  {
    assert SameEngines(ScheduleDrain(w, t).engines, w.engines);
    InstalledSame(ScheduleDrain(w, t).engines, w.engines, c);
  }

  /** What one step does to the engines and to the hash of a cell that is alive after it. */
  lemma StepInstalls(w: World, a: Action, c: CellId)
    requires Inv(w) && c < |w.cells| && !Draining(Step(w, a), c)
    ensures var swapped := a.DoApply? && a.key == w.cells[c].key && a.outcome.Compiled?
              && w.cells[c].hash != Some(Sha256(a.raw));
            && Installed(Step(w, a).engines, c) == Installed(w.engines, c) + (if swapped then [Sha256(a.raw)] else [])
            && Step(w, a).cells[c].hash == if swapped then Some(Sha256(a.raw)) else w.cells[c].hash
  {
    var w' := Step(w, a);
    StepGrows(w, a);
    StepKeeps(w, a);
    assert CellOk(w, None, c) && CellOk(w', None, c) && CellGrows(w, w', c);
    var key := w.cells[c].key;
    if a.DoApply? && Verdict(w, a.key, a.raw, a.outcome) == Swapped {
      SwapInstalls(w, a.key, a.raw, a.outcome, c);
      assert w.cells[w.reg[a.key]].key == a.key;
    } else {
      NoSwapFrame(w, a);
      InstalledSame(w'.engines, w.engines, c);
    }
  }

  lemma NoSwapFrame(w: World, a: Action)
    requires Inv(w) && !(a.DoApply? && Verdict(w, a.key, a.raw, a.outcome) == Swapped)
    ensures SameVersions(w, Step(w, a))
  {
    match a
    case DoEnsure(key, role, created) => EnsureFrame(w, key, role, created);
    case DoDemote(key) => DemoteFrame(w, key);
    case DoDrop(key) => DropFrame(w, key);
    case _ =>
  }

  lemma DistinctSnoc(first: Option<Hash>, sent: seq<Hash>, a: Action, more: seq<Hash>, key: Key)
    requires more == sent + if a.DoApply? && a.key == key && a.outcome.Compiled? then [Sha256(a.raw)] else []
    ensures var taken := a.DoApply? && a.key == key && a.outcome.Compiled?
              && LastOr(first, sent) != Some(Sha256(a.raw));
            && Distinct(first, more) == Distinct(first, sent) + (if taken then [Sha256(a.raw)] else [])
            && LastOr(first, more) == if taken then Some(Sha256(a.raw)) else LastOr(first, sent)
  {
    if more != sent { assert more[..|sent|] == sent; }
  }

  /** The engines given to `c` follow those of `base` as the configurations `sent` demand, and so does its hash. */
  ghost predicate Traced(w: World, c: CellId, base: seq<Hash>, first: Option<Hash>, sent: seq<Hash>) {
    c < |w.cells| && Installed(w.engines, c) == base + Distinct(first, sent) && w.cells[c].hash == LastOr(first, sent)
  }

  /** One more action after a run in which the trace has been right so far. */
  lemma TraceSnoc(w: World, w': World, a: Action, c: CellId, base: seq<Hash>, first: Option<Hash>, sent: seq<Hash>,
                  more: seq<Hash>)
    requires Traced(w, c, base, first, sent) && c < |w'.cells|
    requires var swapped := a.DoApply? && a.key == w.cells[c].key && a.outcome.Compiled?
               && w.cells[c].hash != Some(Sha256(a.raw));
             && Installed(w'.engines, c) == Installed(w.engines, c) + (if swapped then [Sha256(a.raw)] else [])
             && w'.cells[c].hash == if swapped then Some(Sha256(a.raw)) else w.cells[c].hash
    requires more == sent + if a.DoApply? && a.key == w.cells[c].key && a.outcome.Compiled? then [Sha256(a.raw)] else []
    ensures Traced(w', c, base, first, more)
  {
    DistinctSnoc(first, sent, a, more, w.cells[c].key);
  }

  lemma AliveBefore(w: World, a: Action, c: CellId)
    requires Inv(w) && c < |w.cells| && c < |Step(w, a).cells| && !Draining(Step(w, a), c)
    ensures !Draining(w, c)
  {
    StepGrows(w, a);
    assert CellGrows(w, Step(w, a), c);
  }

  lemma KeyStays(w: World, run: seq<Action>, c: CellId)
    requires Inv(w) && c < |w.cells|
    ensures c < |Exec(w, run).cells| && Exec(w, run).cells[c].key == w.cells[c].key
  {
    RunGrows(w, run);
    assert CellGrows(w, Exec(w, run), c);
  }

  /** For every run in which a cell stays alive, whatever else happens in between: the engines it is given are
      those of the compilable configurations it was sent, in order, with consecutive repeats removed, and
      its hash is that of the last one. So a rollback reinstalls, and a skip means the engine already matches. */
  lemma {:induction false} InstallsDistinctCompilable(w: World, run: seq<Action>, c: CellId)
    requires Inv(w) && c < |w.cells| && c < |Exec(w, run).cells| && !Draining(Exec(w, run), c)
    ensures var sent := Compilable(run, w.cells[c].key);
            && Installed(Exec(w, run).engines, c) == Installed(w.engines, c) + Distinct(w.cells[c].hash, sent)
            && Exec(w, run).cells[c].hash == LastOr(w.cells[c].hash, sent)
  {
    if |run| > 0 {
      var prefix := run[..|run| - 1];
      var a := run[|run| - 1];
      var key := w.cells[c].key;
      RunKeeps(w, prefix);
      KeyStays(w, prefix, c);
      AliveBefore(Exec(w, prefix), a, c);
      InstallsDistinctCompilable(w, prefix, c);
      StepInstalls(Exec(w, prefix), a, c);
      TraceSnoc(Exec(w, prefix), Exec(w, run), a, c, Installed(w.engines, c), w.cells[c].hash,
          Compilable(prefix, key), Compilable(run, key));
    }
  }

  /** `currentHash` is always the hash of the configuration behind the current engine. */
  lemma HashMatchesEngine(workers: nat, run: seq<Action>, c: CellId)
    requires c < |Exec(Init(workers), run).cells|
    ensures var w := Exec(Init(workers), run);
            match w.cells[c].engine
            case None => w.cells[c].hash == None
            case Some(e) => e < |w.engines| && w.engines[e].owner == c && w.cells[c].hash == Some(w.engines[e].version)
  {
    InitKeeps(workers);
    RunKeeps(Init(workers), run);
    assert CellOk(Exec(Init(workers), run), None, c);
  }
}
