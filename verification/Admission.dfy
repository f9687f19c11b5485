/**
 Hot swap against admission, at the granularity of single atomic operations: any number of
 requests run demux.Server.Process on one cell while the control goroutine switches its role,
 swaps its engine and schedules drains, and drain goroutines cancel, wait and time out.
 */
module Admission {
  import opened Types

  /** How a request ends. */
  datatype Reply = CellDraining | Returned | Panicked

  /** Where a request is in Process, Track included. */
  datatype Pc =
    | Routed
    | Loaded(e: EngineId)
    | Checked(e: EngineId)
    | Added(e: EngineId)
    | BackingOut(e: EngineId)
    | Serving(e: EngineId)
    | Unwinding(e: EngineId, panicked: bool)
    | Finished(reply: Reply)

  /** Where the control goroutine is: between methods, after the pointer swap, after the hash store,
      or draining on the spot because the channel was full. */
  datatype Ctl =
    | Idle
    | Swapped(prev: Option<EngineId>)
    | Stored(prev: Option<EngineId>)
    | DrainingNow(d: nat)

  datatype DrainPhase = Queued | Cancelled | SawZero | EndedByWait | EndedByTimeout

  /** `replaced`: scheduled by ApplyConfig for the engine it swapped out, not by Demote or Drop for the current one. */
  datatype DrainRec = DrainRec(e: EngineId, replaced: bool, phase: DrainPhase)

  /** Engines are numbered as they are compiled; `wg[e]` is the WaitGroup counter of engine e. */
  datatype Sys = Sys(engine: Option<EngineId>, role: Role, wg: seq<nat>, reqs: seq<Pc>, ctl: Ctl, drains: seq<DrainRec>)

  datatype Step =
    // a request
    | Arrive
    | Load(t: nat)
    | CheckRole(t: nat)
    | Add(t: nat)
    | Recheck(t: nat)
    | TakeBack(t: nat)
    | Leave(t: nat, panicked: bool)
    | Done(t: nat)
    // the control goroutine
    | SetRole(role: Role)
    | Swap
    | StoreHash
    | Schedule(sync: bool)
    | ScheduleCurrent(sync: bool)
    | ReturnFromDrain
    // a drain
    | Cancel(d: nat)
    | ObserveZero(d: nat)
    | FinishWait(d: nat)
    | Timeout(d: nat)

  predicate Ended(p: DrainPhase) {
    p == EndedByWait || p == EndedByTimeout
  }

  predicate Enabled(s: Sys, a: Step) {
    match a
    case Arrive => true
    case Load(t) => t < |s.reqs| && s.reqs[t] == Routed
    case CheckRole(t) => t < |s.reqs| && s.reqs[t].Loaded?
    case Add(t) => t < |s.reqs| && s.reqs[t].Checked? && s.reqs[t].e < |s.wg|
    case Recheck(t) => t < |s.reqs| && s.reqs[t].Added?
    case TakeBack(t) => t < |s.reqs| && s.reqs[t].BackingOut? && s.reqs[t].e < |s.wg|
    case Leave(t, _) => t < |s.reqs| && s.reqs[t].Serving?
    case Done(t) => t < |s.reqs| && s.reqs[t].Unwinding? && s.reqs[t].e < |s.wg|
    case SetRole(_) => s.ctl == Idle
    case Swap => s.ctl == Idle
    case StoreHash => s.ctl.Swapped?
    case Schedule(_) => s.ctl.Stored?
    case ScheduleCurrent(_) => s.ctl == Idle && s.engine.Some?
    case ReturnFromDrain => s.ctl.DrainingNow? && s.ctl.d < |s.drains| && Ended(s.drains[s.ctl.d].phase)
    case Cancel(d) => d < |s.drains| && s.drains[d].phase == Queued
    case ObserveZero(d) =>
      d < |s.drains| && s.drains[d].phase == Cancelled && s.drains[d].e < |s.wg| && s.wg[s.drains[d].e] == 0
    case FinishWait(d) => d < |s.drains| && s.drains[d].phase == SawZero
    case Timeout(d) => d < |s.drains| && s.drains[d].phase in {Cancelled, SawZero}
  }

  function At(s: Sys, t: nat, pc: Pc): Sys
    requires t < |s.reqs|
  {
    s.(reqs := s.reqs[t := pc])
  }

  /** One WaitGroup operation; taking the counter below zero is excluded by CountersExact. */
  function Count(s: Sys, e: EngineId, up: bool): Sys
    requires e < |s.wg|
  {
    s.(wg := s.wg[e := if up then s.wg[e] + 1 else if s.wg[e] > 0 then s.wg[e] - 1 else 0])
  }

  function Phased(s: Sys, d: nat, p: DrainPhase): Sys
    requires d < |s.drains|
  {
    s.(drains := s.drains[d := s.drains[d].(phase := p)])
  }

  function NewDrain(s: Sys, e: EngineId, replaced: bool, sync: bool): Sys {
    s.(drains := s.drains + [DrainRec(e, replaced, Queued)], ctl := if sync then DrainingNow(|s.drains|) else Idle)
  }

  function Next(s: Sys, a: Step): Sys
    requires Enabled(s, a)
  {
    match a
    case Arrive => s.(reqs := s.reqs + [Routed])
    case Load(t) => At(s, t, if s.engine.Some? then Loaded(s.engine.value) else Finished(CellDraining))
    case CheckRole(t) => At(s, t, if s.role == RolePrimary then Checked(s.reqs[t].e) else Finished(CellDraining))
    case Add(t) => Count(At(s, t, Added(s.reqs[t].e)), s.reqs[t].e, true)
    case Recheck(t) => At(s, t, if s.engine == Some(s.reqs[t].e) then Serving(s.reqs[t].e) else BackingOut(s.reqs[t].e))
    case TakeBack(t) => Count(At(s, t, Finished(CellDraining)), s.reqs[t].e, false)
    case Leave(t, panicked) => At(s, t, Unwinding(s.reqs[t].e, panicked))
    case Done(t) => Count(At(s, t, Finished(if s.reqs[t].panicked then Panicked else Returned)), s.reqs[t].e, false)
    case SetRole(role) => s.(role := role)
    case Swap => s.(engine := Some(|s.wg|), wg := s.wg + [0], ctl := Swapped(s.engine))
    case StoreHash => s.(ctl := Stored(s.ctl.prev))
    case Schedule(sync) => if s.ctl.prev.None? then s.(ctl := Idle) else NewDrain(s, s.ctl.prev.value, true, sync)
    case ScheduleCurrent(sync) => NewDrain(s, s.engine.value, false, sync)
    case ReturnFromDrain => s.(ctl := Idle)
    case Cancel(d) => Phased(s, d, Cancelled)
    case ObserveZero(d) => Phased(s, d, SawZero)
    case FinishWait(d) => Phased(s, d, EndedByWait)
    case Timeout(d) => Phased(s, d, EndedByTimeout)
  }

  const INIT := Sys(None, RoleNone, [], [], Idle, [])

  /** A run: every state follows from the one before by an enabled step. */
  ghost predicate IsRun(states: seq<Sys>, steps: seq<Step>) {
    && |states| == |steps| + 1 && states[0] == INIT
    && forall i | 0 <= i < |steps| :: Enabled(states[i], steps[i]) && states[i + 1] == Next(states[i], steps[i])
  }

  // ---- the invariant ----

  /** Between Add and Done on engine `e`. */
  predicate Holds(pc: Pc, e: EngineId) {
    (pc.Added? || pc.BackingOut? || pc.Serving? || pc.Unwinding?) && pc.e == e
  }

  function Holders(reqs: seq<Pc>, e: EngineId): nat {
    if |reqs| == 0 then 0
    else Holders(reqs[..|reqs| - 1], e) + if Holds(reqs[|reqs| - 1], e) then 1 else 0
  }

  /** Every engine a request knows has been compiled, and is no younger than the current one. */
  ghost predicate ReqOk(s: Sys, pc: Pc) {
    !pc.Routed? && !pc.Finished? ==> pc.e < |s.wg|
  }

  /** Once the drain of a replaced engine has seen its counter at zero nothing is served on it. */
  ghost predicate DrainOk(s: Sys, d: DrainRec) {
    && d.e < |s.wg|
    && (d.replaced ==> s.engine != Some(d.e))
    && (d.replaced && d.phase in {SawZero, EndedByWait} ==>
          forall t | 0 <= t < |s.reqs| ::
            s.reqs[t] != Serving(d.e) && s.reqs[t] != Unwinding(d.e, true) && s.reqs[t] != Unwinding(d.e, false))
  }

  ghost predicate Inv(s: Sys) {
    && s.engine == (if |s.wg| == 0 then None else Some(|s.wg| - 1))
    && (forall e | 0 <= e < |s.wg| :: s.wg[e] == Holders(s.reqs, e))
    && (forall t | 0 <= t < |s.reqs| :: ReqOk(s, s.reqs[t]))
    && (forall d | 0 <= d < |s.drains| :: DrainOk(s, s.drains[d]))
    && ((s.ctl.Swapped? || s.ctl.Stored?) && s.ctl.prev.Some? ==> s.ctl.prev.value < |s.wg| && s.engine != s.ctl.prev)
    && (s.ctl.DrainingNow? ==> s.ctl.d < |s.drains|)
  }

  lemma {:induction false} HoldersUpdate(reqs: seq<Pc>, t: nat, pc: Pc, e: EngineId)
    requires t < |reqs|
    ensures Holders(reqs[t := pc], e) ==
              Holders(reqs, e) - (if Holds(reqs[t], e) then 1 else 0) + if Holds(pc, e) then 1 else 0
  {
    var n := |reqs| - 1;
    if t == n {
      assert reqs[t := pc][..n] == reqs[..n];
    } else {
      assert reqs[t := pc][..n] == reqs[..n][t := pc];
      HoldersUpdate(reqs[..n], t, pc, e);
    }
  }

  lemma {:induction false} HoldersZero(reqs: seq<Pc>, e: EngineId)
    requires Holders(reqs, e) == 0
    ensures forall t | 0 <= t < |reqs| :: !Holds(reqs[t], e)
  {
    if |reqs| > 0 { HoldersZero(reqs[..|reqs| - 1], e); }
  }

  lemma {:induction false} HoldersNone(reqs: seq<Pc>, e: EngineId)
    requires forall t | 0 <= t < |reqs| :: !Holds(reqs[t], e)
    ensures Holders(reqs, e) == 0
  {
    if |reqs| > 0 { HoldersNone(reqs[..|reqs| - 1], e); }
  }

  /** A request moves: the counters follow. */
  lemma RequestKeeps(s: Sys, a: Step, t: nat)
    requires Inv(s) && Enabled(s, a) && t < |s.reqs|
    requires a in {Load(t), CheckRole(t), Add(t), Recheck(t), TakeBack(t), Leave(t, true), Leave(t, false), Done(t)}
    ensures Inv(Next(s, a))
  {
    var s' := Next(s, a);
    assert ReqOk(s, s.reqs[t]);
    forall e | 0 <= e < |s'.wg| ensures s'.wg[e] == Holders(s'.reqs, e) {
      HoldersUpdate(s.reqs, t, s'.reqs[t], e);
    }
    forall u | 0 <= u < |s'.reqs| ensures ReqOk(s', s'.reqs[u]) { assert ReqOk(s, s.reqs[u]); }
    forall d | 0 <= d < |s'.drains| ensures DrainOk(s', s'.drains[d]) { assert DrainOk(s, s.drains[d]); }
  }

  lemma ArriveKeeps(s: Sys)
    requires Inv(s)
    ensures Inv(Next(s, Arrive))
  {
    var s' := Next(s, Arrive);
    assert s'.reqs[..|s.reqs|] == s.reqs;
    forall d | 0 <= d < |s'.drains| ensures DrainOk(s', s'.drains[d]) { assert DrainOk(s, s.drains[d]); }
    forall u | 0 <= u < |s'.reqs| ensures ReqOk(s', s'.reqs[u]) { if u < |s.reqs| { assert ReqOk(s, s.reqs[u]); } }
  }

  lemma SwapKeeps(s: Sys)
    requires Inv(s) && s.ctl == Idle
    ensures Inv(Next(s, Swap))
  {
    var s' := Next(s, Swap);
    forall u | 0 <= u < |s'.reqs| ensures ReqOk(s', s'.reqs[u]) && !Holds(s'.reqs[u], |s.wg|) {
      assert ReqOk(s, s.reqs[u]);
    }
    HoldersNone(s.reqs, |s.wg|);
    forall d | 0 <= d < |s'.drains| ensures DrainOk(s', s'.drains[d]) { assert DrainOk(s, s.drains[d]); }
  }

  lemma DrainKeeps(s: Sys, a: Step)
    requires Inv(s) && Enabled(s, a)
    requires a.Cancel? || a.ObserveZero? || a.FinishWait? || a.Timeout?
    ensures Inv(Next(s, a))
  {
    var s' := Next(s, a);
    if a.ObserveZero? { HoldersZero(s.reqs, s.drains[a.d].e); }
    forall u | 0 <= u < |s'.reqs| ensures ReqOk(s', s'.reqs[u]) { assert ReqOk(s, s.reqs[u]); }
    forall d | 0 <= d < |s'.drains| ensures DrainOk(s', s'.drains[d]) {
      assert DrainOk(s, s.drains[d]);
      if a.ObserveZero? && d == a.d {
        forall t | 0 <= t < |s.reqs| ensures !Holds(s.reqs[t], s.drains[d].e) {}
      }
    }
  }

  lemma ControlKeeps(s: Sys, a: Step)
    requires Inv(s) && Enabled(s, a)
    requires a.SetRole? || a.StoreHash? || a.Schedule? || a.ScheduleCurrent? || a.ReturnFromDrain?
    ensures Inv(Next(s, a))
  {
    var s' := Next(s, a);
    forall u | 0 <= u < |s'.reqs| ensures ReqOk(s', s'.reqs[u]) { assert ReqOk(s, s.reqs[u]); }
    forall d | 0 <= d < |s'.drains| ensures DrainOk(s', s'.drains[d]) {
      if d < |s.drains| { assert DrainOk(s, s.drains[d]); }
    }
  }

  lemma NextKeeps(s: Sys, a: Step)
    requires Inv(s) && Enabled(s, a)
    ensures Inv(Next(s, a))
  {
    match a
    case Arrive => ArriveKeeps(s);
    case Swap => SwapKeeps(s);
    case SetRole(_) => ControlKeeps(s, a);
    case StoreHash => ControlKeeps(s, a);
    case Schedule(_) => ControlKeeps(s, a);
    case ScheduleCurrent(_) => ControlKeeps(s, a);
    case ReturnFromDrain => ControlKeeps(s, a);
    case Cancel(_) => DrainKeeps(s, a);
    case ObserveZero(_) => DrainKeeps(s, a);
    case FinishWait(_) => DrainKeeps(s, a);
    case Timeout(_) => DrainKeeps(s, a);
    case Load(t) => RequestKeeps(s, a, t);
    case CheckRole(t) => RequestKeeps(s, a, t);
    case Add(t) => RequestKeeps(s, a, t);
    case Recheck(t) => RequestKeeps(s, a, t);
    case TakeBack(t) => RequestKeeps(s, a, t);
    case Leave(t, _) => RequestKeeps(s, a, t);
    case Done(t) => RequestKeeps(s, a, t);
  }

  lemma {:induction false} RunInv(states: seq<Sys>, steps: seq<Step>, n: nat)
    requires IsRun(states, steps) && n < |states|
    ensures Inv(states[n])
  {
    if n > 0 {
      RunInv(states, steps, n - 1);
      NextKeeps(states[n - 1], steps[n - 1]);
    }
  }

  /** In every reachable state a counter equals the number of requests between Add and Done on that engine,
      those about to back out or unwinding after a panic included; so no Done ever finds it at zero. */
  lemma CountersExact(states: seq<Sys>, steps: seq<Step>, n: nat, e: EngineId)
    requires IsRun(states, steps) && n < |states| && e < |states[n].wg|
    ensures states[n].wg[e] == Holders(states[n].reqs, e)
    ensures forall t | 0 <= t < |states[n].reqs| :: Holds(states[n].reqs[t], e) ==> states[n].wg[e] > 0
  {
    RunInv(states, steps, n);
    if states[n].wg[e] == 0 { HoldersZero(states[n].reqs, e); }
  }

  // ---- linearizable admission ----

  /** Engines only get younger, so the pointer never returns to an engine it has left. */
  lemma {:induction false} PointerAdvances(states: seq<Sys>, steps: seq<Step>, i: nat, j: nat)
    requires IsRun(states, steps) && i <= j < |states|
    ensures |states[i].wg| <= |states[j].wg| && |states[i].reqs| <= |states[j].reqs|
    ensures states[i].engine.Some? && states[i].engine == states[j].engine ==>
              forall k | i <= k <= j :: states[k].engine == states[i].engine
    decreases j - i
  {
    RunInv(states, steps, i);
    RunInv(states, steps, j);
    if i < j {
      PointerAdvances(states, steps, i, j - 1);
      RunInv(states, steps, j - 1);
    }
  }

  /** The step that moved request t past its role check, for a request that is past it and has not finished. */
  lemma {:induction false} RoleCheckOf(states: seq<Sys>, steps: seq<Step>, n: nat, t: nat) returns (i: nat)
    requires IsRun(states, steps) && n < |states| && t < |states[n].reqs|
    requires var pc := states[n].reqs[t]; pc.Checked? || pc.Added?
    ensures i < n && steps[i] == CheckRole(t) && states[i].role == RolePrimary && t < |states[i].reqs|
    ensures states[i].reqs[t] == Loaded(states[n].reqs[t].e)
  {
    var s := states[n - 1];
    assert states[n] == Next(s, steps[n - 1]);
    if t < |s.reqs| && (s.reqs[t].Checked? || s.reqs[t].Added?) {
      i := RoleCheckOf(states, steps, n - 1, t);
    } else {
      i := n - 1;
    }
  }

  /** A loaded engine was current when it was loaded. */
  lemma {:induction false} LoadOf(states: seq<Sys>, steps: seq<Step>, n: nat, t: nat) returns (i: nat)
    requires IsRun(states, steps) && n < |states| && t < |states[n].reqs| && states[n].reqs[t].Loaded?
    ensures i < n && steps[i] == Load(t) && states[i].engine == Some(states[n].reqs[t].e)
  {
    var s := states[n - 1];
    assert states[n] == Next(s, steps[n - 1]);
    if t < |s.reqs| && s.reqs[t].Loaded? { i := LoadOf(states, steps, n - 1, t); } else { i := n - 1; }
  }

  /** The successful re-check behind a request being served. */
  lemma {:induction false} RecheckOf(states: seq<Sys>, steps: seq<Step>, n: nat, t: nat) returns (i: nat)
    requires IsRun(states, steps) && n < |states| && t < |states[n].reqs|
    requires var pc := states[n].reqs[t]; pc.Serving? || pc.Unwinding?
    ensures i < n && steps[i] == Recheck(t) && t < |states[i].reqs|
    ensures states[i].reqs[t] == Added(states[n].reqs[t].e) && states[i].engine == Some(states[n].reqs[t].e)
  {
    var s := states[n - 1];
    assert states[n] == Next(s, steps[n - 1]);
    if t < |s.reqs| && (s.reqs[t].Serving? || s.reqs[t].Unwinding?) {
      i := RecheckOf(states, steps, n - 1, t);
    } else {
      i := n - 1;
    }
  }

  /** Every request handed to an engine has an instant, its role check, at which the cell was primary and that
      engine was the current one, both at once. */
  lemma AdmissionLinearizes(states: seq<Sys>, steps: seq<Step>, n: nat, t: nat)
    requires IsRun(states, steps) && n < |states| && t < |states[n].reqs| && states[n].reqs[t].Serving?
    ensures exists i :: 0 <= i < n && steps[i] == CheckRole(t)
              && states[i].role == RolePrimary && states[i].engine == Some(states[n].reqs[t].e)
  {
    var k := RecheckOf(states, steps, n, t);
    var i := RoleCheckOf(states, steps, k, t);
    var l := LoadOf(states, steps, i, t);
    PointerAdvances(states, steps, l, k);
    assert states[i].engine == Some(states[n].reqs[t].e);
  }

  // ---- replies ----

  /** Request t was being served at some moment up to n. */
  ghost predicate WasServed(states: seq<Sys>, n: nat, t: nat) {
    exists i | 0 <= i <= n && i < |states| :: t < |states[i].reqs| && states[i].reqs[t].Serving?
  }

  /** Its engine had returned, or panicked, before moment n. */
  ghost predicate HadLeft(steps: seq<Step>, n: nat, t: nat, panicked: bool) {
    exists i | 0 <= i < n && i < |steps| :: steps[i] == Leave(t, panicked)
  }

  /** What has happened to request t, read off where it is. */
  ghost predicate Story(s: Sys, t: nat, served: bool, returned: bool, panicked: bool) {
    if t >= |s.reqs| then !served && !returned && !panicked
    else
      match s.reqs[t]
      case Serving(_) => served && !returned && !panicked
      case Unwinding(_, p) => served && returned == !p && panicked == p
      case Finished(Returned) => served && returned && !panicked
      case Finished(Panicked) => served && !returned && panicked
      case _ => !served && !returned && !panicked
  }

  lemma StoryGoesOn(s: Sys, a: Step, t: nat, served: bool, returned: bool, panicked: bool)
    requires Enabled(s, a) && Story(s, t, served, returned, panicked)
    ensures var s' := Next(s, a);
            Story(s', t, served || (t < |s'.reqs| && s'.reqs[t].Serving?),
                  returned || a == Leave(t, false), panicked || a == Leave(t, true))
  {}

  lemma WasServedNext(states: seq<Sys>, n: nat, t: nat)
    requires n + 1 < |states|
    ensures WasServed(states, n + 1, t) <==>
              WasServed(states, n, t) || (t < |states[n + 1].reqs| && states[n + 1].reqs[t].Serving?)
  {}

  lemma HadLeftNext(steps: seq<Step>, n: nat, t: nat, panicked: bool)
    requires n < |steps|
    ensures HadLeft(steps, n + 1, t, panicked) <==> HadLeft(steps, n, t, panicked) || steps[n] == Leave(t, panicked)
  {}

  lemma {:induction false} StoryHolds(states: seq<Sys>, steps: seq<Step>, n: nat, t: nat)
    requires IsRun(states, steps) && n < |states|
    ensures Story(states[n], t, WasServed(states, n, t), HadLeft(steps, n, t, false), HadLeft(steps, n, t, true))
  {
    if n > 0 {
      StoryHolds(states, steps, n - 1, t);
      WasServedNext(states, n - 1, t);
      HadLeftNext(steps, n - 1, t, false);
      HadLeftNext(steps, n - 1, t, true);
      StoryGoesOn(states[n - 1], steps[n - 1], t, WasServed(states, n - 1, t),
                  HadLeft(steps, n - 1, t, false), HadLeft(steps, n - 1, t, true));
    }
  }

  /** A request is told that the cell is draining exactly when no engine ever served it, a request that lost the race
      against a swap included; otherwise its reply is what its engine did. */
  lemma RepliesMatch(states: seq<Sys>, steps: seq<Step>, n: nat, t: nat)
    requires IsRun(states, steps) && n < |states| && t < |states[n].reqs| && states[n].reqs[t].Finished?
    ensures states[n].reqs[t].reply == CellDraining <==> !WasServed(states, n, t)
    ensures states[n].reqs[t].reply == Returned <==> HadLeft(steps, n, t, false)
    ensures states[n].reqs[t].reply == Panicked <==> HadLeft(steps, n, t, true)
  {
    StoryHolds(states, steps, n, t);
  }

  // ---- nobody is left behind by a swap ----

  /** If the drain ApplyConfig scheduled for a replaced engine ended because the counter reached zero, no
      request is then or ever after served on that engine. */
  lemma {:induction false} SwapLeavesNobodyBehind(states: seq<Sys>, steps: seq<Step>, m: nat, n: nat, d: nat, t: nat)
    requires IsRun(states, steps) && m <= n < |states|
    requires d < |states[m].drains| && states[m].drains[d].replaced && states[m].drains[d].phase == EndedByWait
    requires t < |states[n].reqs|
    ensures var e := states[m].drains[d].e;
            && states[n].reqs[t] != Serving(e)
            && states[n].reqs[t] != Unwinding(e, true) && states[n].reqs[t] != Unwinding(e, false)
    ensures d < |states[n].drains| && states[n].drains[d] == states[m].drains[d]
    decreases n - m
  {
    RunInv(states, steps, n);
    if m < n {
      DrainStays(states, steps, m, n, d);
    }
    assert DrainOk(states[n], states[n].drains[d]);
  }

  lemma {:induction false} DrainStays(states: seq<Sys>, steps: seq<Step>, m: nat, n: nat, d: nat)
    requires IsRun(states, steps) && m <= n < |states|
    requires d < |states[m].drains| && states[m].drains[d].phase == EndedByWait
    ensures d < |states[n].drains| && states[n].drains[d] == states[m].drains[d]
    decreases n - m
  {
    if m < n {
      DrainStays(states, steps, m, n - 1, d);
      assert states[n] == Next(states[n - 1], steps[n - 1]);
    }
  }

  // ---- which drained engines can be served again ----

  function Do(s: Sys, a: Step): Sys {
    if Enabled(s, a) then Next(s, a) else s
  }

  /** Where a schedule leads; a step that is not possible is skipped. */
  function Follow(s: Sys, schedule: seq<Step>): Sys
    decreases |schedule|
  {
    if |schedule| == 0 then s else Follow(Do(s, schedule[0]), schedule[1..])
  }

  predicate ServesOn(s: Sys, e: EngineId) {
    exists t | 0 <= t < |s.reqs| :: s.reqs[t] == Serving(e)
  }

  lemma {:induction false} FollowConcat(s: Sys, a: seq<Step>, b: seq<Step>)
    ensures Follow(s, a + b) == Follow(Follow(s, a), b)
    decreases |a|
  {
    if |a| == 0 {
      assert a + b == b;
    } else {
      assert (a + b)[1..] == a[1..] + b;
      FollowConcat(Do(s, a[0]), a[1..], b);
    }
  }

  lemma {:induction false} FollowInv(s: Sys, schedule: seq<Step>)
    requires Inv(s)
    ensures Inv(Follow(s, schedule))
    decreases |schedule|
  {
    if |schedule| > 0 {
      if Enabled(s, schedule[0]) { NextKeeps(s, schedule[0]); }
      FollowInv(Do(s, schedule[0]), schedule[1..]);
    }
  }

  lemma FollowOne(s: Sys, a: Step)
    ensures Follow(s, [a]) == Do(s, a)
  {
    assert [a][1..] == [];
  }

  /** The control goroutine can always come back to rest without touching the pointer. */
  lemma ControlCanRest(s: Sys) returns (schedule: seq<Step>)
    requires Inv(s)
    ensures Follow(s, schedule).ctl == Idle && Follow(s, schedule).engine == s.engine
  {
    match s.ctl {
      case Idle => schedule := [];
      case Stored(_) =>
        schedule := [Schedule(false)];
        FollowOne(s, schedule[0]);
      case Swapped(_) =>
        FollowOne(s, StoreHash);
        FollowOne(Do(s, StoreHash), Schedule(false));
        FollowConcat(s, [StoreHash], [Schedule(false)]);
        schedule := [StoreHash] + [Schedule(false)];
      case DrainingNow(d) => schedule := DrainCanEnd(s, d);
    }
  }

  lemma DrainCanEnd(s: Sys, d: nat) returns (schedule: seq<Step>)
    requires Inv(s) && s.ctl == DrainingNow(d)
    ensures Follow(s, schedule).ctl == Idle && Follow(s, schedule).engine == s.engine
  {
    var s1 := Do(s, Cancel(d));
    var s2 := Do(s1, Timeout(d));
    FollowOne(s, Cancel(d));
    FollowOne(s1, Timeout(d));
    FollowOne(s2, ReturnFromDrain);
    FollowConcat(s, [Cancel(d)], [Timeout(d)]);
    FollowConcat(s, [Cancel(d)] + [Timeout(d)], [ReturnFromDrain]);
    schedule := [Cancel(d)] + [Timeout(d)] + [ReturnFromDrain];
  }

  lemma RestingCanServe(s: Sys, e: EngineId) returns (schedule: seq<Step>)
    requires Inv(s) && s.ctl == Idle && s.engine == Some(e)
    ensures ServesOn(Follow(s, schedule), e)
  {
    var t := |s.reqs|;
    var s1 := Do(s, SetRole(RolePrimary));
    var s2 := Do(s1, Arrive);
    var s3 := Do(s2, Load(t));
    var s4 := Do(s3, CheckRole(t));
    var s5 := Do(s4, Add(t));
    var s6 := Do(s5, Recheck(t));
    assert s6.reqs[t] == Serving(e);
    schedule := [SetRole(RolePrimary), Arrive, Load(t), CheckRole(t), Add(t), Recheck(t)];
    assert schedule[1..] == [Arrive, Load(t), CheckRole(t), Add(t), Recheck(t)];
    assert schedule[2..] == [Load(t), CheckRole(t), Add(t), Recheck(t)];
    assert schedule[3..] == [CheckRole(t), Add(t), Recheck(t)];
    assert schedule[4..] == [Add(t), Recheck(t)];
    assert schedule[5..] == [Recheck(t)];
    FollowOne(s5, Recheck(t));
    assert Follow(s4, schedule[4..]) == Follow(s5, schedule[5..]);
    assert Follow(s3, schedule[3..]) == Follow(s4, schedule[4..]);
    assert Follow(s2, schedule[2..]) == Follow(s3, schedule[3..]);
    assert Follow(s1, schedule[1..]) == Follow(s2, schedule[2..]);
  }

  lemma {:induction false} NeverServedAgain(s: Sys, e: EngineId, schedule: seq<Step>)
    requires Inv(s) && e < |s.wg| && s.engine != Some(e) && !ServesOn(s, e)
    ensures !ServesOn(Follow(s, schedule), e)
    decreases |schedule|
  {
    if |schedule| > 0 {
      var s1 := Do(s, schedule[0]);
      if Enabled(s, schedule[0]) { NextKeeps(s, schedule[0]); }
      forall t | 0 <= t < |s1.reqs| ensures s1.reqs[t] != Serving(e) {
        if t < |s.reqs| { assert s.reqs[t] != Serving(e); }
      }
      NeverServedAgain(s1, e, schedule[1..]);
    }
  }

  /** In any reachable state, an engine whose counter is at zero can be served again if and only if it is still
      the current one. So waiting for zero makes a replaced engine safe to drop, and gives no such promise
      for the engine a Demote or Drop drains while leaving it in the pointer. */
  lemma ServedAgainIffCurrent(states: seq<Sys>, steps: seq<Step>, n: nat, e: EngineId)
    requires IsRun(states, steps) && n < |states| && e < |states[n].wg| && states[n].wg[e] == 0
    ensures (exists schedule :: ServesOn(Follow(states[n], schedule), e)) <==> states[n].engine == Some(e)
  {
    var s := states[n];
    RunInv(states, steps, n);
    HoldersZero(s.reqs, e);
    if s.engine == Some(e) {
      var rest := ControlCanRest(s);
      FollowInv(s, rest);
      var serve := RestingCanServe(Follow(s, rest), e);
      FollowConcat(s, rest, serve);
      assert ServesOn(Follow(s, rest + serve), e);
    } else {
      assert !ServesOn(s, e) by {
        forall t | 0 <= t < |s.reqs| ensures s.reqs[t] != Serving(e) { assert !Holds(s.reqs[t], e); }
      }
      forall schedule ensures !ServesOn(Follow(s, schedule), e) { NeverServedAgain(s, e, schedule); }
    }
  }
}
