/**
 The hub and any number of discovery loops as one system of atomic steps: replacements by the
 poller, snapshots, applies, version checks, parking on a channel, waking and cancelling.
 */
module Broadcast {
  import opened Types
  import opened Diff
  import opened HubClasses

  type ChanId = nat

  /** `closes[c]`: how often the c-th channel made has been closed.
      `tables` is history no branch reads: the table of every version so far. */
  datatype HubState = HubState(data: Table, version: nat, ch: ChanId, closes: seq<nat>, tables: seq<Table>)

  /** Where a loop is: before Snapshot, before apply, before the locked check of WaitChange, blocked in its select,
      returned. */
  datatype Pc =
    | AtSnapshot
    | Applying(desired: seq<Endpoint>, version: nat)
    | Checking(since: nat)
    | Parked(since: nat, ch: ChanId)
    | Stopped

  /** `store` is the datastore the notifier feeds, empty when the loop starts. */
  datatype Loop = Loop(cluster: Key, pc: Pc, applied: Store, store: Store, ready: bool)

  datatype Sys = Sys(hub: HubState, loops: seq<Loop>)

  datatype Step =
    | Replace(table: Table)
    | Spawn(cluster: Key)
    | Snap(i: nat)
    | Apply(i: nat, order: seq<EndpointId>, events: seq<Event>)
    | Check(i: nat)
    | Wake(i: nat)
    | Cancel(i: nat)

  predicate HasLoop(s: Sys, i: nat) {
    i < |s.loops|
  }

  predicate ChannelClosed(h: HubState, c: ChanId) {
    c < |h.closes| && h.closes[c] > 0
  }

  ghost predicate Enabled(s: Sys, a: Step) {
    match a
    case Replace(_) => s.hub.ch < |s.hub.closes|
    case Spawn(_) => true
    case Snap(i) => HasLoop(s, i) && s.loops[i].pc == AtSnapshot
    case Apply(i, order, events) =>
      && HasLoop(s, i) && s.loops[i].pc.Applying?
      && IsDiff(s.loops[i].applied, s.loops[i].pc.desired, order, events)
    case Check(i) => HasLoop(s, i) && s.loops[i].pc.Checking?
    case Wake(i) => HasLoop(s, i) && s.loops[i].pc.Parked? && ChannelClosed(s.hub, s.loops[i].pc.ch)
    case Cancel(i) => HasLoop(s, i) && s.loops[i].pc.Parked?
  }

  function WithLoop(s: Sys, i: nat, l: Loop): Sys
    requires i < |s.loops|
  {
    s.(loops := s.loops[i := l])
  }

  ghost function Next(s: Sys, a: Step): Sys
    requires Enabled(s, a)
  {
    match a
    case Replace(table) =>
      var h := s.hub;
      var closes := h.closes[h.ch := h.closes[h.ch] + 1] + [0];
      s.(hub := HubState(table, h.version + 1, |h.closes|, closes, h.tables + [table]))
    case Spawn(cluster) => s.(loops := s.loops + [Loop(cluster, AtSnapshot, map[], map[], false)])
    case Snap(i) => WithLoop(s, i, s.loops[i].(pc := Applying(Lookup(s.hub.data, s.loops[i].cluster), s.hub.version)))
    case Apply(i, order, events) =>
      var l := s.loops[i];
      WithLoop(s, i, l.(pc := Checking(l.pc.version), applied := LastWins(l.pc.desired),
                        store := Fold(l.store, events), ready := true))
    case Check(i) =>
      var since := s.loops[i].pc.since;
      WithLoop(s, i, s.loops[i].(pc := if s.hub.version != since then AtSnapshot else Parked(since, s.hub.ch)))
    case Wake(i) => WithLoop(s, i, s.loops[i].(pc := Checking(s.loops[i].pc.since)))
    case Cancel(i) => WithLoop(s, i, s.loops[i].(pc := Stopped))
  }

  const INIT := Sys(HubState(map[], 0, 0, [0], [map[]]), [])

  ghost predicate IsRun(states: seq<Sys>, steps: seq<Step>) {
    |states| == |steps| + 1 && states[0] == INIT && IsContinuation(states, steps)
  }

  ghost predicate IsContinuation(states: seq<Sys>, steps: seq<Step>) {
    && |states| == |steps| + 1
    && forall i | 0 <= i < |steps| :: Enabled(states[i], steps[i]) && states[i + 1] == Next(states[i], steps[i])
  }

  // ---- the invariant ----

  ghost predicate HubOk(h: HubState) {
    && h.ch < |h.closes| && h.closes[h.ch] == 0
    && (forall c | 0 <= c < |h.closes| && c != h.ch :: h.closes[c] == 1)
    && |h.tables| == h.version + 1 && h.tables[h.version] == h.data
  }

  /** The store holds what the table of version `v` says about the loop's cluster. */
  ghost predicate InSync(h: HubState, l: Loop, v: nat) {
    v < |h.tables| && l.store == LastWins(Lookup(h.tables[v], l.cluster))
  }

  ghost predicate LoopOk(h: HubState, l: Loop) {
    && l.store == l.applied
    && (!l.ready ==> l.store == map[])
    && (l.pc.Checking? || l.pc.Parked? ==> l.ready)
    && match l.pc
       case Applying(desired, v) => v < |h.tables| && v <= h.version && desired == Lookup(h.tables[v], l.cluster)
       case Checking(since) => since <= h.version && InSync(h, l, since)
       case Parked(since, c) => since <= h.version && InSync(h, l, since)
                                && (if c == h.ch then since == h.version else ChannelClosed(h, c) && since < h.version)
       case _ => true
  }

  ghost predicate Inv(s: Sys) {
    HubOk(s.hub) && forall i | 0 <= i < |s.loops| :: LoopOk(s.hub, s.loops[i])
  }

  lemma NextKeeps(s: Sys, a: Step)
    requires Inv(s) && Enabled(s, a)
    ensures Inv(Next(s, a))
  {
    var s' := Next(s, a);
    if a.Apply? {
      assert LoopOk(s.hub, s.loops[a.i]);
      DiffReaches(s.loops[a.i].applied, s.loops[a.i].pc.desired, a.order, a.events);
    }
    forall i | 0 <= i < |s'.loops| ensures LoopOk(s'.hub, s'.loops[i]) {
      if i < |s.loops| { assert LoopOk(s.hub, s.loops[i]); }
    }
  }

  lemma {:induction false} RunInv(states: seq<Sys>, steps: seq<Step>, n: nat)
    requires IsRun(states, steps) && n < |states|
    ensures Inv(states[n])
  {
    if n > 0 {
      RunInv(states, steps, n - 1);
      NextKeeps(states[n - 1], steps[n - 1]);
    }
  }

  /** In every reachable state: every channel but the current one has been closed exactly once and the current one
      never. */
  lemma ClosedExactlyOnce(states: seq<Sys>, steps: seq<Step>, n: nat, c: ChanId)
    requires IsRun(states, steps) && n < |states| && c < |states[n].hub.closes|
    ensures states[n].hub.closes[c] == if c == states[n].hub.ch then 0 else 1
  {
    RunInv(states, steps, n);
  }

  /** No lost wakeup: a blocked waiter holds the current open channel exactly when its version is current,
      and a closed one, so that it can wake, exactly when its version is stale. */
  lemma NoLostWakeup(states: seq<Sys>, steps: seq<Step>, n: nat, i: nat)
    requires IsRun(states, steps) && n < |states| && i < |states[n].loops| && states[n].loops[i].pc.Parked?
    ensures var s := states[n];
            var pc := s.loops[i].pc;
            && (pc.since == s.hub.version <==> pc.ch == s.hub.ch)
            && (pc.since != s.hub.version <==> Enabled(s, Wake(i)))
  {
    RunInv(states, steps, n);
    assert LoopOk(states[n].hub, states[n].loops[i]);
  }

  /** One replacement wakes every waiter of the version it ends, all at once. */
  lemma AllWakeTogether(states: seq<Sys>, steps: seq<Step>, n: nat, table: Table)
    requires IsRun(states, steps) && n < |states|
    ensures Enabled(states[n], Replace(table))
    ensures var s' := Next(states[n], Replace(table));
            forall i | 0 <= i < |s'.loops| && s'.loops[i].pc.Parked? :: Enabled(s', Wake(i))
  {
    RunInv(states, steps, n);
    var s := states[n];
    var s' := Next(s, Replace(table));
    forall i | 0 <= i < |s'.loops| && s'.loops[i].pc.Parked? ensures Enabled(s', Wake(i)) {
      assert LoopOk(s.hub, s.loops[i]);
    }
  }

  /** In every reachable state a loop parked in WaitChange has a store equal to its cluster's list, as of the version
      it is parked at, read as a last-wins map; parked at the hub's version, that is the hub's current list. By
      then it is ready. */
  lemma ReplicaMatchesHub(states: seq<Sys>, steps: seq<Step>, n: nat, i: nat)
    requires IsRun(states, steps) && n < |states| && i < |states[n].loops| && states[n].loops[i].pc.Parked?
    ensures var s := states[n];
            var l := s.loops[i];
            && l.ready && InSync(s.hub, l, l.pc.since)
            && (l.pc.since == s.hub.version ==> l.store == LastWins(Lookup(s.hub.data, l.cluster)))
  {
    RunInv(states, steps, n);
    assert LoopOk(states[n].hub, states[n].loops[i]);
  }

  // ---- convergence ----

  /** Own steps a loop still needs until it is parked at the hub's version. */
  function Distance(h: HubState, l: Loop): nat {
    match l.pc
    case Stopped => 0
    case AtSnapshot => 3
    case Applying(_, v) => if v == h.version then 2 else 5
    case Checking(since) => if since == h.version then 1 else 4
    case Parked(since, _) => if since == h.version then 0 else 5
  }

  predicate OwnStep(a: Step, i: nat) {
    (a.Snap? || a.Apply? || a.Check? || a.Wake?) && a.i == i
  }

  /** A loop that has not stopped and is not yet parked at the hub's version can take a step of its own. */
  lemma CanMove(s: Sys, i: nat) returns (a: Step)
    requires Inv(s) && i < |s.loops| && s.loops[i].pc != Stopped && Distance(s.hub, s.loops[i]) > 0
    ensures Enabled(s, a) && OwnStep(a, i)
  {
    var l := s.loops[i];
    assert LoopOk(s.hub, l);
    match l.pc {
      case AtSnapshot => a := Snap(i);
      case Checking(_) => a := Check(i);
      case Parked(_, _) => a := Wake(i);
      case Applying(desired, _) =>
        var order := SomeOrder(l.applied.Keys - Ids(desired));
        a := Apply(i, order, Deletes(order) + Upserts(Kept(l.applied, desired), desired));
    }
  }

  lemma {:induction false} SomeOrder(ids: set<EndpointId>) returns (order: seq<EndpointId>)
    ensures Enumerates(order, ids)
  {
    if ids == {} {
      order := [];
    } else {
      var id :| id in ids;
      var rest := SomeOrder(ids - {id});
      order := rest + [id];
    }
  }

  function OwnSteps(steps: seq<Step>, i: nat): nat {
    if |steps| == 0 then 0 else OwnSteps(steps[..|steps| - 1], i) + if OwnStep(steps[|steps| - 1], i) then 1 else 0
  }

  lemma StepApproaches(s: Sys, a: Step, i: nat)
    requires Inv(s) && Enabled(s, a) && i < |s.loops| && !a.Replace? && a != Cancel(i)
    ensures i < |Next(s, a).loops| && Next(s, a).hub == s.hub
    ensures Next(s, a).loops[i].pc == Stopped <==> s.loops[i].pc == Stopped
    ensures Distance(s.hub, Next(s, a).loops[i]) + (if OwnStep(a, i) then 1 else 0) == Distance(s.hub, s.loops[i])
  {
    assert LoopOk(s.hub, s.loops[i]);
  }

  /** Once the hub stops changing, a loop that is not cancelled is parked with a store equal to the hub's list after at
      most five steps of its own, however the others are scheduled, and skips the versions it never looked at;
      and it can go on taking steps until it is. */
  lemma {:induction false} Converges(states: seq<Sys>, steps: seq<Step>, i: nat)
    requires IsContinuation(states, steps) && Inv(states[0])
    requires i < |states[0].loops| && states[0].loops[i].pc != Stopped
    requires forall k | 0 <= k < |steps| :: !steps[k].Replace? && steps[k] != Cancel(i)
    ensures var s := states[|steps|];
            && Inv(s) && i < |s.loops| && s.hub == states[0].hub && s.loops[i].pc != Stopped
            && OwnSteps(steps, i) + Distance(s.hub, s.loops[i]) == Distance(states[0].hub, states[0].loops[i]) <= 5
            && (OwnSteps(steps, i) == Distance(states[0].hub, states[0].loops[i]) <==>
                !exists a :: Enabled(s, a) && OwnStep(a, i))
            && (OwnSteps(steps, i) == Distance(states[0].hub, states[0].loops[i]) ==>
                  && s.loops[i].pc == Parked(s.hub.version, s.hub.ch)
                  && s.loops[i].store == LastWins(Lookup(s.hub.data, s.loops[i].cluster)))
  {
    var n := |steps|;
    if n > 0 {
      Converges(states[..n], steps[..n - 1], i);
      NextKeeps(states[n - 1], steps[n - 1]);
      StepApproaches(states[n - 1], steps[n - 1], i);
    }
    var s := states[n];
    assert LoopOk(s.hub, s.loops[i]);
    if Distance(s.hub, s.loops[i]) > 0 {
      var a := CanMove(s, i);
    } else {
      assert forall a :: OwnStep(a, i) ==> !Enabled(s, a);
    }
  }
}
