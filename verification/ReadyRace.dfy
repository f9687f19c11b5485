/**
 markReady against the control goroutine on one cell, every atomic load and store a step of its
 own: markReady looks at the state and stores standby later, Promote looks at it twice.
 Registry.dfy takes each of these methods as one step; here is exactly when that is justified.
 */
module ReadyRace {
  import opened Types

  /** Where the control goroutine is: between methods, or before the named operation of Promote or Demote. */
  datatype Ctl =
    | Rest
    | PromoteRole | PromoteLook | PromoteLookAgain | PromoteStore
    | DemoteRole | DemoteLook | DemoteStore

  /** markReady: not begun, has seen the creating state, through. */
  datatype Mark = Unready | Saw | Over

  /** `dropped` is history no branch reads: Drop has been called. */
  datatype Sys = Sys(role: Role, state: State, ctl: Ctl, mark: Mark, dropped: bool)

  /** Promote and Demote begin with their guard; Assign is the first standby role given by Ensure; Go is the next
      operation of the method that is running; Look and Land are the load and the store of markReady. */
  datatype Step = Promote | Demote | Drop | Assign | Go | Look | Land

  const INIT := Sys(RoleNone, StateCreating, Rest, Unready, false)

  function GoOn(s: Sys): Sys {
    match s.ctl
    case Rest => s
    case PromoteRole => s.(role := RolePrimary, ctl := PromoteLook)
    case PromoteLook => s.(ctl := if s.state == StateStandby then PromoteStore else PromoteLookAgain)
    case PromoteLookAgain => s.(ctl := if s.state == StateCreating then PromoteStore else Rest)
    case PromoteStore => s.(state := StatePrimary, ctl := Rest)
    case DemoteRole => s.(role := RoleStandby, ctl := DemoteLook)
    case DemoteLook => s.(ctl := if s.state == StatePrimary then DemoteStore else Rest)
    case DemoteStore => s.(state := StateStandby, ctl := Rest)
  }

  /** A step that is not possible leaves the cell as it is. */
  function Next(s: Sys, a: Step): Sys {
    match a
    case Promote => if s.ctl != Rest || s.state == StateDraining then s else s.(ctl := PromoteRole)
    case Demote => if s.ctl != Rest || s.state == StateDraining then s else s.(ctl := DemoteRole)
    case Drop => if s.ctl != Rest then s else s.(state := StateDraining, dropped := true)
    case Assign => if s.ctl != Rest || s.role != RoleNone then s else s.(role := RoleStandby)
    case Go => GoOn(s)
    case Look => if s.mark != Unready then s else s.(mark := if s.state == StateCreating then Saw else Over)
    case Land => if s.mark != Saw then s else s.(state := StateStandby, mark := Over)
  }

  function Exec(run: seq<Step>): Sys {
    if |run| == 0 then INIT else Next(Exec(run[..|run| - 1]), run[|run| - 1])
  }

  /** The running method goes on undisturbed to its end, at most four operations away. */
  function Finish(s: Sys): (s': Sys)
    ensures s'.ctl == Rest
  {
    GoOn(GoOn(GoOn(GoOn(s))))
  }

  /** Draining exactly when dropped; otherwise primary in role exactly when primary in state. */
  predicate Agrees(s: Sys) {
    (s.state == StateDraining <==> s.dropped) && (!s.dropped ==> (s.role == RolePrimary <==> s.state == StatePrimary))
  }

  /** The store of markReady comes at a harmless moment: with no method running the state is still creating or
      standby, and Promote is not between its two looks. */
  predicate Timely(s: Sys) {
    (s.ctl == Rest ==> s.state in {StateCreating, StateStandby}) && s.ctl != PromoteLookAgain
  }

  predicate Inv(s: Sys) {
    && Agrees(Finish(s))
    && (s.ctl != Rest ==> !s.dropped && s.state != StateDraining)
    && (s.ctl == PromoteLookAgain ==> s.state != StateStandby)
  }

  lemma NextKeeps(s: Sys, a: Step)
    requires Inv(s) && (a == Land && s.mark == Saw ==> Timely(s))
    ensures Inv(Next(s, a))
  {}

  /** In the run, every store of markReady came at a harmless moment. */
  predicate AllTimely(run: seq<Step>) {
    forall i | 0 <= i < |run| && run[i] == Land :: Exec(run[..i]).mark == Saw ==> Timely(Exec(run[..i]))
  }

  lemma {:induction false} RunKeeps(run: seq<Step>)
    requires AllTimely(run)
    ensures Inv(Exec(run))
  {
    if |run| > 0 {
      var n := |run| - 1;
      assert AllTimely(run[..n]) by {
        forall i | 0 <= i < n && run[..n][i] == Land
          ensures Exec(run[..n][..i]).mark == Saw ==> Timely(Exec(run[..n][..i]))
        {
          assert run[..n][..i] == run[..i];
        }
      }
      RunKeeps(run[..n]);
      NextKeeps(Exec(run[..n]), run[n]);
    }
  }

  /** Whenever no method is running: if the store of markReady was timely, role and state agree and Drop was final. */
  lemma TimelyRunsAgree(run: seq<Step>)
    requires AllTimely(run) && Exec(run).ctl == Rest
    ensures Agrees(Exec(run))
  {
    RunKeeps(run);
  }

  /** The condition is exact: at any moment the store may come, role and state agree at the end of the method that is
      running if and only if the store is timely. */
  lemma AgreesIffTimely(run: seq<Step>)
    requires Exec(run).mark == Saw
    ensures Agrees(Finish(Next(Exec(run), Land))) <==> Timely(Exec(run))
  {
    NotLandedYet(run);
    RunKeeps(run);
  }

  lemma {:induction false} NotLandedYet(run: seq<Step>)
    requires Exec(run).mark != Over
    ensures forall i | 0 <= i < |run| :: run[i] == Land ==> Exec(run[..i]).mark == Unready
    ensures Exec(run).mark == Unready ==> forall i | 0 <= i <= |run| :: Exec(run[..i]).mark == Unready
  {
    if |run| > 0 {
      var n := |run| - 1;
      NotLandedYet(run[..n]);
      assert run[..|run|] == run;
      assert forall i | 0 <= i <= n :: run[..n][..i] == run[..i];
    } else {
      assert run[..0] == run;
    }
  }

  /** markReady is about to store exactly if it has looked, once, while the state was creating, and not stored since. */
  lemma {:induction false} StoresAfterCreating(run: seq<Step>) returns (i: nat)
    requires Exec(run).mark == Saw
    ensures i < |run| && run[i] == Look && Exec(run[..i]).state == StateCreating && Exec(run[..i]).mark == Unready
  {
    var n := |run| - 1;
    if Exec(run[..n]).mark == Saw {
      i := StoresAfterCreating(run[..n]);
      assert run[..n][..i] == run[..i];
    } else {
      i := n;
    }
  }

  lemma LookDecides(run: seq<Step>)
    requires Exec(run).mark == Unready
    ensures Exec(run + [Look]).mark == Saw <==> Exec(run).state == StateCreating
    ensures Exec(run + [Look]).mark == Over <==> Exec(run).state != StateCreating
  {
    assert (run + [Look])[..|run|] == run;
  }

  /** The three ways it goes wrong: a primary cell falls back to standby, a dropped cell comes back to life, and a
      promotion that saw neither standby nor creating leaves the state at standby. */
  lemma UntimelyStores()
    ensures var s := Next(Finish(Next(Next(INIT, Look), Promote)), Land);
            s.role == RolePrimary && s.state == StateStandby
    ensures var s := Next(Next(Next(INIT, Look), Drop), Land); s.dropped && s.state == StateStandby
    ensures var s := Next(Next(Next(Next(Next(Next(INIT, Look), Promote), Go), Go), Land), Go);
            s.ctl == Rest && s.role == RolePrimary && s.state == StateStandby
  {}
}
