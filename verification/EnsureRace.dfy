/**
 Manager.Ensure raced by any number of goroutines on one key: lookup, creation, load-or-store
 and closing the loser are separate atomic steps.
 */
module EnsureRace {
  import opened Types

  datatype Pc =
    | Looking
    | Missing
    | Holding(own: CellId)
    | Losing(own: CellId, winner: CellId)
    | Returned(cell: CellId)
    | Failed

  /** `closed[c]`: the c-th cell created has been closed. */
  datatype Sys = Sys(reg: Option<CellId>, closed: seq<bool>, callers: seq<Pc>)

  datatype Step = Lookup(t: nat) | Create(t: nat, created: bool) | LoadOrStore(t: nat) | CloseLoser(t: nat)

  /** A step that is not possible leaves the system as it is. */
  function Next(s: Sys, a: Step): Sys {
    if a.t >= |s.callers| then s
    else
      var pc := s.callers[a.t];
      match a
      case Lookup(t) =>
        if pc != Looking then s
        else s.(callers := s.callers[t := if s.reg.Some? then Returned(s.reg.value) else Missing])
      case Create(t, created) =>
        if pc != Missing then s
        else if created then s.(callers := s.callers[t := Holding(|s.closed|)], closed := s.closed + [false])
        else s.(callers := s.callers[t := Failed])
      case LoadOrStore(t) =>
        if !pc.Holding? then s
        else if s.reg.Some? then s.(callers := s.callers[t := Losing(pc.own, s.reg.value)])
        else s.(reg := Some(pc.own), callers := s.callers[t := Returned(pc.own)])
      case CloseLoser(t) =>
        if !pc.Losing? || pc.own >= |s.closed| then s
        else s.(closed := s.closed[pc.own := true], callers := s.callers[t := Returned(pc.winner)])
  }

  function Exec(s: Sys, run: seq<Step>): Sys {
    if |run| == 0 then s else Next(Exec(s, run[..|run| - 1]), run[|run| - 1])
  }

  /** `n` callers on a key that is free, or already held by an open cell. */
  function Init(n: nat, held: bool): Sys {
    if held then Sys(Some(0), [false], seq(n, _ => Looking)) else Sys(None, [], seq(n, _ => Looking))
  }

  /** Some caller still has this cell to itself. */
  predicate InHand(s: Sys, c: CellId) {
    exists t | 0 <= t < |s.callers| :: Owns(s.callers[t], c)
  }

  predicate Owns(pc: Pc, c: CellId) {
    (pc.Holding? || pc.Losing?) && pc.own == c
  }

  /** Two callers never have the same cell in hand. */
  predicate Apart(a: Pc, b: Pc) {
    (a.Holding? || a.Losing?) && (b.Holding? || b.Losing?) ==> a.own != b.own
  }

  ghost predicate CallerOk(s: Sys, t: nat)
    requires t < |s.callers|
  {
    match s.callers[t]
    case Holding(c) => c < |s.closed| && !s.closed[c] && s.reg != Some(c)
    case Losing(c, w) => c < |s.closed| && !s.closed[c] && s.reg == Some(w) && c != w
    case Returned(c) => s.reg == Some(c)
    case _ => true
  }

  /** Every created cell is registered, in the hands of its creator, or closed. */
  ghost predicate CellOk(s: Sys, c: CellId)
    requires c < |s.closed|
  {
    if s.reg == Some(c) then !s.closed[c] else s.closed[c] || InHand(s, c)
  }

  ghost predicate Inv(s: Sys) {
    && (s.reg.Some? ==> s.reg.value < |s.closed|)
    && (forall t | 0 <= t < |s.callers| :: CallerOk(s, t))
    && (forall t, u | 0 <= t < u < |s.callers| :: Apart(s.callers[t], s.callers[u]))
    && (forall c | 0 <= c < |s.closed| :: CellOk(s, c))
  }

  lemma NextKeeps(s: Sys, a: Step)
    requires Inv(s)
    ensures Inv(Next(s, a))
  {
    var s' := Next(s, a);
    if s' != s {
      var t := a.t;
      assert CallerOk(s, t);
      forall u | 0 <= u < |s'.callers| ensures CallerOk(s', u) { assert CallerOk(s, u); }
      forall u, v | 0 <= u < v < |s'.callers| ensures Apart(s'.callers[u], s'.callers[v]) {
        assert CallerOk(s, u) && CallerOk(s, v) && Apart(s.callers[u], s.callers[v]);
      }
      forall c | 0 <= c < |s'.closed| ensures CellOk(s', c) {
        if c < |s.closed| {
          assert CellOk(s, c);
          if InHand(s, c) {
            var u :| 0 <= u < |s.callers| && Owns(s.callers[u], c);
            assert s'.callers[u] == if u == t then s'.callers[t] else s.callers[u];
            if u != t { assert Owns(s'.callers[u], c); }
          }
        }
        assert Owns(s'.callers[t], c) ==> InHand(s', c);
      }
    }
  }

  lemma {:induction false} RunKeeps(n: nat, held: bool, run: seq<Step>)
    ensures Inv(Exec(Init(n, held), run)) && |Exec(Init(n, held), run).callers| == n
  {
    if |run| > 0 {
      RunKeeps(n, held, run[..|run| - 1]);
      NextKeeps(Exec(Init(n, held), run[..|run| - 1]), run[|run| - 1]);
    }
  }

  predicate Over(pc: Pc) {
    pc.Returned? || pc.Failed?
  }

  /** At any moment all callers that have returned returned the same cell, the registered one, and it is open. */
  lemma SameCellForAll(n: nat, held: bool, run: seq<Step>, t: nat, u: nat)
    requires var s := Exec(Init(n, held), run);
             t < |s.callers| && u < |s.callers| && s.callers[t].Returned? && s.callers[u].Returned?
    ensures var s := Exec(Init(n, held), run);
            && s.callers[t] == s.callers[u] && s.reg == Some(s.callers[t].cell)
            && s.reg.value < |s.closed| && !s.closed[s.reg.value]
  {
    RunKeeps(n, held, run);
    var s := Exec(Init(n, held), run);
    assert CallerOk(s, t) && CallerOk(s, u) && CellOk(s, s.callers[t].cell);
  }

  /** When all callers are through and one of them returned a cell, exactly one of the cells ever created
      is registered and open; every other one is closed. */
  lemma SingleWinner(n: nat, held: bool, run: seq<Step>)
    requires var s := Exec(Init(n, held), run);
             && (forall t | 0 <= t < |s.callers| :: Over(s.callers[t]))
             && (exists t | 0 <= t < |s.callers| :: s.callers[t].Returned?)
    ensures var s := Exec(Init(n, held), run);
            && s.reg.Some? && s.reg.value < |s.closed|
            && (forall c | 0 <= c < |s.closed| :: s.closed[c] <==> c != s.reg.value)
            && (forall t | 0 <= t < |s.callers| :: s.callers[t] == Failed || s.callers[t] == Returned(s.reg.value))
  {
    RunKeeps(n, held, run);
    var s := Exec(Init(n, held), run);
    var t :| 0 <= t < |s.callers| && s.callers[t].Returned?;
    assert CallerOk(s, t);
    forall u | 0 <= u < |s.callers| ensures s.callers[u] == Failed || s.callers[u] == Returned(s.reg.value) {
      assert CallerOk(s, u) && Over(s.callers[u]);
    }
    forall c | 0 <= c < |s.closed| ensures s.closed[c] <==> c != s.reg.value { assert CellOk(s, c); }
  }

  /** On a key that is held already no caller creates a cell or closes one, and none fails. */
  lemma {:induction false} HeldKeyIsReused(n: nat, run: seq<Step>)
    ensures var s := Exec(Init(n, true), run);
            && s.closed == [false] && s.reg == Some(0) && |s.callers| == n
            && forall t | 0 <= t < n :: s.callers[t] in {Looking, Returned(0)}
  {
    if |run| > 0 { HeldKeyIsReused(n, run[..|run| - 1]); }
  }

  /** A caller that finds no cell and can create none fails; a caller that fails has found none. */
  lemma OneCallAlone(created: bool)
    ensures var s := Next(Next(Next(Init(1, false), Lookup(0)), Create(0, created)), LoadOrStore(0));
            s.callers[0] == if created then Returned(0) else Failed
  {}
}
