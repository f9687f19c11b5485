/** pkg/eppplugin/clustertable/discovery.go: one engine generation's view of a cluster's endpoints. */
module DiscoveryClasses {
  import opened Types
  import opened Diff
  import opened HubClasses

  class Discovery {
    const hub: Hub
    const clusterName: Key
    var applied: Store
    /** Whether the channel returned by Ready() is closed. */
    var ready: bool

    constructor (hub: Hub, clusterName: Key)
      ensures this.hub == hub && this.clusterName == clusterName && applied == map[] && !ready
    {
      this.hub, this.clusterName, applied, ready := hub, clusterName, map[], false;
    }

    static method ContainsId(eps: seq<Endpoint>, id: EndpointId) returns (found: bool)
      ensures found <==> id in Ids(eps)
    {
      for i := 0 to |eps|
        invariant forall j | 0 <= j < i :: eps[j].id != id
      {
        if eps[i].id == id { return true; }
      }
      return false;
    }

    /** The first loop of apply: ids the list no longer has, in map order. */
    method DeleteGone(desired: seq<Endpoint>) returns (events: seq<Event>, ghost order: seq<EndpointId>)
      modifies this`applied
      ensures Enumerates(order, old(applied).Keys - Ids(desired)) && events == Deletes(order)
      ensures applied == Kept(old(applied), desired)
    {
      events, order := [], [];
      var todo := applied.Keys;
      while todo != {}
        invariant todo <= applied.Keys
        invariant events == Deletes(order)
        invariant forall i, j | 0 <= i < j < |order| :: order[i] != order[j]
        invariant forall id :: id in order <==> id in old(applied) && id !in todo && id !in Ids(desired)
        invariant forall id :: id in applied <==> id in old(applied) && id !in order
        invariant forall id <- applied :: applied[id] == old(applied)[id]
      {
        var id :| id in todo;
        var found := ContainsId(desired, id);
        if !found {
          events := events + [Delete(id)];
          applied := applied - {id};
          order := order + [id];
        }
        todo := todo - {id};
      }
    }

    /** The second loop of apply: entries that are new or differ, in list order. */
    method UpsertChanged(desired: seq<Endpoint>) returns (events: seq<Event>)
      modifies this`applied
      ensures events == Upserts(old(applied), desired)
      ensures applied == Merge(old(applied), desired)
    {
      events := [];
      for i := 0 to |desired|
        invariant events == Upserts(old(applied), desired[..i])
        invariant applied == Merge(old(applied), desired[..i])
      {
        var ep := desired[i];
        assert desired[..i + 1][..i] == desired[..i];
        if !(ep.id in applied && applied[ep.id] == ep) {
          events := events + [Upsert(ep)];
          applied := applied[ep.id := ep];
        }
      }
      assert desired[..|desired|] == desired;
    }

    /** Deletes what disappeared, upserts what is new or different; returns the notifier calls in order. */
    method Apply(desired: seq<Endpoint>) returns (events: seq<Event>, ghost order: seq<EndpointId>)
      modifies this`applied
      ensures IsDiff(old(applied), desired, order, events)
      ensures applied == LastWins(desired)
    {
      var deletes, upserts;
      deletes, order := DeleteGone(desired);
      upserts := UpsertChanged(desired);
      events := deletes + upserts;
      LastWinsKeys(desired);
    }

    /** One snapshot applied; `events` is extended by the notifier calls made. */
    method Refresh(events: seq<Event>) returns (more: seq<Event>, version: nat)
      requires Fold(map[], events) == applied
      modifies this`applied, this`ready
      ensures version == hub.version && ready
      ensures Fold(map[], more) == applied == LastWins(Lookup(hub.data, clusterName))
    {
      var desired;
      desired, version := hub.Snapshot(clusterName);
      ghost var before := applied;
      var calls, order := Apply(desired);
      DiffReaches(before, desired, order, calls);
      FoldConcat(map[], events, calls);
      more := events + calls;
      ready := true;
    }

    /** The hub after the first `n` turns. */
    ghost predicate Played(turns: seq<seq<Table>>, n: nat, version: nat, data: Table)
      reads hub
    {
      n <= |turns| && hub.version == version + |Flat(turns[..n])| && hub.data == LastTable(Flat(turns[..n]), data)
    }

    lemma PlayedOn(turns: seq<seq<Table>>, n: nat, used: nat)
      requires n + used <= |turns|
      ensures Flat(turns[..n + used]) == Flat(turns[..n]) + Flat(turns[n..][..used])
    {
      var a, b := turns[..n], turns[n..][..used];
      assert |a + b| == n + used;
      assert forall i | n <= i < n + used :: (a + b)[i] == b[i - n] == turns[i];
      assert turns[..n + used] == a + b;
      FlatConcat(a, b);
    }

    /** The turn that passes while the snapshot of `version` is applied, and those that pass while the loop waits. */
    method Await(version: nat, turns: seq<seq<Table>>, n: nat, quits: bool, ghost v0: nat, ghost d0: Table)
      returns (ok: bool, n': nat)
      requires hub.Valid() && version == hub.version && Played(turns, n, v0, d0)
      modifies hub, hub.ch
      ensures hub.Valid() && (hub.ch == old(hub.ch) || fresh(hub.ch)) && hub.version >= version
      ensures Played(turns, n', v0, d0) && n' >= n
      ensures if ok then hub.version > version && n' > n else n' == |turns| && (!quits ==> hub.version == version)
      ensures hub.version == version ==> hub.data == old(hub.data)
    {
      n' := n;
      if n < |turns| {
        hub.Play(turns[n]);
        FlatSnoc(turns, n);
        n' := n + 1;
      }
      var v, used;
      ghost var looks;
      v, ok, used, looks := hub.WaitChange(version, turns[n'..], quits);
      PlayedOn(turns, n', used);
      if !ok && !quits { FlatIdle(turns[n'..][..used]); }
      n' := n' + used;
    }

    /** Applies hub snapshots until the context ends. `turns` is what the poller does meanwhile, turn by turn: one turn
        while a snapshot is applied, the next ones while the loop waits; after them the context ends, and `quits` says
        whether that is noticed before a change published in the last one. `events` is every notifier call made, `seen`
        the version last applied. */
    method Start(turns: seq<seq<Table>>, quits: bool) returns (events: seq<Event>, seen: nat)
      requires hub.Valid() && applied == map[]
      modifies this`applied, this`ready, hub, hub.ch
      ensures hub.Valid() && hub.version >= seen >= old(hub.version)
      ensures hub.version == old(hub.version) + |Flat(turns)| && hub.data == LastTable(Flat(turns), old(hub.data))
      ensures ready && Fold(map[], events) == applied
      ensures seen == hub.version ==> applied == LastWins(Lookup(hub.data, clusterName))
      ensures !quits ==> seen == hub.version
    {
      events := [];
      var n := 0;
      ghost var v0, d0 := hub.version, hub.data;
      while true
        invariant hub.Valid() && (hub.ch == old(hub.ch) || fresh(hub.ch)) && hub.version >= v0
        invariant Played(turns, n, v0, d0) && Fold(map[], events) == applied
        decreases |turns| - n
      {
        var ok;
        events, seen := Refresh(events);
        ok, n := Await(seen, turns, n, quits, v0, d0);
        if !ok {
          assert turns[..n] == turns;
          return;
        }
      }
    }
  }
}
