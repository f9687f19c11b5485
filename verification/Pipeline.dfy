/** From the cluster table to the datastores: conversion, hub and discovery loops together. */
module Pipeline {
  import opened Types
  import opened Diff
  import opened HubClasses
  import opened Convert
  import B = Broadcast

  /** `e` stands for some backend of the cluster that has a weight. */
  ghost predicate Wanted(cluster: Key, subs: map<string, seq<Backend>>, e: Endpoint) {
    exists sub, j :: sub in subs && Shows(cluster, subs[sub], j, e)
  }

  /** Backend j of the list has a weight and `e` describes it. */
  ghost predicate Shows(cluster: Key, backends: seq<Backend>, j: int, e: Endpoint) {
    0 <= j < |backends| && backends[j].weight != 0 && Describes(cluster, backends[j], e)
  }

  /** The last backend of a list adds its own endpoint and no other. */
  lemma LastShows(cluster: Key, backends: seq<Backend>, e: Endpoint)
    requires |backends| > 0
    ensures e in Image(cluster, backends) <==>
              e in Image(cluster, backends[..|backends| - 1]) || Shows(cluster, backends, |backends| - 1, e)
  {
    EndpointDescribes(cluster, backends[|backends| - 1], e);
  }

  ghost predicate ShowsAny(cluster: Key, backends: seq<Backend>, e: Endpoint) {
    exists j :: Shows(cluster, backends, j, e)
  }

  lemma ShowsAnyLast(cluster: Key, backends: seq<Backend>, e: Endpoint)
    requires |backends| > 0
    ensures ShowsAny(cluster, backends, e) <==>
              ShowsAny(cluster, backends[..|backends| - 1], e) || Shows(cluster, backends, |backends| - 1, e)
  {
    var n := |backends| - 1;
    if j :| Shows(cluster, backends, j, e) {
      assert j < n ==> Shows(cluster, backends[..n], j, e);
    }
    if j :| Shows(cluster, backends[..n], j, e) {
      assert Shows(cluster, backends, j, e);
    }
  }

  lemma {:induction false} ImageMembers(cluster: Key, backends: seq<Backend>, e: Endpoint)
    ensures e in Image(cluster, backends) <==> ShowsAny(cluster, backends, e)
  {
    if |backends| > 0 {
      ImageMembers(cluster, backends[..|backends| - 1], e);
      LastShows(cluster, backends, e);
      ShowsAnyLast(cluster, backends, e);
    }
  }

  lemma {:induction false} FlatMembers(cluster: Key, subs: map<string, seq<Backend>>, order: seq<string>, e: Endpoint)
    ensures e in FlatImage(cluster, subs, order) <==> exists sub :: sub in order && e in SubImage(cluster, subs, sub)
  {
    if |order| > 0 {
      var n := |order| - 1;
      FlatMembers(cluster, subs, order[..n], e);
      assert forall sub :: sub in order <==> sub in order[..n] || sub == order[n];
    }
  }

  /** The backends of the list that `e` describes and that have a weight. */
  ghost function Shown(cluster: Key, backends: seq<Backend>, e: Endpoint): set<nat> {
    set j: nat | j < |backends| && Shows(cluster, backends, j, e)
  }

  lemma ShowsPrefix(cluster: Key, backends: seq<Backend>, n: nat, j: nat, e: Endpoint)
    requires n <= |backends|
    ensures Shows(cluster, backends[..n], j, e) <==> j < n && Shows(cluster, backends, j, e)
  {}

  lemma OneMore(before: set<nat>, after: set<nat>, n: nat, more: bool)
    requires n !in before && forall j :: j in after <==> j in before || (more && j == n)
    ensures |after| == |before| + if more then 1 else 0
  {
    assert after == before + if more then {n} else {};
  }

  lemma ShownLast(cluster: Key, backends: seq<Backend>, e: Endpoint)
    requires |backends| > 0
    ensures |Shown(cluster, backends, e)| ==
              |Shown(cluster, backends[..|backends| - 1], e)|
              + if Shows(cluster, backends, |backends| - 1, e) then 1 else 0
  {
    var n := |backends| - 1;
    var before, after := Shown(cluster, backends[..n], e), Shown(cluster, backends, e);
    forall j: nat ensures j in after <==> j in before || (Shows(cluster, backends, n, e) && j == n) {
      ShowsPrefix(cluster, backends, n, j, e);
    }
    OneMore(before, after, n, Shows(cluster, backends, n, e));
  }

  lemma {:induction false} ImageCounts(cluster: Key, backends: seq<Backend>, e: Endpoint)
    ensures multiset(Image(cluster, backends))[e] == |Shown(cluster, backends, e)|
  {
    if |backends| > 0 {
      ImageCounts(cluster, backends[..|backends| - 1], e);
      LastCounts(cluster, backends, e);
      ShownLast(cluster, backends, e);
    }
  }

  lemma LastCounts(cluster: Key, backends: seq<Backend>, e: Endpoint)
    requires |backends| > 0
    ensures multiset(Image(cluster, backends))[e] ==
              multiset(Image(cluster, backends[..|backends| - 1]))[e]
              + if Shows(cluster, backends, |backends| - 1, e) then 1 else 0
  {
    EndpointDescribes(cluster, backends[|backends| - 1], e);
  }

  /** The backends of the given sub-clusters that `e` describes and that have a weight. */
  ghost function ShownIn(cluster: Key, subs: map<string, seq<Backend>>, keys: set<string>,
                         e: Endpoint): set<(string, nat)>
    requires keys <= subs.Keys
  {
    set sub, j: nat | sub in keys && j < |subs[sub]| && Shows(cluster, subs[sub], j, e) :: (sub, j)
  }

  function Tagged(tag: string, js: set<nat>): set<(string, nat)> {
    set j | j in js :: (tag, j)
  }

  lemma {:induction false} TaggedCounts(tag: string, js: set<nat>)
    ensures |Tagged(tag, js)| == |js|
  {
    if js == {} {
      assert Tagged(tag, js) == {};
    } else {
      var j :| j in js;
      TaggedCounts(tag, js - {j});
      assert Tagged(tag, js) == Tagged(tag, js - {j}) + {(tag, j)};
    }
  }

  lemma ShownInSplit(cluster: Key, subs: map<string, seq<Backend>>, keys: set<string>, sub: string, e: Endpoint)
    requires sub in keys && keys <= subs.Keys
    ensures |ShownIn(cluster, subs, keys, e)| ==
              |ShownIn(cluster, subs, keys - {sub}, e)| + |Shown(cluster, subs[sub], e)|
  {
    var others := ShownIn(cluster, subs, keys - {sub}, e);
    var here := Tagged(sub, Shown(cluster, subs[sub], e));
    TaggedCounts(sub, Shown(cluster, subs[sub], e));
    assert ShownIn(cluster, subs, keys, e) == others + here;
    assert others !! here;
  }

  lemma {:induction false} FlatCounts(cluster: Key, subs: map<string, seq<Backend>>, order: seq<string>,
                                      keys: set<string>, e: Endpoint)
    requires Orders(order, keys) && keys <= subs.Keys
    ensures multiset(FlatImage(cluster, subs, order))[e] == |ShownIn(cluster, subs, keys, e)|
    decreases |order|
  {
    var n := |order| - 1;
    if n < 0 {
      assert keys == {};
      assert ShownIn(cluster, subs, keys, e) == {};
    } else {
      OrdersWithout(order, keys, n);
      assert order[..n] + order[n + 1..] == order[..n];
      FlatCounts(cluster, subs, order[..n], keys - {order[n]}, e);
      ImageCounts(cluster, subs[order[n]], e);
      ShownInSplit(cluster, subs, keys, order[n], e);
    }
  }

  /** Conversion conserves backends: each endpoint occurs in a cluster's list exactly as often as there are backends
      in its sub-clusters that have a weight and that it describes. */
  lemma {:induction false} ConversionConserves(table: ClusterTable, desired: Table, cluster: Key, e: Endpoint)
    requires IsConversion(table, desired) && cluster in table
    ensures multiset(desired[cluster])[e] == |ShownIn(cluster, table[cluster], table[cluster].Keys, e)|
  {
    var subs := table[cluster];
    assert IsImage(cluster, subs, desired[cluster]);
    var order :| Orders(order, subs.Keys) && desired[cluster] == FlatImage(cluster, subs, order);
    FlatCounts(cluster, subs, order, subs.Keys, e);
  }

  /** The converted list of a cluster names exactly its weighted backends. */
  lemma {:induction false} ConvertedIsWanted(cluster: Key, subs: map<string, seq<Backend>>, eps: seq<Endpoint>,
                                             e: Endpoint)
    requires IsImage(cluster, subs, eps)
    ensures e in eps <==> Wanted(cluster, subs, e)
  {
    var order :| Orders(order, subs.Keys) && eps == FlatImage(cluster, subs, order);
    FlatMembers(cluster, subs, order, e);
    forall sub | sub in subs
      ensures e in SubImage(cluster, subs, sub) <==> ShowsAny(cluster, subs[sub], e)
    {
      ImageMembers(cluster, subs[sub], e);
    }
    if Wanted(cluster, subs, e) {
      var sub, j :| sub in subs && Shows(cluster, subs[sub], j, e);
      assert sub in order && e in SubImage(cluster, subs, sub);
    }
  }

  /** No two weighted backends of the cluster have the same id and differ. */
  ghost predicate NoClash(cluster: Key, subs: map<string, seq<Backend>>) {
    forall d, e | Wanted(cluster, subs, d) && Wanted(cluster, subs, e) && d.id == e.id :: d == e
  }

  lemma {:induction false} LastWinsHoldsAll(eps: seq<Endpoint>)
    ensures (forall e <- eps :: e.id in LastWins(eps) && LastWins(eps)[e.id] == e) <==> Consistent(eps)
  {
    if Consistent(eps) {
      forall e | e in eps ensures e.id in LastWins(eps) && LastWins(eps)[e.id] == e {
        var i :| 0 <= i < |eps| && eps[i] == e;
        LastWinsIsLast(eps, i);
      }
    }
  }

  /** End to end: whenever a discovery loop is parked at the version under which a converted table was published, its
      datastore holds only weighted backends of its cluster, one for every id one of them has; and it
      holds every one of them if and only if no two of them clash on an id. */
  lemma StoreMirrorsTable(states: seq<B.Sys>, steps: seq<B.Step>, n: nat, i: nat,
                          table: ClusterTable, desired: Table)
    requires B.IsRun(states, steps) && n < |states| && i < |states[n].loops|
    requires states[n].loops[i].pc.Parked? && states[n].loops[i].pc.since == states[n].hub.version
    requires IsConversion(table, desired) && states[n].hub.data == desired
    ensures var l := states[n].loops[i];
            var subs := if l.cluster in table then table[l.cluster] else map[];
            && (forall id <- l.store :: Wanted(l.cluster, subs, l.store[id]) && l.store[id].id == id)
            && (forall e | Wanted(l.cluster, subs, e) :: e.id in l.store)
            && ((forall e | Wanted(l.cluster, subs, e) :: e.id in l.store && l.store[e.id] == e) <==>
                NoClash(l.cluster, subs))
  {
    var l := states[n].loops[i];
    var subs := if l.cluster in table then table[l.cluster] else map[];
    var eps := Lookup(desired, l.cluster);
    B.ReplicaMatchesHub(states, steps, n, i);
    assert l.store == LastWins(eps);
    LastWinsKeys(eps);
    forall e ensures e in eps <==> Wanted(l.cluster, subs, e) {
      if l.cluster in table { ConvertedIsWanted(l.cluster, subs, eps, e); }
    }
    LastWinsHoldsAll(eps);
    ClashMeansInconsistent(l.cluster, subs, eps);
  }

  lemma ClashMeansInconsistent(cluster: Key, subs: map<string, seq<Backend>>, eps: seq<Endpoint>)
    requires forall e :: e in eps <==> Wanted(cluster, subs, e)
    ensures NoClash(cluster, subs) <==> Consistent(eps)
  {
    if Consistent(eps) {
      forall d, e | Wanted(cluster, subs, d) && Wanted(cluster, subs, e) && d.id == e.id ensures d == e {
        assert d in eps && e in eps;
        var i :| 0 <= i < |eps| && eps[i] == d;
        var j :| 0 <= j < |eps| && eps[j] == e;
        if i < j { assert eps[i] == eps[j]; } else if j < i { assert eps[j] == eps[i]; }
      }
    }
    if NoClash(cluster, subs) {
      forall i, j | 0 <= i < j < |eps| && eps[i].id == eps[j].id ensures eps[i] == eps[j] {
        assert eps[i] in eps && eps[j] in eps;
      }
    }
  }
}
