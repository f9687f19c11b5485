/**
 The diff of pkg/eppplugin/clustertable/discovery.go: which events turn an applied endpoint map
 into the desired list, and what they do to a store that obeys them.
 */
module Diff {
  import opened Types

  datatype EndpointId = EndpointId(namespace: string, name: string)

  datatype Endpoint = Endpoint(id: EndpointId, name: string, address: string, port: string, metricsHost: string)

  /** The calls a discovery makes on its notifier. */
  datatype Event = Delete(id: EndpointId) | Upsert(ep: Endpoint)

  type Store = map<EndpointId, Endpoint>

  function Ids(eps: seq<Endpoint>): set<EndpointId> {
    set e <- eps :: e.id
  }

  /** A list read as a map: the last entry of an id counts. */
  function LastWins(eps: seq<Endpoint>): Store {
    if |eps| == 0 then map[]
    else LastWins(eps[..|eps| - 1])[eps[|eps| - 1].id := eps[|eps| - 1]]
  }

  function Obey(store: Store, ev: Event): Store {
    match ev
    case Delete(id) => store - {id}
    case Upsert(ep) => store[ep.id := ep]
  }

  /** A store after a sequence of events. */
  function Fold(store: Store, events: seq<Event>): Store {
    if |events| == 0 then store else Obey(Fold(store, events[..|events| - 1]), events[|events| - 1])
  }

  /** The upserts for a list, given what is applied when each entry is reached. */
  function Upserts(applied: Store, eps: seq<Endpoint>): seq<Event> {
    if |eps| == 0 then []
    else
      var before := Upserts(applied, eps[..|eps| - 1]);
      var now := Merge(applied, eps[..|eps| - 1]);
      var ep := eps[|eps| - 1];
      if ep.id in now && now[ep.id] == ep then before else before + [Upsert(ep)]
  }

  /** The applied map after the entries of a list were gone through. */
  function Merge(applied: Store, eps: seq<Endpoint>): Store {
    applied + LastWins(eps)
  }

  function Deletes(ids: seq<EndpointId>): seq<Event> {
    seq(|ids|, i requires 0 <= i < |ids| => Delete(ids[i]))
  }

  /** `order` lists a set, each element once. */
  ghost predicate Enumerates(order: seq<EndpointId>, ids: set<EndpointId>) {
    && (forall i, j | 0 <= i < j < |order| :: order[i] != order[j])
    && (forall id :: id in order <==> id in ids)
  }

  /** The applied entries the desired list still mentions. */
  function Kept(applied: Store, desired: seq<Endpoint>): Store {
    map id <- applied | id in Ids(desired) :: applied[id]
  }

  /** The events of one apply, for some iteration order over the applied map. */
  ghost predicate IsDiff(applied: Store, desired: seq<Endpoint>, order: seq<EndpointId>, events: seq<Event>) {
    && Enumerates(order, applied.Keys - Ids(desired))
    && events == Deletes(order) + Upserts(Kept(applied, desired), desired)
  }

  lemma {:induction false} LastWinsKeys(eps: seq<Endpoint>)
    ensures LastWins(eps).Keys == Ids(eps)
    ensures forall id <- LastWins(eps) :: LastWins(eps)[id] in eps && LastWins(eps)[id].id == id
  {
    if |eps| > 0 {
      var prefix := eps[..|eps| - 1];
      LastWinsKeys(prefix);
      assert eps == prefix + [eps[|eps| - 1]];
    }
  }

  /** Of the entries that share an id the last one is in the map. */
  lemma {:induction false} LastWinsAt(eps: seq<Endpoint>, i: nat)
    requires i < |eps| && forall j | i < j < |eps| :: eps[j].id != eps[i].id
    ensures eps[i].id in LastWins(eps) && LastWins(eps)[eps[i].id] == eps[i]
  {
    var n := |eps| - 1;
    if i < n {
      assert eps[..n][i] == eps[i];
      LastWinsAt(eps[..n], i);
    }
  }

  lemma {:induction false} FoldConcat(store: Store, a: seq<Event>, b: seq<Event>)
    ensures Fold(store, a + b) == Fold(Fold(store, a), b)
  {
    if |b| == 0 {
      assert a + b == a;
    } else {
      assert (a + b)[..|a + b| - 1] == a + b[..|b| - 1];
      FoldConcat(store, a, b[..|b| - 1]);
    }
  }

  lemma {:induction false} FoldDeletes(store: Store, order: seq<EndpointId>)
    ensures Fold(store, Deletes(order)) == store - (set id | id in order)
  {
    if |order| > 0 {
      var prefix := order[..|order| - 1];
      assert Deletes(order)[..|order| - 1] == Deletes(prefix);
      FoldDeletes(store, prefix);
      assert order == prefix + [order[|order| - 1]];
    }
  }

  lemma {:induction false} FoldUpserts(store: Store, eps: seq<Endpoint>)
    ensures Fold(store, Upserts(store, eps)) == Merge(store, eps)
  {
    if |eps| > 0 {
      var prefix := eps[..|eps| - 1];
      var ep := eps[|eps| - 1];
      FoldUpserts(store, prefix);
      var before := Upserts(store, prefix);
      assert (before + [Upsert(ep)])[..|before|] == before;
    }
  }

  /** A store that agreed with the applied map agrees, after the events, with the desired list read as a last-wins
      map. */
  lemma DiffReaches(applied: Store, desired: seq<Endpoint>, order: seq<EndpointId>, events: seq<Event>)
    requires IsDiff(applied, desired, order, events)
    ensures Fold(applied, events) == LastWins(desired)
  {
    var kept := Kept(applied, desired);
    FoldConcat(applied, Deletes(order), Upserts(kept, desired));
    FoldDeletes(applied, order);
    assert applied - (set id | id in order) == kept;
    FoldUpserts(kept, desired);
    LastWinsKeys(desired);
  }

  // ---- which events, and how many ----

  lemma {:induction false} UpsertsFrom(applied: Store, eps: seq<Endpoint>)
    ensures forall ev <- Upserts(applied, eps) :: ev.Upsert? && ev.ep in eps
  {
    if |eps| > 0 {
      UpsertsFrom(applied, eps[..|eps| - 1]);
      assert eps == eps[..|eps| - 1] + [eps[|eps| - 1]];
    }
  }

  /** Deletes come first, name only applied ids the list no longer has, and each at most once; every upsert is an
      entry of the list. */
  lemma DeletesFirst(applied: Store, desired: seq<Endpoint>, order: seq<EndpointId>, events: seq<Event>)
    requires IsDiff(applied, desired, order, events)
    ensures forall i, j | 0 <= i < |events| && 0 <= j < |events| && events[i].Delete? && events[j].Upsert? ::
              i < j && events[i].id != events[j].ep.id
    ensures forall i, j | 0 <= i < j < |events| && events[i].Delete? && events[j].Delete? ::
              events[i].id != events[j].id
    ensures forall id :: Delete(id) in events <==> id in applied && id !in Ids(desired)
    ensures forall i | 0 <= i < |events| && events[i].Upsert? :: events[i].ep in desired
  {
    var ups := Upserts(Kept(applied, desired), desired);
    UpsertsFrom(Kept(applied, desired), desired);
    forall i | 0 <= i < |events|
      ensures if i < |order| then events[i] == Delete(order[i])
              else events[i] in ups && events[i].Upsert? && events[i].ep in desired
    {
      if i >= |order| { assert events[i] == ups[i - |order|]; }
    }
    forall id ensures Delete(id) in events <==> id in applied && id !in Ids(desired) {
      if id in order {
        var i :| 0 <= i < |order| && order[i] == id;
        assert events[i] == Delete(id);
      }
    }
  }

  /** No id twice. */
  ghost predicate UniqueIds(eps: seq<Endpoint>) {
    forall i, j | 0 <= i < j < |eps| :: eps[i].id != eps[j].id
  }

  /** No id twice with different metadata. */
  ghost predicate Consistent(eps: seq<Endpoint>) {
    forall i, j | 0 <= i < j < |eps| && eps[i].id == eps[j].id :: eps[i] == eps[j]
  }

  predicate About(ev: Event, id: EndpointId) {
    match ev case Delete(d) => d == id case Upsert(ep) => ep.id == id
  }

  function CountAbout(events: seq<Event>, id: EndpointId): nat {
    if |events| == 0 then 0
    else CountAbout(events[..|events| - 1], id) + if About(events[|events| - 1], id) then 1 else 0
  }

  lemma {:induction false} CountConcat(a: seq<Event>, b: seq<Event>, id: EndpointId)
    ensures CountAbout(a + b, id) == CountAbout(a, id) + CountAbout(b, id)
  {
    if |b| == 0 {
      assert a + b == a;
    } else {
      assert (a + b)[..|a + b| - 1] == a + b[..|b| - 1];
      CountConcat(a, b[..|b| - 1], id);
    }
  }

  lemma {:induction false} CountDeletes(order: seq<EndpointId>, id: EndpointId)
    requires forall i, j | 0 <= i < j < |order| :: order[i] != order[j]
    ensures CountAbout(Deletes(order), id) == if id in order then 1 else 0
  {
    if |order| > 0 {
      var prefix := order[..|order| - 1];
      assert Deletes(order)[..|order| - 1] == Deletes(prefix);
      CountDeletes(prefix, id);
      assert order == prefix + [order[|order| - 1]];
    }
  }

  lemma {:induction false} CountUpserts(applied: Store, eps: seq<Endpoint>, id: EndpointId)
    requires UniqueIds(eps)
    ensures CountAbout(Upserts(applied, eps), id) ==
              if id in LastWins(eps) && !(id in applied && applied[id] == LastWins(eps)[id]) then 1 else 0
  {
    if |eps| > 0 {
      var prefix := eps[..|eps| - 1];
      var ep := eps[|eps| - 1];
      assert eps == prefix + [ep];
      LastWinsKeys(prefix);
      CountUpserts(applied, prefix, id);
      assert ep.id !in LastWins(prefix);
      CountConcat(Upserts(applied, prefix), [Upsert(ep)], id);
    }
  }

  /** For a list without repeated ids there is exactly one event for each removed, new or changed id and none for any
      other. */
  lemma OneEventPerChange(applied: Store, desired: seq<Endpoint>, order: seq<EndpointId>, events: seq<Event>,
                          id: EndpointId)
    requires IsDiff(applied, desired, order, events) && UniqueIds(desired)
    ensures var target := LastWins(desired);
            CountAbout(events, id) == if id in applied && id in target && applied[id] == target[id] then 0
                                      else if id in applied || id in target then 1 else 0
  {
    var kept := Kept(applied, desired);
    LastWinsKeys(desired);
    CountConcat(Deletes(order), Upserts(kept, desired), id);
    CountDeletes(order, id);
    CountUpserts(kept, desired, id);
    assert id in order <==> id in applied && id !in LastWins(desired);
    assert id in kept <==> id in applied && id in LastWins(desired);
  }

  lemma {:induction false} UpsertsSilent(applied: Store, eps: seq<Endpoint>)
    requires forall e <- eps :: e.id in applied && applied[e.id] == e
    ensures Upserts(applied, eps) == [] && Merge(applied, eps) == applied
  {
    if |eps| > 0 {
      var prefix := eps[..|eps| - 1];
      assert eps == prefix + [eps[|eps| - 1]];
      UpsertsSilent(applied, prefix);
    }
  }

  lemma {:induction false} SilentMeans(applied: Store, eps: seq<Endpoint>)
    requires Upserts(applied, eps) == []
    ensures forall e <- eps :: e.id in applied && applied[e.id] == e
  {
    if |eps| > 0 {
      var prefix := eps[..|eps| - 1];
      assert eps == prefix + [eps[|eps| - 1]];
      SilentMeans(applied, prefix);
      UpsertsSilent(applied, prefix);
    }
  }

  lemma {:induction false} LastWinsIsLast(eps: seq<Endpoint>, i: nat)
    requires i < |eps| && Consistent(eps)
    ensures eps[i].id in LastWins(eps) && LastWins(eps)[eps[i].id] == eps[i]
  {
    var n := |eps| - 1;
    if i < n {
      assert Consistent(eps[..n]) && eps[..n][i] == eps[i];
      LastWinsIsLast(eps[..n], i);
    }
  }

  lemma EnumeratesNothing(order: seq<EndpointId>, ids: set<EndpointId>)
    requires Enumerates(order, ids)
    ensures |order| == 0 <==> ids == {}
  {
    if |order| > 0 { assert order[0] in order; }
  }

  /** Applying a list again, once it is applied, is silent if and only if the list does not repeat an id with
      different metadata. */
  lemma ReapplySilentIffConsistent(desired: seq<Endpoint>, order: seq<EndpointId>, events: seq<Event>)
    requires IsDiff(LastWins(desired), desired, order, events)
    ensures events == [] <==> Consistent(desired)
  {
    var target := LastWins(desired);
    LastWinsKeys(desired);
    assert Kept(target, desired) == target;
    EnumeratesNothing(order, target.Keys - Ids(desired));
    assert events == Upserts(target, desired);
    if Consistent(desired) {
      forall e | e in desired ensures e.id in target && target[e.id] == e {
        var i :| 0 <= i < |desired| && desired[i] == e;
        LastWinsIsLast(desired, i);
      }
      UpsertsSilent(target, desired);
    }
    if events == [] {
      SilentMeans(target, desired);
    }
  }
}
