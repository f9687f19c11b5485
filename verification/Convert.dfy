/** pkg/poller/discovery.go: the cluster table becomes one endpoint list per cluster and is handed to the hub. */
module Convert {
  import opened Types
  import opened Diff
  import opened HubClasses

  datatype Backend = Backend(name: string, addr: string, port: int, weight: int)

  /** Cluster, sub-cluster, backends. */
  type ClusterTable = map<Key, map<string, seq<Backend>>>

  // ---- identifiers ----

  /** Strips the brackets the table wraps IPv6 addresses in. */
  function UnwrapIPv6(addr: string): string {
    if |addr| > 2 && addr[0] == '[' && addr[|addr| - 1] == ']' then addr[1..|addr| - 1] else addr
  }

  function Digits(n: nat): (s: string)
    ensures |s| > 0 && ':' !in s && '-' !in s
  {
    if n < 10 then [('0' as int + n) as char] else Digits(n / 10) + [('0' as int + n % 10) as char]
  }

  /** Decimal rendering of an integer. */
  function Itoa(n: int): (s: string)
    ensures |s| > 0 && ':' !in s && ('-' in s <==> n < 0)
  {
    if n < 0 then "-" + Digits(-n) else Digits(n)
  }

  /** host:port; a host with a colon is bracketed, the IP-literal form of section 3.2.2 of RFC 3986. */
  function JoinHostPort(host: string, port: string): string {
    HostPart(host) + ":" + port
  }

  function HostPart(host: string): (part: string)
    ensures ':' in part <==> ':' in host
    ensures part == if ':' in host then "[" + host + "]" else host
  {
    if ':' in host then
      var part := "[" + host + "]";
      assert part[1..|part| - 1] == host;
      part
    else host
  }

  function BackendId(b: Backend): string {
    if b.name != "" then b.name else JoinHostPort(UnwrapIPv6(b.addr), Itoa(b.port))
  }

  function EndpointOf(cluster: Key, b: Backend): Endpoint {
    Endpoint(EndpointId(cluster, BackendId(b)), b.name, UnwrapIPv6(b.addr), Itoa(b.port),
             JoinHostPort(UnwrapIPv6(b.addr), Itoa(b.port)))
  }

  lemma {:induction false} DigitsInjective(m: nat, n: nat)
    requires Digits(m) == Digits(n)
    ensures m == n
  {
    var a, b := Digits(m), Digits(n);
    assert a[|a| - 1] == b[|b| - 1];
    if m >= 10 && n >= 10 {
      assert a[..|a| - 1] == Digits(m / 10) && b[..|b| - 1] == Digits(n / 10);
      DigitsInjective(m / 10, n / 10);
    }
  }

  lemma ItoaInjective(m: int, n: int)
    requires Itoa(m) == Itoa(n)
    ensures m == n
  {
    if m < 0 && n < 0 {
      assert Itoa(m)[1..] == Digits(-m) && Itoa(n)[1..] == Digits(-n);
      DigitsInjective(-m, -n);
    } else if m >= 0 && n >= 0 {
      DigitsInjective(m, n);
    }
  }

  /** The length of the longest suffix without a colon. */
  function TailLength(s: string): nat {
    if |s| == 0 || s[|s| - 1] == ':' then 0 else 1 + TailLength(s[..|s| - 1])
  }

  lemma {:induction false} TailLengthOf(a: string, p: string)
    requires ':' !in p
    ensures TailLength(a + ":" + p) == |p|
  {
    var s := a + ":" + p;
    if |p| == 0 {
      assert s[|s| - 1] == ':';
    } else {
      assert s[|s| - 1] == p[|p| - 1];
      assert s[..|s| - 1] == a + ":" + p[..|p| - 1];
      TailLengthOf(a, p[..|p| - 1]);
    }
  }

  lemma JoinInjective(h1: string, p1: string, h2: string, p2: string)
    requires JoinHostPort(h1, p1) == JoinHostPort(h2, p2) && ':' !in p1 && ':' !in p2
    ensures h1 == h2 && p1 == p2
  {
    var a, b := HostPart(h1), HostPart(h2);
    var s, t := a + ":" + p1, b + ":" + p2;
    TailLengthOf(a, p1);
    TailLengthOf(b, p2);
    assert s[..|a|] == a && t[..|b|] == b;
    assert s[|a| + 1..] == p1 && t[|b| + 1..] == p2;
    if ':' in h1 { assert a[1..|a| - 1] == h1 && b[1..|b| - 1] == h2; }
  }

  /** Two backends without a name share an id exactly when they have the same unwrapped address and the same port. */
  lemma NamelessIdsCollideIffSame(b: Backend, c: Backend)
    requires b.name == "" && c.name == ""
    ensures BackendId(b) == BackendId(c) <==> UnwrapIPv6(b.addr) == UnwrapIPv6(c.addr) && b.port == c.port
  {
    if BackendId(b) == BackendId(c) {
      JoinInjective(UnwrapIPv6(b.addr), Itoa(b.port), UnwrapIPv6(c.addr), Itoa(c.port));
      ItoaInjective(b.port, c.port);
    }
  }

  // ---- what an endpoint says about its backend, field by field ----

  /** An address in brackets, with something between them. */
  predicate Bracketed(addr: string) {
    |addr| > 2 && addr[0] == '[' && addr[|addr| - 1] == ']'
  }

  /** The address without its brackets. */
  predicate Unbracketed(addr: string, host: string) {
    if Bracketed(addr) then addr == "[" + host + "]" else host == addr
  }

  predicate AllDigits(s: string) {
    |s| > 0 && forall i | 0 <= i < |s| :: '0' <= s[i] <= '9'
  }

  function ValueOf(s: string): nat
    requires AllDigits(s)
  {
    var last := s[|s| - 1] as int - '0' as int;
    if |s| == 1 then last else 10 * ValueOf(s[..|s| - 1]) + last
  }

  /** A decimal numeral without a leading zero. */
  predicate Numeral(s: string, n: nat) {
    AllDigits(s) && ValueOf(s) == n && (s[0] == '0' ==> |s| == 1)
  }

  predicate Denotes(s: string, n: int) {
    if n < 0 then |s| > 0 && s[0] == '-' && Numeral(s[1..], -n) else Numeral(s, n)
  }

  /** The endpoint tells everything about the backend. */
  predicate Describes(cluster: Key, b: Backend, e: Endpoint) {
    && e.id.namespace == cluster
    && e.name == b.name
    && Unbracketed(b.addr, e.address)
    && Denotes(e.port, b.port)
    && e.metricsHost == (if ':' in e.address then "[" + e.address + "]:" + e.port else e.address + ":" + e.port)
    && e.id.name == if b.name != "" then b.name else e.metricsHost
  }

  lemma {:induction false} DigitsNumeral(n: nat)
    ensures Numeral(Digits(n), n)
    ensures n > 0 ==> Digits(n)[0] != '0'
  {
    if n >= 10 {
      DigitsNumeral(n / 10);
      var s := Digits(n);
      assert s[..|s| - 1] == Digits(n / 10);
      forall i | 0 <= i < |s| ensures '0' <= s[i] <= '9' {
        if i < |s| - 1 { assert s[i] == Digits(n / 10)[i]; }
      }
    }
  }

  lemma {:induction false} ValuePositive(s: string)
    requires AllDigits(s) && s[0] != '0'
    ensures ValueOf(s) > 0
  {
    if |s| > 1 {
      assert s[..|s| - 1][0] == s[0];
      ValuePositive(s[..|s| - 1]);
    }
  }

  /** There is one numeral for each number. */
  lemma {:induction false} NumeralIsDigits(s: string, n: nat)
    requires Numeral(s, n)
    ensures s == Digits(n)
    decreases |s|
  {
    if |s| > 1 {
      var front := s[..|s| - 1];
      assert front[0] == s[0];
      ValuePositive(front);
      NumeralIsDigits(front, ValueOf(front));
      assert s == front + [s[|s| - 1]];
    }
  }

  lemma DenotesIffItoa(s: string, n: int)
    ensures Denotes(s, n) <==> s == Itoa(n)
  {
    if n < 0 {
      DigitsNumeral(-n);
      assert Itoa(n)[1..] == Digits(-n);
      if Denotes(s, n) {
        NumeralIsDigits(s[1..], -n);
        assert s == [s[0]] + s[1..];
      }
    } else {
      DigitsNumeral(n);
      if Denotes(s, n) { NumeralIsDigits(s, n); }
    }
  }

  lemma UnbracketedIffUnwrap(addr: string, host: string)
    ensures Unbracketed(addr, host) <==> host == UnwrapIPv6(addr)
  {
    if Bracketed(addr) {
      assert addr == "[" + addr[1..|addr| - 1] + "]";
      if addr == "[" + host + "]" { assert addr[1..|addr| - 1] == host; }
    }
  }

  /** The endpoint made of a backend is the one that describes it. */
  lemma EndpointDescribes(cluster: Key, b: Backend, e: Endpoint)
    ensures Describes(cluster, b, e) <==> e == EndpointOf(cluster, b)
  {
    UnbracketedIffUnwrap(b.addr, e.address);
    DenotesIffItoa(e.port, b.port);
    if e.address == UnwrapIPv6(b.addr) && e.port == Itoa(b.port) {
      assert ("[" + e.address + "]") + ":" + e.port == "[" + e.address + "]:" + e.port;
    }
  }

  /** When two backends of a cluster get the same id: named ones when their names are the same, nameless ones when
      unbracketed address and port are, a named and a nameless one when the name spells the other's host and port. */
  lemma IdsCollideIff(cluster: Key, b: Backend, c: Backend, d: Endpoint, e: Endpoint)
    requires Describes(cluster, b, d) && Describes(cluster, c, e)
    ensures b.name != "" && c.name != "" ==> (d.id == e.id <==> b.name == c.name)
    ensures b.name == "" && c.name == "" ==> (d.id == e.id <==> d.address == e.address && b.port == c.port)
    ensures b.name != "" && c.name == "" ==> (d.id == e.id <==> b.name == e.metricsHost)
  {
    EndpointDescribes(cluster, b, d);
    EndpointDescribes(cluster, c, e);
    if b.name == "" && c.name == "" { NamelessIdsCollideIffSame(b, c); }
  }

  // ---- conversion ----

  /** The endpoints of a backend list, in order; a weight of zero takes a backend out. */
  function Image(cluster: Key, backends: seq<Backend>): seq<Endpoint> {
    if |backends| == 0 then []
    else
      var b := backends[|backends| - 1];
      Image(cluster, backends[..|backends| - 1]) + if b.weight == 0 then [] else [EndpointOf(cluster, b)]
  }

  /** The backends before the j-th that have a weight. */
  function WeightedBefore(backends: seq<Backend>, j: nat): set<nat>
    requires j <= |backends|
  {
    set i: nat | i < j && backends[i].weight != 0
  }

  lemma WeightedBeforeNext(backends: seq<Backend>, j: nat)
    requires j < |backends|
    ensures |WeightedBefore(backends, j + 1)| ==
              |WeightedBefore(backends, j)| + if backends[j].weight != 0 then 1 else 0
  {
    assert WeightedBefore(backends, j + 1) == WeightedBefore(backends, j) + if backends[j].weight != 0 then {j} else {};
  }

  lemma WeightedBeforePrefix(backends: seq<Backend>, n: nat, j: nat)
    requires j <= n <= |backends|
    ensures WeightedBefore(backends[..n], j) == WeightedBefore(backends, j)
  {}

  /** One endpoint for each backend that has a weight, in list order: the one for backend j is numbered by the weighted
      backends before it. */
  lemma {:induction false} ImageAt(cluster: Key, backends: seq<Backend>, j: nat)
    requires j <= |backends|
    ensures |Image(cluster, backends)| == |WeightedBefore(backends, |backends|)|
    ensures j < |backends| && backends[j].weight != 0 ==>
              && |WeightedBefore(backends, j)| < |Image(cluster, backends)|
              && Describes(cluster, backends[j], Image(cluster, backends)[|WeightedBefore(backends, j)|])
    decreases |backends|
  {
    if |backends| > 0 {
      var n := |backends| - 1;
      ImageAt(cluster, backends[..n], if j < n then j else n);
      WeightedBeforeNext(backends, n);
      WeightedBeforePrefix(backends, n, n);
      EndpointDescribes(cluster, backends[n], EndpointOf(cluster, backends[n]));
      if j < n {
        WeightedBeforePrefix(backends, n, j);
        assert backends[..n][j] == backends[j];
      }
    }
  }

  function SubImage(cluster: Key, subs: map<string, seq<Backend>>, sub: string): seq<Endpoint> {
    if sub in subs then Image(cluster, subs[sub]) else []
  }

  /** The endpoints of the sub-clusters gone through in the given order. */
  function FlatImage(cluster: Key, subs: map<string, seq<Backend>>, order: seq<string>): seq<Endpoint> {
    if |order| == 0 then []
    else FlatImage(cluster, subs, order[..|order| - 1]) + SubImage(cluster, subs, order[|order| - 1])
  }

  ghost predicate Orders(order: seq<string>, keys: set<string>) {
    && (forall i, j | 0 <= i < j < |order| :: order[i] != order[j])
    && (forall i | 0 <= i < |order| :: order[i] in keys)
    && (forall k <- keys :: k in order)
  }

  lemma FlatImageSnoc(cluster: Key, subs: map<string, seq<Backend>>, order: seq<string>, sub: string)
    ensures FlatImage(cluster, subs, order + [sub]) == FlatImage(cluster, subs, order) + SubImage(cluster, subs, sub)
  {
    assert (order + [sub])[..|order|] == order;
  }

  lemma Associative(x: seq<Endpoint>, y: seq<Endpoint>, z: seq<Endpoint>)
    ensures x + y + z == x + (y + z)
  {}

  lemma {:induction false} FlatImageConcat(cluster: Key, subs: map<string, seq<Backend>>, a: seq<string>,
                                           b: seq<string>)
    ensures FlatImage(cluster, subs, a + b) == FlatImage(cluster, subs, a) + FlatImage(cluster, subs, b)
  {
    if |b| == 0 {
      assert a + b == a;
    } else {
      var b0, last := b[..|b| - 1], b[|b| - 1];
      assert b == b0 + [last];
      assert a + b == a + b0 + [last];
      FlatImageConcat(cluster, subs, a, b0);
      FlatImageSnoc(cluster, subs, a + b0, last);
      FlatImageSnoc(cluster, subs, b0, last);
      Associative(FlatImage(cluster, subs, a), FlatImage(cluster, subs, b0), SubImage(cluster, subs, last));
    }
  }

  /** Visiting one sub-cluster last instead of in the middle yields the same endpoints equally often. */
  lemma MoveToEnd(cluster: Key, subs: map<string, seq<Backend>>, order: seq<string>, i: nat)
    requires i < |order|
    ensures multiset(FlatImage(cluster, subs, order)) ==
              multiset(FlatImage(cluster, subs, order[..i] + order[i + 1..]))
                  + multiset(SubImage(cluster, subs, order[i]))
  {
    var a, x, b := order[..i], [order[i]], order[i + 1..];
    assert order == (a + x) + b;
    FlatImageConcat(cluster, subs, a + x, b);
    FlatImageConcat(cluster, subs, a, b);
    assert (a + x)[..|a + x| - 1] == a;
    assert FlatImage(cluster, subs, a + x) == FlatImage(cluster, subs, a) + SubImage(cluster, subs, order[i]);
  }

  lemma OrdersWithout(order: seq<string>, keys: set<string>, i: nat)
    requires Orders(order, keys) && i < |order|
    ensures Orders(order[..i] + order[i + 1..], keys - {order[i]})
  {
    var rest := order[..i] + order[i + 1..];
    forall k | k in keys - {order[i]} ensures k in rest {
      var v :| 0 <= v < |order| && order[v] == k;
      assert rest[if v < i then v else v - 1] == k;
    }
  }

  /** The order in which sub-clusters are visited does not change which endpoints come out, nor how often. */
  lemma {:induction false} OrderKeepsEndpoints(cluster: Key, subs: map<string, seq<Backend>>, a: seq<string>,
                                               b: seq<string>, keys: set<string>)
    requires Orders(a, keys) && Orders(b, keys)
    ensures multiset(FlatImage(cluster, subs, a)) == multiset(FlatImage(cluster, subs, b))
    decreases |a|
  {
    if |a| > 0 {
      var n := |a| - 1;
      assert a[n] in keys;
      var i :| 0 <= i < |b| && b[i] == a[n];
      assert a[..n] + a[n + 1..] == a[..n];
      OrdersWithout(a, keys, n);
      OrdersWithout(b, keys, i);
      OrderKeepsEndpoints(cluster, subs, a[..n], b[..i] + b[i + 1..], keys - {a[n]});
      MoveToEnd(cluster, subs, b, i);
    } else {
      assert forall k :: k !in keys;
    }
  }

  /** The endpoints of a cluster's sub-clusters, gone through in some order. */
  ghost predicate IsImage(cluster: Key, subs: map<string, seq<Backend>>, eps: seq<Endpoint>) {
    exists order :: Orders(order, subs.Keys) && eps == FlatImage(cluster, subs, order)
  }

  ghost predicate IsConversion(table: ClusterTable, desired: Table) {
    desired.Keys == table.Keys && forall cluster <- table :: IsImage(cluster, table[cluster], desired[cluster])
  }

  /** Converting a table twice, whatever the iteration orders, gives every cluster the same endpoints equally often. */
  lemma ConversionsAgree(table: ClusterTable, one: Table, two: Table, cluster: Key)
    requires IsConversion(table, one) && IsConversion(table, two) && cluster in table
    ensures multiset(one[cluster]) == multiset(two[cluster])
  {
    var subs := table[cluster];
    assert IsImage(cluster, subs, one[cluster]) && IsImage(cluster, subs, two[cluster]);
    var a :| Orders(a, subs.Keys) && one[cluster] == FlatImage(cluster, subs, a);
    var b :| Orders(b, subs.Keys) && two[cluster] == FlatImage(cluster, subs, b);
    OrderKeepsEndpoints(cluster, subs, a, b, subs.Keys);
  }

  /** Converts the table: cluster by cluster, sub-cluster by sub-cluster, in the order the maps happen to be
      iterated. */
  method ConvertClusterTable(table: ClusterTable) returns (desired: Table)
    ensures IsConversion(table, desired)
  {
    desired := map[];
    var todo := table.Keys;
    while todo != {}
      invariant todo <= table.Keys && desired.Keys == table.Keys - todo
      invariant forall cluster <- desired :: IsImage(cluster, table[cluster], desired[cluster])
    {
      var cluster :| cluster in todo;
      var eps := ConvertCluster(cluster, table[cluster]);
      desired := desired[cluster := eps];
      todo := todo - {cluster};
    }
  }

  method ConvertCluster(cluster: Key, subs: map<string, seq<Backend>>) returns (eps: seq<Endpoint>)
    ensures IsImage(cluster, subs, eps)
  {
    eps := [];
    ghost var order := [];
    var todo := subs.Keys;
    while todo != {}
      invariant todo <= subs.Keys && Orders(order, subs.Keys - todo)
      invariant eps == FlatImage(cluster, subs, order)
    {
      var sub :| sub in todo;
      var backends := subs[sub];
      ghost var before := eps;
      for i := 0 to |backends|
        invariant eps == before + Image(cluster, backends[..i])
      {
        assert backends[..i + 1][..i] == backends[..i];
        if backends[i].weight != 0 {
          eps := eps + [EndpointOf(cluster, backends[i])];
        }
      }
      assert backends[..|backends|] == backends;
      assert (order + [sub])[..|order|] == order;
      order := order + [sub];
      todo := todo - {sub};
    }
    assert subs.Keys - todo == subs.Keys;
  }

  /** Hands the whole table to the hub; clusters without a local cell are only counted, never left out. */
  method Handle(hub: Hub, desired: Table, held: Key -> bool) returns (unassigned: nat)
    requires hub.Valid()
    modifies hub, hub.ch
    ensures hub.Valid() && hub.data == desired && hub.version == old(hub.version) + 1 && old(hub.ch).closed
    ensures unassigned == |set c | c in desired && !held(c)|
  {
    var filtered: Table := map[];
    unassigned := 0;
    var todo := desired.Keys;
    while todo != {}
      invariant todo <= desired.Keys && filtered == map c | c in desired && c !in todo :: desired[c]
      invariant unassigned == |set c | c in desired && c !in todo && !held(c)|
    {
      var cluster :| cluster in todo;
      ghost var counted := set c | c in desired && c !in todo && !held(c);
      if !held(cluster) {
        unassigned := unassigned + 1;
        assert (set c | c in desired && c !in todo - {cluster} && !held(c)) == counted + {cluster};
      } else {
        assert (set c | c in desired && c !in todo - {cluster} && !held(c)) == counted;
      }
      filtered := filtered[cluster := desired[cluster]];
      todo := todo - {cluster};
    }
    assert filtered == desired;
    assert (set c | c in desired && c !in todo && !held(c)) == set c | c in desired && !held(c);
    hub.ReplaceAll(filtered);
  }
}
