/** pkg/eppplugin/clustertable/hub.go: a versioned table that is broadcast by closing one channel and making the
    next. */
module HubClasses {
  import opened Types
  import opened Diff

  type Table = map<Key, seq<Endpoint>>

  /** The list of a cluster; a missing cluster reads as the empty list. */
  function Lookup(data: Table, cluster: Key): seq<Endpoint> {
    if cluster in data then data[cluster] else []
  }

  /** The table in force after a sequence of replacements. */
  function LastTable(tables: seq<Table>, before: Table): Table {
    if |tables| == 0 then before else tables[|tables| - 1]
  }

  /** All replacements of a sequence of turns. */
  function Flat(turns: seq<seq<Table>>): seq<Table> {
    if |turns| == 0 then [] else Flat(turns[..|turns| - 1]) + turns[|turns| - 1]
  }

  lemma FlatSnoc(turns: seq<seq<Table>>, n: nat)
    requires n < |turns|
    ensures Flat(turns[..n + 1]) == Flat(turns[..n]) + turns[n]
  {
    assert turns[..n + 1][..n] == turns[..n];
  }

  lemma {:induction false} FlatIdle(turns: seq<seq<Table>>)
    requires forall i | 0 <= i < |turns| :: turns[i] == []
    ensures Flat(turns) == []
  {
    if |turns| > 0 { FlatIdle(turns[..|turns| - 1]); }
  }

  lemma {:induction false} FlatConcat(a: seq<seq<Table>>, b: seq<seq<Table>>)
    ensures Flat(a + b) == Flat(a) + Flat(b)
  {
    if |b| == 0 {
      assert a + b == a;
    } else {
      var n := |b| - 1;
      FlatConcat(a, b[..n]);
      assert (a + b)[..|a + b| - 1] == a + b[..n];
    }
  }

  class Channel {
    var closed: bool

    constructor ()
      ensures !closed
    {
      closed := false;
    }
  }

  class Hub {
    var data: Table
    var version: nat
    var ch: Channel

    /** The current channel is always open; closing it twice would panic. */
    ghost predicate Valid()
      reads this, ch
    {
      !ch.closed
    }

    constructor ()
      ensures Valid() && fresh(ch) && data == map[] && version == 0
    {
      data, version := map[], 0;
      ch := new Channel();
    }

    method ReplaceAll(table: Table)
      requires Valid()
      modifies this, ch
      ensures Valid() && fresh(ch)
      ensures data == table && version == old(version) + 1
      ensures old(ch).closed
    {
      data := table;
      version := version + 1;
      ch.closed := true;
      ch := new Channel();
    }

    method Snapshot(cluster: Key) returns (eps: seq<Endpoint>, v: nat)
      ensures eps == Lookup(data, cluster) && v == version
      ensures if cluster in data then eps == data[cluster] else eps == []
    {
      return if cluster in data then data[cluster] else [], version;
    }

    /** A turn of the other goroutines: they publish these tables, one after the other. */
    method Play(tables: seq<Table>)
      requires Valid()
      modifies this, ch
      ensures Valid() && (if tables == [] then ch == old(ch) else fresh(ch))
      ensures version == old(version) + |tables| && data == LastTable(tables, old(data))
      ensures old(ch).closed <==> tables != []
    {
      for i := 0 to |tables|
        invariant Valid() && (if i == 0 then ch == old(ch) else fresh(ch))
        invariant version == old(version) + i && data == LastTable(tables[..i], old(data))
        invariant old(ch).closed <==> i > 0
      {
        ReplaceAll(tables[i]);
      }
      assert tables[..|tables|] == tables;
    }

    /** Blocks until the version differs from `since` or the context ends. `turns` is what the others do while this
        goroutine is blocked, turn by turn; after them the context ends, and `quits` says whether that is noticed first
        when the last turn has woken this goroutine as well. `used` turns pass, all but the last of them idle. */
    method WaitChange(since: nat, turns: seq<seq<Table>>, quits: bool)
      returns (v: nat, ok: bool, used: nat, ghost looks: nat)
      requires Valid()
      modifies this, ch
      ensures Valid() && (ch == old(ch) || fresh(ch)) && used <= |turns| && 1 <= looks <= 2
      ensures version == old(version) + |Flat(turns[..used])| && data == LastTable(Flat(turns[..used]), old(data))
      ensures forall i | 0 <= i < used - 1 :: turns[i] == []
      ensures if ok then v == version != since else v == since && used == |turns|
      ensures old(version) != since ==> ok && used == 0
      ensures old(version) == since ==>
                (ok <==> used > 0 && turns[used - 1] != [] && !(quits && used == |turns|))
    {
      used, looks := 0, 0;
      while true
        invariant Valid() && (ch == old(ch) || fresh(ch)) && used <= |turns|
        invariant version == old(version) + |Flat(turns[..used])| && data == LastTable(Flat(turns[..used]), old(data))
        invariant forall i | 0 <= i < used - 1 :: turns[i] == []
        invariant if looks == 0 then used == 0 else
                    && looks == 1 && old(version) == since && version > since
                    && used > 0 && turns[used - 1] != [] && !(quits && used == |turns|)
        decreases 2 - looks
      {
        looks := looks + 1;
        if version != since { return version, true, used, looks; }
        var seen := ch;
        while !seen.closed && used < |turns|
          invariant Valid() && (ch == old(ch) || fresh(ch)) && used <= |turns|
          invariant version == old(version) + |Flat(turns[..used])| && data == LastTable(Flat(turns[..used]), old(data))
          invariant forall i | 0 <= i < used - 1 :: turns[i] == []
          invariant seen.closed <==> used > 0 && turns[used - 1] != []
          invariant if seen.closed then version > since else seen == ch && version == since
        {
          Play(turns[used]);
          FlatSnoc(turns, used);
          used := used + 1;
        }
        if !seen.closed || (quits && used == |turns|) { return since, false, used, looks; }
      }
    }
  }
}
