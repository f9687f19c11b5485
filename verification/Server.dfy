/**
 pkg/demux/server.go: one request from its first message to its reply, with no other goroutine
 in between (Admission.dfy has the interleavings), and the stream handed on to the engine.
 */
module DemuxServer {
  import opened Types
  import opened ManagerClasses

  /** `pool` is the inference-pool value the first message carries in its metadata, empty when absent or of another
      type. */
  datatype Message = RequestHeaders(pool: string, body: string) | Other(body: string)

  datatype Reply = RecvError | NotHeaders | NoPool | UnknownPool | CellDraining | Returned | Panicked

  /** The gRPC stream: what the gateway sends, and how much of it has been received. */
  class Stream {
    const messages: seq<Message>
    var pos: nat

    constructor (messages: seq<Message>)
      ensures this.messages == messages && pos == 0
    {
      this.messages, pos := messages, 0;
    }

    ghost predicate Valid()
      reads this
    {
      pos <= |messages|
    }

    method Recv() returns (m: Option<Message>)
      requires Valid()
      modifies this
      ensures Valid()
      ensures if old(pos) < |messages| then m == Some(messages[old(pos)]) && pos == old(pos) + 1
              else m == None && pos == old(pos)
    {
      if pos < |messages| {
        m := Some(messages[pos]);
        pos := pos + 1;
      } else {
        m := None;
      }
    }
  }

  /** Replays the message already received, then goes on with the stream. */
  class BufferedStream {
    const inner: Stream
    const first: Message
    var used: bool

    constructor (inner: Stream, first: Message)
      ensures this.inner == inner && this.first == first && !used
    {
      this.inner, this.first, used := inner, first, false;
    }

    /** What a reader of this stream will still receive. */
    ghost function Rest(): seq<Message>
      requires inner.Valid()
      reads this, inner
    {
      (if used then [] else [first]) + inner.messages[inner.pos..]
    }

    method Recv() returns (m: Option<Message>)
      requires inner.Valid()
      modifies this, inner
      ensures inner.Valid()
      ensures if old(Rest()) == [] then m == None && Rest() == []
              else m == Some(old(Rest())[0]) && Rest() == old(Rest())[1..]
    {
      if !used {
        used := true;
        return Some(first);
      }
      m := inner.Recv();
    }
  }

  /** How the engine's StreamingServer ends: it returns, or it panics part-way. */
  datatype Exit = Return | Panic

  /** Receives up to `count` messages, unless it panics before the one with number `panicAt`. */
  method Receive(b: BufferedStream, count: nat, panicAt: Option<nat>) returns (seen: seq<Message>, exit: Exit)
    requires b.inner.Valid()
    modifies b, b.inner
    ensures b.inner.Valid()
    ensures seen + b.Rest() == old(b.Rest())
    ensures exit == if panicAt.Some? && panicAt.value < count then Panic else Return
    ensures var asked := if exit == Panic then panicAt.value else count;
            |seen| == if asked < |old(b.Rest())| then asked else |old(b.Rest())|
  {
    seen := [];
    ghost var all := b.Rest();
    for i := 0 to count
      invariant b.inner.Valid()
      invariant panicAt.Some? ==> i <= panicAt.value || panicAt.value >= count
      invariant |seen| == if i < |all| then i else |all|
      invariant seen == all[..|seen|] && b.Rest() == all[|seen|..]
    {
      if panicAt == Some(i) { return seen, Panic; }
      var m := b.Recv();
      if m.Some? { seen := seen + [m.value]; }
    }
    exit := Return;
  }

  /** The engine's StreamingServer. It is entered only while the engine's counter holds the request. */
  method Serve(b: BufferedStream, eng: Engine, count: nat, panicAt: Option<nat>)
    returns (seen: seq<Message>, exit: Exit)
    requires b.inner.Valid() && eng.wg > 0
    modifies b, b.inner, eng`served
    ensures b.inner.Valid()
    ensures eng.served == old(eng.served) + [eng.wg]
    ensures seen + b.Rest() == old(b.Rest())
    ensures exit == if panicAt.Some? && panicAt.value < count then Panic else Return
    ensures var asked := if exit == Panic then panicAt.value else count;
            |seen| == if asked < |old(b.Rest())| then asked else |old(b.Rest())|
  {
    eng.served := eng.served + [eng.wg];
    seen, exit := Receive(b, count, panicAt);
  }

  class Server {
    const manager: Manager
    const defaultPool: string

    constructor (manager: Manager, defaultPool: string)
      ensures this.manager == manager && this.defaultPool == defaultPool
    {
      this.manager, this.defaultPool := manager, defaultPool;
    }

    /** The cluster a first message is routed to. */
    function PoolOf(first: Message): string
      requires first.RequestHeaders?
    {
      if first.pool == "" then defaultPool else first.pool
    }

    /** The stream begins with request headers that name `pool`, or name none and `pool` is the default. */
    ghost predicate RoutedTo(messages: seq<Message>, pool: string) {
      && |messages| > 0 && messages[0].RequestHeaders? && pool != ""
      && (messages[0].pool == pool || (messages[0].pool == "" && defaultPool == pool))
    }

    /** Why a request is refused before any engine sees it; None when it is served. */
    ghost function Refusal(messages: seq<Message>): Option<Reply>
      reads manager, manager.cells.Values
    {
      if |messages| == 0 then Some(RecvError)
      else if !messages[0].RequestHeaders? then Some(NotHeaders)
      else
        var pool := PoolOf(messages[0]);
        if pool == "" then Some(NoPool)
        else if pool !in manager.cells then Some(UnknownPool)
        else
          var c := manager.cells[pool];
          if c.engine == null || c.role != RolePrimary then Some(CellDraining) else None
    }

    /** `e` is the current engine of the cell the stream is routed to. */
    ghost predicate CurrentFor(messages: seq<Message>, e: Engine)
      reads manager, manager.cells.Values
    {
      exists pool :: RoutedTo(messages, pool) && pool in manager.cells && manager.cells[pool].engine == e
    }

    /** Of this engine's fields only `served` may differ: it has been handed one stream, with the request counted, or
        none. */
    twostate predicate Served(e: Engine, once: bool)
      reads e
    {
      && unchanged(e`cancelled, e`starting, e`demoted, e`wg)
      && e.served == old(e.served) + if once then [old(e.wg) + 1] else []
    }

    /** Tracks the request and serves it on the buffered stream. The deferred done runs on the way out of a return and,
        on the other path, while a panic unwinds to the recover above it; None when the engine was swapped out. */
    method HandOver(c: Cell, eng: Engine, stream: Stream, first: Message, count: nat, panicAt: Option<nat>)
      returns (exit: Option<Exit>, seen: seq<Message>)
      requires stream.pos == 1 <= |stream.messages| && first == stream.messages[0]
      modifies stream, eng`wg, eng`served
      ensures eng.wg == old(eng.wg) && (exit.Some? <==> c.engine == eng)
      ensures eng.served == old(eng.served) + if exit.Some? then [old(eng.wg) + 1] else []
      ensures exit.Some? ==> exit.value == if panicAt.Some? && panicAt.value < count then Panic else Return
      ensures seen == if exit.None? then [] else Received(stream.messages, count, panicAt)
    {
      var ok := c.Track(eng);
      if !ok { return None, []; }
      var b := new BufferedStream(stream, first);
      assert b.Rest() == stream.messages;
      var how;
      seen, how := Serve(b, eng, count, panicAt);
      match how {
        case Return =>
          eng.wg := eng.wg - 1;
        case Panic =>
          eng.wg := eng.wg - 1;
      }
      exit := Some(how);
    }

    /** What an engine that would receive `count` messages has received when it returns or panics. */
    function Received(messages: seq<Message>, count: nat, panicAt: Option<nat>): (seen: seq<Message>)
      ensures seen <= messages
      ensures panicAt.Some? && panicAt.value < count && panicAt.value < |messages| ==> |seen| == panicAt.value
      ensures (panicAt.None? || panicAt.value >= count) && count < |messages| ==> |seen| == count
      ensures count >= |messages| && (panicAt.None? || panicAt.value >= |messages|) ==> seen == messages
    {
      var asked := if panicAt.Some? && panicAt.value < count then panicAt.value else count;
      if asked < |messages| then messages[..asked] else messages
    }

    /** The checks before a request is tracked: the first message, the pool, the cell, its engine and its role. */
    method Route(stream: Stream) returns (refusal: Option<Reply>, c: Cell?, eng: Engine?)
      requires manager.Valid() && stream.pos == 0
      modifies stream
      ensures refusal == Refusal(stream.messages)
      ensures refusal.None? ==>
                && stream.pos == 1 <= |stream.messages| && c != null && eng != null && c.engine == eng
                && eng in manager.allEngines && CurrentFor(stream.messages, eng)
    {
      c, eng := null, null;
      var m := stream.Recv();
      if m.None? { return Some(RecvError), c, eng; }
      var first := m.value;
      if !first.RequestHeaders? { return Some(NotHeaders), c, eng; }
      var pool := PoolOf(first);
      if pool == "" { return Some(NoPool), c, eng; }
      assert RoutedTo(stream.messages, pool);
      if pool !in manager.cells { return Some(UnknownPool), c, eng; }
      c := manager.cells[pool];
      manager.Finds(pool);
      manager.Sees(c);
      eng := c.engine;
      refusal := if eng == null || c.role != RolePrimary then Some(CellDraining) else None;
    }

    /** The refusals, each by what the stream and the cell hold. */
    lemma RefusalMeans(messages: seq<Message>)
      ensures var r := Refusal(messages);
              && (r == Some(RecvError) <==> messages == [])
              && (r == Some(NotHeaders) <==> messages != [] && !messages[0].RequestHeaders?)
              && (r == Some(NoPool) <==>
                    messages != [] && messages[0].RequestHeaders? && messages[0].pool == defaultPool == "")
              && (forall pool | RoutedTo(messages, pool) ::
                    && (r == Some(UnknownPool) <==> pool !in manager.cells)
                    && (r == None <==> pool in manager.cells && manager.cells[pool].engine != null
                                       && manager.cells[pool].role == RolePrimary))
              && (r in {None, Some(UnknownPool), Some(CellDraining)} <==> exists pool :: RoutedTo(messages, pool))
              && r != Some(Returned) && r != Some(Panicked)
    {
      if |messages| > 0 && messages[0].RequestHeaders? {
        var pool := PoolOf(messages[0]);
        assert pool != "" ==> RoutedTo(messages, pool);
      }
    }

    /** `count` and `panicAt` say how the engine goes about it. A refused request reaches no engine; a served one is
        handed, with the counter one higher, to the current engine of the primary cell it is routed to, which reads the
        stream from its very first message; and on every path, a panic part-way included, no counter stays raised. */
    method Process(stream: Stream, count: nat, panicAt: Option<nat>)
      returns (reply: Reply, seen: seq<Message>, ghost server: Engine?)
      requires manager.Valid() && stream.pos == 0
      modifies stream, manager.allEngines
      ensures forall e <- manager.allEngines :: Served(e, e == server)
      ensures server != null <==> reply in {Returned, Panicked}
      ensures server != null ==> server in manager.allEngines && CurrentFor(stream.messages, server)
      ensures match old(Refusal(stream.messages))
              case Some(r) => reply == r && seen == []
              case None => reply == (if panicAt.Some? && panicAt.value < count then Panicked else Returned)
                           && seen == Received(stream.messages, count, panicAt)
    {
      seen, server := [], null;
      var refusal, c, eng := Route(stream);
      if refusal.Some? {
        RefusalMeans(stream.messages);
        return refusal.value, [], null;
      }
      var exit;
      exit, seen := HandOver(c, eng, stream, stream.messages[0], count, panicAt);
      match exit {
        case None => return CellDraining, [], null;
        case Some(Return) => return Returned, seen, eng;
        case Some(Panic) => return Panicked, seen, eng;
      }
    }
  }
}
