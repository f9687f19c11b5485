/** pkg/poller/poller.go and helpers.go: the versioned polling loop and its backoff. */
module Poller {
  import opened Types

  // ---- backoff, in nanoseconds held by a signed 64-bit integer ----

  const SECOND: int := 1_000_000_000
  const CEILING: int := 30 * SECOND
  const TWO_62: int := 0x4000_0000_0000_0000
  const TWO_63: int := 0x8000_0000_0000_0000
  const TWO_64: int := 0x1_0000_0000_0000_0000

  function Wrap64(x: int): int {
    (x + TWO_63) % TWO_64 - TWO_63
  }

  datatype BackoffState = BackoffState(current: int, max: int)

  function AfterFailure(b: BackoffState): BackoffState {
    if b.current <= 0 then b.(current := SECOND)
    else
      var doubled := Wrap64(b.current * 2);
      var max := if b.max <= 0 then CEILING else b.max;
      BackoffState(if doubled > max then max else doubled, max)
  }

  /** The backoff after `n` failures in a row. */
  function AfterFailures(n: nat, max: int): BackoffState {
    if n == 0 then BackoffState(0, max) else AfterFailure(AfterFailures(n - 1, max))
  }

  function Pow2(n: nat): (p: nat)
    ensures p >= 1
  {
    if n == 0 then 1 else 2 * Pow2(n - 1)
  }

  function Min(a: int, b: int): int {
    if a < b then a else b
  }

  /** An unset ceiling counts as thirty seconds. */
  function Limit(max: int): int {
    if max <= 0 then CEILING else max
  }

  /** The delay the loop is meant to wait after `n` failures in a row. */
  function Intended(n: nat, max: int): int
    requires n >= 1
  {
    Min(Pow2(n - 1) * SECOND, Limit(max))
  }

  lemma {:induction false} DelayIntended(n: nat, max: int)
    requires n >= 1 && (max <= 0 || SECOND <= max < TWO_63)
    requires max < TWO_62 || Pow2(n - 1) * SECOND < TWO_63
    ensures AfterFailures(n, max).current == Intended(n, max) >= SECOND
    ensures AfterFailures(n, max).current == Min(Pow2(n - 1) * 1_000_000_000, if max <= 0 then 30_000_000_000 else max)
    ensures AfterFailures(n, max).max == if n == 1 then max else Limit(max)
  {
    if n > 1 {
      assert Pow2(n - 1) == 2 * Pow2(n - 2);
      DelayIntended(n - 1, max);
      var c := AfterFailures(n - 1, max).current;
      assert c * 2 < TWO_63;
      assert Wrap64(c * 2) == c * 2;
    } else {
      assert AfterFailures(0, max) == BackoffState(0, max);
    }
  }

  lemma Pow2Of32()
    ensures Pow2(32) == 0x1_0000_0000 && Pow2(33) == 0x2_0000_0000
  {
    assert Pow2(8) == 256;
    assert Pow2(16) == 65536;
    assert Pow2(24) == 16777216;
  }

  /** The delay after n failures in a row is min(2^(n-1) s, ceiling) for every n if and only if the ceiling is unset,
      or at least a second and below 2^62 ns. A shorter one is exceeded by the first delay, and from 2^62 ns on
      doubling overflows at the 35th failure. */
  lemma DelayIntendedIff(max: int)
    requires max < TWO_63
    ensures (forall n: nat | n >= 1 :: AfterFailures(n, max).current == Intended(n, max))
            <==> max <= 0 || SECOND <= max < TWO_62
  {
    if max <= 0 || SECOND <= max < TWO_62 {
      forall n: nat | n >= 1 ensures AfterFailures(n, max).current == Intended(n, max) { DelayIntended(n, max); }
    } else if max < SECOND {
      assert AfterFailures(0, max) == BackoffState(0, max);
      assert AfterFailures(1, max).current == SECOND;
      assert Intended(1, max) == max;
    } else {
      Pow2Of32();
      DelayIntended(34, max);
      var c := AfterFailures(34, max).current;
      assert c >= TWO_62;
      assert Wrap64(c * 2) == c * 2 - TWO_64;
      assert AfterFailures(35, max).current < 0;
      assert Intended(35, max) > 0;
    }
  }

  class Backoff {
    var current: int
    var max: int

    constructor ()
      ensures current == 0 && max == 0
    {
      current, max := 0, 0;
    }

    method Next() returns (delay: int)
      modifies this
      ensures BackoffState(current, max) == AfterFailure(BackoffState(old(current), old(max))) && delay == current
    {
      if current <= 0 {
        current := SECOND;
        return current;
      }
      current := Wrap64(current * 2);
      if max <= 0 { max := CEILING; }
      if current > max { current := max; }
      return current;
    }

    method Reset()
      modifies this`current
      ensures current == 0
    {
      current := 0;
    }
  }

  // ---- the loop ----

  /** What one round meets: the fetch fails, the server has nothing newer, or it sends data that the handler takes or
      refuses. */
  datatype Round<T> = FetchError | NoChange | Changed(version: string, data: T, handled: bool)

  /** The round brought data and the handler took it. */
  predicate Accepted<T>(r: Round<T>) {
    r.Changed? && r.handled
  }

  predicate Clean<T>(r: Round<T>) {
    r.NoChange? || Accepted(r)
  }

  /** The version of the last round whose data was fetched and handled. */
  function LastGood<T>(rounds: seq<Round<T>>): string {
    if |rounds| == 0 then ""
    else
      var r := rounds[|rounds| - 1];
      if r.Changed? && r.handled then r.version else LastGood(rounds[..|rounds| - 1])
  }

  /** The version in store is that of the last round the handler accepted, and empty before the first. */
  lemma {:induction false} LastGoodIs<T>(rounds: seq<Round<T>>, n: nat)
    requires n <= |rounds| && forall k | n <= k < |rounds| :: !Accepted(rounds[k])
    requires n > 0 ==> Accepted(rounds[n - 1])
    ensures LastGood(rounds) == if n == 0 then "" else rounds[n - 1].version
    decreases |rounds|
  {
    if n < |rounds| { LastGoodIs(rounds[..|rounds| - 1], n); }
  }

  /** Everything the handler was called with: the data of every round that brought some, whatever it answered. */
  function Handed<T>(rounds: seq<Round<T>>): seq<T> {
    if |rounds| == 0 then []
    else
      var r := rounds[|rounds| - 1];
      Handed(rounds[..|rounds| - 1]) + if r.Changed? then [r.data] else []
  }

  /** The rounds before round `i` that brought data. */
  function ChangedBefore<T>(rounds: seq<Round<T>>, i: nat): set<nat>
    requires i <= |rounds|
  {
    set j: nat | j < i && rounds[j].Changed?
  }

  lemma ChangedBeforeNext<T>(rounds: seq<Round<T>>, i: nat)
    requires i < |rounds|
    ensures |ChangedBefore(rounds, i + 1)| == |ChangedBefore(rounds, i)| + if rounds[i].Changed? then 1 else 0
  {
    assert ChangedBefore(rounds, i + 1) == ChangedBefore(rounds, i) + if rounds[i].Changed? then {i} else {};
  }

  lemma ChangedBeforePrefix<T>(rounds: seq<Round<T>>, n: nat, i: nat)
    requires i <= n <= |rounds|
    ensures ChangedBefore(rounds[..n], i) == ChangedBefore(rounds, i)
  {}

  /** The handler is called once for each round that brought data, in order and with that data: the call for round `i`
      is the one numbered by the rounds before it that brought some. */
  lemma {:induction false} HandedAt<T>(rounds: seq<Round<T>>, i: nat)
    requires i <= |rounds|
    ensures |Handed(rounds)| == |ChangedBefore(rounds, |rounds|)|
    ensures i < |rounds| && rounds[i].Changed? ==>
              && |ChangedBefore(rounds, i)| < |Handed(rounds)|
              && Handed(rounds)[|ChangedBefore(rounds, i)|] == rounds[i].data
    decreases |rounds|
  {
    if |rounds| > 0 {
      var n := |rounds| - 1;
      HandedAt(rounds[..n], if i < n then i else n);
      ChangedBeforeNext(rounds, n);
      ChangedBeforePrefix(rounds, n, n);
      if i < n {
        ChangedBeforePrefix(rounds, n, i);
        assert rounds[..n][i] == rounds[i];
      }
    }
  }

  /** How many fetch failures the rounds end with. */
  function TrailingFailures<T>(rounds: seq<Round<T>>): nat {
    if |rounds| == 0 || !rounds[|rounds| - 1].FetchError? then 0 else 1 + TrailingFailures(rounds[..|rounds| - 1])
  }

  /** The delay before the next round. */
  function Delay<T>(rounds: seq<Round<T>>, interval: int): int {
    var n := TrailingFailures(rounds);
    if |rounds| == 0 then 0 else if n > 0 then Intended(n, 0) else interval
  }

  /** The wait before a round: none before the first, the interval after a round whose fetch succeeded, and after
      exactly `n` failures in a row the smaller of 2^(n-1) s and 30 s. */
  lemma {:induction false} DelayIs<T>(rounds: seq<Round<T>>, interval: int, n: nat)
    requires n <= |rounds| && forall i | |rounds| - n <= i < |rounds| :: rounds[i].FetchError?
    requires n < |rounds| ==> !rounds[|rounds| - n - 1].FetchError?
    ensures Delay(rounds, interval) ==
              if |rounds| == 0 then 0
              else if n == 0 then interval
              else Min(Pow2(n - 1) * 1_000_000_000, 30_000_000_000)
  {
    TrailingIs(rounds, n);
  }

  lemma {:induction false} TrailingIs<T>(rounds: seq<Round<T>>, n: nat)
    requires n <= |rounds| && forall i | |rounds| - n <= i < |rounds| :: rounds[i].FetchError?
    requires n < |rounds| ==> !rounds[|rounds| - n - 1].FetchError?
    ensures TrailingFailures(rounds) == n
  {
    if n > 0 { TrailingIs(rounds[..|rounds| - 1], n - 1); }
  }

  class Poller<T> {
    const interval: int
    var version: string
    /** Whether the channel FirstSync() returns is closed, which is also whether `once` is done. */
    var firstSync: bool
    const backoff: Backoff

    constructor (interval: int)
      ensures this.interval == interval && version == "" && !firstSync
      ensures fresh(backoff) && backoff.current == 0 && backoff.max == 0
    {
      this.interval, version, firstSync := interval, "", false;
      backoff := new Backoff();
    }

    /** The loop over the rounds met before the context ends; `delays[i]` is the wait before round i. */
    method Start(rounds: seq<Round<T>>) returns (delays: seq<int>, handed: seq<T>)
      requires version == "" && !firstSync && backoff.current == 0 && backoff.max == 0
      modifies this, backoff
      ensures version == LastGood(rounds)
      ensures handed == Handed(rounds)
      ensures firstSync <==> exists i | 0 <= i < |rounds| :: rounds[i].NoChange? || Accepted(rounds[i])
      ensures |delays| == |rounds|
      ensures forall i | 0 <= i < |rounds| ::
                delays[i] == Delay(rounds[..i], if interval <= 0 then 5_000_000_000 else interval)
    {
      var tick := if interval <= 0 then 5_000_000_000 else interval;
      var delay := 0;
      delays, handed := [], [];
      for i := 0 to |rounds|
        invariant version == LastGood(rounds[..i]) && handed == Handed(rounds[..i])
        invariant firstSync <==> exists j | 0 <= j < i :: Clean(rounds[j])
        invariant delay == Delay(rounds[..i], tick)
        invariant |delays| == i && forall j | 0 <= j < i :: delays[j] == Delay(rounds[..j], tick)
        invariant backoff.max == 0 || backoff.max == CEILING
        invariant BackoffMatches(BackoffState(backoff.current, backoff.max), TrailingFailures(rounds[..i]))
      {
        delays := delays + [delay];
        assert rounds[..i + 1][..i] == rounds[..i];
        if rounds[i].FetchError? {
          BackoffNext(BackoffState(backoff.current, backoff.max), TrailingFailures(rounds[..i]));
          delay := backoff.Next();
          continue;
        }
        backoff.Reset();
        delay := tick;
        if rounds[i].Changed? {
          handed := handed + [rounds[i].data];
          if !rounds[i].handled { continue; }
          version := rounds[i].version;
        }
        firstSync := true;
      }
      assert rounds[..|rounds|] == rounds;
    }
  }

  /** The backoff of a poller that has just seen `n` fetch failures in a row; the ceiling stays set once it is. */
  ghost predicate BackoffMatches(b: BackoffState, n: nat) {
    && (b.max == 0 || b.max == CEILING)
    && b.current == (if n == 0 then 0 else Intended(n, 0))
  }

  lemma BackoffNext(b: BackoffState, n: nat)
    requires BackoffMatches(b, n)
    ensures BackoffMatches(AfterFailure(b), n + 1) && AfterFailure(b).current == Intended(n + 1, 0)
  {
    if n > 0 {
      assert Pow2(n) == 2 * Pow2(n - 1);
      assert Wrap64(b.current * 2) == b.current * 2;
    }
  }

  // ---- against a versioned server ----

  /** The data the consumer holds: that of the last round fetched and handled. */
  function LastApplied<T>(rounds: seq<Round<T>>): Option<T> {
    if |rounds| == 0 then None
    else
      var r := rounds[|rounds| - 1];
      if r.Changed? && r.handled then Some(r.data) else LastApplied(rounds[..|rounds| - 1])
  }

  /** In round i the server is at version `server[i]`, whose data is `content` of it; it answers "unchanged" only to a
      client that already has that version, and otherwise sends that version's data. Fetches may fail at will. */
  ghost predicate Serves<T>(rounds: seq<Round<T>>, server: seq<string>, content: string -> T) {
    && |server| == |rounds|
    && forall i | 0 <= i < |rounds| ::
         && server[i] != ""
         && (rounds[i].NoChange? ==> LastGood(rounds[..i]) == server[i])
         && (rounds[i].Changed? ==> rounds[i].version == server[i] && rounds[i].data == content(server[i]))
  }

  lemma {:induction false} AppliedMatchesVersion<T>(rounds: seq<Round<T>>, server: seq<string>, content: string -> T,
                                                    n: nat)
    requires Serves(rounds, server, content) && n <= |rounds|
    ensures LastApplied(rounds[..n]) ==
              if LastGood(rounds[..n]) == "" then None else Some(content(LastGood(rounds[..n])))
  {
    if n > 0 {
      assert rounds[..n][..n - 1] == rounds[..n - 1];
      AppliedMatchesVersion(rounds, server, content, n - 1);
    }
  }

  /** What the consumer holds is what the handler was given in the last round it accepted. */
  lemma {:induction false} LastAppliedIs<T>(rounds: seq<Round<T>>, n: nat) returns (j: nat)
    requires n <= |rounds| && LastApplied(rounds[..n]).Some?
    ensures j < n && Accepted(rounds[j]) && forall k | j < k < n :: !Accepted(rounds[k])
    ensures |ChangedBefore(rounds, j)| < |Handed(rounds)|
    ensures LastApplied(rounds[..n]) == Some(Handed(rounds)[|ChangedBefore(rounds, j)|])
  {
    assert rounds[..n][..n - 1] == rounds[..n - 1];
    if Accepted(rounds[n - 1]) {
      j := n - 1;
      HandedAt(rounds, j);
    } else {
      j := LastAppliedIs(rounds, n - 1);
    }
  }

  /** One clean round and the last data the handler has accepted is what the server served in that round; a failing
      round leaves it what it was. */
  lemma CleanRoundSyncs<T>(rounds: seq<Round<T>>, server: seq<string>, content: string -> T, i: nat)
    requires Serves(rounds, server, content) && i < |rounds|
    ensures Clean(rounds[i]) ==>
              && LastApplied(rounds[..i + 1]) == Some(content(server[i]))
              && LastGood(rounds[..i + 1]) == server[i]
              && exists j: nat | j <= i ::
                   && Accepted(rounds[j]) && (forall k | j < k <= i :: !Accepted(rounds[k]))
                   && |ChangedBefore(rounds, j)| < |Handed(rounds)|
                   && Handed(rounds)[|ChangedBefore(rounds, j)|] == content(server[i])
    ensures !Clean(rounds[i]) ==>
              && LastApplied(rounds[..i + 1]) == LastApplied(rounds[..i])
              && LastGood(rounds[..i + 1]) == LastGood(rounds[..i])
  {
    assert rounds[..i + 1][..i] == rounds[..i];
    AppliedMatchesVersion(rounds, server, content, i);
    AppliedMatchesVersion(rounds, server, content, i + 1);
    if Clean(rounds[i]) {
      var j := LastAppliedIs(rounds, i + 1);
    }
  }
}
