/**
 * An `asyncio.Queue(maxsize)` as a value: its bound and its items, oldest first.
 * A `maxsize` of zero or less means the queue is unbounded, as in asyncio.
 */
module Channels {
  import opened Wrappers

  datatype Channel<T> = Channel(maxsize: int, items: seq<T>)

  /** A fresh, empty queue. */
  function Empty<T>(maxsize: int): (c: Channel<T>)
    ensures c.maxsize == maxsize && c.items == []
  {
    Channel(maxsize, [])
  }

  /** `Queue.full()`: only a bounded queue can be full. */
  predicate Full<T>(c: Channel<T>) {
    c.maxsize > 0 && |c.items| >= c.maxsize
  }

  /** `put_nowait`: `None` stands for `QueueFull`; otherwise the item joins the back. */
  function PutNowait<T>(c: Channel<T>, x: T): (r: Option<Channel<T>>)
    ensures r.None? <==> Full(c)
    ensures r.Some? ==> r.value.maxsize == c.maxsize && r.value.items == c.items + [x]
  {
    if Full(c) then None else Some(Channel(c.maxsize, c.items + [x]))
  }

  /** `get_nowait`: `None` stands for `QueueEmpty`; otherwise the front item leaves. */
  function GetNowait<T>(c: Channel<T>): (r: Option<(T, Channel<T>)>)
    ensures r.None? <==> c.items == []
    ensures r.Some? ==> r.value.0 == c.items[0]
    ensures r.Some? ==> r.value.1.maxsize == c.maxsize && r.value.1.items == c.items[1..]
  {
    if c.items == [] then None else Some((c.items[0], Channel(c.maxsize, c.items[1..])))
  }

  function Min(a: int, b: int): int {
    if a <= b then a else b
  }

  /**
   * The latest-value put of the config-file monitors: try `put_nowait`; on `QueueFull`
   * discard the oldest item with `get_nowait` and try again. The result holds the last
   * `min(|items| + 1, maxsize)` items of `items + [x]` (all of them when unbounded),
   * so the new item is always last and a bounded queue never exceeds its bound.
   */
  function PutLatest<T>(c: Channel<T>, x: T): (r: Channel<T>)
    decreases |c.items|
    ensures r.maxsize == c.maxsize
  {
    match PutNowait(c, x)
    case Some(put) => put
    case None => PutLatest(GetNowait(c).value.1, x)
  }

  /** The closed form of a latest-value put: the newest items of `items + [x]`, as many as fit. */
  lemma {:induction false} PutLatestKeepsNewest<T>(c: Channel<T>, x: T)
    ensures var r := PutLatest(c, x);
      && |r.items| == (if c.maxsize > 0 then Min(|c.items| + 1, c.maxsize) else |c.items| + 1)
      && r.items == (c.items + [x])[|c.items| + 1 - |r.items|..]
    decreases |c.items|
  {
    if Full(c) {
      var dropped := Channel(c.maxsize, c.items[1..]);
      assert GetNowait(c).value.1 == dropped;
      PutLatestKeepsNewest(dropped, x);
      var r := PutLatest(dropped, x);
      assert (c.items + [x])[1..] == dropped.items + [x];
      SuffixOfTail(c.items + [x], |r.items|);
    }
  }

  /** A suffix of the tail of `s` is the suffix of `s` of the same length. */
  lemma SuffixOfTail<T>(s: seq<T>, k: nat)
    requires k < |s|
    ensures s[1..][|s| - 1 - k..] == s[|s| - k..]
  {
  }

  /** Successive latest-value puts of `xs`, first to last. */
  function PutAll<T>(c: Channel<T>, xs: seq<T>): Channel<T>
    decreases |xs|
  {
    if xs == [] then c else PutAll(PutLatest(c, xs[0]), xs[1..])
  }

  /** After a latest-value put the new item is the last one and a bounded queue stays within its bound. */
  lemma PutLatestIsLast<T>(c: Channel<T>, x: T)
    ensures var r := PutLatest(c, x);
      |r.items| > 0 && r.items[|r.items| - 1] == x && (c.maxsize > 0 ==> |r.items| <= c.maxsize)
  {
    var r := PutLatest(c, x);
    PutLatestKeepsNewest(c, x);
    assert r.items[|r.items| - 1] == (c.items + [x])[|c.items|];
  }

  /** A queue of capacity one holds exactly the latest item after every put. */
  lemma {:induction false} CapacityOneKeepsLatest<T>(c: Channel<T>, xs: seq<T>)
    requires c.maxsize == 1 && xs != []
    ensures PutAll(c, xs).items == [xs[|xs| - 1]]
    decreases |xs|
  {
    var first := PutLatest(c, xs[0]);
    PutLatestIsLast(c, xs[0]);
    if |xs| > 1 {
      CapacityOneKeepsLatest(first, xs[1..]);
      assert xs[1..][|xs[1..]| - 1] == xs[|xs| - 1];
    }
  }

  /** Puts that never meet a full queue keep every item in arrival order (FIFO, no loss). */
  lemma {:induction false} PutAllWithoutOverflow<T>(c: Channel<T>, xs: seq<T>)
    requires c.maxsize <= 0 || |c.items| + |xs| <= c.maxsize
    ensures PutAll(c, xs) == Channel(c.maxsize, c.items + xs)
    decreases |xs|
  {
    if xs != [] {
      var first := PutLatest(c, xs[0]);
      assert first.items == c.items + [xs[0]];
      PutAllWithoutOverflow(first, xs[1..]);
      assert c.items + [xs[0]] + xs[1..] == c.items + xs;
    }
  }

  /** A bounded queue that starts within its bound stays within it under any sequence of puts. */
  lemma {:induction false} PutAllWithinBound<T>(c: Channel<T>, xs: seq<T>)
    requires 0 < c.maxsize && |c.items| <= c.maxsize
    ensures PutAll(c, xs).maxsize == c.maxsize && |PutAll(c, xs).items| <= c.maxsize
    decreases |xs|
  {
    if xs != [] {
      PutLatestIsLast(c, xs[0]);
      PutAllWithinBound(PutLatest(c, xs[0]), xs[1..]);
    }
  }
}
