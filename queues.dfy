/**
 The bounded FIFO queue of the broadcast engine (class `Queue` with its
 exceptions `QueueEmpty` and `QueueFull`). A `maxsize` of 0 means unbounded.
 The waiting variants `get` and `put` spin cooperatively until the queue is
 non-empty or has room; sequentially they are the same removal and append,
 with "non-empty" and "has room" as preconditions.
 */
module Queues {

  /** Outcome of `get_nowait`: the oldest item, or the `QueueEmpty` exception. */
  datatype GetResult<T> = Got(item: T) | QueueEmpty

  /** Outcome of `put_nowait`: appended, or the `QueueFull` exception. */
  datatype PutResult = Appended | QueueFull

  /**
   The guard of `put` and `put_nowait`, `qsize() >= maxsize and maxsize`:
   an append is refused (or waits) when the size has reached a non-zero
   `maxsize`: an unbounded queue (`maxsize` 0) never refuses, a bounded one
   refuses exactly when it holds `maxsize` items or more, and for a negative
   `maxsize` every append is refused.
   */
  predicate PutBlocked(size: nat, maxsize: int)
    ensures maxsize == 0 ==> !PutBlocked(size, maxsize)
    ensures maxsize > 0 ==> (PutBlocked(size, maxsize) <==> size >= maxsize)
    ensures maxsize < 0 ==> PutBlocked(size, maxsize)
  {
    size >= maxsize && maxsize != 0
  }

  /**
   The answer of `full()`: never full when `maxsize <= 0`, otherwise full
   exactly when the size has reached `maxsize`. It agrees with the append guard
   for every `maxsize >= 0`, and for a negative `maxsize` the queue reports
   "not full" although every append is refused.
   */
  predicate IsFull(size: nat, maxsize: int)
    ensures maxsize >= 0 ==> (IsFull(size, maxsize) <==> PutBlocked(size, maxsize))
    ensures maxsize < 0 ==> !IsFull(size, maxsize) && PutBlocked(size, maxsize)
  {
    if maxsize <= 0 then false else size >= maxsize
  }

  /**
   One `get_nowait` on the contents `items`: `QueueEmpty` exactly when there
   is nothing to take, and the contents are then unchanged; otherwise the
   item taken followed by the new contents is the old contents.
   */
  function TakeOldest<T>(items: seq<T>): (r: (GetResult<T>, seq<T>))
    ensures r.0.QueueEmpty? <==> items == []
    ensures r.0.QueueEmpty? ==> r.1 == items
    ensures r.0.Got? ==> items == [r.0.item] + r.1
  {
    if items == [] then (QueueEmpty, items) else (Got(items[0]), items[1..])
  }

  /**
   One `put_nowait(v)` on the contents `items`: `QueueFull` exactly when the
   append guard holds, and the contents are then unchanged; otherwise `v` is
   the new last item. A bounded queue within its bound stays within it.
   */
  function AppendNewest<T>(items: seq<T>, maxsize: int, v: T): (r: (PutResult, seq<T>))
    ensures r.0.QueueFull? <==> PutBlocked(|items|, maxsize)
    ensures r.0.QueueFull? ==> r.1 == items
    ensures r.0.Appended? ==> |r.1| == |items| + 1 && r.1[..|items|] == items && r.1[|items|] == v
    ensures maxsize > 0 && |items| <= maxsize ==> |r.1| <= maxsize
  {
    if PutBlocked(|items|, maxsize) then (QueueFull, items) else (Appended, items + [v])
  }

  /** A queue operation in a sequential history. */
  datatype Op<T> = PutOp(value: T) | GetOp

  /**
   What a history of non-blocking operations leaves behind: the final
   contents, the values whose put succeeded (in order) and the values the
   successful gets returned (in order).
   */
  datatype History<T> = History(items: seq<T>, accepted: seq<T>, taken: seq<T>)

  /** Runs `ops` from the contents `items`, failed operations changing nothing. */
  function Run<T>(maxsize: int, items: seq<T>, ops: seq<Op<T>>): History<T>
    decreases |ops|
  {
    if ops == [] then History(items, [], [])
    else match ops[0]
      case PutOp(v) =>
        var (res, next) := AppendNewest(items, maxsize, v);
        var h := Run(maxsize, next, ops[1..]);
        if res.Appended? then History(h.items, [v] + h.accepted, h.taken) else h
      case GetOp =>
        var (res, next) := TakeOldest(items);
        var h := Run(maxsize, next, ops[1..]);
        if res.Got? then History(h.items, h.accepted, [res.item] + h.taken) else h
  }

  /**
   FIFO: over any history, what was taken followed by what is left equals
   what was there at the start followed by everything accepted.
   */
  lemma {:induction false} RunIsFifo<T>(maxsize: int, items: seq<T>, ops: seq<Op<T>>)
    ensures var h := Run(maxsize, items, ops); h.taken + h.items == items + h.accepted
    decreases |ops|
  {
    if ops != [] {
      match ops[0]
      case PutOp(v) =>
        var (res, next) := AppendNewest(items, maxsize, v);
        RunIsFifo(maxsize, next, ops[1..]);
        if res.Appended? {
          assert next == items + [v];
        }
      case GetOp =>
        var (res, next) := TakeOldest(items);
        RunIsFifo(maxsize, next, ops[1..]);
        if res.Got? {
          var h := Run(maxsize, next, ops[1..]);
          assert [res.item] + h.taken + h.items == [res.item] + (h.taken + h.items);
        }
    }
  }

  /** From an empty queue, the items taken are a prefix of the items put, in order. */
  lemma TakenIsPrefixOfAccepted<T>(maxsize: int, ops: seq<Op<T>>)
    ensures var h := Run(maxsize, [], ops); h.taken <= h.accepted
  {
    var h := Run(maxsize, [], ops);
    RunIsFifo(maxsize, [], ops);
    assert h.taken + h.items == h.accepted;
    assert h.accepted[..|h.taken|] == h.taken;
  }

  /** No history of puts and gets takes a bounded queue beyond its bound. */
  lemma {:induction false} RunStaysBounded<T>(maxsize: int, items: seq<T>, ops: seq<Op<T>>)
    requires maxsize > 0 && |items| <= maxsize
    ensures |Run(maxsize, items, ops).items| <= maxsize
    decreases |ops|
  {
    if ops != [] {
      match ops[0]
      case PutOp(v) =>
        RunStaysBounded(maxsize, AppendNewest(items, maxsize, v).1, ops[1..]);
      case GetOp =>
        RunStaysBounded(maxsize, TakeOldest(items).1, ops[1..]);
    }
  }

  /** `Queue(maxsize)`: the list `_queue` holds the items, oldest first. */
  class Queue<T> {
    const maxsize: int
    var items: seq<T>

    /** A bounded queue never holds more than `maxsize` items. */
    ghost predicate Valid()
      reads this
    {
      maxsize > 0 ==> |items| <= maxsize
    }

    constructor (maxsize: int)
      ensures Valid()
      ensures this.maxsize == maxsize && items == []
    {
      this.maxsize := maxsize;
      items := [];
    }

    /** `qsize()`: the number of items held. */
    function QSize(): (n: nat)
      reads this
      ensures n == |items|
      ensures Valid() && maxsize > 0 ==> n <= maxsize
    {
      |items|
    }

    /** `empty()`: true exactly when no item is held. */
    predicate Empty()
      reads this
      ensures Empty() <==> QSize() == 0
      ensures Empty() <==> items == []
    {
      |items| == 0
    }

    /** `full()`: see `IsFull` for how it relates to the append guard. */
    predicate Full()
      reads this
      ensures Full() <==> maxsize > 0 && QSize() >= maxsize
      ensures maxsize >= 0 ==> (Full() <==> PutBlocked(QSize(), maxsize))
    {
      IsFull(QSize(), maxsize)
    }

    /** `_get()`: removes and returns the oldest item. */
    method RemoveOldest() returns (x: T)
      requires items != []
      modifies this
      ensures [x] + items == old(items)
    {
      x := items[0];
      items := items[1..];
    }

    /** `_put(val)`: appends `val` as the newest item. */
    method AppendItem(val: T)
      modifies this
      ensures items == old(items) + [val]
    {
      items := items + [val];
    }

    /** `get()` once its wait is over: the queue is non-empty, the oldest item is removed. */
    method Get() returns (x: T)
      requires Valid() && !Empty()
      modifies this
      ensures Valid()
      ensures x == old(items)[0] && items == old(items)[1..]
    {
      x := RemoveOldest();
    }

    /** `get_nowait()`: the oldest item, or `QueueEmpty` with the queue untouched. */
    method GetNowait() returns (r: GetResult<T>)
      requires Valid()
      modifies this
      ensures Valid()
      ensures (r, items) == TakeOldest(old(items))
    {
      if Empty() {
        return QueueEmpty;
      }
      var x := RemoveOldest();
      r := Got(x);
    }

    /** `put(val)` once its wait is over: the append guard no longer holds. */
    method Put(val: T)
      requires Valid() && !PutBlocked(QSize(), maxsize)
      modifies this
      ensures Valid()
      ensures items == old(items) + [val]
    {
      AppendItem(val);
    }

    /** `put_nowait(val)`: appended, or `QueueFull` with the queue untouched. */
    method PutNowait(val: T) returns (r: PutResult)
      requires Valid()
      modifies this
      ensures Valid()
      ensures (r, items) == AppendNewest(old(items), maxsize, val)
    {
      if QSize() >= maxsize && maxsize != 0 {
        return QueueFull;
      }
      AppendItem(val);
      r := Appended;
    }
  }
}
