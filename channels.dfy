/**
  The two multiprocessing primitives the capture protocol is built from, seen from one
  sequential context: a bounded FIFO queue and a boolean event.
 */
module Channels {
  import opened Wrappers

  /** `Queue(maxsize)`: a maxsize of 0 means unbounded, as in Python. With nobody draining the
      queue while a put waits out its timeout, a put on a full queue raises `queue.Full`. */
  predicate IsFull<T>(items: seq<T>, maxsize: nat)
  {
    maxsize > 0 && |items| >= maxsize
  }

  class Channel<T> {
    var items: seq<T>
    const maxsize: nat

    constructor (maxsize: nat)
      ensures items == [] && this.maxsize == maxsize
    {
      this.maxsize := maxsize;
      items := [];
    }

    predicate Empty()
      reads this
    {
      items == []
    }

    /** `put(x, timeout=...)`: appends, or reports `queue.Full` and leaves the queue as it was. */
    method Put(x: T) returns (full: bool)
      modifies this
      ensures full == IsFull(old(items), maxsize)
      ensures items == if full then old(items) else old(items) + [x]
    {
      full := IsFull(items, maxsize);
      if !full {
        items := items + [x];
      }
    }

    /** `get_nowait()`: the oldest item, or `None` where Python raises `queue.Empty`. */
    method GetNowait() returns (r: Option<T>)
      modifies this
      ensures old(items) == [] ==> r == None && items == []
      ensures old(items) != [] ==> r == Some(old(items)[0]) && items == old(items)[1..]
    {
      if items == [] {
        r := None;
      } else {
        r := Some(items[0]);
        items := items[1..];
      }
    }
  }

  /** `multiprocessing.Event`: created unset. */
  class Event {
    var flag: bool

    constructor ()
      ensures !flag
    {
      flag := false;
    }

    method Set()
      modifies this
      ensures flag
    {
      flag := true;
    }

    method Clear()
      modifies this
      ensures !flag
    {
      flag := false;
    }
  }
}
