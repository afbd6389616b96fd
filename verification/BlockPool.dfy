/** getBlockPool of indexer/pool.go, the channels it holds, and cleanupTimeoutedCh of indexer/account.go. */
module BlockPool {
  import opened Rpc
  import opened Batches

  /** A Go channel of responses: what is waiting on it, and whether it was closed. */
  class Channel {
    var buffer: seq<Response>
    var closed: bool
    const capacity: nat

    constructor (capacity: nat)
      ensures buffer == [] && !closed && this.capacity == capacity
    {
      buffer, closed := [], false;
      this.capacity := capacity;
    }
  }

  /** getBlockPoolDrain: receives until nothing is waiting. */
  method Empty(c: Channel)
    requires !c.closed
    modifies c`buffer
    ensures c.buffer == []
  {
    while c.buffer != []
      decreases |c.buffer|
    {
      c.buffer := c.buffer[1..];
    }
  }

  class GetBlockPool {
    /** The buffered channel of channels: oldest first. */
    var stor: seq<Channel>
    const cap: nat

    /** The pool holds at most cap channels, all different, none of them closed. */
    ghost predicate Valid()
      reads this, stor
    {
      && |stor| <= cap
      && (forall i, j :: 0 <= i < j < |stor| ==> stor[i] != stor[j])
      && (forall i :: 0 <= i < |stor| ==> !stor[i].closed && stor[i].capacity == CAPACITY)
    }

    constructor (cap: nat)
      ensures Valid() && stor == [] && this.cap == cap
    {
      stor := [];
      this.cap := cap;
    }

    /** Hands out the channel that was put back first, emptied, or a new one. */
    method Get() returns (ch: Channel)
      requires Valid()
      modifies this, stor
      ensures Valid() && ch !in stor
      ensures ch.buffer == [] && !ch.closed && ch.capacity == 20
      ensures old(stor) == [] ==> fresh(ch) && stor == []
      ensures old(stor) != [] ==> ch == old(stor)[0] && stor == old(stor)[1..]
      ensures forall c <- stor :: c.buffer == old(c.buffer) && !c.closed
    {
      if stor != [] {
        ch := stor[0];
        stor := stor[1..];
        Empty(ch);
      } else {
        ch := new Channel(CAPACITY);
      }
    }

    /** A full pool closes the channel instead. Closing it twice would panic, so it must be open, and it
        must not be in the pool already. */
    method Put(ch: Channel)
      requires Valid() && !ch.closed && ch.capacity == CAPACITY && ch !in stor
      modifies this, ch`closed
      ensures Valid()
      ensures |old(stor)| < cap ==> stor == old(stor) + [ch] && !ch.closed
      ensures |old(stor)| >= cap ==> stor == old(stor) && ch.closed
    {
      if |stor| < cap {
        stor := stor + [ch];
      } else {
        ch.closed := true;
      }
    }
  }

  // ----- the cleanup goroutine

  /** What the goroutine wakes up for: a reply, or ten minutes without one. */
  datatype Wake = Got | Elapsed

  /** The first n wakes that are replies. */
  function Replies(wakes: seq<Wake>): nat {
    if wakes == [] then 0 else Replies(wakes[..|wakes| - 1]) + (if wakes[|wakes| - 1].Got? then 1 else 0)
  }

  /** Reads num replies or waits ten minutes for one, then closes the channel. ended is false while the
      goroutine has not woken up often enough. */
  method CleanupTimeoutedCh(ch: Channel, num: nat, wakes: seq<Wake>) returns (ended: bool, received: nat)
    requires !ch.closed
    modifies ch`closed
    ensures ch.closed == ended
    ensures ended ==> exists k ::
              && 0 < k <= |wakes| && received == Replies(wakes[..k])
              && (forall j :: 0 <= j < k - 1 ==> wakes[j].Got?)
              && (num == 0 || Replies(wakes[..k - 1]) < num)
              && (wakes[k - 1].Elapsed? || received == num)
    ensures !ended ==> received == |wakes| == Replies(wakes) && (num == 0 || received < num) && Elapsed !in wakes
  {
    received, ended := 0, false;
    var k := 0;
    while k < |wakes|
      invariant 0 <= k <= |wakes| && received == k == Replies(wakes[..k]) && !ended && !ch.closed
      invariant num == 0 || received < num
      invariant forall j :: 0 <= j < k ==> wakes[j].Got?
    {
      assert wakes[..k + 1][..k] == wakes[..k];
      if wakes[k].Elapsed? {
        ended := true;
        ch.closed := true;
        assert received == Replies(wakes[..k + 1]);
        return;
      }
      received := received + 1;
      k := k + 1;
      if received == num {
        ended := true;
        ch.closed := true;
        return;
      }
    }
    assert wakes[..k] == wakes;
  }
}
