/**
 * Go's buffered channels as the reaper uses them: a bounded FIFO buffer that
 * the reaper writes with the non-blocking `select { case ch <- v: default: }`
 * and that may have been closed by its consumer.
 */
module Channels {
  import opened Base

  /** What one non-blocking send did. */
  datatype SendResult =
    | Sent          // there was room: the value is now at the back of the buffer
    | Full          // the `default` branch: the value was dropped
    | SendOnClosed  // the send panicked because the consumer closed the channel

  /** The buffer a non-blocking send of `x` leaves behind. */
  function Offer<T>(buffer: seq<T>, capacity: nat, closed: bool, x: T): seq<T>
  {
    if !closed && |buffer| < capacity then buffer + [x] else buffer
  }

  /** The buffer after offering each of `xs` in turn, with no receive in between. */
  function OfferAll<T>(buffer: seq<T>, capacity: nat, closed: bool, xs: seq<T>): seq<T>
  {
    if xs == [] then buffer
    else Offer(OfferAll(buffer, capacity, closed, xs[..|xs| - 1]), capacity, closed, xs[|xs| - 1])
  }

  /**
   * Offering a batch keeps exactly the first values that fit, in order, and
   * drops the rest; a closed channel keeps nothing.
   */
  lemma {:induction false} OfferAllKeepsWhatFits<T>(buffer: seq<T>, capacity: nat, closed: bool, xs: seq<T>)
    ensures OfferAll(buffer, capacity, closed, xs) ==
            if closed || |buffer| >= capacity then buffer
            else buffer + xs[..Min(|xs|, capacity - |buffer|)]
  {
    if xs != [] {
      var init := xs[..|xs| - 1];
      OfferAllKeepsWhatFits(buffer, capacity, closed, init);
      if !closed && |buffer| < capacity {
        var k := Min(|init|, capacity - |buffer|);
        if k < capacity - |buffer| {
          assert xs[..k + 1] == init[..k] + [xs[|xs| - 1]];
        } else {
          assert xs[..Min(|xs|, capacity - |buffer|)] == init[..k];
        }
      }
    }
  }

  /** Offering one batch after another is offering them together. */
  lemma {:induction false} OfferAllAppend<T>(buffer: seq<T>, capacity: nat, closed: bool, xs: seq<T>, ys: seq<T>)
    ensures OfferAll(buffer, capacity, closed, xs + ys) ==
            OfferAll(OfferAll(buffer, capacity, closed, xs), capacity, closed, ys)
    decreases |ys|
  {
    if ys == [] {
      assert xs + ys == xs;
    } else {
      var init := ys[..|ys| - 1];
      assert (xs + ys)[..|xs + ys| - 1] == xs + init;
      assert (xs + ys)[|xs + ys| - 1] == ys[|ys| - 1];
      OfferAllAppend(buffer, capacity, closed, xs, init);
    }
  }

  /** A channel buffer never grows beyond its capacity, however many values are offered. */
  lemma OfferAllWithinCapacity<T>(buffer: seq<T>, capacity: nat, closed: bool, xs: seq<T>)
    requires |buffer| <= capacity
    ensures |OfferAll(buffer, capacity, closed, xs)| <= capacity
    ensures |buffer| < capacity && !closed && xs != [] ==> |OfferAll(buffer, capacity, closed, xs)| > |buffer|
  {
    OfferAllKeepsWhatFits(buffer, capacity, closed, xs);
  }

  class Chan<T> {
    /** The values sent and not yet received, oldest first. */
    var buffer: seq<T>
    /** The capacity given to `make(chan T, capacity)`. */
    const capacity: nat
    /** Whether the consumer has closed the channel. */
    var closed: bool

    ghost predicate Valid()
      reads this
    {
      |buffer| <= capacity
    }

    /** `make(chan T, capacity)`. */
    constructor (capacity: nat)
      ensures Valid() && this.capacity == capacity && buffer == [] && !closed
    {
      this.capacity := capacity;
      buffer := [];
      closed := false;
    }

    /** `select { case ch <- x: default: }`, with a send on a closed channel reported instead of panicking. */
    method TrySend(x: T) returns (r: SendResult)
      requires Valid()
      modifies this
      ensures Valid() && closed == old(closed)
      ensures buffer == Offer(old(buffer), capacity, closed, x)
      ensures r == if closed then SendOnClosed else if |old(buffer)| < capacity then Sent else Full
    {
      if closed {
        r := SendOnClosed;
      } else if |buffer| < capacity {
        buffer := buffer + [x];
        r := Sent;
      } else {
        r := Full;
      }
    }

    /**
     * `<-ch` when a value is pending: the oldest one. `None` stands for a
     * receive that would block (or, on a closed channel, yield the zero value).
     */
    method Receive() returns (x: Option<T>)
      requires Valid()
      modifies this
      ensures Valid() && closed == old(closed)
      ensures old(buffer) == [] ==> x == None && buffer == []
      ensures old(buffer) != [] ==> x == Some(old(buffer)[0]) && buffer == old(buffer)[1..]
    {
      if buffer == [] {
        x := None;
      } else {
        x := Some(buffer[0]);
        buffer := buffer[1..];
      }
    }

    /** `close(ch)` by the consumer; closing a channel twice panics, reported as `false`. */
    method Close() returns (ok: bool)
      requires Valid()
      modifies this
      ensures Valid() && buffer == old(buffer) && closed
      ensures ok == !old(closed)
    {
      ok := !closed;
      closed := true;
    }
  }
}
