/** The relay queue between the keyboard interrupt and the consumer task, on values:
    a FIFO of scancodes of fixed capacity 100 whose insert rejects the newest byte when
    full (the `ArrayQueue<u8>` created in `ScancodeStream::new`). The traces here give
    the ordering and loss guarantees of any interleaving of interrupts and pops. */
module RelayQueue {

  /** One raw byte from the keyboard controller (`u8`). */
  type Scancode = bv8

  /** Capacity of the relay queue, fixed at creation. */
  const CAPACITY: nat := 100

  function Min(a: nat, b: nat): nat { if a <= b then a else b }

  /** The queue after a non-blocking insert of `b`: a full queue rejects the new byte
      and keeps its entries and their order; otherwise `b` goes to the back. */
  function Offer(q: seq<Scancode>, b: Scancode): (r: seq<Scancode>)
    ensures q <= r
    ensures |r| == |q| + 1 <==> |q| < CAPACITY
    ensures |q| >= CAPACITY ==> r == q
    ensures |r| > |q| ==> r[|q|] == b
    ensures |q| <= CAPACITY ==> |r| <= CAPACITY
  {
    if |q| < CAPACITY then q + [b] else q
  }

  /** The queue after `bytes` arrive, one interrupt each, with no pop in between. */
  function Fill(q: seq<Scancode>, bytes: seq<Scancode>): seq<Scancode>
    decreases |bytes|
  {
    if bytes == [] then q else Offer(Fill(q, bytes[..|bytes| - 1]), bytes[|bytes| - 1])
  }

  /** How many of `bytes` are rejected (and reported) while filling `q`. */
  function Drops(q: seq<Scancode>, bytes: seq<Scancode>): nat
    decreases |bytes|
  {
    if bytes == [] then 0
    else Drops(q, bytes[..|bytes| - 1]) + (if |Fill(q, bytes[..|bytes| - 1])| < CAPACITY then 0 else 1)
  }

  /** A burst of interrupts keeps exactly the bytes that fit, oldest first, and rejects
      every later one: existing entries are never evicted or reordered. */
  lemma {:induction false} FillKeepsFirst(q: seq<Scancode>, bytes: seq<Scancode>)
    requires |q| <= CAPACITY
    ensures Fill(q, bytes) == (q + bytes)[..Min(CAPACITY, |q| + |bytes|)]
    ensures Drops(q, bytes) == |q| + |bytes| - Min(CAPACITY, |q| + |bytes|)
    decreases |bytes|
  {
    if bytes != [] {
      var init, last := bytes[..|bytes| - 1], bytes[|bytes| - 1];
      FillKeepsFirst(q, init);
      assert bytes == init + [last];
      assert q + bytes == (q + init) + [last];
    }
  }

  /** A full queue rejects every byte of a burst and stays as it is. */
  lemma {:induction false} FillFull(q: seq<Scancode>, bytes: seq<Scancode>)
    requires |q| >= CAPACITY
    ensures Fill(q, bytes) == q
    ensures Drops(q, bytes) == |bytes|
    decreases |bytes|
  {
    if bytes != [] {
      FillFull(q, bytes[..|bytes| - 1]);
    }
  }

  /** Two bursts in a row are one burst. */
  lemma {:induction false} FillConcat(q: seq<Scancode>, a: seq<Scancode>, b: seq<Scancode>)
    ensures Fill(Fill(q, a), b) == Fill(q, a + b)
    decreases |b|
  {
    if b == [] {
      assert a + b == a;
    } else {
      var init := b[..|b| - 1];
      FillConcat(q, a, init);
      assert (a + b)[..|a + b| - 1] == a + init;
    }
  }

  /** Filling the empty queue: it stays empty exactly when nothing arrives, and
      otherwise the first byte to arrive is at the front. */
  lemma FillEmpty(bytes: seq<Scancode>)
    ensures Fill([], bytes) == [] <==> bytes == []
    ensures bytes != [] ==> Fill([], bytes)[0] == bytes[0]
  {
    FillKeepsFirst([], bytes);
    assert [] + bytes == bytes;
  }

  /** Delivering 101 scancodes with no consumption keeps the first 100 in arrival
      order and rejects exactly one, the last. */
  lemma Flood101(bytes: seq<Scancode>)
    requires |bytes| == 101
    ensures Fill([], bytes) == bytes[..100]
    ensures Drops([], bytes) == 1
  {
    FillKeepsFirst([], bytes);
    assert [] + bytes == bytes;
  }

  /** One step of an interleaving: an interrupt delivers a byte, or the consumer pops. */
  datatype Event = Interrupt(b: Scancode) | Consume

  /** What an interleaving leaves behind: the queue, the bytes it accepted and rejected
      (in arrival order) and the bytes the consumer received (in pop order). */
  datatype Run = Run(queue: seq<Scancode>, accepted: seq<Scancode>, dropped: seq<Scancode>, consumed: seq<Scancode>)

  function Step(r: Run, e: Event): Run
  {
    match e
    case Interrupt(b) =>
      if |r.queue| < CAPACITY then r.(queue := Offer(r.queue, b), accepted := r.accepted + [b])
      else r.(dropped := r.dropped + [b])
    case Consume =>
      if r.queue == [] then r else r.(queue := r.queue[1..], consumed := r.consumed + [r.queue[0]])
  }

  /** Runs the events from left to right, starting from queue `q`. */
  function Replay(q: seq<Scancode>, evs: seq<Event>): Run
    decreases |evs|
  {
    if evs == [] then Run(q, [], [], []) else Step(Replay(q, evs[..|evs| - 1]), evs[|evs| - 1])
  }

  /** The bytes the interrupts of `evs` deliver, in order. */
  function Arrivals(evs: seq<Event>): seq<Scancode>
    decreases |evs|
  {
    if evs == [] then []
    else Arrivals(evs[..|evs| - 1]) + (if evs[|evs| - 1].Interrupt? then [evs[|evs| - 1].b] else [])
  }

  /** One `Interrupt` event per byte, in order: a burst as a piece of a trace. */
  function Interrupts(bytes: seq<Scancode>): (evs: seq<Event>)
    ensures |evs| == |bytes| && forall i :: 0 <= i < |bytes| ==> evs[i] == Interrupt(bytes[i])
  {
    seq(|bytes|, i requires 0 <= i < |bytes| => Interrupt(bytes[i]))
  }

  /** A trace extended by one event is the trace followed by that event's step. */
  lemma ReplaySnoc(q: seq<Scancode>, evs: seq<Event>, e: Event)
    ensures Replay(q, evs + [e]) == Step(Replay(q, evs), e)
  {
    assert (evs + [e])[..|evs|] == evs;
  }

  /** Rejections add up over two bursts in a row. */
  lemma {:induction false} DropsConcat(q: seq<Scancode>, a: seq<Scancode>, b: seq<Scancode>)
    ensures Drops(q, a + b) == Drops(q, a) + Drops(Fill(q, a), b)
    decreases |b|
  {
    if b == [] {
      assert a + b == a;
    } else {
      var init := b[..|b| - 1];
      DropsConcat(q, a, init);
      FillConcat(q, a, init);
      assert (a + b)[..|a + b| - 1] == a + init;
    }
  }

  /** A burst inside a trace acts on the queue as `Fill` does, rejects `Drops` bytes
      and hands the consumer nothing. */
  lemma {:induction false} ReplayBurst(q: seq<Scancode>, evs: seq<Event>, bytes: seq<Scancode>)
    ensures Replay(q, evs + Interrupts(bytes)).queue == Fill(Replay(q, evs).queue, bytes)
    ensures |Replay(q, evs + Interrupts(bytes)).dropped| == |Replay(q, evs).dropped| + Drops(Replay(q, evs).queue, bytes)
    ensures Replay(q, evs + Interrupts(bytes)).consumed == Replay(q, evs).consumed
    decreases |bytes|
  {
    if bytes == [] {
      assert evs + Interrupts(bytes) == evs;
    } else {
      var init, last := bytes[..|bytes| - 1], bytes[|bytes| - 1];
      ReplayBurst(q, evs, init);
      var pre := evs + Interrupts(init);
      assert evs + Interrupts(bytes) == pre + [Interrupt(last)];
      ReplaySnoc(q, pre, Interrupt(last));
    }
  }

  /** FIFO: the consumer receives exactly the initial entries followed by the accepted
      bytes, in that order, and what it has not received yet is still queued. */
  lemma {:induction false} ReplayFifo(q: seq<Scancode>, evs: seq<Event>)
    ensures Replay(q, evs).consumed + Replay(q, evs).queue == q + Replay(q, evs).accepted
    decreases |evs|
  {
    if evs != [] {
      var r := Replay(q, evs[..|evs| - 1]);
      ReplayFifo(q, evs[..|evs| - 1]);
      match evs[|evs| - 1]
      case Interrupt(b) =>
        if |r.queue| < CAPACITY {
          assert r.consumed + (r.queue + [b]) == (q + r.accepted) + [b];
        }
      case Consume =>
        if r.queue != [] {
          assert r.queue == [r.queue[0]] + r.queue[1..];
          assert (r.consumed + [r.queue[0]]) + r.queue[1..] == r.consumed + r.queue;
        }
    }
  }

  /** The queue never holds more than its capacity, whatever the interleaving. */
  lemma {:induction false} ReplayBounded(q: seq<Scancode>, evs: seq<Event>)
    requires |q| <= CAPACITY
    ensures |Replay(q, evs).queue| <= CAPACITY
    decreases |evs|
  {
    if evs != [] {
      ReplayBounded(q, evs[..|evs| - 1]);
    }
  }

  /** Every delivered byte is either accepted or rejected, and when none was rejected
      the accepted bytes are all of them, in arrival order. */
  lemma {:induction false} ReplayPartition(q: seq<Scancode>, evs: seq<Event>)
    ensures |Replay(q, evs).accepted| + |Replay(q, evs).dropped| == |Arrivals(evs)|
    ensures Replay(q, evs).dropped == [] ==> Replay(q, evs).accepted == Arrivals(evs)
    decreases |evs|
  {
    if evs != [] {
      var init := evs[..|evs| - 1];
      ReplayPartition(q, init);
    }
  }

  /** With no overflow, bytes reach the consumer in exactly their arrival order,
      with nothing reordered, duplicated or lost. */
  lemma FifoWithoutOverflow(q: seq<Scancode>, evs: seq<Event>)
    requires Replay(q, evs).dropped == []
    ensures Replay(q, evs).consumed + Replay(q, evs).queue == q + Arrivals(evs)
  {
    ReplayFifo(q, evs);
    ReplayPartition(q, evs);
  }
}
