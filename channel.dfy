/**
 * The delayed channel as the program has it: a `Sender` and a `Receiver`
 * that share one unbounded FIFO queue of envelopes. The sender's
 * bandwidth and bottleneck clock and the receiver's latency are fields
 * updated in place. `Sender.Send`, `Sender.WithBandwidth`, `Receiver.Recv`
 * and `Transport.Close` are proved to do exactly what the value-level
 * functions of module Link say, so the guarantees proved there and in
 * module Trace hold of these objects; the other methods state their effect
 * on the fields directly.
 *
 * The clock is a parameter (`now`), and the receiver's timer is the wake
 * instant `Recv` returns instead of a suspension.
 */
module DelayedChannel {
  import opened Wrappers
  import opened Timing
  import opened Link
  import Trace

  /** The unbounded queue the two ends share. */
  class Transport {
    var items: seq<Envelope>
    var closed: bool

    /** The queue as a value. */
    function View(): Queue
      reads this
    {
      Queue(items, closed)
    }

    constructor ()
      ensures View() == NewQueue()
    {
      items := [];
      closed := false;
    }

    /** Enqueue without waiting; fails only once the queue is closed. */
    method Push(e: Envelope) returns (res: Result<(), Error>)
      modifies this
      ensures res == (if old(closed) then Err(Closed) else Ok(()))
      ensures items == (if old(closed) then old(items) else old(items) + [e])
      ensures closed == old(closed)
    {
      if closed {
        return Err(Closed);
      }
      items := items + [e];
      res := Ok(());
    }

    /** Dequeue the head; an empty queue fails once closed and is otherwise not ready. */
    method Pop() returns (p: Poll<Result<Envelope, Error>>)
      modifies this
      ensures old(items) != [] ==> p == Ready(Ok(old(items)[0])) && items == old(items)[1..]
      ensures old(items) == [] ==> items == [] && p == (if closed then Ready(Err(Closed)) else Pending)
      ensures closed == old(closed)
    {
      if items == [] {
        p := if closed then Ready(Err(Closed)) else Pending;
      } else {
        p := Ready(Ok(items[0]));
        items := items[1..];
      }
    }

    /** What dropping either end does: close the queue, keeping what is queued. */
    method Close()
      modifies this
      ensures View() == Link.Close(old(View()))
    {
      closed := true;
    }
  }

  class Sender {
    /** The bandwidth limiting this sender, in bytes per second; none by default. */
    var bandwidth: Option<Bandwidth>
    /** When the link is free again for the next packet. */
    var nextTime: Instant
    const chan: Transport

    /** The sender's own state as a value. */
    function State(): SenderState
      reads this
    {
      SenderState(bandwidth, nextTime)
    }

    /** The scheduling invariant of module Link, of this sender and its queue. */
    ghost predicate Valid()
      reads this, chan
    {
      Scheduled(State(), chan.View())
    }

    constructor (now: Instant, chan: Transport)
      ensures State() == NewSender(now) && this.chan == chan
    {
      bandwidth := None;
      nextTime := now;
      this.chan := chan;
    }

    /**
     * `send`: compute the departure instant, enqueue the envelope, and only
     * if that succeeded move the bottleneck clock to it. Never waits.
     */
    method Send(now: Instant, msg: MessageData) returns (res: Result<(), Error>)
      requires bandwidth != Some(0)
      modifies this, chan
      ensures (res, State(), chan.View()) == Link.Send(old(State()), old(chan.View()), now, msg)
      ensures old(Valid()) ==> Valid()
    {
      ghost var before, queued := State(), chan.View();
      var transmissionDelay := TransmissionDelay(|msg|, bandwidth);
      var departureTime := Departure(now, nextTime, transmissionDelay);
      res := chan.Push(Envelope(departureTime, msg));
      if res.Err? {
        return;
      }
      nextTime := departureTime;
      if Scheduled(before, queued) {
        SendKeepsScheduled(before, queued, now, msg);
      }
    }

    /** `with_bandwidth`: set the bandwidth, for packets sent from now on. */
    method WithBandwidth(bandwidth: Bandwidth)
      modifies this
      ensures State() == Link.WithBandwidth(old(State()), bandwidth)
    {
      this.bandwidth := Some(bandwidth);
    }
  }

  class Receiver {
    /** The latency added to every packet's departure; none by default. */
    var latency: Option<Duration>
    const chan: Transport

    constructor (chan: Transport)
      ensures latency == None && this.chan == chan
    {
      latency := None;
      this.chan := chan;
    }

    /**
     * `recv`: take the head envelope, add the latency in effect now to its
     * departure, and hand over the packet together with that wake instant.
     */
    method Recv() returns (p: Poll<Result<Delivery, Error>>)
      modifies chan
      ensures (p, chan.View()) == Link.Recv(latency, old(chan.View()))
    {
      var next := chan.Pop();
      match next
      case Pending =>
        p := Pending;
      case Ready(Err(e)) =>
        p := Ready(Err(e));
      case Ready(Ok(envelope)) =>
        var time := WakeTime(envelope.departure, latency);
        p := Ready(Ok(Delivery(envelope.msg, time)));
    }

    /** `with_latency`: set the latency, for packets taken from now on. */
    method WithLatency(latency: Duration)
      modifies this
      ensures this.latency == Some(latency)
    {
      this.latency := Some(latency);
    }
  }

  /** Both ends of one channel, with their queue, as a value. */
  ghost function StateOf(s: Sender, r: Receiver): Trace.State
    reads s, r, s.chan
  {
    Trace.State(s.State(), r.latency, s.chan.View())
  }

  /** `channel()`: a fresh pair over a fresh queue, unconstrained and free at `now`. */
  method Channel(now: Instant) returns (s: Sender, r: Receiver)
    ensures fresh(s) && fresh(r) && fresh(s.chan) && s.chan == r.chan
    ensures StateOf(s, r) == Trace.NewState(now)
    ensures s.Valid()
  {
    var chan := new Transport();
    s := new Sender(now, chan);
    r := new Receiver(chan);
  }

  /**
   * A 1000-byte packet at time 0 over 1000 bytes per second and 100 ms of
   * latency wakes the receiver at 1.1 s.
   */
  method OnePacket() returns (wake: Instant)
    ensures wake == 1_100_000_000
  {
    var s, r := Channel(0);
    s.WithBandwidth(1000);
    r.WithLatency(100_000_000);
    var packet := seq(1000, _ => 0 as bv8);
    var sent := s.Send(0, packet);
    var got := r.Recv();
    wake := got.result.value.wake;
  }

  /**
   * Two 500-byte packets at time 0 over 1000 bytes per second and no
   * latency: the second waits for the first, so they wake at 0.5 s and 1 s.
   */
  method TwoPackets() returns (first: Instant, second: Instant)
    ensures first == 500_000_000 && second == 1_000_000_000
  {
    var s, r := Channel(0);
    s.WithBandwidth(1000);
    var packet := seq(500, _ => 0 as bv8);
    var sent := s.Send(0, packet);
    sent := s.Send(0, packet);
    var got := r.Recv();
    first := got.result.value.wake;
    got := r.Recv();
    second := got.result.value.wake;
  }
}
