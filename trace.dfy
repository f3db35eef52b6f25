/**
 * A whole channel over time: both ends and their shared queue, driven by
 * a sequence of calls. The lemmas here are the channel's guarantees over
 * many calls: packets come out in the order they went in, unchanged, none
 * lost or repeated; the sender's bottleneck clock never goes back; the
 * queue stays in departure order; with a fixed latency the receiver wakes
 * in order.
 */
module Trace {
  import opened Wrappers
  import opened Timing
  import opened Link

  /** Both ends of one channel: the sender's state, the receiver's latency, the queue. */
  datatype State = State(sender: SenderState, latency: Option<Duration>, queue: Queue)

  /** One call on either end. Dropping an end is `CloseOp`. */
  datatype Op =
    | SendOp(now: Instant, msg: MessageData)
    | RecvOp
    | SetBandwidth(bandwidth: Bandwidth)
    | SetLatency(latency: Duration)
    | CloseOp

  /** What a call returned to its caller. */
  datatype Event =
    | SendDone(sent: Result<(), Error>)
    | RecvDone(poll: Poll<Result<Delivery, Error>>)
    | Configured

  /** The channel as `channel()` makes it at clock reading `now`. */
  function NewState(now: Instant): (st: State)
    ensures st.sender.bandwidth == None && st.sender.nextTime == now
    ensures st.latency == None
    ensures st.queue.items == [] && !st.queue.closed
  {
    State(NewSender(now), None, NewQueue())
  }

  /**
   * A call the source completes without panicking: `send` under a zero
   * bandwidth divides by zero. Setting a zero bandwidth is itself fine.
   */
  predicate Enabled(st: State, op: Op)
  {
    op.SendOp? ==> st.sender.bandwidth != Some(0)
  }

  /** One call. Configuring either end changes that one field and nothing else. */
  function Step(st: State, op: Op): (r: (State, Event))
    requires Enabled(st, op)
    ensures !op.SetLatency? ==> r.0.latency == st.latency
    ensures op.SetLatency? ==> r.0 == st.(latency := Some(op.latency))
    ensures op.SetBandwidth? ==> r.0 == st.(sender := st.sender.(bandwidth := Some(op.bandwidth)))
    ensures r.0.sender.nextTime >= st.sender.nextTime
  {
    match op
    case SendOp(now, msg) =>
      var (res, s, q) := Link.Send(st.sender, st.queue, now, msg);
      (State(s, st.latency, q), SendDone(res))
    case RecvOp =>
      var (poll, q) := Link.Recv(st.latency, st.queue);
      (st.(queue := q), RecvDone(poll))
    case SetBandwidth(b) =>
      (st.(sender := WithBandwidth(st.sender, b)), Configured)
    case SetLatency(l) =>
      (st.(latency := Some(l)), Configured)
    case CloseOp =>
      (st.(queue := Close(st.queue)), Configured)
  }

  /** A sequence of calls none of which sends under a zero bandwidth. */
  predicate NoZeroSend(st: State, ops: seq<Op>)
    decreases |ops|
  {
    ops == [] || (Enabled(st, ops[0]) && NoZeroSend(Step(st, ops[0]).0, ops[1..]))
  }

  /** A sequence of calls, in order; one event per call. */
  function Run(st: State, ops: seq<Op>): (r: (State, seq<Event>))
    requires NoZeroSend(st, ops)
    ensures |r.1| == |ops|
    decreases |ops|
  {
    if ops == [] then
      (st, [])
    else
      var first := Step(st, ops[0]);
      var rest := Run(first.0, ops[1..]);
      (rest.0, [first.1] + rest.1)
  }

  /** The packets in a queue, front first. */
  function Payloads(items: seq<Envelope>): (ms: seq<MessageData>)
    ensures |ms| == |items|
  {
    if items == [] then [] else [items[0].msg] + Payloads(items[1..])
  }

  /** The packet a call got into the queue, if it was a successful `send`. */
  function AcceptedBy(op: Op, e: Event): seq<MessageData>
  {
    if op.SendOp? && e == SendDone(Ok(())) then [op.msg] else []
  }

  /** The packet a call took out of the queue, if it was a completed `recv`. */
  function DeliveredBy(e: Event): seq<MessageData>
  {
    if e.RecvDone? && e.poll.Ready? && e.poll.result.Ok? then [e.poll.result.value.msg] else []
  }

  /** The packets whose `send` succeeded, in call order. */
  function Accepted(ops: seq<Op>, events: seq<Event>): seq<MessageData>
    requires |ops| == |events|
  {
    if ops == [] then [] else AcceptedBy(ops[0], events[0]) + Accepted(ops[1..], events[1..])
  }

  /** The packets `recv` handed over, in call order. */
  function Delivered(events: seq<Event>): seq<MessageData>
  {
    if events == [] then [] else DeliveredBy(events[0]) + Delivered(events[1..])
  }

  /** The instants the receiver's timer fires, in call order. */
  function Wakes(events: seq<Event>): seq<Instant>
  {
    if events == [] then []
    else
      (if events[0].RecvDone? && events[0].poll.Ready? && events[0].poll.result.Ok?
       then [events[0].poll.result.value.wake] else [])
      + Wakes(events[1..])
  }

  ghost predicate Ordered(ts: seq<Instant>)
  {
    forall i, j :: 0 <= i < j < |ts| ==> ts[i] <= ts[j]
  }

  lemma {:induction false} PayloadsAppend(a: seq<Envelope>, b: seq<Envelope>)
    ensures Payloads(a + b) == Payloads(a) + Payloads(b)
  {
    if a == [] {
      assert a + b == b;
    } else {
      assert (a + b)[1..] == a[1..] + b;
      PayloadsAppend(a[1..], b);
    }
  }

  /** The sender's bottleneck clock never goes back, whatever the calls. */
  lemma {:induction false} RunNextTimeMonotone(st: State, ops: seq<Op>)
    requires NoZeroSend(st, ops)
    ensures Run(st, ops).0.sender.nextTime >= st.sender.nextTime
    decreases |ops|
  {
    if ops != [] {
      RunNextTimeMonotone(Step(st, ops[0]).0, ops[1..]);
    }
  }

  /** The queue stays in departure order, never ahead of the sender's clock. */
  lemma {:induction false} RunKeepsScheduled(st: State, ops: seq<Op>)
    requires NoZeroSend(st, ops)
    requires Scheduled(st.sender, st.queue)
    ensures var r := Run(st, ops); Scheduled(r.0.sender, r.0.queue)
    decreases |ops|
  {
    if ops != [] {
      StepKeepsScheduled(st, ops[0]);
      RunKeepsScheduled(Step(st, ops[0]).0, ops[1..]);
    }
  }

  lemma StepKeepsScheduled(st: State, op: Op)
    requires Enabled(st, op)
    requires Scheduled(st.sender, st.queue)
    ensures var r := Step(st, op); Scheduled(r.0.sender, r.0.queue)
  {
  }

  /** One call: the queue before it, plus what it sent, is what it received plus the queue after it. */
  lemma StepIsFifo(st: State, op: Op)
    requires Enabled(st, op)
    ensures var r := Step(st, op);
      Payloads(st.queue.items) + AcceptedBy(op, r.1) == DeliveredBy(r.1) + Payloads(r.0.queue.items)
  {
    var (st1, e) := Step(st, op);
    match op
    case SendOp(now, msg) =>
      if e == SendDone(Ok(())) {
        var env := Envelope(st1.sender.nextTime, msg);
        PayloadsAppend(st.queue.items, [env]);
        assert Payloads([env]) == [msg];
      }
    case RecvOp =>
      if st.queue.items != [] {
        assert st.queue.items == [st.queue.items[0]] + st1.queue.items;
        PayloadsAppend([st.queue.items[0]], st1.queue.items);
      }
    case _ =>
  }

  /** Chaining two balanced steps of queue accounting. */
  lemma Regroup<T>(p0: seq<T>, a0: seq<T>, a: seq<T>, d0: seq<T>, p1: seq<T>, d: seq<T>, pf: seq<T>)
    requires p0 + a0 == d0 + p1 && p1 + a == d + pf
    ensures p0 + (a0 + a) == (d0 + d) + pf
  {
    calc {
      p0 + (a0 + a);
      (p0 + a0) + a;
      (d0 + p1) + a;
      d0 + (p1 + a);
      d0 + (d + pf);
      (d0 + d) + pf;
    }
  }

  /**
   * FIFO delivery: what was queued, followed by what was sent since, is
   * exactly what was received since, followed by what is still queued.
   * Nothing is reordered, altered, duplicated or lost.
   */
  lemma {:induction false} RunIsFifo(st: State, ops: seq<Op>)
    requires NoZeroSend(st, ops)
    ensures var r := Run(st, ops);
      Payloads(st.queue.items) + Accepted(ops, r.1) == Delivered(r.1) + Payloads(r.0.queue.items)
    decreases |ops|
  {
    if ops != [] {
      var first := Step(st, ops[0]);
      var st1, e := first.0, first.1;
      var rest := Run(st1, ops[1..]);
      var st2, es := rest.0, rest.1;
      var events := [e] + es;
      assert Run(st, ops) == (st2, events);
      assert events[1..] == es;
      StepIsFifo(st, ops[0]);
      RunIsFifo(st1, ops[1..]);
      assert Accepted(ops, events) == AcceptedBy(ops[0], e) + Accepted(ops[1..], es);
      assert Delivered(events) == DeliveredBy(e) + Delivered(es);
      Regroup(Payloads(st.queue.items), AcceptedBy(ops[0], e), Accepted(ops[1..], es),
              DeliveredBy(e), Payloads(st1.queue.items), Delivered(es), Payloads(st2.queue.items));
    }
  }

  /**
   * From a fresh channel, the packets received so far are a prefix of the
   * packets sent, and once the queue is drained they are all of them.
   */
  lemma FreshChannelIsFifo(now: Instant, ops: seq<Op>)
    requires NoZeroSend(NewState(now), ops)
    ensures var r := Run(NewState(now), ops);
      && Delivered(r.1) <= Accepted(ops, r.1)
      && (r.0.queue.items == [] ==> Delivered(r.1) == Accepted(ops, r.1))
  {
    var r := Run(NewState(now), ops);
    RunIsFifo(NewState(now), ops);
    assert Payloads([]) == [];
    assert Accepted(ops, r.1) == Delivered(r.1) + Payloads(r.0.queue.items);
  }

  /**
   * With the latency left alone, the receiver's timer fires in order, and
   * never before the latency after `lo`, a bound on every queued departure
   * and on the sender's clock.
   */
  lemma {:induction false} RunWakesOrdered(st: State, ops: seq<Op>, lo: Instant)
    requires NoZeroSend(st, ops)
    requires forall i :: 0 <= i < |ops| ==> !ops[i].SetLatency?
    requires Scheduled(st.sender, st.queue)
    requires lo <= st.sender.nextTime
    requires forall i :: 0 <= i < |st.queue.items| ==> lo <= st.queue.items[i].departure
    ensures var w := Wakes(Run(st, ops).1);
      && Ordered(w)
      && forall k :: 0 <= k < |w| ==> WakeTime(lo, st.latency) <= w[k]
    decreases |ops|
  {
    if ops != [] {
      var first := Step(st, ops[0]);
      var st1, e := first.0, first.1;
      var rest := Run(st1, ops[1..]);
      var st2, es := rest.0, rest.1;
      var events := [e] + es;
      assert Run(st, ops) == (st2, events);
      assert events[1..] == es;
      StepKeepsScheduled(st, ops[0]);
      assert st1.latency == st.latency;
      if e.RecvDone? && e.poll.Ready? && e.poll.result.Ok? {
        var head := st.queue.items[0];
        assert st1.queue.items == st.queue.items[1..];
        RunWakesOrdered(st1, ops[1..], head.departure);
        assert Wakes(events) == [WakeTime(head.departure, st.latency)] + Wakes(es);
      } else {
        if ops[0].SendOp? && e == SendDone(Ok(())) {
          assert st1.queue.items == st.queue.items + [Envelope(st1.sender.nextTime, ops[0].msg)];
        }
        RunWakesOrdered(st1, ops[1..], lo);
        assert Wakes(events) == Wakes(es);
      }
    }
  }

  /**
   * A fresh channel whose receiver is given latency `l` before anything
   * else and never again: its timer fires in order, and never before
   * `now + l`.
   */
  lemma FreshChannelWakesOrdered(now: Instant, l: Duration, rest: seq<Op>)
    requires NoZeroSend(NewState(now), [SetLatency(l)] + rest)
    requires forall i :: 0 <= i < |rest| ==> !rest[i].SetLatency?
    ensures var w := Wakes(Run(NewState(now), [SetLatency(l)] + rest).1);
      && Ordered(w)
      && forall k :: 0 <= k < |w| ==> now + l <= w[k]
  {
    var ops := [SetLatency(l)] + rest;
    assert ops[1..] == rest;
    var st1 := Step(NewState(now), ops[0]).0;
    assert st1.latency == Some(l);
    RunWakesOrdered(st1, rest, now);
    assert Wakes(Run(NewState(now), ops).1) == Wakes(Run(st1, rest).1);
  }
}
