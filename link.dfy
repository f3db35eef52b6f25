/**
 * What one call on either end of the delayed channel does, stated on
 * values: the sender's configuration and bottleneck clock, and the queue
 * of envelopes the two ends share. The classes of module DelayedChannel
 * are proved to behave exactly as these functions say.
 */
module Link {
  import opened Wrappers
  import opened Timing

  /** The bytes of one packet (`MessageData`). */
  type MessageData = seq<bv8>

  /** What travels through the queue: a packet and the instant it departs. */
  datatype Envelope = Envelope(departure: Instant, msg: MessageData)

  /** The sender's own state: its bandwidth and when the link is free again. */
  datatype SenderState = SenderState(bandwidth: Option<Bandwidth>, nextTime: Instant)

  /** The unbounded FIFO queue between the two ends, and whether it is closed. */
  datatype Queue = Queue(items: seq<Envelope>, closed: bool)

  /** The one way a call on the channel fails: the other end is gone. */
  datatype Error = Closed

  /** A packet as `recv` hands it over, with the instant its timer fires. */
  datatype Delivery = Delivery(msg: MessageData, wake: Instant)

  /** The state of a `recv` future: finished with a result, or still waiting. */
  datatype Poll<+T> = Ready(result: T) | Pending

  /** The sender of a freshly made channel: no bandwidth limit, free now. */
  function NewSender(now: Instant): (s: SenderState)
    ensures s.bandwidth == None && s.nextTime == now
  {
    SenderState(None, now)
  }

  /** The queue of a freshly made channel: empty and open. */
  function NewQueue(): (q: Queue)
    ensures q.items == [] && !q.closed
  {
    Queue([], false)
  }

  /**
   * `send`: schedule the packet after the previous one and after `now`,
   * enqueue it, and only then move the sender's bottleneck clock to its
   * departure. On a closed queue nothing changes and the call fails.
   */
  function Send(s: SenderState, q: Queue, now: Instant, msg: MessageData): (r: (Result<(), Error>, SenderState, Queue))
    requires s.bandwidth != Some(0)
    ensures q.closed <==> r.0 == Err(Closed)
    ensures q.closed ==> r.1 == s && r.2 == q
    ensures !q.closed ==>
      var delay := TransmissionDelay(|msg|, s.bandwidth);
      && r.1.bandwidth == s.bandwidth
      && r.1.nextTime >= now + delay
      && r.1.nextTime >= s.nextTime + delay
      && (r.1.nextTime - delay == now || r.1.nextTime - delay == s.nextTime)
      && r.2 == Queue(q.items + [Envelope(r.1.nextTime, msg)], false)
  {
    var departure := Departure(now, s.nextTime, TransmissionDelay(|msg|, s.bandwidth));
    if q.closed then
      (Err(Closed), s, q)
    else
      (Ok(()), s.(nextTime := departure), q.(items := q.items + [Envelope(departure, msg)]))
  }

  /**
   * `recv`: take the head envelope and hand over its packet, to be woken
   * at its departure plus the latency in effect now. An empty closed queue
   * fails; an empty open queue leaves the future pending.
   */
  function Recv(latency: Option<Duration>, q: Queue): (r: (Poll<Result<Delivery, Error>>, Queue))
    ensures r.1.closed == q.closed
    ensures q.items != [] ==>
      && q.items == [q.items[0]] + r.1.items
      && r.0.Ready? && r.0.result.Ok?
      && r.0.result.value.msg == q.items[0].msg
      && r.0.result.value.wake == WakeTime(q.items[0].departure, latency)
    ensures q.items == [] ==> r.1 == q && (r.0 == Pending <==> !q.closed)
    ensures q.items == [] && q.closed ==> r.0 == Ready(Err(Closed))
  {
    if q.items == [] then
      (if q.closed then Ready(Err(Closed)) else Pending, q)
    else
      var head := q.items[0];
      (Ready(Ok(Delivery(head.msg, WakeTime(head.departure, latency)))), q.(items := q.items[1..]))
  }

  /** Dropping either end closes the queue; what is queued stays queued. */
  function Close(q: Queue): (r: Queue)
    ensures r.closed && r.items == q.items
  {
    q.(closed := true)
  }

  /** `with_bandwidth`: only the bandwidth changes. */
  function WithBandwidth(s: SenderState, bandwidth: Bandwidth): (r: SenderState)
    ensures r.bandwidth == Some(bandwidth) && r.nextTime == s.nextTime
  {
    s.(bandwidth := Some(bandwidth))
  }

  /** Departure instants never decrease along the queue. */
  ghost predicate DeparturesOrdered(items: seq<Envelope>)
  {
    forall i, j :: 0 <= i < j < |items| ==> items[i].departure <= items[j].departure
  }

  /**
   * The scheduling invariant: the queue is in departure order and nothing
   * queued departs after the sender's bottleneck clock.
   */
  ghost predicate Scheduled(s: SenderState, q: Queue)
  {
    && DeparturesOrdered(q.items)
    && forall i :: 0 <= i < |q.items| ==> q.items[i].departure <= s.nextTime
  }

  /** `send` keeps the scheduling invariant. */
  lemma SendKeepsScheduled(s: SenderState, q: Queue, now: Instant, msg: MessageData)
    requires s.bandwidth != Some(0)
    requires Scheduled(s, q)
    ensures var r := Send(s, q, now, msg); Scheduled(r.1, r.2)
  {
  }

  /** Taking the head off the queue keeps the scheduling invariant. */
  lemma RecvKeepsScheduled(s: SenderState, latency: Option<Duration>, q: Queue)
    requires Scheduled(s, q)
    ensures Scheduled(s, Recv(latency, q).1)
  {
  }

  /**
   * Two packets sent back to back: the second departs no sooner than the
   * first plus the second's own transmission delay, whatever the clock says.
   */
  lemma SendSerializes(s: SenderState, q: Queue, now1: Instant, msg1: MessageData, now2: Instant, msg2: MessageData)
    requires s.bandwidth != Some(0) && !q.closed
    ensures
      var r1 := Send(s, q, now1, msg1);
      var r2 := Send(r1.1, r1.2, now2, msg2);
      && r2.2.items == q.items + [Envelope(r1.1.nextTime, msg1), Envelope(r2.1.nextTime, msg2)]
      && r2.1.nextTime >= r1.1.nextTime + TransmissionDelay(|msg2|, s.bandwidth)
  {
  }

  /**
   * A packet sent on an idle channel reaches the receiver no sooner than its
   * transmission delay plus the latency after it was sent, and exactly then
   * when the link was already free at the time of sending.
   */
  lemma SendThenRecvTiming(s: SenderState, latency: Option<Duration>, now: Instant, msg: MessageData)
    requires s.bandwidth != Some(0)
    ensures
      var sent := Send(s, NewQueue(), now, msg);
      var got := Recv(latency, sent.2);
      var total := TransmissionDelay(|msg|, s.bandwidth) + (if latency.Some? then latency.value else 0);
      && got.0.Ready? && got.0.result.Ok?
      && got.0.result.value.msg == msg
      && got.0.result.value.wake >= now + total
      && (s.nextTime <= now ==> got.0.result.value.wake == now + total)
      && got.1 == NewQueue()
  {
  }
}
