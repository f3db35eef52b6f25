# Delayed point-to-point channel (haisou-chan), modelled in Dafny

The library simulates one directional network link. `channel()` returns a
`Sender` and a `Receiver` over an unbounded FIFO queue of envelopes, each an
instant and a packet (`Vec<u8>`). The sender has an optional bandwidth (bytes
per second, a `u32`) and a bottleneck clock `next_time`: a packet departs at
the later of the current time and `next_time`, plus `len / bandwidth` seconds,
and `next_time` moves to that departure once the envelope is queued. The
receiver has an optional latency: `recv` takes the head envelope, waits until
its departure plus the latency, and returns the packet.

The project has five modules:

- `Wrappers` (wrappers.dfy): `Option` and `Result`.
- `Timing` (timing.dfy): instants and durations as integer nanoseconds, the
  `u32` bandwidth, and three pure functions. `TransmissionDelay` gives the time
  to transmit a packet. `Departure` gives the instant a packet leaves.
  `WakeTime` gives the instant the receiver wakes for a packet.
- `Link` (link.dfy): one call on either end, stated on values. `Send` and
  `Recv` act on the sender's state and the shared queue. The module also
  defines the scheduling invariant `Scheduled`: the queue is in departure
  order and nothing queued departs after `next_time`.
- `Trace` (trace.dfy): a whole channel driven by a sequence of calls (`Run`).
  Its lemmas cover FIFO delivery, a bottleneck clock that never goes back, the
  kept invariant, and wakes in order.
- `DelayedChannel` (channel.dfy): the program's own shape. The classes
  `Transport`, `Sender` and `Receiver` hold fields that change in place, and
  `Channel(now)` makes a linked pair. The postconditions of `Sender.Send`,
  `Sender.WithBandwidth`, `Receiver.Recv` and `Transport.Close` equate the
  result and the new state with the `Link` function for that call.
  `Transport.Push`, `Transport.Pop` and `Receiver.WithLatency` state their
  effect on the fields directly.

Time is explicit. The clock reading `now` is a parameter of `Send` and
`Channel`. The receiver's timer becomes the wake instant that `Recv` returns.
An envelope stays in the queue until `Recv` takes it. When the queue is empty
and still open, `recv`'s future cannot finish yet, so `Recv` returns `Pending`
and changes nothing. Dropping either end closes the queue (`Transport.Close`).
After that, `send` fails with `Closed`, and `recv` fails with `Closed` once
the queue is empty.

Three modelling choices follow from the code:

- The code never rejects a zero bandwidth. `with_bandwidth(0)` is accepted, and
  a `send` made while the bandwidth is zero divides by zero and panics in
  `Duration::from_secs_f64`. So `Send` requires a non-zero bandwidth, and
  `with_bandwidth` stays unchecked. A trace may set a zero bandwidth as long as
  no `send` happens before it is replaced (`Trace.NoZeroSend`).
- The code takes the transmitted size from the packet's own length (`msg.len()`).
  It has no separate size argument.
- The code has no settings value applied at creation. Configuration only
  happens through `with_bandwidth` and `with_latency`.

## Model

| member | source | states |
|---|---|---|
| Timing.TransmissionDelay | src/lib.rs:37-40 | no bandwidth means no delay; otherwise the delay is `len / bw` seconds rounded down to whole nanoseconds (`d * bw <= len * 10^9 < (d + 1) * bw`) |
| Timing.TransmissionDelayMonotone | src/lib.rs:37-40 | a longer packet never has a shorter transmission delay |
| Timing.Departure | src/lib.rs:43 | the departure is at least `now + delay` and at least `next_time + delay`, and the delay is added to one of the two, so it is added to their maximum |
| Timing.WakeTime | src/lib.rs:73-76 | the wake instant is never before the departure; it is the departure itself without latency, and exactly the latency later with one |
| Link.NewSender | src/lib.rs:105-109 | a new sender has no bandwidth and its bottleneck clock at the creation instant |
| Link.NewQueue | src/lib.rs:103 | a new queue is empty and open |
| Link.Send | src/lib.rs:36-47 | on a closed queue, `send` fails with `Closed` and changes nothing; otherwise it succeeds, keeps the bandwidth, sets `next_time` to a departure that is `max(now, next_time) + delay`, and appends exactly one envelope carrying that departure and the unchanged packet |
| Link.Recv | src/lib.rs:71-79 | a non-empty queue loses only its head, whose packet is returned unchanged with wake instant `WakeTime(departure, latency)`, using the latency in effect at that call; an empty closed queue fails with `Closed`; an empty open queue is pending; nothing else changes |
| Link.Close | src/lib.rs:102-103 | dropping either end closes the queue and keeps every queued envelope |
| Link.WithBandwidth | src/lib.rs:50-53 | only the bandwidth changes, to the given value; `next_time` is kept |
| Link.SendKeepsScheduled | src/lib.rs:43-45 | `send` keeps the queue in departure order with nothing after `next_time` |
| Link.RecvKeepsScheduled | src/lib.rs:72 | removing the head keeps the scheduling invariant |
| Link.SendSerializes | src/lib.rs:43-45 | two sends in a row queue both envelopes in order, and the second departs at least its own transmission delay after the first, whatever the clock says |
| Link.SendThenRecvTiming | src/lib.rs:36-79 | a packet sent on an idle channel is received unchanged, waking no sooner than `now + delay + latency`, and exactly then when the link was free at send time |
| Trace.NewState | src/lib.rs:102-115 | a new channel has no bandwidth, no latency, `next_time = now` and an empty open queue |
| Trace.Step | src/lib.rs:36-85 | any call except a `send` under a zero bandwidth (which panics in the source) is defined; no call moves `next_time` back; `with_latency` and `with_bandwidth`, zero included, change their own field and nothing else; only `with_latency` changes the latency |
| Trace.StepIsFifo | src/lib.rs:44-72 | for one call, the queue before it plus what it sent equals what it received plus the queue after it |
| Trace.RunIsFifo | src/lib.rs:36-79 | for any sequence of calls, the queued packets followed by those sent equal those received followed by those still queued, so nothing is reordered, altered, duplicated or lost |
| Trace.FreshChannelIsFifo | src/lib.rs:36-115 | from a new channel, the packets received are a prefix of those sent, and all of them once the queue is drained |
| Trace.RunNextTimeMonotone | src/lib.rs:43-45 | `next_time` never decreases over any sequence of calls |
| Trace.RunKeepsScheduled | src/lib.rs:43-72 | the scheduling invariant holds after any sequence of calls that starts in it |
| Trace.RunWakesOrdered | src/lib.rs:71-79 | when the latency is never changed, received packets wake in non-decreasing order, none before the latency after a lower bound on the queued departures |
| Trace.FreshChannelWakesOrdered | src/lib.rs:71-85 | from a new channel whose receiver is given latency `l` first and never again, wakes come in order and none is before `now + l` |
| DelayedChannel.Transport.constructor | src/lib.rs:103 | the queue starts empty and open |
| DelayedChannel.Transport.Push | src/lib.rs:44 | enqueueing appends the envelope, or fails with `Closed` and leaves the queue alone when it is closed |
| DelayedChannel.Transport.Pop | src/lib.rs:72 | dequeueing returns and removes the head; on an empty queue it fails with `Closed` if closed, otherwise it is pending |
| DelayedChannel.Transport.Close | src/lib.rs:102-103 | dropping an end closes the queue and keeps its contents |
| DelayedChannel.Sender.constructor | src/lib.rs:105-109 | a new sender has no bandwidth and `next_time = now` |
| DelayedChannel.Sender.Send | src/lib.rs:36-47 | the result, the new sender state and the new queue are exactly `Link.Send` of the old ones; the scheduling invariant is kept |
| DelayedChannel.Sender.WithBandwidth | src/lib.rs:50-53 | the new sender state is `Link.WithBandwidth` of the old one; the queue is untouched |
| DelayedChannel.Receiver.constructor | src/lib.rs:110-113 | a new receiver has no latency |
| DelayedChannel.Receiver.Recv | src/lib.rs:71-79 | the result and the new queue are exactly `Link.Recv` of the current latency and the old queue; the latency is untouched |
| DelayedChannel.Receiver.WithLatency | src/lib.rs:82-85 | only the latency changes; queued envelopes are untouched |
| DelayedChannel.Channel | src/lib.rs:102-115 | a fresh sender and receiver share one fresh queue, and together they are `Trace.NewState(now)` |
| DelayedChannel.OnePacket | src/lib.rs:36-85 | at 1000 bytes/s with 100 ms of latency, a 1000-byte packet sent at 0 wakes the receiver at 1.1 s |
| DelayedChannel.TwoPackets | src/lib.rs:36-79 | at 1000 bytes/s with no latency, two 500-byte packets sent at 0 wake the receiver at 0.5 s and 1 s |

## Left out

- The async runtime is not modelled. `recv` suspending on the timer becomes the returned wake instant. The instant at which `recv` really returns is the later of that wake instant and the current clock, and the model does not compute it.
- `Instant::now()` is a parameter. The model needs no monotonicity of it, so no such assumption is made.
- Timing.TransmissionDelay: rounds `len / bw` seconds down to whole nanoseconds. The source computes it in `f64` and rounds it in `Duration::from_secs_f64`. The two differ by about a nanosecond for delays under about 52 days (2^52 ns), and by the `f64` rounding error beyond that. Floating point is not modelled.
- Sender.Send requires a non-zero bandwidth. With a zero bandwidth the source computes infinity or NaN and panics; a panic is not modelled as an outcome.
- Instants and durations are unbounded integers. The panic on `Instant + Duration` overflow is not modelled.
- The smol queue's internals (wakers, cloned handles, multiple producers) are not modelled. One closed flag stands for either end having been dropped. The model does not tell which end was dropped, because a dropped sender makes no further sends.
- Cancelling a `recv` future is not modelled, and neither is concurrency between tasks. Cancelling during the timer wait drops the dequeued packet; the model's `Recv` always completes the call that dequeued.
- Errors carry no detail: the source's `Box<dyn Error>` becomes the single `Closed`.
