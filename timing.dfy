/**
 * Time accounting of the delayed channel: clock readings, durations,
 * the transmission delay a bandwidth imposes on a packet, the departure
 * instant of a packet and the instant at which the receiver wakes for it.
 */
module Timing {
  import opened Wrappers

  /** A clock reading (`Instant`), in nanoseconds from an arbitrary origin. */
  type Instant = int

  /** A length of time (`Duration`), in nanoseconds. */
  type Duration = nat

  const NanosPerSecond: nat := 1_000_000_000

  /** One more than the largest `u32`. */
  const BandwidthLimit: nat := 0x1_0000_0000

  /** A bandwidth in bytes per second; a `u32` in the source. */
  type Bandwidth = b: int | 0 <= b < BandwidthLimit

  /**
   * The time it takes to push `len` bytes onto a link of the given
   * bandwidth: nothing when no bandwidth is set, otherwise `len / bw`
   * seconds, here rounded down to whole nanoseconds. A zero bandwidth
   * makes the source divide by zero and panic, so it is excluded.
   */
  function TransmissionDelay(len: nat, bandwidth: Option<Bandwidth>): (d: Duration)
    requires bandwidth != Some(0)
    ensures bandwidth == None ==> d == 0
    ensures bandwidth.Some? ==>
      d * bandwidth.value <= len * NanosPerSecond < (d + 1) * bandwidth.value
  {
    match bandwidth
    case None => 0
    case Some(bw) => len * NanosPerSecond / bw
  }

  /** A longer packet never takes less time to transmit. */
  lemma TransmissionDelayMonotone(len1: nat, len2: nat, bandwidth: Option<Bandwidth>)
    requires bandwidth != Some(0)
    requires len1 <= len2
    ensures TransmissionDelay(len1, bandwidth) <= TransmissionDelay(len2, bandwidth)
  {
    if bandwidth.Some? {
      var bw, d1, d2 := bandwidth.value, TransmissionDelay(len1, bandwidth), TransmissionDelay(len2, bandwidth);
      assert d1 * bw < (d2 + 1) * bw by {
        assert len1 * NanosPerSecond <= len2 * NanosPerSecond;
      }
      MultiplyCancel(d1, d2 + 1, bw);
    }
  }

  /** A product by a positive factor is smaller only if the other factor is. */
  lemma MultiplyCancel(a: int, b: int, c: nat)
    requires c > 0 && a * c < b * c
    ensures a < b
  {
  }

  /**
   * The instant a packet leaves: once the link is free again (the later of
   * the current time and the end of the previous transmission), plus the
   * time it takes to transmit the packet.
   */
  function Departure(now: Instant, nextTime: Instant, delay: Duration): (t: Instant)
    ensures t >= now + delay && t >= nextTime + delay
    ensures t - delay == now || t - delay == nextTime
  {
    (if now < nextTime then nextTime else now) + delay
  }

  /**
   * The instant the receiver wakes for a packet that departed at
   * `departure`: the departure itself, delayed by the latency when one is set.
   */
  function WakeTime(departure: Instant, latency: Option<Duration>): (w: Instant)
    ensures w >= departure
    ensures latency == None ==> w == departure
    ensures latency.Some? ==> w - departure == latency.value
  {
    match latency
    case None => departure
    case Some(l) => departure + l
  }
}
