/** client/src/net/time.ts: the client's estimate of `serverTime - clientTime`, refined by every
    `ts` echo (the client's send time `c` and the server's stamp `s`) with an exponential
    moving average. Clocks are millisecond integers; the offset is a real. */
module TimeSync {

  /** The smoothing weight of a new sample. */
  const Alpha: real := 0.2

  /** `Math.max(0, t1 - c)`: the round trip, never negative even if the clock stepped back. */
  function RoundTrip(c: int, t1: int): (rtt: int)
    ensures 0 <= rtt && t1 - c <= rtt
    ensures c <= t1 ==> rtt == t1 - c
  {
    if 0 >= t1 - c then 0 else t1 - c
  }

  /** `s - (c + rtt / 2)`: the offset under the assumption that the server stamped the echo
      halfway through the round trip. */
  function SampleOffset(c: int, s: int, t1: int): (r: real)
    ensures c <= t1 ==> r == s as real - (c + t1) as real / 2.0
    ensures t1 < c ==> r == (s - c) as real
  {
    s as real - (c as real + RoundTrip(c, t1) as real / 2.0)
  }

  /** The update `offset === 0 ? sample : (1 - alpha) * offset + alpha * sample`. */
  function NextOffset(offset: real, sample: real): real
  {
    if offset == 0.0 then sample else (1.0 - Alpha) * offset + Alpha * sample
  }

  /** While the offset is 0 (before the first echo) a sample is taken as it is. */
  lemma FirstSampleTaken(sample: real)
    ensures NextOffset(0.0, sample) == sample
  {
  }

  /** Smoothing never overshoots: the new offset lies between the old one and the sample. */
  lemma EmaBetween(offset: real, sample: real)
    requires offset != 0.0
    ensures offset <= sample ==> offset <= NextOffset(offset, sample) <= sample
    ensures sample <= offset ==> sample <= NextOffset(offset, sample) <= offset
  {
  }

  /** Smoothing shrinks the distance to the sample by exactly the factor `1 - alpha`. */
  lemma EmaContracts(offset: real, sample: real)
    requires offset != 0.0
    ensures NextOffset(offset, sample) - sample == (1.0 - Alpha) * (offset - sample)
  {
  }

  /** A sample equal to the current nonzero offset leaves it unchanged. */
  lemma EmaFixedPoint(offset: real)
    requires offset != 0.0
    ensures NextOffset(offset, offset) == offset
  {
  }

  /** The first-sample rule is a test for an offset of exactly 0, not a flag: an average that
      happens to reach 0 makes the following echo replace it outright. Here offset -1 and
      sample 4 average to 0, and the next sample 10 is then taken as it is. */
  lemma ZeroOffsetRestarts()
    ensures NextOffset(-1.0, 4.0) == 0.0
    ensures NextOffset(NextOffset(-1.0, 4.0), 10.0) == 10.0
  {
  }

  class TimeSync {
    /** `serverTime - clientTime`, 0 before any echo. */
    var offset: real

    constructor ()
      ensures offset == 0.0
    {
      offset := 0.0;
    }

    /** `now()`: the local clock reading corrected by the current offset. */
    function Now(clock: int): real
      reads this
    {
      clock as real + offset
    }

    /** The `ts` echo handler; `t1` is the local clock when the echo arrives. */
    method OnEcho(c: int, s: int, t1: int)
      modifies this
      ensures offset == NextOffset(old(offset), SampleOffset(c, s, t1))
    {
      var rtt := if 0 >= t1 - c then 0 else t1 - c;
      var oneWay := rtt as real / 2.0;
      var sampleOffset := s as real - (c as real + oneWay);
      offset := if offset == 0.0 then sampleOffset else (1.0 - Alpha) * offset + Alpha * sampleOffset;
    }
  }

  /** After the first echo, the corrected clock at the moment of receipt reads the server's
      stamp plus half the round trip. */
  method FirstEchoAligns(c: int, s: int, t1: int) returns (reading: real)
    requires c <= t1
    ensures reading == s as real + (t1 - c) as real / 2.0
  {
    var sync := new TimeSync();
    sync.OnEcho(c, s, t1);
    reading := sync.Now(t1);
  }
}
