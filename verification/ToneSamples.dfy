/** What the bytes of the tone are worth when a listener reads them back as integers. */
module ToneSamples {
  import opened Buffers
  import opened Tone

  // ----- reading bytes as an integer, least significant byte first

  function Unsigned(bytes: seq<Byte>): int {
    if bytes == [] then 0 else bytes[0] + 256 * Unsigned(bytes[1..])
  }

  /** Two's complement: the most significant byte carries the sign. */
  function Signed(bytes: seq<Byte>): int
    requires bytes != []
  {
    if |bytes| == 1 then if bytes[0] < 128 then bytes[0] else bytes[0] - 256
    else bytes[0] + 256 * Signed(bytes[1..])
  }

  /** The integers of `count` bytes reach from minus this to just below it. */
  function Half(count: nat): int
    requires count > 0
  {
    if count == 1 then 128 else 256 * Half(count - 1)
  }

  lemma {:induction false} SignedLowBytes(n: int, count: nat)
    requires count > 0 && -Half(count) <= n < Half(count)
    ensures Signed(LowBytes(n, count)) == n
    decreases count
  {
    if count == 1 {
      assert LowBytes(n, 1) == [n % 256];
    } else {
      SignedLowBytes(n / 256, count - 1);
      assert LowBytes(n, count)[1..] == LowBytes(n / 256, count - 1);
    }
  }

  /** How a listener reads one sample: 8-bit samples are unsigned, the others signed. */
  function Reading(bytes: seq<Byte>, bits: nat): int
    requires bytes != []
  {
    if bits == 8 then Unsigned(bytes) else Signed(bytes)
  }

  // ----- what a sample is worth

  predicate InRange(value: real) {
    -1.0 <= value <= 1.0
  }

  /** `reading` is `target` without its fraction. */
  predicate TowardsZero(reading: int, target: real) {
    if target >= 0.0 then 0 <= reading && reading as real <= target < reading as real + 1.0
    else reading <= 0 && reading as real - 1.0 < target <= reading as real
  }

  /** The sample is `value` in units of full scale: 127.5 about the middle for 8 bits, 2^15 - 1 for 16, 2^31 - 1 for 32,
      and for 24 the 32-bit integer to within its missing byte. */
  predicate Decodes(reading: int, value: real, bits: nat) {
    if bits == 8 then 0 <= reading <= 255 && reading as real <= 127.5 * value + 127.5 < reading as real + 1.0
    else if bits == 16 then TowardsZero(reading, value * 32767.0)
    else if bits == 24 then 256.0 * reading as real - 1.0 < value * 2147483647.0 < 256.0 * reading as real + 256.0
    else TowardsZero(reading, value * 2147483647.0)
  }

  lemma TruncateTowardsZero(x: real)
    ensures TowardsZero(Truncate(x), x)
  {
  }

  lemma ScaledInRange(value: real, scale: real)
    requires InRange(value) && scale > 0.0
    ensures -scale <= value * scale <= scale
  {
    ScaleReal(-1.0, value, scale);
    ScaleReal(value, 1.0, scale);
  }

  lemma TruncateMonotone(x: real, y: real)
    requires x <= y
    ensures Truncate(x) <= Truncate(y)
  {
  }

  lemma Reads8(value: real)
    requires InRange(value)
    ensures Reading(Sample(value, 8), 8) == ConvertToUChar(value)
    ensures Decodes(ConvertToUChar(value), value, 8)
  {
    var n := ConvertToUChar(value);
    TruncateTowardsZero(value * 127.5 + 127.5);
    assert LowBytes(n, 1) == [n] && Unsigned([n]) == n + 256 * Unsigned([]);
  }

  lemma Reads16(value: real)
    requires InRange(value)
    ensures Reading(Sample(value, 16), 16) == ConvertToShort(value)
    ensures Decodes(ConvertToShort(value), value, 16)
  {
    ScaledInRange(value, 32767.0);
    TruncateTowardsZero(value * 32767.0);
    assert Half(2) == 32768;
    SignedLowBytes(ConvertToShort(value), 2);
  }

  lemma LongInRange(value: real)
    requires InRange(value)
    ensures -2147483647 <= ConvertToLong(value) <= 2147483647
    ensures Decodes(ConvertToLong(value), value, 32)
  {
    ScaledInRange(value, 2147483647.0);
    TruncateTowardsZero(value * 2147483647.0);
  }

  lemma Reads32(value: real)
    requires InRange(value)
    ensures Reading(Sample(value, 32), 32) == ConvertToLong(value)
  {
    LongInRange(value);
    assert Half(4) == 256 * Half(3) == 2147483648;
    SignedLowBytes(ConvertToLong(value), 4);
  }

  lemma Reads24(value: real)
    requires InRange(value)
    ensures Reading(Sample(value, 24), 24) == ConvertToLong(value) / 256
    ensures Decodes(ConvertToLong(value) / 256, value, 24)
  {
    LongInRange(value);
    assert Half(3) == 8388608;
    SignedLowBytes(ConvertToLong(value) / 256, 3);
  }

  /** A sample read back is the value it was made from, to within one unit. */
  lemma SampleDecodes(value: real, bits: nat)
    requires InRange(value) && Supported(bits)
    ensures Decodes(Reading(Sample(value, bits), bits), value, bits)
  {
    if bits == 8 {
      Reads8(value);
    } else if bits == 16 {
      Reads16(value);
    } else if bits == 24 {
      Reads24(value);
    } else {
      Reads32(value);
      LongInRange(value);
    }
  }

  /** A larger value never reads back as a smaller sample. */
  lemma SampleMonotone(v: real, w: real, bits: nat)
    requires InRange(v) && InRange(w) && v <= w && Supported(bits)
    ensures Reading(Sample(v, bits), bits) <= Reading(Sample(w, bits), bits)
  {
    if bits == 8 {
      Reads8(v);
      Reads8(w);
      TruncateMonotone(v * 127.5 + 127.5, w * 127.5 + 127.5);
    } else if bits == 16 {
      Reads16(v);
      Reads16(w);
      TruncateMonotone(v * 32767.0, w * 32767.0);
    } else {
      TruncateMonotone(v * 2147483647.0, w * 2147483647.0);
      if bits == 24 {
        Reads24(v);
        Reads24(w);
      } else {
        Reads32(v);
        Reads32(w);
      }
    }
  }

  // ----- what a frame and a run are worth

  /** The bytes of channel `i`. */
  function Channel(frame: seq<Byte>, bits: nat, i: nat): (bytes: seq<Byte>)
    requires Supported(bits) && FrameSize(i + 1, bits) <= |frame|
    ensures |bytes| == bits / 8
  {
    frame[FrameSize(i, bits)..FrameSize(i + 1, bits)]
  }

  lemma FrameSizeNext(bits: nat, i: nat)
    requires Supported(bits)
    ensures FrameSize(0, bits) == 0 && FrameSize(i + 1, bits) == FrameSize(i, bits) + bits / 8
  {
  }

  lemma CopiesFillFrame(bytes: seq<Byte>, bits: nat, channels: nat)
    requires Supported(bits) && |bytes| == bits / 8
    ensures |Copies(bytes, channels)| == FrameSize(channels, bits)
  {
  }

  lemma {:induction false} ChannelOfCopies(bytes: seq<Byte>, bits: nat, channels: nat, i: nat)
    requires Supported(bits) && |bytes| == bits / 8 && i < channels
    ensures |Copies(bytes, channels)| == FrameSize(channels, bits) >= FrameSize(i + 1, bits)
    ensures Channel(Copies(bytes, channels), bits, i) == bytes
    decreases channels
  {
    var others := Copies(bytes, channels - 1);
    CopiesFillFrame(bytes, bits, channels - 1);
    CopiesFillFrame(bytes, bits, channels);
    FrameSizeNext(bits, channels - 1);
    if i == channels - 1 {
      PieceBehind(others, bytes, 0, |bytes|);
    } else {
      ChannelOfCopies(bytes, bits, channels - 1, i);
      PieceAhead(others, bytes, FrameSize(i, bits), FrameSize(i + 1, bits));
    }
  }

  lemma PieceAhead(head: seq<Byte>, tail: seq<Byte>, from: nat, to: nat)
    requires from <= to <= |head|
    ensures (head + tail)[from..to] == head[from..to]
  {
  }

  lemma ChannelDecodes(value: real, bits: nat, channels: nat, i: nat)
    requires Supported(bits) && InRange(value) && i < channels
    ensures var frame := Copies(Sample(value, bits), channels);
      && |frame| == FrameSize(channels, bits) >= FrameSize(i + 1, bits)
      && Decodes(Reading(Channel(frame, bits, i), bits), value, bits)
  {
    ChannelOfCopies(Sample(value, bits), bits, channels, i);
    SampleDecodes(value, bits);
  }

  /** The value of the tone at a phase. */
  predicate IsValue(tone: Tone, phase: real, value: real) {
    value == tone.dcOffset + tone.amplitude * tone.sine(phase)
  }

  lemma FrameOfValue(tone: Tone, theta: real, value: real)
    requires tone.Proper() && IsValue(tone, theta, value)
    ensures tone.Frame(theta) == Copies(Sample(value, tone.bits), tone.channels)
  {
  }

  /** Every channel of a frame decodes to the tone's value at the frame's phase. */
  lemma FrameDecodes(tone: Tone, theta: real, value: real, i: nat)
    requires tone.Proper() && i < tone.channels && IsValue(tone, theta, value) && InRange(value)
    ensures FrameSize(i + 1, tone.bits) <= |tone.Frame(theta)|
    ensures Decodes(Reading(Channel(tone.Frame(theta), tone.bits, i), tone.bits), value, tone.bits)
  {
    FrameOfValue(tone, theta, value);
    ChannelDecodes(value, tone.bits, tone.channels, i);
  }

  /** The `k`-th frame of a stream is the frame of the phase reached by then. */
  lemma {:induction false} StreamFrameAt(tone: Tone, theta: real, length: nat, k: nat)
    requires tone.Proper() && Product(k, tone.Size()) + tone.Size() <= length
    ensures tone.Stream(theta, length)[Product(k, tone.Size())..Product(k, tone.Size()) + tone.Size()]
      == tone.Frame(tone.Phase(theta, k))
    decreases k
  {
    if k == 0 {
      FirstFrame(tone, theta, length);
    } else {
      StreamFrameAt(tone, tone.Advance(theta), length - tone.Size(), k - 1);
      SecondFrame(tone, theta, length, Product(k - 1, tone.Size()));
    }
  }

  lemma SecondFrame(tone: Tone, theta: real, length: nat, at: nat)
    requires tone.Proper() && at + tone.Size() + tone.Size() <= length
    ensures tone.Stream(theta, length)[at + tone.Size()..at + tone.Size() + tone.Size()]
      == tone.Stream(tone.Advance(theta), length - tone.Size())[at..at + tone.Size()]
  {
    FirstFrame(tone, theta, length);
    PieceBehind(tone.Frame(theta), tone.Stream(tone.Advance(theta), length - tone.Size()), at, tone.Size());
  }

  lemma FirstFrame(tone: Tone, theta: real, length: nat)
    requires tone.Proper() && tone.Size() <= length
    ensures tone.Stream(theta, length) == tone.Frame(theta) + tone.Stream(tone.Advance(theta), length - tone.Size())
    ensures tone.Stream(theta, length)[0..tone.Size()] == tone.Frame(theta)
  {
    if length == tone.Size() {
      assert tone.Frame(theta)[..length] + [] == tone.Frame(theta);
    }
  }

  lemma PieceBehind(head: seq<Byte>, tail: seq<Byte>, at: nat, length: nat)
    requires at + length <= |tail|
    ensures (head + tail)[at + |head|..at + |head| + length] == tail[at..at + length]
  {
  }

  /** The tone stays in the range of its samples. */
  ghost predicate Loud(tone: Tone) {
    forall phase, value :: 0.0 <= phase < TWO_PI && IsValue(tone, phase, value) ==> InRange(value)
  }

  /** What is heard in a run that drops nothing, from a frame boundary: in its `k`-th frame every channel reads back
      as the tone at the initial phase plus `k` increments, whole turns taken off. */
  lemma EveryFrameHeard(tone: Tone, theta: real, calls: seq<Call>, k: nat, i: nat)
    returns (turns: nat, phase: real, value: real)
    requires tone.Proper() && 0.0 <= theta < TWO_PI && 0.0 <= tone.increment <= TWO_PI && i < tone.channels
    requires Lost(tone, Place([], theta), calls) == 0 && Loud(tone)
    requires Product(k, tone.Size()) + tone.Size() <= |Heard(tone, Place([], theta), calls)|
    ensures 0.0 <= phase < TWO_PI && phase == Turned(theta, k, tone.increment, turns) && IsValue(tone, phase, value)
    ensures FrameSize(i + 1, tone.bits) <= tone.Size()
    ensures var heard, at := Heard(tone, Place([], theta), calls), Product(k, tone.Size());
      Decodes(Reading(Channel(heard[at..at + tone.Size()], tone.bits, i), tone.bits), value, tone.bits)
  {
    phase := tone.Phase(theta, k);
    turns := PhaseIsLinear(tone, theta, k);
    PhaseWithinTurn(tone, theta, k);
    value := tone.Value(phase);
    FrameHeard(tone, theta, calls, k);
    FrameDecodes(tone, phase, value, i);
  }

  lemma FrameHeard(tone: Tone, theta: real, calls: seq<Call>, k: nat)
    requires tone.Proper() && Lost(tone, Place([], theta), calls) == 0
    requires Product(k, tone.Size()) + tone.Size() <= |Heard(tone, Place([], theta), calls)|
    ensures var heard, at := Heard(tone, Place([], theta), calls), Product(k, tone.Size());
      heard[at..at + tone.Size()] == tone.Frame(tone.Phase(theta, k))
  {
    var length := |Heard(tone, Place([], theta), calls)|;
    ChunkIndependence(tone, Place([], theta), calls);
    FurtherFromStart(tone, theta, length);
    StreamFrameAt(tone, theta, length, k);
  }
}
