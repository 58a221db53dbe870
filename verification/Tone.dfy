/**
 The sine wave generator.  A client asks for buffers of any size; the bytes it gets are
 consecutive pieces of one stream of frames, except where a buffer was shorter than the
 rest of a frame left over from the call before.
 */
module Tone {
  import opened Buffers

  const TWO_PI: real := 6.283185307179586

  // ----- one sample

  /** A C cast from floating point to an integer drops the fraction. */
  function Truncate(x: real): int {
    if x >= 0.0 then x.Floor else -((-x).Floor)
  }

  function ConvertToLong(value: real): int { Truncate(value * 2147483647.0) }

  function ConvertToShort(value: real): int { Truncate(value * 32767.0) }

  function ConvertToUChar(value: real): int { Truncate(value * 127.5 + 127.5) }

  /** The low `count` bytes of an integer in two's complement, least significant first. */
  function LowBytes(n: int, count: nat): (bytes: seq<Byte>)
    ensures |bytes| == count
    decreases count
  {
    if count == 0 then [] else [n % 256] + LowBytes(n / 256, count - 1)
  }

  predicate Supported(bits: nat) { bits == 8 || bits == 16 || bits == 24 || bits == 32 }

  /** The bytes one channel of a frame gets. */
  function Sample(value: real, bits: nat): (bytes: seq<Byte>)
    requires Supported(bits)
    ensures |bytes| == bits / 8
  {
    if bits == 8 then LowBytes(ConvertToUChar(value), 1)
    else if bits == 16 then LowBytes(ConvertToShort(value), 2)
    else if bits == 24 then LowBytes(ConvertToLong(value) / 256, 3)
    else LowBytes(ConvertToLong(value), 4)
  }

  /** A 24-bit sample is the upper three bytes of the 32-bit one. */
  lemma Sample24(value: real)
    ensures Sample(value, 24) == Sample(value, 32)[1..]
  {
    var n := ConvertToLong(value);
    assert LowBytes(n, 4) == [n % 256] + LowBytes(n / 256, 3);
  }

  // ----- one frame

  /** The bytes of one frame, spelled out for the supported sample sizes. */
  function FrameSize(channels: nat, bits: nat): nat {
    if bits == 8 then channels
    else if bits == 16 then 2 * channels
    else if bits == 24 then 3 * channels
    else if bits == 32 then 4 * channels
    else Eighths(Product(channels, bits))
  }

  /** How many whole bytes that many bits are. */
  function Eighths(bits: nat): nat {
    if bits < 8 then 0 else 1 + Eighths(bits - 8)
  }

  lemma {:induction false} EighthsIs(bits: nat)
    ensures Eighths(bits) == bits / 8
  {
    if bits >= 8 {
      EighthsIs(bits - 8);
    }
  }

  function Product(a: nat, b: nat): nat {
    if a == 0 then 0 else Product(a - 1, b) + b
  }

  lemma {:induction false} ProductIs(a: nat, b: nat)
    ensures Product(a, b) == a * b
  {
    if a > 0 {
      ProductIs(a - 1, b);
    }
  }

  lemma FrameSizeIs(channels: nat, bits: nat)
    ensures FrameSize(channels, bits) == channels * bits / 8
  {
    ProductIs(channels, bits);
    EighthsIs(channels * bits);
  }

  function Copies(bytes: seq<Byte>, count: nat): (r: seq<Byte>)
    ensures |bytes| == 1 ==> |r| == count
    ensures |bytes| == 2 ==> |r| == 2 * count
    ensures |bytes| == 3 ==> |r| == 3 * count
    ensures |bytes| == 4 ==> |r| == 4 * count
    decreases count
  {
    if count == 0 then [] else Copies(bytes, count - 1) + bytes
  }

  /** The frame that storing a sample leaves in a buffer holding `before`.  With 24 bits every channel is
      stored at the start of the frame, and an unsupported sample size stores nothing. */
  function FrameOver(before: seq<Byte>, value: real, channels: nat, bits: nat): (frame: seq<Byte>)
    requires |before| == FrameSize(channels, bits)
    ensures |frame| == |before|
  {
    if !Supported(bits) || channels == 0 then before
    else if bits == 24 then Sample(value, 24) + before[3..]
    else Copies(Sample(value, bits), channels)
  }

  /** The formats in which a frame is filled completely. */
  predicate Whole(channels: nat, bits: nat) {
    Supported(bits) && (bits == 24 ==> channels == 1)
  }

  /** Exactly the whole formats leave nothing of what the buffer held before. */
  lemma WholeFramesHideTheBuffer(value: real, channels: nat, bits: nat)
    requires FrameSize(channels, bits) > 0
    ensures Whole(channels, bits) <==>
      forall a: seq<Byte>, b: seq<Byte> :: |a| == |b| == FrameSize(channels, bits) ==>
        FrameOver(a, value, channels, bits) == FrameOver(b, value, channels, bits)
  {
    var size := FrameSize(channels, bits);
    if !Whole(channels, bits) {
      var a: seq<Byte> := seq(size, _ => 0);
      var b: seq<Byte> := seq(size, _ => 1);
      assert bits == 24 ==> channels >= 2;
      assert FrameOver(a, value, channels, bits)[size - 1] != FrameOver(b, value, channels, bits)[size - 1];
    }
  }

  // ----- the stream

  /** What fixes a stream but for the phase of its first frame: the tone and the format. */
  datatype Tone = Tone(sine: real -> real, amplitude: real, dcOffset: real, increment: real, channels: nat, bits: nat)
  {
    function Size(): nat { FrameSize(channels, bits) }

    /** A format whose frames are stored completely. */
    predicate Proper() { Size() > 0 && Whole(channels, bits) }

    function Value(theta: real): real { dcOffset + amplitude * sine(theta) }

    function Frame(theta: real): (frame: seq<Byte>)
      requires Proper()
      ensures |frame| == Size()
    {
      Copies(Sample(Value(theta), bits), channels)
    }

    /** The phase after one more frame. */
    function Advance(theta: real): real {
      if theta + increment >= TWO_PI then theta + increment - TWO_PI else theta + increment
    }

    function Phase(theta: real, frames: nat): real
      decreases frames
    {
      if frames == 0 then theta else Phase(Advance(theta), frames - 1)
    }

    /** The first `length` bytes of frame(theta), frame(advance(theta)), ... */
    function Stream(theta: real, length: nat): (bytes: seq<Byte>)
      requires Proper()
      ensures |bytes| == length
      decreases length
    {
      if length <= Size() then Frame(theta)[..length] else Frame(theta) + Stream(Advance(theta), length - Size())
    }

    /** `length` bytes are a number of complete frames. */
    predicate Aligned(length: nat)
      requires Size() > 0
      decreases length
    {
      length == 0 || (length >= Size() && Aligned(length - Size()))
    }

    /** How many frames those bytes take. */
    function Frames(length: nat): nat
      requires Size() > 0
      decreases length
    {
      if length == 0 then 0 else if length <= Size() then 1 else 1 + Frames(length - Size())
    }

    /** What is left of the last of those frames. */
    function Rest(theta: real, length: nat): (bytes: seq<Byte>)
      requires Proper()
      ensures |bytes| < Size()
      decreases length
    {
      if length == 0 then []
      else if length <= Size() then Frame(theta)[length..]
      else Rest(Advance(theta), length - Size())
    }
  }

  /** A place in a stream: the rest of the current frame, and the phase of the next one. */
  datatype Place = Place(carry: seq<Byte>, theta: real)

  predicate Within(tone: Tone, at: Place) {
    tone.Proper() && |at.carry| < tone.Size()
  }

  /** The `length` bytes that come after a place. */
  function Ahead(tone: Tone, at: Place, length: nat): (bytes: seq<Byte>)
    requires tone.Proper()
    ensures |bytes| == length
  {
    if length <= |at.carry| then at.carry[..length]
    else at.carry + tone.Stream(at.theta, length - |at.carry|)
  }

  /** The place `length` bytes further on. */
  function Further(tone: Tone, at: Place, length: nat): (place: Place)
    requires tone.Proper()
    ensures Within(tone, at) ==> Within(tone, place)
  {
    if length <= |at.carry| then at.(carry := at.carry[length..])
    else var more := length - |at.carry|;
      Place(tone.Rest(at.theta, more), tone.Phase(at.theta, tone.Frames(more)))
  }

  /** Where the generator is after filling a buffer: a buffer shorter than the carried bytes costs the
      remaining ones. */
  function After(tone: Tone, at: Place, length: nat): (place: Place)
    requires tone.Proper()
    ensures Within(tone, at) ==> Within(tone, place)
  {
    if length < |at.carry| then at.(carry := []) else Further(tone, at, length)
  }

  // ----- the stream does not depend on how it is cut

  lemma Regroup(a: seq<Byte>, b: seq<Byte>, c: seq<Byte>)
    ensures a + (b + c) == (a + b) + c
  {
  }

  /** Where `length` bytes lead. */
  function There(tone: Tone, theta: real, length: nat): Place
    requires tone.Proper()
  {
    Place(tone.Rest(theta, length), tone.Phase(theta, tone.Frames(length)))
  }

  lemma ThereEarly(tone: Tone, theta: real, a: nat)
    requires tone.Proper() && 0 < a <= tone.Size()
    ensures There(tone, theta, a) == Place(tone.Frame(theta)[a..], tone.Advance(theta))
  {
    assert tone.Phase(tone.Advance(theta), 0) == tone.Advance(theta);
  }

  lemma ThereLater(tone: Tone, theta: real, a: nat)
    requires tone.Proper() && a > tone.Size()
    ensures There(tone, theta, a) == There(tone, tone.Advance(theta), a - tone.Size())
  {
  }

  /** Splitting within the first frame. */
  lemma StreamSplitEarly(tone: Tone, theta: real, a: nat, b: nat)
    requires tone.Proper() && 0 < a <= tone.Size()
    ensures tone.Stream(theta, a + b) == tone.Stream(theta, a) + Ahead(tone, There(tone, theta, a), b)
  {
    ThereEarly(tone, theta, a);
    var frame := tone.Frame(theta);
    if a + b <= tone.Size() {
      assert frame[..a + b] == frame[..a] + frame[a..][..b];
    } else {
      Regroup(frame[..a], frame[a..], tone.Stream(tone.Advance(theta), a + b - tone.Size()));
      assert frame == frame[..a] + frame[a..];
    }
  }

  lemma StreamSplitLater(tone: Tone, theta: real, a: nat, b: nat)
    requires tone.Proper() && a > tone.Size()
    requires var n, next := tone.Size(), tone.Advance(theta);
      tone.Stream(next, a - n + b) == tone.Stream(next, a - n) + Ahead(tone, There(tone, next, a - n), b)
    ensures tone.Stream(theta, a + b) == tone.Stream(theta, a) + Ahead(tone, There(tone, theta, a), b)
  {
    var n, next := tone.Size(), tone.Advance(theta);
    var ahead := Ahead(tone, There(tone, next, a - n), b);
    ThereLater(tone, theta, a);
    StreamLater(tone, theta, a + b, a - n + b);
    StreamLater(tone, theta, a, a - n);
    Regroup(tone.Frame(theta), tone.Stream(next, a - n), ahead);
  }

  lemma StreamLater(tone: Tone, theta: real, length: nat, rest: nat)
    requires tone.Proper() && length == rest + tone.Size() && rest > 0
    ensures tone.Stream(theta, length) == tone.Frame(theta) + tone.Stream(tone.Advance(theta), rest)
  {
  }

  lemma StreamSplitAtStart(tone: Tone, theta: real, b: nat)
    requires tone.Proper()
    ensures There(tone, theta, 0) == Place([], theta)
    ensures tone.Stream(theta, b) == tone.Stream(theta, 0) + Ahead(tone, Place([], theta), b)
  {
    assert tone.Stream(theta, 0) == [];
  }

  lemma {:induction false} StreamSplit(tone: Tone, theta: real, a: nat, b: nat)
    requires tone.Proper()
    ensures tone.Stream(theta, a + b) == tone.Stream(theta, a) + Ahead(tone, There(tone, theta, a), b)
    decreases a
  {
    if a > tone.Size() {
      StreamSplit(tone, tone.Advance(theta), a - tone.Size(), b);
      StreamSplitLater(tone, theta, a, b);
    } else if a > 0 {
      StreamSplitEarly(tone, theta, a, b);
    } else {
      StreamSplitAtStart(tone, theta, b);
    }
  }

  lemma {:induction false} RestSplit(tone: Tone, theta: real, a: nat, b: nat)
    requires tone.Proper()
    ensures Further(tone, Place([], theta), a + b) == Further(tone, Further(tone, Place([], theta), a), b)
    decreases a
  {
    var n := tone.Size();
    if a > n {
      RestSplit(tone, tone.Advance(theta), a - n, b);
    } else if 0 < a {
      assert tone.Phase(theta, 1) == tone.Advance(theta);
      if a + b <= n {
        assert tone.Frame(theta)[a + b..] == tone.Frame(theta)[a..][b..];
      } else {
        assert b - (n - a) == a + b - n;
      }
    }
  }

  /** Reading on from any place may be split anywhere. */
  lemma AheadSplit(tone: Tone, at: Place, a: nat, b: nat)
    requires tone.Proper()
    ensures Ahead(tone, at, a + b) == Ahead(tone, at, a) + Ahead(tone, Further(tone, at, a), b)
    ensures Further(tone, at, a + b) == Further(tone, Further(tone, at, a), b)
  {
    var k := |at.carry|;
    if a + b <= k {
      assert at.carry[a..][..b] == at.carry[a..a + b];
      assert at.carry[a..][b..] == at.carry[a + b..];
    } else if a <= k {
      assert at.carry == at.carry[..a] + at.carry[a..];
      assert a + b - k == b - |at.carry[a..]|;
    } else {
      StreamSplit(tone, at.theta, a - k, b);
      RestSplit(tone, at.theta, a - k, b);
      assert (a - k) + b == a + b - k;
    }
  }

  // ----- runs of calls

  /** One call: a silent one is muted, disabled or could not save the floating-point state. */
  datatype Call = Call(length: nat, silent: bool)

  function AfterAll(tone: Tone, at: Place, calls: seq<Call>): Place
    requires tone.Proper()
    decreases calls
  {
    if calls == [] then at
    else AfterAll(tone, if calls[0].silent then at else After(tone, at, calls[0].length), calls[1..])
  }

  /** The bytes of all calls that are not silent, one after the other. */
  function Heard(tone: Tone, at: Place, calls: seq<Call>): seq<Byte>
    requires tone.Proper()
    decreases calls
  {
    if calls == [] then []
    else if calls[0].silent then Heard(tone, at, calls[1..])
    else Ahead(tone, at, calls[0].length) + Heard(tone, After(tone, at, calls[0].length), calls[1..])
  }

  /** How many bytes of the stream are dropped along the way. */
  function Lost(tone: Tone, at: Place, calls: seq<Call>): nat
    requires tone.Proper()
    decreases calls
  {
    if calls == [] then 0
    else if calls[0].silent then Lost(tone, at, calls[1..])
    else (if calls[0].length < |at.carry| then |at.carry| - calls[0].length else 0)
         + Lost(tone, After(tone, at, calls[0].length), calls[1..])
  }

  /** Every buffer holds what the call before left over. */
  ghost predicate LongEnough(tone: Tone, at: Place, calls: seq<Call>)
    requires tone.Proper()
  {
    forall k :: 0 <= k < |calls| && !calls[k].silent ==> calls[k].length >= |AfterAll(tone, at, calls[..k]).carry|
  }

  /** One call keeps its place in the stream exactly when its buffer holds the carried bytes; otherwise it
      skips the rest of them. */
  lemma CallKeepsPlace(tone: Tone, at: Place, length: nat)
    requires tone.Proper()
    ensures After(tone, at, length) == Further(tone, at, length) <==> length >= |at.carry|
    ensures After(tone, at, length) == Further(tone, at, if length < |at.carry| then |at.carry| else length)
  {
  }

  lemma {:induction false} LostNothing(tone: Tone, at: Place, calls: seq<Call>)
    requires tone.Proper()
    ensures Lost(tone, at, calls) == 0 <==> LongEnough(tone, at, calls)
    decreases calls
  {
    if calls != [] {
      var next := if calls[0].silent then at else After(tone, at, calls[0].length);
      var rest := calls[1..];
      LostNothing(tone, next, rest);
      assert forall k :: 0 < k <= |calls| ==> calls[..k][0] == calls[0] && calls[..k][1..] == rest[..k - 1];
      assert calls[..0] == [];
      if LongEnough(tone, at, calls) {
        forall k | 0 <= k < |rest| && !rest[k].silent
          ensures rest[k].length >= |AfterAll(tone, next, rest[..k]).carry|
        {
          assert calls[..k + 1][1..] == rest[..k] && rest[k] == calls[k + 1];
        }
      }
      if LongEnough(tone, next, rest) && (calls[0].silent || calls[0].length >= |at.carry|) {
        forall k | 0 <= k < |calls| && !calls[k].silent
          ensures calls[k].length >= |AfterAll(tone, at, calls[..k]).carry|
        {
          if k > 0 { assert calls[k] == rest[k - 1] && calls[..k][1..] == rest[..k - 1]; }
        }
      }
    }
  }

  /** Chunk independence: when every buffer is long enough, the buffers together hold the beginning of the one
      stream. */
  lemma {:induction false} ChunkIndependence(tone: Tone, at: Place, calls: seq<Call>)
    requires tone.Proper() && Lost(tone, at, calls) == 0
    ensures Heard(tone, at, calls) == Ahead(tone, at, |Heard(tone, at, calls)|)
    ensures AfterAll(tone, at, calls) == Further(tone, at, |Heard(tone, at, calls)|)
    decreases calls
  {
    if calls != [] {
      var next := if calls[0].silent then at else After(tone, at, calls[0].length);
      ChunkIndependence(tone, next, calls[1..]);
      if !calls[0].silent {
        AheadSplit(tone, at, calls[0].length, |Heard(tone, next, calls[1..])|);
      }
    }
  }

  /** In every run the stream moves on by what was heard and what was lost. */
  lemma {:induction false} EveryByteAccounted(tone: Tone, at: Place, calls: seq<Call>)
    requires tone.Proper()
    ensures AfterAll(tone, at, calls) == Further(tone, at, |Heard(tone, at, calls)| + Lost(tone, at, calls))
    decreases calls
  {
    if calls != [] {
      var next := if calls[0].silent then at else After(tone, at, calls[0].length);
      EveryByteAccounted(tone, next, calls[1..]);
      if !calls[0].silent {
        FirstCallAccounted(tone, at, calls[0].length, |Heard(tone, next, calls[1..])| + Lost(tone, next, calls[1..]));
        HeardAndLost(tone, at, calls);
      }
    }
  }

  /** What the first call contributes. */
  lemma HeardAndLost(tone: Tone, at: Place, calls: seq<Call>)
    requires tone.Proper() && calls != [] && !calls[0].silent
    ensures var next := After(tone, at, calls[0].length);
      |Heard(tone, at, calls)| + Lost(tone, at, calls)
      == (if calls[0].length < |at.carry| then |at.carry| else calls[0].length)
         + (|Heard(tone, next, calls[1..])| + Lost(tone, next, calls[1..]))
  {
  }

  lemma FirstCallAccounted(tone: Tone, at: Place, length: nat, later: nat)
    requires tone.Proper()
    ensures Further(tone, After(tone, at, length), later)
      == Further(tone, at, (if length < |at.carry| then |at.carry| else length) + later)
  {
    CallKeepsPlace(tone, at, length);
    AheadSplit(tone, at, if length < |at.carry| then |at.carry| else length, later);
  }

  // ----- counting frames

  lemma {:induction false} FramesCover(tone: Tone, theta: real, length: nat)
    requires tone.Proper()
    ensures tone.Frames(length) * tone.Size() == length + |tone.Rest(theta, length)|
    decreases length
  {
    if length > tone.Size() {
      FramesCover(tone, tone.Advance(theta), length - tone.Size());
      OneMoreFrame(tone.Frames(length - tone.Size()), tone.Size());
    } else if length > 0 {
      OneMoreFrame(0, tone.Size());
    }
  }

  lemma OneMoreFrame(frames: nat, size: nat)
    ensures (1 + frames) * size == size + frames * size
    ensures 0 * size == 0
  {
  }

  lemma OneMore(n: int, k: int, q: int)
    requires n > 0 && k > q
    ensures k * n >= q * n + n
  {
    assert (k - q - 1) * n >= 0;
    assert (k - q - 1) * n == k * n - q * n - n;
  }

  /** Quotient and remainder are determined by what they have to satisfy. */
  lemma QuotientUnique(x: int, n: int, k: int, j: int)
    requires 0 <= j < n && x == k * n + j
    ensures x / n == k && x % n == j
  {
    var q := x / n;
    if k > q {
      OneMore(n, k, q);
    } else if k < q {
      OneMore(n, q, k);
    }
  }

  lemma Negate(n: int, k: int)
    ensures (-k) * n == -(k * n)
  {
  }

  /** The quotient, rounded up. */
  function RoundedUp(length: nat, size: nat): nat
    requires size > 0
  {
    (length + size - 1) / size
  }

  /** What `length` lacks to the next multiple of `size`. */
  function Lacking(length: nat, size: nat): nat
    requires size > 0
  {
    (0 - length as int) % size
  }

  /** The carried bytes are what `length` lacks to the next multiple of the frame size, and the frames are its
      rounded-up quotient. */
  lemma {:induction false} FrameArithmetic(tone: Tone, theta: real, length: nat)
    requires tone.Proper()
    ensures |tone.Rest(theta, length)| == Lacking(length, tone.Size())
    ensures tone.Frames(length) == RoundedUp(length, tone.Size())
  {
    var n: int, k: int, c: int := tone.Size(), tone.Frames(length), |tone.Rest(theta, length)|;
    FramesCover(tone, theta, length);
    Negate(n, k);
    QuotientUnique(0 - length as int, n, -k, c);
    QuotientUnique(length + n - 1, n, k, n - 1 - c);
  }

  // ----- the phase

  lemma ScaleReal(a: real, b: real, x: real)
    requires a <= b && x >= 0.0
    ensures a * x <= b * x
  {
    var d := b - a;
    assert d * x >= 0.0;
    assert d * x == b * x - a * x;
  }

  lemma ScaleStrictly(a: real, b: real, x: real)
    requires a < b && x > 0.0
    ensures a * x < b * x
  {
    var d := b - a;
    assert d * x > 0.0;
    assert d * x == b * x - a * x;
  }

  lemma DivideReal(a: real, x: real, b: real)
    requires b > 0.0 && 0.0 <= a <= b * x
    ensures 0.0 <= a / b <= x
  {
    var q := a / b;
    assert q * b == a;
    if q > x {
      ScaleStrictly(x, q, b);
      assert false;
    }
    if q < 0.0 {
      ScaleStrictly(q, 0.0, b);
      assert false;
    }
  }

  lemma IncrementBelowTurn(frequency: nat, rate: nat)
    requires frequency <= rate && rate > 0
    ensures 0.0 <= frequency as real * TWO_PI / rate as real <= TWO_PI
  {
    var f, r, turn := frequency as real, rate as real, TWO_PI;
    ScaleReal(f, r, turn);
    ScaleReal(0.0, f, turn);
    DivideReal(f * turn, turn, r);
  }

  /** A tone below the sample rate keeps the phase within one turn. */
  lemma {:induction false} PhaseWithinTurn(tone: Tone, theta: real, frames: nat)
    requires 0.0 <= theta < TWO_PI && 0.0 <= tone.increment <= TWO_PI
    ensures 0.0 <= tone.Phase(theta, frames) < TWO_PI
    decreases frames
  {
    if frames > 0 {
      PhaseWithinTurn(tone, tone.Advance(theta), frames - 1);
    }
  }

  function Turned(theta: real, frames: nat, increment: real, turns: nat): real {
    theta + frames as real * increment - turns as real * TWO_PI
  }

  /** The phase is the initial one plus one increment a frame, but for whole turns. */
  lemma {:induction false} PhaseIsLinear(tone: Tone, theta: real, frames: nat) returns (turns: nat)
    ensures tone.Phase(theta, frames) == Turned(theta, frames, tone.increment, turns)
    decreases frames
  {
    if frames == 0 {
      turns := 0;
    } else {
      var next := tone.Advance(theta);
      var rest := PhaseIsLinear(tone, next, frames - 1);
      var wraps := theta + tone.increment >= TWO_PI;
      turns := if wraps then rest + 1 else rest;
      OneMoreReal(frames - 1, tone.increment);
      OneMoreReal(rest, TWO_PI);
    }
  }

  lemma OneMoreReal(n: nat, x: real)
    ensures (n + 1) as real * x == n as real * x + x
  {
  }

  // ----- all of it, for a run of calls

  /** A run that drops nothing, from a frame boundary: what was heard is the beginning of the stream, the
      carried bytes are what it lacks to a whole number of frames, and the phase has advanced once for every
      frame begun, within one turn. */
  lemma EveryRun(tone: Tone, theta: real, calls: seq<Call>) returns (turns: nat)
    requires tone.Proper() && 0.0 <= theta < TWO_PI && 0.0 <= tone.increment <= TWO_PI
    requires Lost(tone, Place([], theta), calls) == 0
    ensures var heard := Heard(tone, Place([], theta), calls);
      var at := AfterAll(tone, Place([], theta), calls);
      && heard == tone.Stream(theta, |heard|)
      && |at.carry| == Lacking(|heard|, tone.Size())
      && 0.0 <= at.theta < TWO_PI
      && at.theta == Turned(theta, RoundedUp(|heard|, tone.Size()), tone.increment, turns)
  {
    var length := |Heard(tone, Place([], theta), calls)|;
    ChunkIndependence(tone, Place([], theta), calls);
    FurtherFromStart(tone, theta, length);
    FrameArithmetic(tone, theta, length);
    PhaseWithinTurn(tone, theta, tone.Frames(length));
    turns := PhaseIsLinear(tone, theta, tone.Frames(length));
  }

  lemma FurtherFromStart(tone: Tone, theta: real, length: nat)
    requires tone.Proper()
    ensures Further(tone, Place([], theta), length) == There(tone, theta, length)
    ensures Ahead(tone, Place([], theta), length) == tone.Stream(theta, length)
  {
    if length == 0 {
      assert [][0..] == tone.Rest(theta, 0);
    }
  }
}
