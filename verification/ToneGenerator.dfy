/** The tone generator object: it writes frames into the caller's buffer and keeps a partial frame between calls. */
module ToneGeneration {
  import opened Buffers
  import opened Tone

  /** How many bytes at the front of a frame are stored once `channels` channels are done. */
  function Stored(channels: nat, bits: nat): nat {
    if bits == 8 then channels
    else if bits == 16 then 2 * channels
    else if bits == 24 then if channels > 0 then 3 else 0
    else if bits == 32 then 4 * channels
    else 0
  }

  /** What those bytes are. */
  function StoredBytes(bytes: seq<Byte>, channels: nat, bits: nat): seq<Byte> {
    if channels == 0 || !Supported(bits) then []
    else if bits == 24 then bytes
    else Copies(bytes, channels)
  }

  lemma WholeFrames(length: nat, size: nat)
    requires size > 0
    ensures Product(length / size, size) <= length < Product(length / size, size) + size
  {
    ProductIs(length / size, size);
  }

  /** Where the sample of channel `i` goes. */
  function Position(i: nat, bits: nat): nat {
    if bits == 24 then 0 else Stored(i, bits)
  }

  /** Writing behind `at` leaves what is before it. */
  lemma SamePrefix(before: seq<Byte>, after: seq<Byte>, from: nat, at: nat)
    requires from <= at <= |before| == |after| && before[..at] == after[..at]
    ensures before[..from] == after[..from] && after[from..] == before[from..at] + after[at..]
  {
    assert before[..from] == before[..at][..from];
    assert after[..from] == after[..at][..from];
    assert before[from..at] == before[..at][from..];
    assert after[from..at] == after[..at][from..];
  }

  class ToneGenerator {
    const sine: real -> real
    var frequency: nat
    var channelCount: nat
    var bitsPerSample: nat
    var samplesPerSecond: nat
    var theta: real
    var sampleIncrement: real
    var mute: bool
    var partialFrame: array?<Byte>
    var partialFrameBytes: nat
    var frameSize: nat
    var toneAmplitude: real
    var toneDCOffset: real

    ghost function Settings(): Tone
      reads this
    {
      Tone(sine, toneAmplitude, toneDCOffset, sampleIncrement, channelCount, bitsPerSample)
    }

    ghost predicate Valid()
      reads this
    {
      && frameSize == FrameSize(channelCount, bitsPerSample) > 0
      && partialFrame != null && partialFrame.Length == frameSize
      && partialFrameBytes < frameSize
    }

    /** Where the generator is in its stream. */
    ghost function At(): Place
      requires Valid()
      reads this, partialFrame
    {
      Place(partialFrame[frameSize - partialFrameBytes..], theta)
    }

    constructor (sine: real -> real)
      ensures this.sine == sine && partialFrame == null && partialFrameBytes == 0 && !mute
    {
      this.sine := sine;
      frequency, channelCount, bitsPerSample, samplesPerSecond, frameSize := 0, 0, 0, 0, 0;
      mute, partialFrame, partialFrameBytes := false, null, 0;
    }

    /** `floatOk` and `memoryOk` are the outcomes of saving the floating-point state and of the pool allocation.
        The increment of a zero sample rate is no real number, and nothing is said about it. */
    method Init(toneFrequency: nat, amplitude: real, dcOffset: real, initialPhase: real, pcm: bool,
                channels: nat, bits: nat, rate: nat, floatOk: bool, memoryOk: bool) returns (ok: bool)
      modifies this
      ensures ok <==> pcm && floatOk && memoryOk
      ensures partialFrameBytes == old(partialFrameBytes)
      ensures ok && FrameSize(channels, bits) > 0 ==>
        && (Valid() <==> partialFrameBytes < FrameSize(channels, bits))
        && fresh(partialFrame) && forall j :: 0 <= j < partialFrame.Length ==> partialFrame[j] == 0
      ensures ok && FrameSize(channels, bits) > 0 && partialFrameBytes == 0 ==> At() == Place([], initialPhase)
      ensures ok ==> Settings() == Tone(sine, amplitude, dcOffset, sampleIncrement, channels, bits)
      ensures ok && rate > 0 ==> sampleIncrement == toneFrequency as real * TWO_PI / rate as real
      ensures ok && rate > 0 && toneFrequency <= rate ==> 0.0 <= sampleIncrement <= TWO_PI
    {
      if !pcm || !floatOk {
        return false;
      }
      theta := initialPhase;
      frequency := toneFrequency;
      toneAmplitude, toneDCOffset := amplitude, dcOffset;
      channelCount, bitsPerSample, samplesPerSecond := channels, bits, rate;
      mute := false;
      sampleIncrement := *;
      if rate > 0 {
        sampleIncrement := frequency as real * TWO_PI / samplesPerSecond as real;
      }
      frameSize := channelCount * bitsPerSample / 8;
      FrameSizeIs(channels, bits);
      if rate > 0 && toneFrequency <= rate {
        IncrementBelowTurn(toneFrequency, rate);
      }
      if !memoryOk {
        return false;
      }
      partialFrame := new Byte[frameSize](_ => 0);
      ok := true;
    }

    /** The bytes a sample is stored as; none for a sample size that is not supported. */
    ghost function SampleOf(sinValue: real): seq<Byte>
      reads this
    {
      if Supported(bitsPerSample) then Sample(sinValue, bitsPerSample) else []
    }

    /** One turn of the channel loop. */
    method StoreSample(frame: array<Byte>, at: nat, i: nat, sinValue: real)
      requires at + Stored(i + 1, bitsPerSample) <= frame.Length
      modifies frame
      ensures at + Position(i, bitsPerSample) + |SampleOf(sinValue)| <= frame.Length
      ensures frame[..] == Splice(old(frame[..]), at + Position(i, bitsPerSample), SampleOf(sinValue))
    {
      var position: nat, bytes: seq<Byte> := 0, [];
      if bitsPerSample == 8 {
        position, bytes := i, LowBytes(ConvertToUChar(sinValue), 1);
      } else if bitsPerSample == 16 {
        position, bytes := 2 * i, LowBytes(ConvertToShort(sinValue), 2);
      } else if bitsPerSample == 24 {
        var val := ConvertToLong(sinValue);
        val := val / 256;
        bytes := LowBytes(val, 3);
      } else if bitsPerSample == 32 {
        position, bytes := 4 * i, LowBytes(ConvertToLong(sinValue), 4);
      }
      Store(frame, at + position, bytes);
    }

    /** One turn of the channel loop, seen from the bytes stored so far. */
    method StoreChannel(frame: array<Byte>, at: nat, i: nat, sinValue: real, ghost start: seq<Byte>)
      requires at + Stored(i + 1, bitsPerSample) <= frame.Length == |start| && Fits(frame, at, i, sinValue)
      requires frame[..] == Splice(start, at, StoredBytes(SampleOf(sinValue), i, bitsPerSample))
      modifies frame
      ensures Fits(frame, at, i + 1, sinValue)
      ensures frame[..] == Splice(start, at, StoredBytes(SampleOf(sinValue), i + 1, bitsPerSample))
    {
      StoredLength(SampleOf(sinValue), i + 1, bitsPerSample);
      StoreSample(frame, at, i, sinValue);
      ChannelSplice(start, at, SampleOf(sinValue), i, bitsPerSample);
    }

    /** There is room for the first `i` channels. */
    ghost predicate Fits(frame: array<Byte>, at: nat, i: nat, sinValue: real)
      reads this
    {
      at + |StoredBytes(SampleOf(sinValue), i, bitsPerSample)| <= frame.Length
    }

    /** The channel loop. */
    method StoreAllChannels(frame: array<Byte>, at: nat, sinValue: real)
      requires at + Stored(channelCount, bitsPerSample) <= frame.Length && Fits(frame, at, channelCount, sinValue)
      modifies frame
      ensures frame[..] == Splice(old(frame[..]), at, StoredBytes(SampleOf(sinValue), channelCount, bitsPerSample))
    {
      ghost var start := frame[..];
      var i := 0;
      while i < channelCount
        invariant 0 <= i <= channelCount && Fits(frame, at, i, sinValue)
        invariant frame[..] == Splice(start, at, StoredBytes(SampleOf(sinValue), i, bitsPerSample))
      {
        StoredGrows(i + 1, channelCount, bitsPerSample);
        StoreChannel(frame, at, i, sinValue, start);
        i := i + 1;
      }
    }

    method StoreChannels(frame: array<Byte>, at: nat, size: nat, sinValue: real)
      requires at + size <= frame.Length && size == FrameSize(channelCount, bitsPerSample)
      modifies frame
      ensures frame[..]
        == Splice(old(frame[..]), at, FrameOver(old(frame[at..at + size]), sinValue, channelCount, bitsPerSample))
    {
      FrameSplice(frame[..], at, size, sinValue);
      StoredFits(SampleOf(sinValue), channelCount, channelCount, bitsPerSample);
      StoreAllChannels(frame, at, sinValue);
    }

    /** What the channel loop has stored is the frame. */
    lemma FrameSplice(start: seq<Byte>, at: nat, size: nat, sinValue: real)
      requires at + size <= |start| && size == FrameSize(channelCount, bitsPerSample)
      ensures |StoredBytes(SampleOf(sinValue), channelCount, bitsPerSample)| <= size
      ensures Splice(start, at, StoredBytes(SampleOf(sinValue), channelCount, bitsPerSample))
        == Splice(start, at, FrameOver(start[at..at + size], sinValue, channelCount, bitsPerSample))
    {
      FrameOverIs(start[at..at + size], sinValue, channelCount, bitsPerSample);
      SpliceKeeping(start, at, StoredBytes(SampleOf(sinValue), channelCount, bitsPerSample), size);
    }

    /** Storing the sample of the current phase is storing its frame. */
    method StoreFrame(frame: array<Byte>, at: nat, size: nat, sinValue: real)
      requires at + size <= frame.Length && size == FrameSize(channelCount, bitsPerSample)
      requires sinValue == Settings().Value(theta)
      modifies frame
      ensures frame[..]
        == Splice(old(frame[..]), at, FrameOver(old(frame[at..at + size]), sinValue, channelCount, bitsPerSample))
      ensures frame[..at] == old(frame[..at])
      ensures Settings().Proper() ==> frame[at..at + size] == Settings().Frame(theta)
    {
      ghost var start := frame[..];
      ghost var stored := FrameOver(start[at..at + size], sinValue, channelCount, bitsPerSample);
      StoreChannels(frame, at, size, sinValue);
      ReadBack(start, frame, at, stored);
      if Settings().Proper() {
        FrameStored(Settings(), theta, start[at..at + size]);
      }
    }

    lemma ReadBack(start: seq<Byte>, frame: array<Byte>, at: nat, bytes: seq<Byte>)
      requires at + |bytes| <= |start| && frame[..] == Splice(start, at, bytes)
      ensures frame[..at] == start[..at] && frame[at..at + |bytes|] == bytes
    {
      SpliceParts(start, at, bytes);
      assert frame[..][..at] == frame[..at];
      assert frame[..][at..at + |bytes|] == frame[at..at + |bytes|];
    }

    method InitNewFrame(frame: array<Byte>, at: nat, size: nat)
      requires at + size <= frame.Length
      modifies frame, `theta
      ensures size == FrameSize(channelCount, bitsPerSample) ==>
        && theta == Settings().Advance(old(theta))
        && frame[..] == Splice(old(frame[..]), at,
             FrameOver(old(frame[at..at + size]), Settings().Value(old(theta)), channelCount, bitsPerSample))
        && frame[..at] == old(frame[..at])
      ensures size == Settings().Size() && Settings().Proper() ==> frame[at..at + size] == Settings().Frame(old(theta))
      ensures size != FrameSize(channelCount, bitsPerSample) ==>
        theta == old(theta) && frame[..] == Splice(old(frame[..]), at, Zeros(size))
    {
      FrameSizeIs(channelCount, bitsPerSample);
      var sinValue := toneDCOffset + toneAmplitude * sine(theta);
      if size != channelCount * bitsPerSample / 8 {
        Store(frame, at, Zeros(size));
        return;
      }
      StoreFrame(frame, at, size, sinValue);
      theta := theta + sampleIncrement;
      if theta >= TWO_PI {
        theta := theta - TWO_PI;
      }
    }

    /** The residual bytes of the last frame. */
    method CopyResidue(buffer: array<Byte>) returns (at: nat)
      requires Valid() && buffer != partialFrame
      modifies buffer, `partialFrameBytes, partialFrame
      ensures Valid() && at <= buffer.Length && partialFrameBytes == 0
      ensures at == if buffer.Length < old(partialFrameBytes) then buffer.Length else old(partialFrameBytes)
      ensures buffer[..at] == old(At()).carry[..at]
    {
      at := 0;
      if partialFrameBytes != 0 {
        var offset := frameSize - partialFrameBytes;
        var copyBytes := if partialFrameBytes < buffer.Length then partialFrameBytes else buffer.Length;
        ghost var residue := partialFrame[offset..offset + copyBytes];
        assert residue == At().carry[..copyBytes];
        SpliceParts(buffer[..], 0, residue);
        Store(buffer, 0, partialFrame[offset..offset + copyBytes]);
        Store(partialFrame, offset, Zeros(copyBytes));
        at := at + copyBytes;
        partialFrameBytes := 0;
      }
    }

    /** A new frame of the full size. */
    method InitWholeFrame(frame: array<Byte>, at: nat)
      requires Valid() && at + frameSize <= frame.Length
      modifies frame, `theta
      ensures theta == Settings().Advance(old(theta))
      ensures Settings().Proper() ==> frame[at..at + frameSize] == Settings().Frame(old(theta))
      ensures frame[..at] == old(frame[..at])
    {
      InitNewFrame(frame, at, frameSize);
    }

    /** One aligned frame. */
    method CopyFrame(buffer: array<Byte>, from: nat, at: nat, ghost start: real)
      requires Valid() && buffer != partialFrame && from <= at && at + frameSize <= buffer.Length
      requires Played(Settings(), start, at - from, buffer[from..at], theta)
      modifies buffer, `theta
      ensures buffer[..from] == old(buffer[..from])
      ensures Played(Settings(), start, at + frameSize - from, buffer[from..at + frameSize], theta)
    {
      ghost var phase, before := theta, buffer[..at];
      InitWholeFrame(buffer, at);
      ghost var frame := buffer[at..at + frameSize];
      SamePrefix(before, buffer[..at], from, at);
      assert buffer[from..at + frameSize] == before[from..] + frame;
      PlayedFrame(Settings(), start, at - from, before[from..], phase, frame);
    }

    /** All the aligned frames. */
    method CopyFrames(buffer: array<Byte>, from: nat) returns (at: nat)
      requires Valid() && buffer != partialFrame && from <= buffer.Length && partialFrameBytes == 0
      modifies buffer, `theta
      ensures from <= at <= buffer.Length && buffer.Length - at < frameSize
      ensures buffer[..from] == old(buffer[..from])
      ensures Played(Settings(), old(theta), at - from, buffer[from..at], theta)
    {
      at := from;
      var frames := (buffer.Length - from) / frameSize;
      WholeFrames(buffer.Length - from, frameSize);
      ghost var left := frames;
      var i := 0;
      while i < frames
        invariant left == frames - i >= 0
        invariant from <= at <= buffer.Length
        invariant Product(left, frameSize) <= buffer.Length - at < Product(left, frameSize) + frameSize
        invariant buffer[..from] == old(buffer[..from])
        invariant Played(Settings(), old(theta), at - from, buffer[from..at], theta)
      {
        CopyFrame(buffer, from, at, old(theta));
        at := at + frameSize;
        i, left := i + 1, left - 1;
      }
    }

    /** A partial frame at the end; the rest of it is carried to the next call. */
    method CopyPartialFrame(buffer: array<Byte>, at: nat)
      requires Valid() && buffer != partialFrame && partialFrameBytes == 0
      requires at < buffer.Length < at + frameSize
      modifies buffer, `theta, `partialFrameBytes, partialFrame
      ensures Valid() && buffer[..at] == old(buffer[..at])
      ensures theta == Settings().Advance(old(theta))
      ensures Settings().Proper() ==>
        buffer[at..] == Settings().Frame(old(theta))[..buffer.Length - at]
        && At().carry == Settings().Frame(old(theta))[buffer.Length - at..]
    {
      var length := buffer.Length - at;
      InitWholeFrame(partialFrame, 0);
      ghost var frame := partialFrame[..];
      assert frame == partialFrame[0..frameSize];
      SplitFrame(buffer, at, length);
      partialFrameBytes := frameSize - length;
    }

    /** The first bytes of the new frame go to the end of the buffer and are cleared. */
    method SplitFrame(buffer: array<Byte>, at: nat, length: nat)
      requires partialFrame != null && buffer != partialFrame && at + length == buffer.Length
      requires length <= partialFrame.Length
      modifies buffer, partialFrame
      ensures buffer[..at] == old(buffer[..at]) && buffer[at..] == old(partialFrame[..length])
      ensures partialFrame[length..] == old(partialFrame[length..])
    {
      ghost var before, frame := buffer[..], partialFrame[..];
      SpliceParts(before, at, frame[..length]);
      SpliceParts(frame, 0, Zeros(length));
      Store(buffer, at, partialFrame[..length]);
      Store(partialFrame, 0, Zeros(length));
      assert buffer[..][..at] == buffer[..at] && buffer[..][at..] == buffer[at..];
      assert partialFrame[..][length..] == partialFrame[length..];
    }

    /** The same, seen from where the frames begin. */
    method CopyLastFrame(buffer: array<Byte>, from: nat, at: nat)
      requires Valid() && buffer != partialFrame && partialFrameBytes == 0
      requires from <= at < buffer.Length < at + frameSize
      modifies buffer, `theta, `partialFrameBytes, partialFrame
      ensures Valid() && buffer[..from] == old(buffer[..from]) && Settings() == old(Settings())
      ensures theta == Settings().Advance(old(theta))
      ensures Settings().Proper() ==>
        buffer[from..] == old(buffer[from..at]) + Settings().Frame(old(theta))[..buffer.Length - at]
        && At().carry == Settings().Frame(old(theta))[buffer.Length - at..]
    {
      ghost var before := buffer[..];
      CopyPartialFrame(buffer, at);
      SamePrefix(before, buffer[..], from, at);
    }

    /** The partial frame after complete ones. */
    method PlayLast(buffer: array<Byte>, from: nat, at: nat, ghost start: real)
      requires Valid() && buffer != partialFrame && partialFrameBytes == 0
      requires from <= at < buffer.Length < at + frameSize
      requires Played(Settings(), start, at - from, buffer[from..at], theta)
      modifies buffer, `theta, `partialFrameBytes, partialFrame
      ensures Valid() && buffer[..from] == old(buffer[..from])
      ensures theta == Settings().Phase(start, Settings().Frames(buffer.Length - from))
      ensures Settings().Proper() ==>
        buffer[from..] == Settings().Stream(start, buffer.Length - from)
        && At().carry == Settings().Rest(start, buffer.Length - from)
    {
      PlayedPart(Settings(), start, at - from, buffer[from..at], theta, buffer.Length - at);
      CopyLastFrame(buffer, from, at);
    }

    /** Everything after the residue. */
    method PlayFrames(buffer: array<Byte>, from: nat)
      requires Valid() && buffer != partialFrame && from < buffer.Length && partialFrameBytes == 0
      modifies buffer, `theta, `partialFrameBytes, partialFrame
      ensures Valid() && buffer[..from] == old(buffer[..from])
      ensures theta == Settings().Phase(old(theta), Settings().Frames(buffer.Length - from))
      ensures Settings().Proper() ==>
        buffer[from..] == Settings().Stream(old(theta), buffer.Length - from)
        && At().carry == Settings().Rest(old(theta), buffer.Length - from)
    {
      var at := CopyFrames(buffer, from);
      if at == buffer.Length {
        assert buffer[from..] == buffer[from..at];
        return;
      }
      PlayLast(buffer, from, at, old(theta));
    }

    /** Fills `buffer`: the residue first, then frames. */
    method Fill(buffer: array<Byte>)
      requires Valid() && buffer != partialFrame
      modifies buffer, `theta, `partialFrameBytes, partialFrame
      ensures Valid()
      ensures theta == Settings().Phase(old(theta), Settings().Frames(Fresh(buffer.Length, old(partialFrameBytes))))
      ensures Settings().Proper() ==>
        buffer[..] == Ahead(Settings(), old(At()), buffer.Length) && At() == After(Settings(), old(At()), buffer.Length)
    {
      ghost var start := At();
      var from := CopyResidue(buffer);
      ghost var residue := buffer[..from];
      if from == buffer.Length {
        assert buffer[..] == residue;
        assert buffer.Length == |start.carry| ==> start.carry[buffer.Length..] == [];
        return;
      }
      assert residue == start.carry;
      PlayFrames(buffer, from);
      assert buffer[..] == residue + buffer[from..];
    }

    /** `enabled` is false when the registry disables the generator. */
    method GenerateSine(buffer: array<Byte>, enabled: bool, floatOk: bool)
      requires Valid() && buffer != partialFrame
      modifies buffer, `theta, `partialFrameBytes, partialFrame
      ensures Valid() && Settings() == old(Settings()) && partialFrame == old(partialFrame)
      ensures mute || !enabled || !floatOk ==>
        At() == old(At()) && forall j :: 0 <= j < buffer.Length ==> buffer[j] == 0
      ensures !mute && enabled && floatOk ==>
        theta == Settings().Phase(old(theta), Settings().Frames(Fresh(buffer.Length, old(partialFrameBytes))))
      ensures !mute && enabled && floatOk && Whole(channelCount, bitsPerSample) ==>
        buffer[..] == Ahead(Settings(), old(At()), buffer.Length) && At() == After(Settings(), old(At()), buffer.Length)
    {
      if mute || !enabled || !floatOk {
        Store(buffer, 0, Zeros(buffer.Length));
        return;
      }
      Fill(buffer);
    }
  }

  /** How many bytes of a buffer are not covered by the residue. */
  function Fresh(length: nat, residue: nat): nat {
    if length <= residue then 0 else length - residue
  }

  /** Complete frames have been played from phase `start`, and the next frame has phase `theta`. */
  ghost predicate Played(tone: Tone, start: real, length: nat, bytes: seq<Byte>, theta: real) {
    && tone.Size() > 0 && tone.Aligned(length)
    && theta == tone.Phase(start, tone.Frames(length))
    && (tone.Proper() ==> bytes == tone.Stream(start, length) && tone.Rest(start, length) == [])
  }

  lemma PlayedFrame(tone: Tone, start: real, length: nat, bytes: seq<Byte>, theta: real, frame: seq<Byte>)
    requires Played(tone, start, length, bytes, theta)
    requires tone.Proper() ==> frame == tone.Frame(theta)
    ensures Played(tone, start, length + tone.Size(), bytes + frame, tone.Advance(theta))
  {
    FrameMore(tone, start, length, tone.Size());
    if tone.Proper() {
      BytesMore(tone, start, length, tone.Size());
      assert frame[..tone.Size()] == frame;
    }
  }

  lemma PlayedPart(tone: Tone, start: real, length: nat, bytes: seq<Byte>, theta: real, part: nat)
    requires Played(tone, start, length, bytes, theta) && 0 < part < tone.Size()
    ensures tone.Advance(theta) == tone.Phase(start, tone.Frames(length + part))
    ensures tone.Proper() ==>
      && tone.Stream(start, length + part) == bytes + tone.Frame(theta)[..part]
      && tone.Rest(start, length + part) == tone.Frame(theta)[part..]
  {
    FrameMore(tone, start, length, part);
    if tone.Proper() {
      BytesMore(tone, start, length, part);
    }
  }

  lemma StoredLength(bytes: seq<Byte>, channels: nat, bits: nat)
    requires Supported(bits) ==> |bytes| == bits / 8
    ensures |StoredBytes(bytes, channels, bits)| == Stored(channels, bits)
  {
  }

  lemma StoredGrows(i: nat, channels: nat, bits: nat)
    requires i <= channels
    ensures Stored(i, bits) <= Stored(channels, bits)
  {
  }

  lemma StoredFits(bytes: seq<Byte>, i: nat, channels: nat, bits: nat)
    requires i <= channels && (Supported(bits) ==> |bytes| == bits / 8)
    ensures |StoredBytes(bytes, i, bits)| == Stored(i, bits) <= FrameSize(channels, bits)
  {
    StoredLength(bytes, i, bits);
  }

  /** One more channel stored: with 24 bits it covers the one before. */
  lemma ChannelSplice(start: seq<Byte>, at: nat, bytes: seq<Byte>, i: nat, bits: nat)
    requires if Supported(bits) then |bytes| == bits / 8 else bytes == []
    requires at + |StoredBytes(bytes, i + 1, bits)| <= |start|
    ensures |StoredBytes(bytes, i, bits)| == Stored(i, bits)
    ensures at + Stored(i, bits) <= |start| && at + Position(i, bits) + |bytes| <= |start|
    ensures Splice(Splice(start, at, StoredBytes(bytes, i, bits)), at + Position(i, bits), bytes)
      == Splice(start, at, StoredBytes(bytes, i + 1, bits))
  {
    var first := StoredBytes(bytes, i, bits);
    StoredLength(bytes, i, bits);
    StoredLength(bytes, i + 1, bits);
    if bits == 24 {
      SpliceAgain(start, at, first, bytes);
    } else {
      SpliceNext(start, at, first, bytes);
      if Supported(bits) {
        assert StoredBytes(bytes, i + 1, bits) == first + bytes;
      }
    }
  }

  lemma FrameOverIs(before: seq<Byte>, sinValue: real, channels: nat, bits: nat)
    requires |before| == FrameSize(channels, bits)
    ensures var bytes := StoredBytes(if Supported(bits) then Sample(sinValue, bits) else [], channels, bits);
      |bytes| <= |before| && FrameOver(before, sinValue, channels, bits) == bytes + before[|bytes|..]
  {
  }

  /** What a proper format stores does not depend on what was there. */
  lemma FrameStored(tone: Tone, theta: real, before: seq<Byte>)
    requires tone.Proper() && |before| == tone.Size()
    ensures FrameOver(before, tone.Value(theta), tone.channels, tone.bits) == tone.Frame(theta)
  {
    FrameOverIs(before, tone.Value(theta), tone.channels, tone.bits);
  }

  lemma {:induction false} PhaseSnoc(tone: Tone, theta: real, frames: nat)
    ensures tone.Phase(theta, frames + 1) == tone.Advance(tone.Phase(theta, frames))
    decreases frames
  {
    if frames > 0 {
      PhaseSnoc(tone, tone.Advance(theta), frames - 1);
    } else {
      assert tone.Phase(tone.Advance(theta), 0) == tone.Advance(theta);
    }
  }

  lemma {:induction false} FramesMore(tone: Tone, done: nat, more: nat)
    requires tone.Size() > 0 && tone.Aligned(done) && 0 < more <= tone.Size()
    ensures tone.Frames(done + more) == tone.Frames(done) + 1
    ensures tone.Aligned(done + tone.Size())
    decreases done
  {
    if done > tone.Size() {
      FramesMore(tone, done - tone.Size(), more);
    }
  }

  /** Beginning one more frame at a frame boundary. */
  lemma FrameMore(tone: Tone, theta: real, done: nat, more: nat)
    requires tone.Size() > 0 && tone.Aligned(done) && 0 < more <= tone.Size()
    ensures tone.Frames(done + more) == tone.Frames(done) + 1
    ensures tone.Phase(theta, tone.Frames(done + more)) == tone.Advance(tone.Phase(theta, tone.Frames(done)))
    ensures tone.Aligned(done + tone.Size())
  {
    FramesMore(tone, done, more);
    PhaseSnoc(tone, theta, tone.Frames(done));
  }

  lemma BytesMore(tone: Tone, theta: real, done: nat, more: nat)
    requires tone.Proper() && 0 < more <= tone.Size() && tone.Rest(theta, done) == []
    ensures var phase := tone.Phase(theta, tone.Frames(done));
      && tone.Stream(theta, done + more) == tone.Stream(theta, done) + tone.Frame(phase)[..more]
      && tone.Rest(theta, done + more) == tone.Frame(phase)[more..]
  {
    var here := Place([], tone.Phase(theta, tone.Frames(done)));
    StreamSplit(tone, theta, done, more);
    FirstFrame(tone, here.theta, more);
    RestSplit(tone, theta, done, more);
    FurtherFromStart(tone, theta, done);
    FurtherFromStart(tone, theta, done + more);
  }

  /** Reading within the first frame. */
  lemma FirstFrame(tone: Tone, theta: real, more: nat)
    requires tone.Proper() && 0 < more <= tone.Size()
    ensures Ahead(tone, Place([], theta), more) == tone.Frame(theta)[..more]
    ensures Further(tone, Place([], theta), more).carry == tone.Frame(theta)[more..]
  {
    assert [] + tone.Stream(theta, more) == tone.Stream(theta, more);
  }
}
