/** Byte buffers and writing a stretch of bytes into one. */
module Buffers {

  type Byte = x: int | 0 <= x < 256

  /** `buffer` with `bytes` written over it from `at` on. */
  function Splice(buffer: seq<Byte>, at: nat, bytes: seq<Byte>): (result: seq<Byte>)
    requires at + |bytes| <= |buffer|
    ensures |result| == |buffer|
  {
    buffer[..at] + bytes + buffer[at + |bytes|..]
  }

  lemma SpliceParts(buffer: seq<Byte>, at: nat, bytes: seq<Byte>)
    requires at + |bytes| <= |buffer|
    ensures var result := Splice(buffer, at, bytes);
      && result[..at] == buffer[..at]
      && result[at..at + |bytes|] == bytes
      && result[at + |bytes|..] == buffer[at + |bytes|..]
      && result[..at + |bytes|] == buffer[..at] + bytes
  {
  }

  /** Writing on where the last write ended is one longer write. */
  lemma SpliceNext(buffer: seq<Byte>, at: nat, first: seq<Byte>, second: seq<Byte>)
    requires at + |first| + |second| <= |buffer|
    ensures Splice(Splice(buffer, at, first), at + |first|, second) == Splice(buffer, at, first + second)
  {
  }

  /** A write over the same place hides the one before. */
  lemma SpliceAgain(buffer: seq<Byte>, at: nat, first: seq<Byte>, second: seq<Byte>)
    requires |first| <= |second| && at + |second| <= |buffer|
    ensures Splice(Splice(buffer, at, first), at, second) == Splice(buffer, at, second)
  {
  }

  /** Writing back what is there anyway changes nothing. */
  lemma SpliceKeeping(buffer: seq<Byte>, at: nat, bytes: seq<Byte>, size: nat)
    requires |bytes| <= size && at + size <= |buffer|
    ensures Splice(buffer, at, bytes + buffer[at..at + size][|bytes|..]) == Splice(buffer, at, bytes)
  {
    var kept := buffer[at..at + size][|bytes|..];
    assert buffer[at + |bytes|..] == kept + buffer[at + size..];
  }

  function Zeros(length: nat): (bytes: seq<Byte>)
    ensures |bytes| == length
  {
    seq(length, _ => 0)
  }

  /** Copies bytes into a buffer. */
  method Store(buffer: array<Byte>, at: nat, bytes: seq<Byte>)
    requires at + |bytes| <= buffer.Length
    modifies buffer
    ensures buffer[..] == Splice(old(buffer[..]), at, bytes)
  {
    var i := 0;
    while i < |bytes|
      invariant 0 <= i <= |bytes|
      invariant forall k :: 0 <= k < buffer.Length ==>
        (buffer[k] == if at <= k < at + i then bytes[k - at] else old(buffer[k]))
    {
      buffer[at + i] := bytes[i];
      i := i + 1;
    }
  }
}
