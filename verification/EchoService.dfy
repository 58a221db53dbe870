/**
 The OS-side echo service with its three byte loops, and the secure service that composes two of them: reverse the
 request into a temporary buffer, then repeat that into the reply.
 */
module EchoService {
  import opened Buffers

  const ULONG_RANGE: nat := 0x1_0000_0000

  datatype Status = Success | BufferOverflow | InvalidParameter | InsufficientResources | CallFailed

  datatype Function = Echo | Repeat | Reverse | Other

  // ----- what the loops compute

  function Reversed(s: seq<Byte>): seq<Byte> {
    if s == [] then [] else Reversed(s[1..]) + [s[0]]
  }

  /** As many whole copies of `s` as fit into `room` bytes. */
  function Copies(s: seq<Byte>, room: nat): seq<Byte>
    requires s != []
    decreases room
  {
    if room < |s| then [] else s + Copies(s, room - |s|)
  }

  lemma {:induction false} ReversedAt(s: seq<Byte>, k: nat)
    requires k < |s|
    ensures |Reversed(s)| == |s| && Reversed(s)[k] == s[|s| - 1 - k]
  {
    if |s| == 1 {
      assert Reversed(s) == Reversed([]) + [s[0]];
    } else {
      ReversedAt(s[1..], if k < |s| - 1 then k else 0);
    }
  }

  lemma ReversedLength(s: seq<Byte>)
    ensures |Reversed(s)| == |s|
  {
    if s != [] {
      ReversedAt(s, 0);
    }
  }

  /** Reversing is its own inverse. */
  lemma ReversedTwice(s: seq<Byte>)
    ensures Reversed(Reversed(s)) == s
  {
    var r := Reversed(s);
    ReversedLength(s);
    ReversedLength(r);
    forall k | 0 <= k < |s|
      ensures Reversed(r)[k] == s[k]
    {
      ReversedAt(r, k);
      ReversedAt(s, |s| - 1 - k);
    }
  }

  /** How many whole copies of `n` bytes fit. */
  function Turns(n: nat, room: nat): nat
    requires n > 0
    decreases room
  {
    if room < n then 0 else 1 + Turns(n, room - n)
  }

  /** The copies leave less room than one more needs, begin with the bytes and repeat with their period. */
  lemma {:induction false} CopiesFill(s: seq<Byte>, room: nat)
    requires s != []
    ensures |Copies(s, room)| <= room < |Copies(s, room)| + |s|
    ensures room >= |s| ==> |Copies(s, room)| >= |s| && Copies(s, room)[..|s|] == s
    ensures forall i :: |s| <= i < |Copies(s, room)| ==> Copies(s, room)[i] == Copies(s, room)[i - |s|]
    decreases room
  {
    if room >= |s| {
      var rest := Copies(s, room - |s|);
      CopiesFill(s, room - |s|);
      forall i | |s| <= i < |Copies(s, room)|
        ensures Copies(s, room)[i] == Copies(s, room)[i - |s|]
      {
        if i - |s| < |s| {
          assert rest[..|s|] == s;
        }
      }
    }
  }

  lemma CopiesWithin(s: seq<Byte>, room: nat)
    requires s != []
    ensures |Copies(s, room)| <= room
  {
    CopiesFill(s, room);
  }

  /** The number of bytes is the length times the rounded-down quotient. */
  lemma {:induction false} CopiesLength(s: seq<Byte>, room: nat)
    requires s != []
    ensures |Copies(s, room)| == (room / |s|) * |s|
  {
    CopiesTurns(s, room);
    CopiesFill(s, room);
    Quotient(room, |s|, Turns(|s|, room));
  }

  lemma {:induction false} CopiesTurns(s: seq<Byte>, room: nat)
    requires s != []
    ensures |Copies(s, room)| == Turns(|s|, room) * |s|
    decreases room
  {
    if room >= |s| {
      CopiesTurns(s, room - |s|);
      Distribute(Turns(|s|, room - |s|), |s|);
    }
  }

  lemma Distribute(turns: nat, n: nat)
    ensures (1 + turns) * n == n + turns * n
  {
  }

  lemma Quotient(a: nat, n: nat, q: nat)
    requires n > 0 && q * n <= a < q * n + n
    ensures a / n == q
  {
    var p := a / n;
    assert p * n <= a < p * n + n;
    if p < q {
      Scale(p + 1, q, n);
      Distribute(p, n);
      assert false;
    } else if p > q {
      Scale(q + 1, p, n);
      Distribute(q, n);
      assert false;
    }
  }

  lemma Scale(a: nat, b: nat, n: nat)
    requires a <= b
    ensures a * n <= b * n
  {
  }

  lemma TwoCopies(s: seq<Byte>, room: nat)
    requires s != [] && room == |s| + |s|
    ensures Copies(s, room) == s + s
  {
    var once := Copies(s, room - |s|);
    assert once == s + Copies(s, 0);
  }

  // ----- when the loops end

  /** What remains of the output length after `turns` turns of the repeat loop. */
  function Remaining(length: nat, n: nat, turns: nat): int
    decreases turns
  {
    if turns == 0 then length else Remaining(length, n, turns - 1) - n
  }

  lemma {:induction false} RemainingBound(length: nat, n: nat, turns: nat)
    ensures n > 0 ==> Remaining(length, n, turns) <= length - turns
    ensures n == 0 ==> Remaining(length, n, turns) == length
    decreases turns
  {
    if turns > 0 {
      RemainingBound(length, n, turns - 1);
    }
  }

  /** The repeat loop ends exactly on a non-empty input. */
  lemma RepeatEndsExactly(length: nat, n: nat)
    ensures (exists turns: nat :: Remaining(length, n, turns) < n) <==> n > 0
  {
    if n > 0 {
      RemainingBound(length, n, length);
      assert Remaining(length, n, length) < n;
    } else {
      forall turns: nat
        ensures Remaining(length, n, turns) >= n
      {
        RemainingBound(length, n, turns);
      }
    }
  }

  /** The index of the reverse loop is a 32-bit number. */
  function Index(turns: nat): nat {
    turns % ULONG_RANGE
  }

  /** The reverse loop ends exactly on an input shorter than 2^32 bytes. */
  lemma ReverseEndsExactly(n: nat)
    ensures (exists turns: nat :: Index(turns) >= n) <==> n < ULONG_RANGE
  {
    if n < ULONG_RANGE {
      assert Index(n) == n;
    }
  }

  // ----- the service

  /** One reply of the echo service.  `written` is the caller's variable; an overflow of REVERSE leaves it as it is. */
  function Reply(code: Function, input: seq<Byte>, room: nat, before: seq<Byte>, written: nat): (Status, seq<Byte>, nat)
    requires room <= |before| && (code == Repeat ==> input != [])
  {
    match code
    case Echo =>
      if room < |input| then (BufferOverflow, before, |input|) else (Success, Splice(before, 0, input), |input|)
    case Repeat =>
      CopiesWithin(input, room);
      (Success, Splice(before, 0, Copies(input, room)), |Copies(input, room)|)
    case Reverse =>
      ReversedLength(input);
      if room < |input| then (BufferOverflow, before, written)
      else (Success, Splice(before, 0, Reversed(input)), |input|)
    case Other => (InvalidParameter, before, written)
  }

  lemma ReplyMeans(code: Function, input: seq<Byte>, room: nat, before: seq<Byte>, written: nat)
    requires room <= |before| && code != Repeat
    ensures var (status, after, count) := Reply(code, input, room, before, written);
      && |after| == |before|
      && (code == Echo ==> count == |input|)
      && (code == Echo && |input| <= room ==> after[..count] == input)
      && (code == Reverse && |input| <= room ==>
            count == |input| && forall k :: 0 <= k < count ==> after[k] == input[count - 1 - k])
      && (code in {Echo, Reverse} && |input| <= room ==> status == Success && after[count..] == before[count..])
      && (code in {Echo, Reverse} && room < |input| ==> status == BufferOverflow && after == before)
      && (code == Other ==> status == InvalidParameter && after == before)
      && (code == Other || (code == Reverse && room < |input|) ==> count == written)
  {
    ReversedLength(input);
    forall k | 0 <= k < |input|
      ensures Reversed(input)[k] == input[|input| - 1 - k]
    {
      ReversedAt(input, k);
    }
  }

  lemma RepeatMeans(input: seq<Byte>, room: nat, before: seq<Byte>)
    requires room <= |before| && input != []
    ensures var copies := Copies(input, room); var n := |copies|;
      && n <= room < n + |input| && n == (room / |input|) * |input|
      && var after := Splice(before, 0, copies);
         && after[n..] == before[n..]
         && (n > 0 ==> |input| <= n && after[..|input|] == input)
         && (forall k :: |input| <= k < n ==> after[k] == after[k - |input|])
  {
    CopiesFill(input, room);
    CopiesLength(input, room);
    var copies := Copies(input, room);
    SpliceParts(before, 0, copies);
    if |copies| > 0 {
      assert Splice(before, 0, copies)[..|input|] == copies[..|input|];
    }
  }

  method RepeatInto(input: array<Byte>, output: array<Byte>, outputLength: nat) returns (written: nat)
    requires input != output && 0 < input.Length && outputLength <= output.Length
    modifies output
    ensures written == |Copies(input[..], outputLength)| <= outputLength
    ensures output[..] == Splice(old(output[..]), 0, Copies(input[..], outputLength))
  {
    ghost var s, start := input[..], output[..];
    ghost var done: seq<Byte> := [];
    var remaining := outputLength;
    CopiesWithin(s, outputLength);
    written := 0;
    assert done + Copies(s, remaining) == Copies(s, outputLength);
    while remaining >= input.Length
      invariant 0 <= remaining && written + remaining == outputLength && written == |done|
      invariant input[..] == s && output[..] == Splice(start, 0, done)
      invariant done + Copies(s, remaining) == Copies(s, outputLength)
      decreases remaining
    {
      Store(output, written, input[..]);
      SpliceNext(start, 0, done, s);
      Regroup(done, s, remaining);
      done := done + s;
      remaining := remaining - input.Length;
      written := written + input.Length;
    }
    assert done + [] == done;
  }

  lemma Regroup(done: seq<Byte>, s: seq<Byte>, room: nat)
    requires 0 < |s| <= room
    ensures done + Copies(s, room) == (done + s) + Copies(s, room - |s|)
  {
  }

  method ReverseInto(input: array<Byte>, output: array<Byte>)
    requires input != output && input.Length <= output.Length && input.Length < ULONG_RANGE
    modifies output
    ensures |Reversed(input[..])| == input.Length
    ensures output[..] == Splice(old(output[..]), 0, Reversed(input[..]))
  {
    var index := 0;
    while index < input.Length
      invariant 0 <= index <= input.Length
      invariant forall k :: 0 <= k < output.Length ==>
        (output[k] == if k < index then input[input.Length - 1 - k] else old(output[k]))
      decreases input.Length - index
    {
      output[index] := input[input.Length - index - 1];
      index := (index + 1) % ULONG_RANGE;
    }
    ReversedLength(input[..]);
    forall k | 0 <= k < input.Length
      ensures output[k] == Reversed(input[..])[k]
    {
      ReversedAt(input[..], k);
    }
  }

  /** An empty input is excluded where the repeat loop does not end on it, a long one where the reverse loop
      does not. */
  method EchoHandler(code: Function, input: array<Byte>, output: array<Byte>, outputLength: nat, before: nat)
      returns (status: Status, written: nat)
    requires input != output && outputLength <= output.Length
    requires code == Repeat ==> input.Length > 0
    requires code == Reverse && input.Length <= outputLength ==> input.Length < ULONG_RANGE
    modifies output
    ensures (status, output[..], written) == Reply(code, input[..], outputLength, old(output[..]), before)
    ensures code == Echo && input.Length <= outputLength ==>
      && status == Success && written == input.Length
      && output[..written] == input[..] && output[written..] == old(output[input.Length..])
    ensures code == Echo && outputLength < input.Length ==>
      status == BufferOverflow && written == input.Length && output[..] == old(output[..])
    ensures code == Repeat ==>
      && status == Success && written <= outputLength < written + input.Length
      && output[written..] == old(output[..])[written..]
      && (written > 0 ==> input.Length <= written && output[..input.Length] == input[..])
      && (forall k :: input.Length <= k < written ==> output[k] == output[k - input.Length])
      && written == (outputLength / input.Length) * input.Length
    ensures code == Reverse && input.Length <= outputLength ==>
      && status == Success && written == input.Length
      && (forall k :: 0 <= k < written ==> output[k] == input[written - 1 - k])
      && output[written..] == old(output[input.Length..])
    ensures code == Reverse && outputLength < input.Length ==>
      status == BufferOverflow && written == before && output[..] == old(output[..])
    ensures code == Other ==> status == InvalidParameter && written == before && output[..] == old(output[..])
  {
    if code == Repeat {
      RepeatMeans(input[..], outputLength, output[..]);
    } else {
      ReplyMeans(code, input[..], outputLength, output[..], before);
    }
    written := before;
    ReversedLength(input[..]);
    match code
    case Echo =>
      written := input.Length;
      if outputLength < input.Length {
        return BufferOverflow, written;
      }
      Store(output, 0, input[..]);
      status := Success;
    case Repeat =>
      written := RepeatInto(input, output, outputLength);
      status := Success;
    case Reverse =>
      if outputLength < input.Length {
        return BufferOverflow, written;
      }
      ReverseInto(input, output);
      written := input.Length;
      status := Success;
    case Other =>
      status := InvalidParameter;
  }

  // ----- the composition

  /** The secure service.  `room` is whether the temporary buffer could be had, `first` and `second` whether
      the two calls reach the OS service.  Inputs on which a call does not end are excluded where that call is
      reached. */
  method TwiceReversed(input: array<Byte>, output: array<Byte>, room: bool, first: bool, second: bool)
      returns (status: Status, written: nat)
    requires input != output
    requires 2 * input.Length <= output.Length && room && first ==> input.Length < ULONG_RANGE
    requires 2 * input.Length <= output.Length && room && first && second ==> input.Length > 0
    modifies output
    ensures status == Success <==> 2 * input.Length <= output.Length && room && first && second
    ensures status == Success ==>
      output[..] == Reversed(input[..]) + Reversed(input[..]) + old(output[2 * input.Length..])
    ensures status != Success ==> output[..] == old(output[..])
    ensures written == if 2 * input.Length <= output.Length && !room then 0 else 2 * input.Length
    ensures status == BufferOverflow <==> output.Length < 2 * input.Length
  {
    var n := input.Length;
    written := n * 2;
    if output.Length < n * 2 {
      return BufferOverflow, written;
    }
    if !room {
      return InsufficientResources, 0;
    }
    if !first {
      return CallFailed, written;
    }
    var temporary := new Byte[n](_ => 0);
    status := CallReverse(input, temporary);
    if !second {
      return CallFailed, written;
    }
    status := CallRepeat(temporary, output);
  }

  /** The first call: the reversed input into a buffer of its length. */
  method CallReverse(input: array<Byte>, temporary: array<Byte>) returns (status: Status)
    requires input != temporary && temporary.Length == input.Length < ULONG_RANGE
    modifies temporary
    ensures status == Success && temporary[..] == Reversed(input[..])
  {
    var written;
    status, written := EchoHandler(Reverse, input, temporary, input.Length, 0);
    ReversedLength(input[..]);
  }

  /** The second call: twice the buffer into the reply. */
  method CallRepeat(temporary: array<Byte>, output: array<Byte>) returns (status: Status)
    requires temporary != output && 0 < 2 * temporary.Length <= output.Length
    modifies output
    ensures status == Success
    ensures output[..] == temporary[..] + temporary[..] + old(output[2 * temporary.Length..])
  {
    var written;
    status, written := EchoHandler(Repeat, temporary, output, 2 * temporary.Length, 0);
    TwoCopies(temporary[..], 2 * temporary.Length);
  }

  /** The reply reads the same forwards twice as the request backwards twice: reversing it yields the request twice. */
  lemma TwiceReversedReadsBack(s: seq<Byte>)
    ensures Reversed(Reversed(s) + Reversed(s)) == s + s
  {
    ReversedConcat(Reversed(s), Reversed(s));
    ReversedTwice(s);
  }

  lemma {:induction false} ReversedConcat(a: seq<Byte>, b: seq<Byte>)
    ensures Reversed(a + b) == Reversed(b) + Reversed(a)
  {
    if a == [] {
      assert a + b == b;
    } else {
      assert (a + b)[1..] == a[1..] + b;
      ReversedConcat(a[1..], b);
    }
  }
}
