/** Length-prefixed frames and the two readers of src/network/message_rw.rs. Decoding a message
    from its bytes is a parameter; a stream is the bytes left before its end. */
module Framing {
  import opened Words

  datatype NetworkError = Io | MessageTooLarge(size: U32, max: U32) | InvalidProtobuf
  datatype Result<+M> = Success(message: M) | Failure(error: NetworkError)

  // ---------------------------------------------------------------- big-endian lengths

  function BigEndian(n: U32): seq<Byte> {
    [n / 0x100_0000, n / 0x1_0000 % 0x100, n / 0x100 % 0x100, n % 0x100]
  }

  function FromBigEndian(b: seq<Byte>): U32
    requires |b| == 4
  {
    var b0: nat, b1: nat, b2: nat, b3: nat := b[0], b[1], b[2], b[3];
    b0 * 0x100_0000 + b1 * 0x1_0000 + b2 * 0x100 + b3
  }

  lemma BigEndianRoundTrip(n: U32)
    ensures FromBigEndian(BigEndian(n)) == n
  {
    var a, b := n / 0x100, n / 0x1_0000;
    assert b == a / 0x100 && n / 0x100_0000 == b / 0x100;
    assert n == a * 0x100 + n % 0x100;
    assert a == b * 0x100 + a % 0x100;
    assert b == (b / 0x100) * 0x100 + b % 0x100;
  }

  // ---------------------------------------------------------------- frames

  /** `write_bytes`: the length goes out `as u32`. */
  function WriteBytes(payload: seq<Byte>): seq<Byte> {
    BigEndian(Wrap32(|payload|)) + payload
  }

  function WriteAll(payloads: seq<seq<Byte>>): seq<Byte> {
    if payloads == [] then [] else WriteBytes(payloads[0]) + WriteAll(payloads[1..])
  }

  /** One frame read from the front of a stream, and what is left of the stream. A frame that is
      too large is skipped as far as the stream goes; a truncated one uses the stream up. */
  function ReadFrame(max: U32, input: seq<Byte>): (Result<seq<Byte>>, seq<Byte>) {
    if |input| < 4 then (Failure(Io), [])
    else
      var size, body := FromBigEndian(input[..4]), input[4..];
      if size > max then (Failure(MessageTooLarge(size, max)), body[Min(size, |body|)..])
      else if |body| < size then (Failure(Io), [])
      else (Success(body[..size]), body[size..])
  }

  /** What a reader should see of a payload. */
  function Expected(max: U32, payload: seq<Byte>): Result<seq<Byte>> {
    if |payload| <= max then Success(payload) else Failure(MessageTooLarge(Wrap32(|payload|), max))
  }

  lemma HeaderOf(payload: seq<Byte>, tail: seq<Byte>)
    ensures var input := WriteBytes(payload) + tail;
      |input| >= 4 && FromBigEndian(input[..4]) == Wrap32(|payload|) && input[4..] == payload + tail
  {
    var input := WriteBytes(payload) + tail;
    assert input[..4] == BigEndian(Wrap32(|payload|));
    BigEndianRoundTrip(Wrap32(|payload|));
  }

  lemma ReadWritten(max: U32, payload: seq<Byte>, tail: seq<Byte>)
    requires |payload| <= U32_MAX
    ensures ReadFrame(max, WriteBytes(payload) + tail) == (Expected(max, payload), tail)
  {
    HeaderOf(payload, tail);
    var body := payload + tail;
    assert body[..|payload|] == payload && body[|payload|..] == tail;
  }

  /** Reading back a frame ends on the next frame boundary exactly when the payload's length fits
      the 32-bit header. */
  lemma BoundaryExactly(max: U32, payload: seq<Byte>, tail: seq<Byte>)
    ensures ReadFrame(max, WriteBytes(payload) + tail).1 == tail <==> |payload| <= U32_MAX
  {
    HeaderOf(payload, tail);
    if |payload| <= U32_MAX {
      ReadWritten(max, payload, tail);
    } else {
      assert |ReadFrame(max, WriteBytes(payload) + tail).1| == |payload| + |tail| - Wrap32(|payload|);
    }
  }

  /** A frame within the limit that the stream cuts short, in its header or its payload, is an I/O
      error. */
  lemma TruncatedFrame(max: U32, payload: seq<Byte>, cut: nat)
    requires |payload| <= max && cut < 4 + |payload|
    ensures ReadFrame(max, WriteBytes(payload)[..cut]) == (Failure(Io), [])
  {
    HeaderOf(payload, []);
    var whole := WriteBytes(payload);
    assert whole + [] == whole;
    assert cut >= 4 ==> whole[..cut][..4] == whole[..4];
  }

  function ReadAll(max: U32, n: nat, input: seq<Byte>): (seq<Result<seq<Byte>>>, seq<Byte>) {
    if n == 0 then ([], input)
    else
      var (first, rest) := ReadFrame(max, input);
      var (others, left) := ReadAll(max, n - 1, rest);
      ([first] + others, left)
  }

  /** Any list of payloads comes back in order, each with its exact bytes or, if over the limit,
      with its exact size, and the stream is left just behind the last frame. */
  lemma {:induction false} FramesRoundTrip(max: U32, payloads: seq<seq<Byte>>, tail: seq<Byte>)
    requires forall k :: 0 <= k < |payloads| ==> |payloads[k]| <= U32_MAX
    ensures var (results, left) := ReadAll(max, |payloads|, WriteAll(payloads) + tail);
      && left == tail
      && |results| == |payloads|
      && forall k :: 0 <= k < |payloads| ==> results[k] == Expected(max, payloads[k])
  {
    if payloads == [] {
      assert WriteAll(payloads) + tail == tail;
    } else {
      var rest := WriteAll(payloads[1..]) + tail;
      assert WriteAll(payloads) + tail == WriteBytes(payloads[0]) + rest;
      ReadWritten(max, payloads[0], rest);
      FramesRoundTrip(max, payloads[1..], tail);
    }
  }

  // ---------------------------------------------------------------- the reader

  class Stream {
    var data: seq<Byte>

    method ReadU32() returns (n: Option<U32>)
      modifies this
      ensures |old(data)| < 4 ==> n == None && data == []
      ensures |old(data)| >= 4 ==> n == Some(FromBigEndian(old(data)[..4])) && data == old(data)[4..]
    {
      if |data| < 4 {
        data := [];
        return None;
      }
      n := Some(FromBigEndian(data[..4]));
      data := data[4..];
    }

    method Skip(n: nat)
      modifies this
      ensures data == old(data)[Min(n, |old(data)|)..]
    {
      data := data[Min(n, |data|)..];
    }
  }

  function Decoded<M>(decode: seq<Byte> -> Option<M>, r: Result<seq<Byte>>): Result<M> {
    match r
    case Failure(e) => Failure(e)
    case Success(bytes) =>
      match decode(bytes)
      case Some(m) => Success(m)
      case None => Failure(InvalidProtobuf)
  }

  /** What a reader says of a written payload: the decoded message exactly if the payload is within
      the limit and decodes, its size exactly if it is over the limit, and an invalid message exactly
      if it is within the limit and does not decode. */
  lemma ReceivedExactly<M>(max: U32, decode: seq<Byte> -> Option<M>, payload: seq<Byte>, tail: seq<Byte>, m: M)
    requires |payload| <= U32_MAX
    ensures var r := Decoded(decode, ReadFrame(max, WriteBytes(payload) + tail).0);
      && (r == Success(m) <==> |payload| <= max && decode(payload) == Some(m))
      && (r == Failure(MessageTooLarge(|payload|, max)) <==> |payload| > max)
      && (r == Failure(InvalidProtobuf) <==> |payload| <= max && decode(payload).None?)
      && r != Failure(Io)
  {
    ReadWritten(max, payload, tail);
  }

  class MessageReader<M> {
    const maxMessageSize: U32
    const decode: seq<Byte> -> Option<M>
    var buf: seq<Byte>

    constructor (max: U32, decode: seq<Byte> -> Option<M>)
      ensures maxMessageSize == max && this.decode == decode
    {
      maxMessageSize, this.decode, buf := max, decode, seq(1024, _ => 0);
    }

    /** `read_next_message`: whatever the reused buffer held before, the message is decoded from
        exactly the bytes of the frame. */
    method ReadNextMessage(reader: Stream) returns (r: Result<M>)
      modifies this`buf, reader
      ensures var (frame, rest) := ReadFrame(maxMessageSize, old(reader.data));
        r == Decoded(decode, frame) && reader.data == rest
      ensures r.Success? ==> |reader.data| < |old(reader.data)|
    {
      var size := reader.ReadU32();
      if size.None? {
        return Failure(Io);
      }
      var n := size.value;
      if n > maxMessageSize {
        reader.Skip(n);
        return Failure(MessageTooLarge(n, maxMessageSize));
      }
      if |buf| < n {
        buf := buf + seq(n - |buf|, _ => 0);
      }
      if |reader.data| < n {
        buf := reader.data + buf[|reader.data|..];
        reader.data := [];
        return Failure(Io);
      }
      buf := reader.data[..n] + buf[n..];
      reader.data := reader.data[n..];
      ghost var body := old(reader.data)[4..];
      assert buf[..n] == body[..n];
      match decode(buf[..n])
      case Some(m) => r := Success(m);
      case None => r := Failure(InvalidProtobuf);
    }
  }

  // ---------------------------------------------------------------- fault injection

  datatype Fault = IoFault | DropFault

  /** Whether the `k`-th message read (from 1) is hit, for the `fail_every` answer to it. */
  predicate Hit(failEvery: nat -> nat, k: nat)
    requires k >= 1
  {
    ShouldFail(failEvery(k), Wrap64(k))
  }

  predicate ShouldFail(every: nat, counter: U64) {
    every > 0 && counter % every == 0
  }

  /** With a constant answer `n` exactly every `n`-th message is hit, and none if `n` is 0. */
  lemma EveryNthIsHit(n: nat, q: nat, r: nat)
    requires n > 0 ==> r < n
    requires 1 <= q * n + r <= U64_MAX
    ensures Hit(_ => n, q * n + r) <==> n > 0 && r == 0
  {
    if n > 0 {
      ModUnique(q * n + r, n, q, r);
    }
  }

  /** The positions of the messages that get through, among the first `n` read. */
  function Survivors(failEvery: nat -> nat, faults: bool, n: nat): (at: seq<nat>)
    ensures forall i :: 0 <= i < |at| ==> at[i] < n
    ensures forall i, j :: 0 <= i < j < |at| ==> at[i] < at[j]
  {
    if n == 0 then []
    else
      var before := Survivors(failEvery, faults, n - 1);
      if Hit(failEvery, n) && faults then before else before + [n - 1]
  }

  /** The `j`-th injected fault cycles through the configured ones. */
  function NthFault(faults: seq<Fault>, j: nat): Fault
    requires faults != []
  {
    faults[j % |faults|]
  }

  lemma ModNext(j: nat, n: nat)
    requires n > 0
    ensures (j + 1) % n == if j % n + 1 == n then 0 else j % n + 1
  {
    var q, r := j / n, j % n;
    assert j == q * n + r;
    if r + 1 == n {
      assert j + 1 == (q + 1) * n;
      ModUnique(j + 1, n, q + 1, 0);
    } else {
      ModUnique(j + 1, n, q, r + 1);
    }
  }

  lemma ModUnique(x: nat, n: nat, q: nat, r: nat)
    requires n > 0 && x == q * n + r && r < n
    ensures x % n == r
  {
    var d := x / n - q;
    assert x == (x / n) * n + x % n;
    assert d * n == (x / n) * n - q * n;
    AtLeastOnce(d, n);
  }

  lemma AtLeastOnce(d: int, n: int)
    requires n >= 0
    ensures d >= 1 ==> d * n >= n
    ensures d <= -1 ==> d * n <= -n
  {
  }

  function Rotated(faults: seq<Fault>, n: nat): seq<Fault>
    requires n <= |faults|
  {
    faults[n..] + faults[..n]
  }

  /** The messages handed on are exactly the survivors, in order. */
  ghost predicate HandedOn<M>(failEvery: nat -> nat, faults: bool, read: seq<M>, delivered: seq<M>) {
    var at := Survivors(failEvery, faults, |read|);
    |delivered| == |at| && forall i :: 0 <= i < |at| ==> delivered[i] == read[at[i]]
  }

  /** The faults injected so far cycle through the configured ones, and the queue is rotated so
      that the next one is in front. */
  ghost predicate Cycling(faults: seq<Fault>, failures: seq<Fault>, injected: seq<Fault>) {
    if faults == [] then failures == [] && injected == []
    else
      && failures == Rotated(faults, |injected| % |faults|)
      && forall j :: 0 <= j < |injected| ==> injected[j] == NthFault(faults, j)
  }

  lemma OneMoreRead<M>(failEvery: nat -> nat, faults: bool, read: seq<M>, delivered: seq<M>, m: M)
    requires HandedOn(failEvery, faults, read, delivered)
    ensures if Hit(failEvery, |read| + 1) && faults
            then HandedOn(failEvery, faults, read + [m], delivered)
            else HandedOn(failEvery, faults, read + [m], delivered + [m])
  {
  }

  lemma EmptyTogether(faults: seq<Fault>, failures: seq<Fault>, injected: seq<Fault>)
    requires Cycling(faults, failures, injected)
    ensures faults == [] <==> failures == []
  {
  }

  lemma OneMoreFault(faults: seq<Fault>, failures: seq<Fault>, injected: seq<Fault>)
    requires Cycling(faults, failures, injected) && faults != []
    ensures failures != []
    ensures Cycling(faults, failures[1..] + [failures[0]], injected + [failures[0]])
  {
    RotateOnce(faults, |injected|);
  }

  /** The messages a reader would still deliver from a stream before its first error. */
  function Upcoming<M>(max: U32, decode: seq<Byte> -> Option<M>, input: seq<Byte>): seq<M>
    decreases |input|
  {
    var (frame, rest) := ReadFrame(max, input);
    match Decoded(decode, frame)
    case Success(m) => assert |rest| < |input|; [m] + Upcoming(max, decode, rest)
    case Failure(_) => []
  }

  /** The error that ends them. */
  function FirstError<M>(max: U32, decode: seq<Byte> -> Option<M>, input: seq<Byte>): NetworkError
    decreases |input|
  {
    var (frame, rest) := ReadFrame(max, input);
    match Decoded(decode, frame)
    case Success(m) => assert |rest| < |input|; FirstError(max, decode, rest)
    case Failure(e) => e
  }

  class FaultInjectingReader<M> {
    const inner: MessageReader<M>
    const failEvery: nat -> nat
    const faults: seq<Fault>
    var failures: seq<Fault>
    var readingCounter: U64
    /** The closure's own state: how often it has been asked. */
    var asked: nat
    /** Messages the inner reader delivered, messages handed on, and faults injected. */
    ghost var read: seq<M>
    ghost var delivered: seq<M>
    ghost var injected: seq<Fault>

    ghost predicate Valid() reads this {
      && readingCounter == Wrap64(|read|) && asked == |read|
      && HandedOn(failEvery, faults != [], read, delivered)
      && Cycling(faults, failures, injected)
      && (faults != [] ==> |injected| + |delivered| == |read|)
    }

    constructor (inner: MessageReader<M>, faults: seq<Fault>, failEvery: nat -> nat)
      ensures Valid() && this.inner == inner && this.faults == faults && this.failEvery == failEvery
      ensures read == [] && delivered == [] && injected == []
    {
      this.inner, this.faults, this.failEvery := inner, faults, failEvery;
      failures, readingCounter, asked, read, delivered, injected := faults, 0, 0, [], [], [];
    }

    ghost function Ahead(reader: Stream): seq<M> reads reader {
      Upcoming(inner.maxMessageSize, inner.decode, reader.data)
    }

    ghost function AheadError(reader: Stream): NetworkError reads reader {
      FirstError(inner.maxMessageSize, inner.decode, reader.data)
    }

    /** `read_next_message` of the wrapper. `fail_every` is asked once per message read; the answer
        to the `k`-th question is `failEvery(k)`. */
    method ReadNextMessage(reader: Stream) returns (r: Result<M>)
      requires Valid()
      modifies this`failures, this`readingCounter, this`asked, this`read, this`delivered, this`injected, inner`buf, reader
      ensures Valid()
      ensures if r.Success? then delivered == old(delivered) + [r.message] else delivered == old(delivered)
      // Faults injected on the way: drops go unnoticed, an I/O fault ends the call.
      ensures old(injected) <= injected
      ensures forall j :: |old(injected)| <= j < |injected| && injected[j] == IoFault ==> j == |injected| - 1 && r == Failure(Io)
      // A call fails only over an injected I/O fault, or with the error of the stream itself, behind
      // its last message.
      ensures r.Failure? ==>
        || (|old(injected)| < |injected| && injected[|injected| - 1] == IoFault && r == Failure(Io)
            && read + Ahead(reader) == old(read + Ahead(reader)))
        || (read == old(read + Ahead(reader)) && r == Failure(old(AheadError(reader))))
      // Nothing of the stream is skipped or invented.
      ensures r.Success? ==> read + Ahead(reader) == old(read + Ahead(reader))
      ensures old(read) <= read <= old(read + Ahead(reader))
    {
      while true
        invariant Valid() && delivered == old(delivered)
        invariant old(injected) <= injected && forall j :: |old(injected)| <= j < |injected| ==> injected[j] == DropFault
        invariant old(read) <= read && read + Ahead(reader) == old(read + Ahead(reader))
        invariant AheadError(reader) == old(AheadError(reader))
        decreases |reader.data|
      {
        var got, failure := ReadAndAccount(reader);
        if failure.None? {
          return got;
        }
        if failure == Some(IoFault) {
          return Failure(Io);
        }
      }
    }

    /** One message of the inner reader and the fault, if any, that hits it. */
    method ReadAndAccount(reader: Stream) returns (got: Result<M>, failure: Option<Fault>)
      requires Valid()
      modifies this`failures, this`readingCounter, this`asked, this`read, this`delivered, this`injected, inner`buf, reader
      ensures Valid()
      ensures got.Failure? ==>
        && failure.None? && read == old(read) == old(read + Ahead(reader)) && got == Failure(old(AheadError(reader)))
        && delivered == old(delivered) && injected == old(injected)
      ensures got.Success? ==>
        && read == old(read) + [got.message] && read + Ahead(reader) == old(read + Ahead(reader))
        && |reader.data| < |old(reader.data)| && AheadError(reader) == old(AheadError(reader))
        && if failure.None? then delivered == old(delivered) + [got.message] && injected == old(injected)
           else delivered == old(delivered) && injected == old(injected) + [failure.value]
    {
      got := inner.ReadNextMessage(reader);
      if got.Failure? {
        failure := None;
        assert old(Ahead(reader)) == [];
      } else {
        ghost var seen := read;
        assert old(Ahead(reader)) == [got.message] + Ahead(reader);
        failure := Account(got.message);
        assert seen + ([got.message] + Ahead(reader)) == read + Ahead(reader);
      }
    }

    /** Counts a message that was read and decides its fate: handed on, or hit by a fault. */
    method Account(message: M) returns (failure: Option<Fault>)
      requires Valid()
      modifies this`failures, this`readingCounter, this`asked, this`read, this`delivered, this`injected
      ensures Valid()
      ensures read == old(read) + [message]
      ensures failure.None? ==> delivered == old(delivered) + [message] && injected == old(injected)
      ensures failure.Some? ==> delivered == old(delivered) && injected == old(injected) + [failure.value]
    {
      WrapNext64(|read|);
      EmptyTogether(faults, failures, injected);
      readingCounter := Wrap64(readingCounter + 1);
      asked := asked + 1;
      OneMoreRead(failEvery, faults != [], read, delivered, message);
      read := read + [message];
      var every := failEvery(asked);
      var shouldFail := ShouldFail(every, readingCounter);
      if shouldFail && failures != [] {
        OneMoreFault(faults, failures, injected);
        failure := Some(failures[0]);
        injected := injected + [failures[0]];
        failures := failures[1..] + [failures[0]];
      } else {
        failure := None;
        delivered := delivered + [message];
      }
    }
  }

  lemma RotateOnce(faults: seq<Fault>, j: nat)
    requires faults != []
    ensures var now, next := Rotated(faults, j % |faults|), Rotated(faults, (j + 1) % |faults|);
      now != [] && now[0] == NthFault(faults, j) && next == now[1..] + [now[0]]
  {
    ModNext(j, |faults|);
  }
}
