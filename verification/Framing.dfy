/** Length-prefixed framing: a one-shot specification of a byte stream, and the incremental decoder
    that refines it for every way of cutting the stream into chunks. */
module Framing {

  import opened Wrappers

  const FRAME_HEADER_LENGTH := 4
  const MAX_UINT32 := 0xffff_ffff
  const PAYLOAD_BLOCK_SIZE := 64 * 1024
  const DEFAULT_MAX_FRAME_LENGTH := 16 * 1024 * 1024

  type Byte = b: int | 0 <= b < 256

  datatype FrameFailure = RangeError | FrameError

  // ---------------------------------------------------------------------------------------------
  // Specification: the frames of a whole stream
  // ---------------------------------------------------------------------------------------------

  /** The big-endian value of a byte string. */
  function Value(h: seq<Byte>): nat {
    if h == [] then 0 else Value(h[..|h| - 1]) * 256 + h[|h| - 1]
  }

  /** The last `k` base-256 digits of a number, most significant first. */
  function Digits(n: nat, k: nat): (h: seq<Byte>)
    ensures |h| == k
  {
    if k == 0 then [] else Digits(n / 256, k - 1) + [n % 256]
  }

  function Pow256(k: nat): nat {
    if k == 0 then 1 else 256 * Pow256(k - 1)
  }

  lemma {:induction false} ValueOfDigits(n: nat, k: nat)
    requires n < Pow256(k)
    ensures Value(Digits(n, k)) == n
  {
    if k > 0 {
      ValueOfDigits(n / 256, k - 1);
      assert Digits(n, k)[..k - 1] == Digits(n / 256, k - 1);
    }
  }

  lemma {:induction false} DigitsOfValue(h: seq<Byte>)
    ensures Value(h) < Pow256(|h|)
    ensures Digits(Value(h), |h|) == h
  {
    if h != [] {
      DigitsOfValue(h[..|h| - 1]);
      assert h == h[..|h| - 1] + [h[|h| - 1]];
    }
  }

  /** The length announced by a header. */
  function ReadLength(h: seq<Byte>): nat
    requires |h| == FRAME_HEADER_LENGTH
  {
    Value(h)
  }

  /** The header written for a length. */
  function LengthBytes(n: nat): (h: seq<Byte>)
    ensures |h| == FRAME_HEADER_LENGTH
  {
    Digits(n, FRAME_HEADER_LENGTH)
  }

  /** The decoder's arithmetic on the four header bytes is their big-endian value. */
  lemma HeaderArithmetic(h: seq<Byte>)
    requires |h| == FRAME_HEADER_LENGTH
    ensures ReadLength(h) == (h[0] as int) * 0x1_000_000 + (h[1] as int) * 0x1_0000 + (h[2] as int) * 0x100 + h[3]
  {
    assert h[..3][..2] == h[..2] && h[..2][..1] == h[..1] && h[..1][..0] == [];
    assert Value(h[..1]) == h[0];
    assert Value(h[..2]) == Value(h[..1]) * 256 + h[1];
    assert Value(h[..3]) == Value(h[..2]) * 256 + h[2];
  }

  /** The encoder's shifts, truncated to bytes, are the big-endian digits of the length. */
  lemma HeaderShifts(n: nat)
    ensures LengthBytes(n) == [n / 0x1_000_000 % 0x100, n / 0x1_0000 % 0x100, n / 0x100 % 0x100, n % 0x100]
  {
    assert n / 256 / 256 == n / 0x1_0000 && n / 0x1_0000 / 256 == n / 0x1_000_000;
    assert Digits(n / 0x1_000_000, 1) == [n / 0x1_000_000 % 256];
    assert Digits(n / 0x1_0000, 2) == Digits(n / 0x1_000_000, 1) + [n / 0x1_0000 % 256];
    assert Digits(n / 0x100, 3) == Digits(n / 0x1_0000, 2) + [n / 0x100 % 256];
  }

  lemma LengthRoundTrip(n: nat)
    requires n <= MAX_UINT32
    ensures ReadLength(LengthBytes(n)) == n
  {
    assert Pow256(1) == 0x100 && Pow256(2) == 0x1_0000 && Pow256(3) == 0x1_000_000 && Pow256(4) == MAX_UINT32 + 1;
    ValueOfDigits(n, FRAME_HEADER_LENGTH);
  }

  lemma HeaderRoundTrip(h: seq<Byte>)
    requires |h| == FRAME_HEADER_LENGTH
    ensures ReadLength(h) <= MAX_UINT32 && LengthBytes(ReadLength(h)) == h
  {
    assert Pow256(1) == 0x100 && Pow256(2) == 0x1_0000 && Pow256(3) == 0x1_000_000 && Pow256(4) == MAX_UINT32 + 1;
    DigitsOfValue(h);
  }

  datatype Tail = Rest(bytes: seq<Byte>) | Oversized
  datatype Parsed = Parsed(frames: seq<seq<Byte>>, tail: Tail)

  /** Splits a whole stream at once: its complete frames, then the unfinished bytes, or the fact that
      a header announces more than the limit. */
  function Parse(s: seq<Byte>, max: nat): Parsed
  {
    if |s| < FRAME_HEADER_LENGTH then Parsed([], Rest(s))
    else
      var n := ReadLength(s[..FRAME_HEADER_LENGTH]);
      if n > max then Parsed([], Oversized)
      else if |s| < FRAME_HEADER_LENGTH + n then Parsed([], Rest(s))
      else
        var rest := Parse(s[FRAME_HEADER_LENGTH + n..], max);
        Parsed([s[FRAME_HEADER_LENGTH..FRAME_HEADER_LENGTH + n]] + rest.frames, rest.tail)
  }

  /** A frame on the wire. */
  function Encode(payload: seq<Byte>): seq<Byte>
    requires |payload| <= MAX_UINT32
  {
    LengthBytes(|payload|) + payload
  }

  ghost predicate Within(payloads: seq<seq<Byte>>, max: nat) {
    forall i :: 0 <= i < |payloads| ==> |payloads[i]| <= max
  }

  function EncodeAll(payloads: seq<seq<Byte>>): seq<Byte>
    requires forall i :: 0 <= i < |payloads| ==> |payloads[i]| <= MAX_UINT32
  {
    if payloads == [] then [] else Encode(payloads[0]) + EncodeAll(payloads[1..])
  }

  /** A header announcing exactly the payload behind it starts a frame. */
  lemma ParseFrame(h: seq<Byte>, f: seq<Byte>, rest: seq<Byte>, max: nat)
    requires |h| == FRAME_HEADER_LENGTH && ReadLength(h) == |f| <= max
    ensures Parse(h + f + rest, max) == Cons(f, Parse(rest, max))
  {
    var s := h + f + rest;
    assert s[..FRAME_HEADER_LENGTH] == h;
    assert s[FRAME_HEADER_LENGTH..FRAME_HEADER_LENGTH + |f|] == f;
    assert s[FRAME_HEADER_LENGTH + |f|..] == rest;
  }

  /** Every stream is unfinished, oversized, or a frame followed by a shorter stream. */
  predicate StartsWithFrame(s: seq<Byte>, max: nat) {
    && |s| >= FRAME_HEADER_LENGTH
    && ReadLength(s[..FRAME_HEADER_LENGTH]) <= max
    && |s| >= FRAME_HEADER_LENGTH + ReadLength(s[..FRAME_HEADER_LENGTH])
  }

  function SplitFrame(s: seq<Byte>, max: nat): (r: (seq<Byte>, seq<Byte>, seq<Byte>))
    requires StartsWithFrame(s, max)
    ensures |r.0| == FRAME_HEADER_LENGTH && ReadLength(r.0) == |r.1| <= max
    ensures s == r.0 + r.1 + r.2
  {
    var end := FRAME_HEADER_LENGTH + ReadLength(s[..FRAME_HEADER_LENGTH]);
    (s[..FRAME_HEADER_LENGTH], s[FRAME_HEADER_LENGTH..end], s[end..])
  }

  lemma ParseOversized(a: seq<Byte>, b: seq<Byte>, max: nat)
    requires |a| >= FRAME_HEADER_LENGTH && ReadLength(a[..FRAME_HEADER_LENGTH]) > max
    ensures Parse(a + b, max) == Parse(a, max) == Parsed([], Oversized)
  {
    assert (a + b)[..FRAME_HEADER_LENGTH] == a[..FRAME_HEADER_LENGTH];
  }

  lemma ParseUnfinished(a: seq<Byte>, max: nat)
    requires !StartsWithFrame(a, max)
    requires |a| >= FRAME_HEADER_LENGTH ==> ReadLength(a[..FRAME_HEADER_LENGTH]) <= max
    ensures Parse(a, max) == Parsed([], Rest(a))
  {
  }

  /** `q` parses the stream of `p` with `b` appended: it resumes from the unfinished tail of `p`, and an
      oversized header can never be undone. */
  ghost predicate Extends(p: Parsed, q: Parsed, b: seq<Byte>, max: nat) {
    match p.tail
    case Rest(r) => q == Parsed(p.frames + Parse(r + b, max).frames, Parse(r + b, max).tail)
    case Oversized => q == p
  }

  function Cons(f: seq<Byte>, p: Parsed): Parsed { Parsed([f] + p.frames, p.tail) }

  lemma ExtendsCons(f: seq<Byte>, p: Parsed, q: Parsed, b: seq<Byte>, max: nat)
    requires Extends(p, q, b, max)
    ensures Extends(Cons(f, p), Cons(f, q), b, max)
  {
    if p.tail.Rest? {
      var x := Parse(p.tail.bytes + b, max).frames;
      assert [f] + (p.frames + x) == [f] + p.frames + x;
    }
  }

  lemma {:induction false} ParseAppend(a: seq<Byte>, b: seq<Byte>, max: nat)
    ensures Extends(Parse(a, max), Parse(a + b, max), b, max)
    decreases |a|
  {
    if StartsWithFrame(a, max) {
      var (h, f, rest) := SplitFrame(a, max);
      ParseAppend(rest, b, max);
      ExtendsCons(f, Parse(rest, max), Parse(rest + b, max), b, max);
      ParseFrame(h, f, rest, max);
      ParseFrame(h, f, rest + b, max);
      assert a + b == h + f + (rest + b);
    } else if |a| >= FRAME_HEADER_LENGTH && ReadLength(a[..FRAME_HEADER_LENGTH]) > max {
      ParseOversized(a, b, max);
    } else {
      ParseUnfinished(a, max);
      assert [] + Parse(a + b, max).frames == Parse(a + b, max).frames;
    }
  }

  /** The parse loses nothing: the stream is the encoding of its frames followed by its tail. */
  lemma {:induction false} ParseIsFaithful(s: seq<Byte>, max: nat)
    requires max <= MAX_UINT32
    ensures var p := Parse(s, max);
            && Within(p.frames, max)
            && (p.tail.Rest? ==> s == EncodeAll(p.frames) + p.tail.bytes)
            && (p.tail.Oversized? ==> EncodeAll(p.frames) <= s)
    decreases |s|
  {
    if StartsWithFrame(s, max) {
      var (h, f, rest) := SplitFrame(s, max);
      ParseFrame(h, f, rest, max);
      ParseIsFaithful(rest, max);
      HeaderRoundTrip(h);
      var p := Parse(rest, max);
      assert ([f] + p.frames)[1..] == p.frames;
      assert EncodeAll([f] + p.frames) == h + f + EncodeAll(p.frames);
    }
  }

  lemma PrependPayload(payloads: seq<seq<Byte>>, x: seq<seq<Byte>>)
    requires payloads != []
    ensures [payloads[0]] + (payloads[1..] + x) == payloads + x
  {
  }

  /** Encoding and parsing are inverse on payloads within the limit, whatever follows. */
  lemma {:induction false} ParseOfEncoding(payloads: seq<seq<Byte>>, rest: seq<Byte>, max: nat)
    requires max <= MAX_UINT32 && Within(payloads, max)
    ensures Parse(EncodeAll(payloads) + rest, max)
            == Parsed(payloads + Parse(rest, max).frames, Parse(rest, max).tail)
  {
    if payloads == [] {
      assert EncodeAll(payloads) + rest == rest;
    } else {
      var p := payloads[0];
      var remaining := EncodeAll(payloads[1..]) + rest;
      LengthRoundTrip(|p|);
      ParseOfEncoding(payloads[1..], rest, max);
      ParseFrame(LengthBytes(|p|), p, remaining, max);
      assert EncodeAll(payloads) + rest == LengthBytes(|p|) + p + remaining;
      PrependPayload(payloads, Parse(rest, max).frames);
    }
  }

  // ---------------------------------------------------------------------------------------------
  // Decoder behaviour over any chunking
  // ---------------------------------------------------------------------------------------------

  /** What a decoder still remembers of the stream. */
  datatype View = Open(pending: seq<Byte>) | Ended | Failed

  datatype Push = Push(after: View, frames: Option<seq<seq<Byte>>>)

  /** One `push`: `None` is a thrown error, which hands out nothing of that push. */
  function PushSpec(before: View, chunk: seq<Byte>, max: nat): Push
  {
    match before
    case Open(pending) =>
      var p := Parse(pending + chunk, max);
      if p.tail.Rest? then Push(Open(p.tail.bytes), Some(p.frames)) else Push(Failed, None)
    case Ended => Push(Ended, None)
    case Failed => Push(Failed, None)
  }

  function Flatten(chunks: seq<seq<Byte>>): seq<Byte> {
    if chunks == [] then [] else Flatten(chunks[..|chunks| - 1]) + chunks[|chunks| - 1]
  }

  datatype Run = Run(after: View, handedOut: seq<seq<Byte>>)

  /** Pushing chunk after chunk into a new decoder, collecting whatever the pushes return. */
  function RunPushes(chunks: seq<seq<Byte>>, max: nat): Run {
    if chunks == [] then Run(Open([]), [])
    else
      var before := RunPushes(chunks[..|chunks| - 1], max);
      var push := PushSpec(before.after, chunks[|chunks| - 1], max);
      Run(push.after, before.handedOut + if push.frames.Some? then push.frames.value else [])
  }

  /** Chunking is invisible. Without an oversized header the pushes return exactly the frames of the
      whole stream and keep exactly its tail; with one, every chunking fails, and what was handed out
      is the frames of the chunks before the failing push: a prefix of the stream's frames. */
  lemma {:induction false} ChunkingIsInvisible(chunks: seq<seq<Byte>>, max: nat)
    ensures var run := RunPushes(chunks, max);
            var p := Parse(Flatten(chunks), max);
            match p.tail
            case Rest(r) => run == Run(Open(r), p.frames)
            case Oversized =>
              && run.after == Failed
              && run.handedOut <= p.frames
              && exists k :: 0 <= k < |chunks| && run.handedOut == Parse(Flatten(chunks[..k]), max).frames
                             && Parse(Flatten(chunks[..k]), max).tail.Rest?
                             && Parse(Flatten(chunks[..k + 1]), max).tail.Oversized?
  {
    if chunks == [] { return; }
    var init, last := chunks[..|chunks| - 1], chunks[|chunks| - 1];
    ChunkingIsInvisible(init, max);
    ParseAppend(Flatten(init), last, max);
    var p := Parse(Flatten(init), max);
    assert chunks[..|chunks|] == chunks;
    if p.tail.Oversized? {
      var k :| 0 <= k < |init| && RunPushes(init, max).handedOut == Parse(Flatten(init[..k]), max).frames
               && Parse(Flatten(init[..k]), max).tail.Rest?
               && Parse(Flatten(init[..k + 1]), max).tail.Oversized?;
      assert init[..k] == chunks[..k] && init[..k + 1] == chunks[..k + 1];
    } else {
      assert chunks[..|init|] == init && chunks[..|init| + 1] == chunks;
    }
  }

  /** Every list of payloads within the limit survives encoding, any chunking, and decoding. */
  lemma DecodeOfEncode(payloads: seq<seq<Byte>>, chunks: seq<seq<Byte>>, max: nat)
    requires max <= MAX_UINT32 && Within(payloads, max)
    requires Flatten(chunks) == EncodeAll(payloads)
    ensures RunPushes(chunks, max) == Run(Open([]), payloads)
  {
    ParseOfEncoding(payloads, [], max);
    assert EncodeAll(payloads) + [] == EncodeAll(payloads);
    assert payloads + [] == payloads;
    ChunkingIsInvisible(chunks, max);
  }

  /** The decoder can end cleanly exactly when the stream is a whole number of frames. */
  lemma CleanEnd(chunks: seq<seq<Byte>>, max: nat)
    requires max <= MAX_UINT32
    ensures RunPushes(chunks, max).after == Open([])
            <==> exists payloads :: Within(payloads, max) && Flatten(chunks) == EncodeAll(payloads)
  {
    var s := Flatten(chunks);
    ChunkingIsInvisible(chunks, max);
    ParseIsFaithful(s, max);
    if RunPushes(chunks, max).after == Open([]) {
      var frames := Parse(s, max).frames;
      assert EncodeAll(frames) + [] == EncodeAll(frames);
    }
    forall payloads | Within(payloads, max) && s == EncodeAll(payloads)
      ensures RunPushes(chunks, max).after == Open([])
    {
      DecodeOfEncode(payloads, chunks, max);
    }
  }

  // ---------------------------------------------------------------------------------------------
  // Encoding and one-frame validation
  // ---------------------------------------------------------------------------------------------

  /** The configured limit, or the default; a limit that is not an unsigned 32-bit value is refused. */
  function ResolveMaxFrameLength(configured: Option<int>): (r: Result<nat, FrameFailure>)
    ensures r.Ok? ==> r.value == if configured.Some? then configured.value else 16 * 1024 * 1024
    ensures r.Err? <==> configured.Some? && !(0 <= configured.value <= MAX_UINT32)
  {
    var value := if configured.Some? then configured.value else DEFAULT_MAX_FRAME_LENGTH;
    if value < 0 || value > MAX_UINT32 then Err(RangeError) else Ok(value)
  }

  /** Writes `src` into `dst` at `at`, as `Uint8Array.set` does. */
  method CopyInto(dst: array<Byte>, at: nat, src: seq<Byte>)
    requires at + |src| <= dst.Length
    modifies dst
    ensures dst[..] == old(dst[..at]) + src + old(dst[at + |src|..])
  {
    forall k | 0 <= k < |src| {
      dst[at + k] := src[k];
    }
  }

  method EncodeFrame(payload: seq<Byte>) returns (r: Result<array<Byte>, FrameFailure>)
    ensures r.Err? <==> |payload| > MAX_UINT32
    ensures r.Ok? ==> fresh(r.value) && r.value[..] == Encode(payload)
  {
    if |payload| > MAX_UINT32 {
      return Err(RangeError);
    }
    var frame := new Byte[FRAME_HEADER_LENGTH + |payload|](_ => 0);
    var length := |payload|;
    frame[0] := length / 0x1_000_000 % 0x100;
    frame[1] := length / 0x1_0000 % 0x100;
    frame[2] := length / 0x100 % 0x100;
    frame[3] := length % 0x100;
    HeaderShifts(length);
    assert frame[..FRAME_HEADER_LENGTH] == LengthBytes(length);
    CopyInto(frame, FRAME_HEADER_LENGTH, payload);
    r := Ok(frame);
  }

  /** An encoding announces the length of its payload. */
  lemma AnnouncesLength(frame: seq<Byte>, payload: seq<Byte>)
    requires |payload| <= MAX_UINT32 && frame == Encode(payload)
    ensures |frame| == FRAME_HEADER_LENGTH + |payload| && ReadLength(frame[..FRAME_HEADER_LENGTH]) == |payload|
  {
    LengthRoundTrip(|payload|);
    assert frame[..FRAME_HEADER_LENGTH] == LengthBytes(|payload|);
  }

  /** Bytes of the announced length are an encoding. */
  lemma IsEncoding(frame: seq<Byte>)
    requires |frame| >= FRAME_HEADER_LENGTH
    requires |frame| == FRAME_HEADER_LENGTH + ReadLength(frame[..FRAME_HEADER_LENGTH])
    ensures |frame| - FRAME_HEADER_LENGTH <= MAX_UINT32 && frame == Encode(frame[FRAME_HEADER_LENGTH..])
  {
    HeaderRoundTrip(frame[..FRAME_HEADER_LENGTH]);
  }

  /** Accepts exactly the encodings of one payload within the limit. */
  method AssertCompleteFrame(frame: seq<Byte>, configured: Option<int>) returns (r: Result<(), FrameFailure>)
    ensures var limit := if configured.Some? then configured.value else DEFAULT_MAX_FRAME_LENGTH;
            && (r.Ok? <==> 0 <= limit <= MAX_UINT32 && exists payload :: |payload| <= limit && frame == Encode(payload))
            && (r == Err(RangeError) <==> |frame| >= FRAME_HEADER_LENGTH && !(0 <= limit <= MAX_UINT32))
  {
    if |frame| < FRAME_HEADER_LENGTH {
      return Err(FrameError);
    }
    var length: int := (frame[0] as int) * 0x1_000_000 + (frame[1] as int) * 0x1_0000 + (frame[2] as int) * 0x100 + frame[3];
    ghost var header := frame[..FRAME_HEADER_LENGTH];
    HeaderArithmetic(header);
    var max := ResolveMaxFrameLength(configured);
    if max.Err? {
      return Err(max.error);
    }
    forall payload | |payload| <= max.value && frame == Encode(payload)
      ensures length == |payload| && |frame| == FRAME_HEADER_LENGTH + length
    {
      AnnouncesLength(frame, payload);
    }
    if length > max.value || |frame| != FRAME_HEADER_LENGTH + length {
      return Err(FrameError);
    }
    IsEncoding(frame);
    r := Ok(());
  }

  // ---------------------------------------------------------------------------------------------
  // The incremental decoder
  // ---------------------------------------------------------------------------------------------

  ghost function Contents(frames: seq<array<Byte>>): (s: seq<seq<Byte>>)
    reads frames
    ensures |s| == |frames|
  {
    seq(|frames|, i requires 0 <= i < |frames| reads frames => frames[i][..])
  }

  /** Blocks as the decoder allocates them for a payload of `n` bytes, holding the bytes received so far:
      all full but the last, which is cut to what is missing and shares no memory with the others. */
  ghost predicate Holds(blocks: seq<array<Byte>>, used: nat, received: seq<Byte>, n: nat)
    reads blocks
  {
    && |received| <= n
    && if blocks == [] then used == 0 && received == []
       else
         var full := |blocks| - 1;
         var last := blocks[full];
         && full * PAYLOAD_BLOCK_SIZE < n
         && last.Length == BlockLength(n - full * PAYLOAD_BLOCK_SIZE)
         && used <= last.Length
         && |received| == full * PAYLOAD_BLOCK_SIZE + used
         && received[full * PAYLOAD_BLOCK_SIZE..] == last[..used]
         && forall i :: 0 <= i < full ==>
              && blocks[i] != last && blocks[i].Length == PAYLOAD_BLOCK_SIZE
              && blocks[i][..] == received[i * PAYLOAD_BLOCK_SIZE..(i + 1) * PAYLOAD_BLOCK_SIZE]
  }

  function BlockLength(missing: int): (size: int)
    ensures size <= PAYLOAD_BLOCK_SIZE && size <= missing
  {
    if PAYLOAD_BLOCK_SIZE <= missing then PAYLOAD_BLOCK_SIZE else missing
  }

  /** Once the last block is full, an empty block sized for what is missing may follow. */
  lemma HoldsWithNext(blocks: seq<array<Byte>>, used: nat, received: seq<Byte>, n: nat, next: array<Byte>)
    requires Holds(blocks, used, received, n) && |received| < n
    requires blocks != [] ==> used == blocks[|blocks| - 1].Length
    requires next.Length == BlockLength(n - |received|) && next !in blocks
    ensures Holds(blocks + [next], 0, received, n)
  {
    assert |received| == |blocks| * PAYLOAD_BLOCK_SIZE;
    assert received[|received|..] == next[..0];
    forall i | 0 <= i < |blocks|
      ensures blocks[i] != next && blocks[i].Length == PAYLOAD_BLOCK_SIZE
      ensures blocks[i][..] == received[i * PAYLOAD_BLOCK_SIZE..(i + 1) * PAYLOAD_BLOCK_SIZE]
    {
      assert blocks[i] in blocks;
    }
  }

  /** Bytes written behind the used part of the last block are received bytes. */
  lemma HoldsFilled(blocks: seq<array<Byte>>, used: nat, received: seq<Byte>, n: nat, bytes: seq<Byte>)
    requires blocks != [] && Holds(blocks, used, received, n)
    requires used + |bytes| <= blocks[|blocks| - 1].Length
    requires blocks[|blocks| - 1][used..used + |bytes|] == bytes
    ensures Holds(blocks, used + |bytes|, received + bytes, n)
  {
    var full, all := |blocks| - 1, received + bytes;
    var last := blocks[full];
    assert last[..used + |bytes|] == last[..used] + last[used..used + |bytes|];
    assert all[full * PAYLOAD_BLOCK_SIZE..] == received[full * PAYLOAD_BLOCK_SIZE..] + bytes;
    forall i | 0 <= i < full
      ensures all[i * PAYLOAD_BLOCK_SIZE..(i + 1) * PAYLOAD_BLOCK_SIZE]
              == received[i * PAYLOAD_BLOCK_SIZE..(i + 1) * PAYLOAD_BLOCK_SIZE]
    {
    }
  }

  /** Memory held by a list of blocks. */
  ghost function Allocated(blocks: seq<array<Byte>>): nat {
    if blocks == [] then 0 else Allocated(blocks[..|blocks| - 1]) + blocks[|blocks| - 1].Length
  }

  lemma {:induction false} AllocatedFull(blocks: seq<array<Byte>>)
    requires forall i :: 0 <= i < |blocks| ==> blocks[i].Length == PAYLOAD_BLOCK_SIZE
    ensures Allocated(blocks) == |blocks| * PAYLOAD_BLOCK_SIZE
  {
    if blocks != [] { AllocatedFull(blocks[..|blocks| - 1]); }
  }

  datatype DecoderState = IsOpen | IsEnded | IsFailed

  datatype Outcome = Nothing | Overflow | Frame(bytes: array<Byte>)

  datatype Step = NeedMore | TooLong | EmptyFrame | PayloadNext

  class FrameDecoder {
    const header: array<Byte>
    var headerLength: nat
    const maxFrameLength: nat
    var payloadBlocks: seq<array<Byte>>
    var currentPayloadBlock: array?<Byte>
    var currentPayloadBlockLength: nat
    var expectedPayloadLength: Option<nat>
    var payloadLength: nat
    var state: DecoderState
    /** The memory the decoder may still write to. */
    ghost var Repr: set<object>
    /** The payload bytes received so far. */
    ghost var received: seq<Byte>

    ghost predicate Shape()
      reads this
    {
      && header.Length == FRAME_HEADER_LENGTH && maxFrameLength <= MAX_UINT32 && headerLength < FRAME_HEADER_LENGTH
      && this in Repr && header in Repr && header !in payloadBlocks
      && (forall i :: 0 <= i < |payloadBlocks| ==> payloadBlocks[i] in Repr)
    }

    ghost predicate Idle()
      reads this
    {
      && payloadBlocks == [] && currentPayloadBlock == null && currentPayloadBlockLength == 0
      && payloadLength == 0 && received == []
    }

    ghost predicate Receiving(n: nat)
      requires Shape()
      reads this, Repr
    {
      && state == IsOpen && headerLength == 0
      && 0 < n <= maxFrameLength && ReadLength(header[..]) == n
      && payloadLength == |received|
      && Holds(payloadBlocks, currentPayloadBlockLength, received, n)
      && currentPayloadBlock == if payloadBlocks == [] then null else payloadBlocks[|payloadBlocks| - 1]
    }

    /** Consistency at every point of a push, including when a payload has just become complete. */
    ghost predicate Consistent()
      reads this, Repr
    {
      Shape() && if expectedPayloadLength.None? then Idle() else Receiving(expectedPayloadLength.value)
    }

    /** Between calls a complete payload is never left waiting, and only an open decoder holds bytes. */
    ghost predicate Valid()
      reads this, Repr
    {
      && Consistent()
      && (expectedPayloadLength.Some? ==> payloadLength < expectedPayloadLength.value)
      && (state == IsFailed ==> headerLength == 0)
    }

    /** The bytes of the stream not yet handed out. */
    ghost function Pending(): seq<Byte>
      requires Consistent()
      reads this, Repr
    {
      if expectedPayloadLength.None? then header[..headerLength] else header[..] + received
    }

    ghost function Abstraction(): View
      requires Valid()
      reads this, Repr
    {
      match state
      case IsOpen => Open(Pending())
      case IsEnded => Ended
      case IsFailed => Failed
    }

    /** Received bytes are counted right, and allocation stays within the announced length and within
        one block of what has arrived. */
    lemma MemoryBound()
      requires Consistent()
      ensures Allocated(payloadBlocks) <= payloadLength + PAYLOAD_BLOCK_SIZE
      ensures expectedPayloadLength.Some? ==>
                payloadLength <= Allocated(payloadBlocks) <= expectedPayloadLength.value
      ensures expectedPayloadLength.None? ==> Allocated(payloadBlocks) == 0
    {
      if payloadBlocks != [] {
        AllocatedFull(payloadBlocks[..|payloadBlocks| - 1]);
      }
    }

    /** What is pending is a proper beginning of one frame. */
    lemma PendingParses()
      requires Valid()
      ensures Parse(Pending(), maxFrameLength) == Parsed([], Rest(Pending()))
    {
      if expectedPayloadLength.Some? {
        assert Pending()[..FRAME_HEADER_LENGTH] == header[..];
      }
    }

    constructor (maxFrameLength: nat)
      requires maxFrameLength <= MAX_UINT32
      ensures Valid() && fresh(Repr) && Abstraction() == Open([])
      ensures this.maxFrameLength == maxFrameLength
    {
      header := new Byte[FRAME_HEADER_LENGTH](_ => 0);
      headerLength := 0;
      this.maxFrameLength := maxFrameLength;
      payloadBlocks := [];
      currentPayloadBlock := null;
      currentPayloadBlockLength := 0;
      expectedPayloadLength := None;
      payloadLength := 0;
      received := [];
      Repr := {this, header};
      state := IsOpen;
    }

    /** Drops the frame in progress and latches the failure. */
    method Fail()
      requires header.Length == FRAME_HEADER_LENGTH && maxFrameLength <= MAX_UINT32
      modifies this
      ensures Valid() && Abstraction() == Failed && Repr == {this, header}
    {
      state := IsFailed;
      headerLength := 0;
      payloadBlocks := [];
      currentPayloadBlock := null;
      currentPayloadBlockLength := 0;
      expectedPayloadLength := None;
      payloadLength := 0;
      received := [];
      Repr := {this, header};
    }

    /** Consumes header bytes; a complete header fails, yields an empty frame or announces a payload. */
    method TakeHeader(chunk: seq<Byte>, offset: nat) returns (next: nat, step: Step)
      requires Valid() && state == IsOpen && expectedPayloadLength.None? && offset < |chunk|
      modifies this, header
      ensures Consistent() && offset < next <= |chunk|
      ensures var bytes := old(Pending()) + chunk[offset..next];
              && (step == NeedMore <==> |bytes| < FRAME_HEADER_LENGTH)
              && (step != NeedMore ==> |bytes| == FRAME_HEADER_LENGTH)
              && (step == TooLong <==> |bytes| == FRAME_HEADER_LENGTH && ReadLength(bytes) > maxFrameLength)
              && (step == EmptyFrame ==> ReadLength(bytes) == 0)
              && (step == PayloadNext ==> ReadLength(bytes) != 0)
              && (step in {NeedMore, PayloadNext} ==> Pending() == bytes)
              && (step == EmptyFrame ==> Pending() == [])
      ensures state == if step == TooLong then IsFailed else IsOpen
      ensures step == NeedMore ==> next == |chunk|
      ensures expectedPayloadLength.Some? <==> step == PayloadNext
      ensures payloadBlocks == [] && payloadLength == 0 && Repr <= old(Repr)
      ensures step == TooLong ==> Valid()
    {
      var headerBytes := if FRAME_HEADER_LENGTH - headerLength <= |chunk| - offset
                         then FRAME_HEADER_LENGTH - headerLength else |chunk| - offset;
      ghost var bytes := Pending() + chunk[offset..offset + headerBytes];
      CopyInto(header, headerLength, chunk[offset..offset + headerBytes]);
      headerLength := headerLength + headerBytes;
      next := offset + headerBytes;
      assert header[..headerLength] == bytes;
      if headerLength < FRAME_HEADER_LENGTH {
        return next, NeedMore;
      }
      assert header[..] == bytes;
      var frameLength: int :=
        (header[0] as int) * 0x1_000_000 + (header[1] as int) * 0x1_0000 + (header[2] as int) * 0x100 + header[3];
      HeaderArithmetic(header[..]);
      headerLength := 0;
      if frameLength > maxFrameLength {
        Fail();
        return next, TooLong;
      }
      if frameLength == 0 {
        return next, EmptyFrame;
      }
      expectedPayloadLength := Some(frameLength);
      payloadBlocks := [];
      currentPayloadBlock := null;
      currentPayloadBlockLength := 0;
      payloadLength := 0;
      received := [];
      step := PayloadNext;
      assert Pending() == header[..] + [];
    }

    /** Appends an empty block sized for what is missing. */
    method AllocateBlock()
      requires Consistent() && expectedPayloadLength.Some? && payloadLength < expectedPayloadLength.value
      requires payloadBlocks == [] || currentPayloadBlockLength == currentPayloadBlock.Length
      modifies this`payloadBlocks, this`currentPayloadBlock, this`currentPayloadBlockLength, this`Repr
      ensures Consistent() && fresh(Repr - old(Repr))
      ensures payloadBlocks != [] && currentPayloadBlockLength == 0 < currentPayloadBlock.Length
    {
      var missing := expectedPayloadLength.value - payloadLength;
      ghost var before := payloadBlocks;
      var block := new Byte[if PAYLOAD_BLOCK_SIZE <= missing then PAYLOAD_BLOCK_SIZE else missing](_ => 0);
      HoldsWithNext(before, currentPayloadBlockLength, received, expectedPayloadLength.value, block);
      payloadBlocks := payloadBlocks + [block];
      Repr := Repr + {block};
      currentPayloadBlock := block;
      currentPayloadBlockLength := 0;
    }

    /** Consumes payload bytes until the chunk or the payload is exhausted. */
    method TakePayload(chunk: seq<Byte>, offset: nat) returns (next: nat)
      requires Consistent() && expectedPayloadLength.Some? && offset <= |chunk|
      requires payloadLength <= expectedPayloadLength.value
      modifies Repr
      ensures Consistent() && expectedPayloadLength == old(expectedPayloadLength) && state == IsOpen
      ensures offset <= next <= |chunk| && received == old(received) + chunk[offset..next]
      ensures header[..] == old(header[..])
      ensures offset < |chunk| && old(payloadLength < expectedPayloadLength.value) ==> offset < next
      ensures payloadLength <= expectedPayloadLength.value
      ensures next == |chunk| || payloadLength == expectedPayloadLength.value
      ensures fresh(Repr - old(Repr))
    {
      next := offset;
      assert chunk[offset..offset] == [];
      while next < |chunk| && payloadLength < expectedPayloadLength.value
        invariant Consistent() && expectedPayloadLength == old(expectedPayloadLength)
        invariant offset <= next <= |chunk| && received == old(received) + chunk[offset..next]
        invariant header[..] == old(header[..])
        invariant next == offset ==> payloadLength == old(payloadLength)
        invariant payloadLength <= expectedPayloadLength.value
        invariant fresh(Repr - old(Repr))
        decreases |chunk| - next
      {
        var taken := TakeBlock(chunk, next);
        AppendSlices(old(received), chunk, offset, next, next + taken);
        next := next + taken;
      }
    }

    /** Consumes what fits into one block. */
    method TakeBlock(chunk: seq<Byte>, at: nat) returns (taken: nat)
      requires Consistent() && at < |chunk|
      requires expectedPayloadLength.Some? && payloadLength < expectedPayloadLength.value
      modifies Repr
      ensures Consistent() && expectedPayloadLength == old(expectedPayloadLength)
      ensures 0 < taken <= |chunk| - at && received == old(received) + chunk[at..at + taken]
      ensures header[..] == old(header[..])
      ensures payloadLength <= expectedPayloadLength.value
      ensures fresh(Repr - old(Repr))
    {
      if currentPayloadBlock == null || currentPayloadBlockLength == currentPayloadBlock.Length {
        AllocateBlock();
      }
      var block := currentPayloadBlock;
      assert block == payloadBlocks[|payloadBlocks| - 1];
      var room := block.Length - currentPayloadBlockLength;
      taken := if room <= |chunk| - at then room else |chunk| - at;
      Fill(block, chunk[at..at + taken]);
    }

    /** Appends bytes to the current block. */
    method Fill(block: array<Byte>, bytes: seq<Byte>)
      requires Consistent() && expectedPayloadLength.Some? && payloadBlocks != [] && block == currentPayloadBlock
      requires currentPayloadBlockLength + |bytes| <= block.Length
      modifies this`currentPayloadBlockLength, this`payloadLength, this`received, block
      ensures Consistent() && received == old(received) + bytes
    {
      ghost var before := block[..currentPayloadBlockLength];
      CopyInto(block, currentPayloadBlockLength, bytes);
      assert block[..currentPayloadBlockLength] == before;
      assert block[currentPayloadBlockLength..currentPayloadBlockLength + |bytes|] == bytes;
      HoldsFilled(payloadBlocks, currentPayloadBlockLength, received, expectedPayloadLength.value, bytes);
      currentPayloadBlockLength := currentPayloadBlockLength + |bytes|;
      payloadLength := payloadLength + |bytes|;
      received := received + bytes;
    }

    /** Hands out a complete payload: the only block itself, or a copy of all of them. */
    method TakeFrame() returns (frame: array<Byte>)
      requires Consistent() && expectedPayloadLength.Some? && payloadLength == expectedPayloadLength.value
      modifies this
      ensures Valid() && state == IsOpen && Pending() == [] && expectedPayloadLength.None?
      ensures frame[..] == old(received)
      ensures Repr == {this, header} && frame !in Repr && (frame in old(Repr) || fresh(frame))
    {
      if |payloadBlocks| == 1 {
        frame := payloadBlocks[0];
        assert frame[..] == received;
      } else {
        frame := Join(payloadBlocks, currentPayloadBlockLength, received);
      }
      payloadBlocks := [];
      currentPayloadBlock := null;
      currentPayloadBlockLength := 0;
      expectedPayloadLength := None;
      payloadLength := 0;
      received := [];
      Repr := {this, header};
    }

    /** One turn of the push loop: consumes some bytes, and possibly completes a frame or fails. */
    method TakeSome(chunk: seq<Byte>, offset: nat) returns (next: nat, outcome: Outcome)
      requires Valid() && state == IsOpen && offset < |chunk|
      modifies Repr
      ensures Valid() && offset < next <= |chunk|
      ensures var p := Parse(old(Pending()) + chunk[offset..next], maxFrameLength);
              match outcome
              case Nothing => state == IsOpen && p == Parsed([], Rest(Pending()))
              case Overflow => state == IsFailed && p.tail.Oversized?
              case Frame(f) =>
                && state == IsOpen && p == Parsed([f[..]], Rest(Pending()))
                && f !in Repr && (f in old(Repr) || fresh(f))
      ensures fresh(Repr - old(Repr))
    {
      next := offset;
      ghost var before := Pending();
      if expectedPayloadLength.None? {
        var step;
        next, step := TakeHeader(chunk, next);
        ghost var bytes := before + chunk[offset..next];
        if step == TooLong {
          assert bytes[..FRAME_HEADER_LENGTH] == bytes;
          return next, Overflow;
        }
        if step == EmptyFrame {
          assert bytes[..FRAME_HEADER_LENGTH] == bytes;
          WholeFrame(bytes, maxFrameLength);
          var empty := new Byte[0];
          assert empty[..] == bytes[FRAME_HEADER_LENGTH..];
          return next, Frame(empty);
        }
        if step == NeedMore {
          PendingParses();
          return next, Nothing;
        }
      }
      ghost var headerEnd, h, r := next, header[..], received;
      next, outcome := TakeRest(chunk, next);
      AppendSlices(before, chunk, offset, headerEnd, next);
      ghost var bytes := before + chunk[offset..next];
      match outcome
      case Nothing =>
        PendingParses();
      case Frame(f) =>
        assert bytes == h + f[..] + [];
        ParseFrame(h, f[..], [], maxFrameLength);
        assert [f[..]] + [] == [f[..]];
    }

    /** Consumes payload bytes and hands out the frame when they complete it. */
    method TakeRest(chunk: seq<Byte>, offset: nat) returns (next: nat, outcome: Outcome)
      requires Consistent() && expectedPayloadLength.Some? && offset <= |chunk|
      requires payloadLength < expectedPayloadLength.value
      modifies Repr
      ensures Valid() && state == IsOpen && offset <= next <= |chunk|
      ensures offset < |chunk| ==> offset < next
      ensures match outcome
              case Nothing => Pending() == old(Pending()) + chunk[offset..next]
              case Overflow => false
              case Frame(f) =>
                && Pending() == [] && f[..] == old(received) + chunk[offset..next]
                && f.Length == old(expectedPayloadLength).value
                && f !in Repr && (f in old(Repr) || fresh(f))
      ensures fresh(Repr - old(Repr))
    {
      next := TakePayload(chunk, offset);
      if payloadLength == expectedPayloadLength.value {
        var frame := TakeFrame();
        outcome := Frame(frame);
      } else {
        assert Pending() == old(Pending()) + chunk[offset..next];
        outcome := Nothing;
      }
    }

    /** Splits a chunk into complete payloads, keeping the rest for the next call. */
    method Push(chunk: seq<Byte>) returns (r: Result<seq<array<Byte>>, FrameFailure>)
      requires Valid()
      modifies Repr
      ensures Valid()
      ensures var spec := PushSpec(old(Abstraction()), chunk, maxFrameLength);
              && Abstraction() == spec.after
              && (r.Ok? <==> spec.frames.Some?)
              && (r.Ok? ==> Contents(r.value) == spec.frames.value)
      ensures r.Ok? ==> forall i :: 0 <= i < |r.value| ==> r.value[i] !in Repr
      ensures fresh(Repr - old(Repr))
    {
      if state != IsOpen {
        return Err(FrameError);
      }
      var frames: seq<array<Byte>> := [];
      var offset := 0;
      ghost var start := Pending();
      ghost var out: seq<seq<Byte>> := [];
      PendingParses();
      assert start + chunk[..0] == start;
      while offset < |chunk|
        invariant Valid() && state == IsOpen && 0 <= offset <= |chunk|
        invariant Parse(start + chunk[..offset], maxFrameLength) == Parsed(out, Rest(Pending()))
        invariant |frames| == |out|
        invariant forall i :: 0 <= i < |frames| ==> frames[i] !in Repr && frames[i][..] == out[i]
        invariant fresh(Repr - old(Repr))
        decreases |chunk| - offset
      {
        ghost var before, consumed := Pending(), offset;
        var outcome;
        offset, outcome := TakeSome(chunk, offset);
        StreamAdvances(start, chunk, consumed, offset, before, out, maxFrameLength);
        match outcome
        case Nothing =>
          assert out + [] == out;
        case Overflow =>
          FailedStream(start, chunk, offset, maxFrameLength);
          return Err(FrameError);
        case Frame(frame) =>
          frames, out := frames + [frame], out + [frame[..]];
      }
      assert chunk[..offset] == chunk;
      assert Contents(frames) == out;
      r := Ok(frames);
    }

    /** Accepts the end of the stream only between frames. */
    method End() returns (r: Result<(), FrameFailure>)
      requires Valid()
      modifies this
      ensures Valid() && Repr <= old(Repr)
      ensures r.Ok? <==> old(Abstraction()) == Open([])
      ensures Abstraction() == if r.Ok? || old(Abstraction()) == Ended then Ended else Failed
    {
      if state != IsOpen {
        return Err(FrameError);
      }
      if headerLength != 0 || expectedPayloadLength.Some? {
        assert |Pending()| > 0;
        Fail();
        return Err(FrameError);
      }
      state := IsEnded;
      r := Ok(());
    }
  }

  /** Copies the blocks of a complete payload into one buffer. */
  method Join(blocks: seq<array<Byte>>, used: nat, ghost received: seq<Byte>) returns (payload: array<Byte>)
    requires blocks != [] && Holds(blocks, used, received, |received|)
    ensures fresh(payload) && payload[..] == received
  {
    var full := |blocks| - 1;
    assert used == blocks[full].Length;
    payload := new Byte[full * PAYLOAD_BLOCK_SIZE + used](_ => 0);
    var offset := 0;
    for i := 0 to |blocks|
      invariant i <= full ==> offset == i * PAYLOAD_BLOCK_SIZE
      invariant i > full ==> offset == payload.Length
      invariant offset <= payload.Length && payload[..offset] == received[..offset]
    {
      ghost var done := payload[..offset];
      CopyInto(payload, offset, blocks[i][..]);
      assert payload[..offset + blocks[i].Length] == done + blocks[i][..];
      if i == full {
        assert blocks[i][..used] == blocks[i][..];
        assert received[offset..offset + used] == received[offset..];
      }
      assert blocks[i][..] == received[offset..offset + blocks[i].Length];
      offset := offset + blocks[i].Length;
    }
  }

  lemma AppendSlices(base: seq<Byte>, chunk: seq<Byte>, a: nat, b: nat, c: nat)
    requires a <= b <= c <= |chunk|
    ensures base + chunk[a..b] + chunk[b..c] == base + chunk[a..c]
  {
    assert chunk[a..b] + chunk[b..c] == chunk[a..c];
  }

  /** Consuming chunk[consumed..offset] extends the parse by the parse of what was pending plus those bytes. */
  lemma StreamAdvances(start: seq<Byte>, chunk: seq<Byte>, consumed: nat, offset: nat, before: seq<Byte>,
                       out: seq<seq<Byte>>, max: nat)
    requires consumed <= offset <= |chunk|
    requires Parse(start + chunk[..consumed], max) == Parsed(out, Rest(before))
    ensures var q := Parse(before + chunk[consumed..offset], max);
            Parse(start + chunk[..offset], max) == Parsed(out + q.frames, q.tail)
  {
    ParseAppend(start + chunk[..consumed], chunk[consumed..offset], max);
    assert start + chunk[..offset] == start + chunk[..consumed] + chunk[consumed..offset];
  }

  lemma FailedStream(start: seq<Byte>, chunk: seq<Byte>, offset: nat, max: nat)
    requires offset <= |chunk| && Parse(start + chunk[..offset], max).tail.Oversized?
    ensures Parse(start + chunk, max).tail.Oversized?
  {
    ParseAppend(start + chunk[..offset], chunk[offset..], max);
    assert start + chunk == start + chunk[..offset] + chunk[offset..];
  }

  lemma WholeFrame(bytes: seq<Byte>, max: nat)
    requires |bytes| >= FRAME_HEADER_LENGTH
    requires ReadLength(bytes[..FRAME_HEADER_LENGTH]) <= max
    requires |bytes| == FRAME_HEADER_LENGTH + ReadLength(bytes[..FRAME_HEADER_LENGTH])
    ensures Parse(bytes, max) == Parsed([bytes[FRAME_HEADER_LENGTH..]], Rest([]))
  {
    ParseFrame(bytes[..FRAME_HEADER_LENGTH], bytes[FRAME_HEADER_LENGTH..], [], max);
    assert bytes == bytes[..FRAME_HEADER_LENGTH] + bytes[FRAME_HEADER_LENGTH..] + [];
    assert [bytes[FRAME_HEADER_LENGTH..]] + [] == [bytes[FRAME_HEADER_LENGTH..]];
  }
}
