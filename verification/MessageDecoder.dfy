/** Framed messages: decoding every frame of the stream, with a failure that latches. The decoding of one
    payload (CBOR, then schema validation) is an arbitrary partial function. */
module MessageDecoder {

  import opened Wrappers
  import opened Framing

  predicate AllDecode<T>(payloads: seq<seq<Byte>>, decode: seq<Byte> -> Option<T>) {
    forall i :: 0 <= i < |payloads| ==> decode(payloads[i]).Some?
  }

  /** The messages of a list of payloads. */
  function Messages<T>(payloads: seq<seq<Byte>>, decode: seq<Byte> -> Option<T>): (r: seq<T>)
    requires AllDecode(payloads, decode)
    ensures |r| == |payloads| && forall i :: 0 <= i < |r| ==> decode(payloads[i]) == Some(r[i])
  {
    seq(|payloads|, i requires 0 <= i < |payloads| => decode(payloads[i]).value)
  }

  lemma MessagesAppend<T>(a: seq<seq<Byte>>, b: seq<seq<Byte>>, decode: seq<Byte> -> Option<T>)
    ensures AllDecode(a + b, decode) <==> AllDecode(a, decode) && AllDecode(b, decode)
    ensures AllDecode(a + b, decode) ==> Messages(a + b, decode) == Messages(a, decode) + Messages(b, decode)
  {
    assert forall i :: 0 <= i < |a| ==> a[i] == (a + b)[i];
    assert forall i :: 0 <= i < |b| ==> b[i] == (a + b)[|a| + i];
  }

  datatype State = Live(frames: View) | Dead

  datatype MessagePush<T> = MessagePush(after: State, messages: Option<seq<T>>)

  /** One `push`: any framing or decoding error throws, hands out nothing and latches. */
  function PushMessages<T>(before: State, chunk: seq<Byte>, max: nat, decode: seq<Byte> -> Option<T>): MessagePush<T>
  {
    if before.Dead? then MessagePush(Dead, None)
    else
      var push := PushSpec(before.frames, chunk, max);
      if push.frames.None? then MessagePush(Dead, None)
      else
        if AllDecode(push.frames.value, decode)
        then MessagePush(Live(push.after), Some(Messages(push.frames.value, decode)))
        else MessagePush(Dead, None)
  }

  datatype MessageRun<T> = MessageRun(after: State, handedOut: seq<T>)

  function RunMessages<T>(chunks: seq<seq<Byte>>, max: nat, decode: seq<Byte> -> Option<T>): MessageRun<T> {
    if chunks == [] then MessageRun(Live(Open([])), [])
    else
      var before := RunMessages(chunks[..|chunks| - 1], max, decode);
      var push := PushMessages(before.after, chunks[|chunks| - 1], max, decode);
      MessageRun(push.after, before.handedOut + if push.messages.Some? then push.messages.value else [])
  }

  /** `out` is the messages of the first `k` frames, all of which decode. */
  ghost predicate MessagesOfPrefix<T>(out: seq<T>, frames: seq<seq<Byte>>, k: nat, decode: seq<Byte> -> Option<T>) {
    k <= |frames| && AllDecode(frames[..k], decode) && out == Messages(frames[..k], decode)
  }

  /** For every chunking the decoder is alive exactly when every header of the stream is within the limit
      and every frame decodes, and then it has handed out exactly the stream's messages; once dead, what
      it handed out is the messages of some frames before the first bad one. */
  lemma {:induction false} MessagesOfAnyChunking<T>(chunks: seq<seq<Byte>>, max: nat, decode: seq<Byte> -> Option<T>)
    ensures var run := RunMessages(chunks, max, decode);
            var p := Parse(Flatten(chunks), max);
            && (run.after.Live? <==> p.tail.Rest? && AllDecode(p.frames, decode))
            && (run.after.Live? ==> run.after.frames == Open(p.tail.bytes)
                                    && run.handedOut == Messages(p.frames, decode))
            && exists k: nat :: MessagesOfPrefix(run.handedOut, p.frames, k, decode)
  {
    if chunks == [] {
      assert MessagesOfPrefix([], [], 0, decode);
      return;
    }
    var init, last := chunks[..|chunks| - 1], chunks[|chunks| - 1];
    MessagesOfAnyChunking(init, max, decode);
    ParseAppend(Flatten(init), last, max);
    var before, after := Parse(Flatten(init), max), Parse(Flatten(chunks), max);
    var run, run' := RunMessages(init, max, decode), RunMessages(chunks, max, decode);
    var k: nat :| MessagesOfPrefix(run.handedOut, before.frames, k, decode);
    if before.tail.Oversized? {
      assert after == before;
      assert MessagesOfPrefix(run'.handedOut, after.frames, k, decode);
    } else {
      var added := Parse(before.tail.bytes + last, max).frames;
      assert after.frames == before.frames + added;
      MessagesAppend(before.frames, added, decode);
      if run'.after.Live? {
        assert after.frames[..|after.frames|] == after.frames;
        assert MessagesOfPrefix(run'.handedOut, after.frames, |after.frames|, decode);
      } else {
        assert after.frames[..k] == before.frames[..k];
        assert MessagesOfPrefix(run'.handedOut, after.frames, k, decode);
      }
    }
  }

  class ValidatedMessageDecoder<T> {
    var failed: bool
    const frames: FrameDecoder
    const parse: seq<Byte> -> Option<T>

    ghost predicate Valid()
      reads this, frames, frames.Repr
    {
      frames.Valid() && this !in frames.Repr
    }

    ghost function Abstraction(): State
      requires Valid()
      reads this, frames, frames.Repr
    {
      if failed then Dead else Live(frames.Abstraction())
    }

    constructor (parse: seq<Byte> -> Option<T>, maxFrameLength: nat)
      requires maxFrameLength <= MAX_UINT32
      ensures Valid() && fresh(frames) && fresh(frames.Repr) && Abstraction() == Live(Open([]))
      ensures this.parse == parse && frames.maxFrameLength == maxFrameLength
    {
      failed := false;
      frames := new FrameDecoder(maxFrameLength);
      this.parse := parse;
    }

    method Push(chunk: seq<Byte>) returns (r: Result<seq<T>, ()>)
      requires Valid()
      modifies this, frames.Repr
      ensures Valid() && fresh(frames.Repr - old(frames.Repr))
      ensures var spec := PushMessages(old(Abstraction()), chunk, frames.maxFrameLength, parse);
              && Abstraction() == spec.after
              && r == (if spec.messages.Some? then Ok(spec.messages.value) else Err(()))
    {
      if failed {
        return Err(());
      }
      var pushed := frames.Push(chunk);
      if pushed.Err? {
        failed := true;
        return Err(());
      }
      var messages: seq<T> := [];
      ghost var payloads := Contents(pushed.value);
      assert payloads[..0] == [];
      for i := 0 to |pushed.value|
        invariant AllDecode(payloads[..i], parse) && messages == Messages(payloads[..i], parse)
        invariant !failed && Contents(pushed.value) == payloads
      {
        var message := parse(pushed.value[i][..]);
        assert payloads[..i + 1] == payloads[..i] + [payloads[i]];
        if message.None? {
          assert !AllDecode(payloads, parse);
          failed := true;
          return Err(());
        }
        messages := messages + [message.value];
      }
      assert payloads[..|payloads|] == payloads;
      r := Ok(messages);
    }

    method End() returns (r: Result<(), ()>)
      requires Valid()
      modifies this, frames.Repr
      ensures Valid() && fresh(frames.Repr - old(frames.Repr))
      ensures r.Ok? <==> old(Abstraction()) == Live(Open([]))
      ensures Abstraction() == if r.Ok? then Live(Ended) else Dead
    {
      if failed {
        return Err(());
      }
      var ended := frames.End();
      if ended.Err? {
        failed := true;
        return Err(());
      }
      r := Ok(());
    }
  }
}
