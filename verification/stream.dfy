/**
 * The bridge between the one-shot calls and a transform stream: `_transform`
 * runs update on each inbound chunk and `_flush` runs final at end of input.
 * Neither lets an error escape; each hands its callback exactly one argument,
 * no error or the error caught. Pushing downstream is modelled as appending
 * to a sequence of chunks.
 */
module Stream {
  import opened Types
  import opened Checks
  import opened Machine

  /** One inbound chunk: the data, the stream's encoding for it, and what `_update` answers. */
  datatype Chunk = Chunk(data: Value, encoding: Option<string>, hook: Result<Bytes>)

  /** `_transform(chunk, encoding, callback)` calls `update(chunk, encoding)`: raw output. */
  function AsUpdate(c: Chunk): Op {
    Update(c.data, c.encoding, None, c.hook)
  }

  function AsUpdates(chunks: seq<Chunk>): (ops: seq<Op>)
    ensures |ops| == |chunks|
  {
    if chunks == [] then [] else [AsUpdate(chunks[0])] + AsUpdates(chunks[1..])
  }

  /** The callback's argument: null on success, the caught error otherwise. */
  function ErrorOf(r: Result<Reply>): (e: Option<Error>)
    ensures e.None? <==> r.Ok?
    ensures r.Err? ==> e == Some(r.error)
  {
    if r.Err? then Some(r.error) else None
  }

  /** What one bridge call leaves: the next state, what it pushed, its callback argument. */
  datatype Bridged = Bridged(next: State, pushed: seq<Bytes>, callback: Option<Error>)

  /** `_transform` as written: update's return value is dropped, nothing is pushed. */
  function TransformAsWritten(s: State, c: Chunk, codec: Codec): (b: Bridged)
    ensures b.pushed == []
    ensures b.next == Apply(s, AsUpdate(c), codec).next
    ensures b.callback == ErrorOf(Apply(s, AsUpdate(c), codec).out)
  {
    var step := UpdateStep(s, c.data, c.encoding, None, c.hook, codec);
    Bridged(step.next, [], ErrorOf(step.out))
  }

  /** `_transform` corrected: a successful update's bytes go downstream, as a transform stream's output should. */
  function TransformForwarding(s: State, c: Chunk, codec: Codec): (b: Bridged)
    ensures b.next == Apply(s, AsUpdate(c), codec).next
    ensures b.callback == ErrorOf(Apply(s, AsUpdate(c), codec).out)
    ensures b.pushed == if b.callback.None? then [c.hook.value] else []
  {
    var step := UpdateStep(s, c.data, c.encoding, None, c.hook, codec);
    match step.out
    case Ok(Data(Raw(bytes))) => Bridged(step.next, [bytes], None)
    case Ok(_) => assert false; Bridged(step.next, [], None)
    case Err(e) => Bridged(step.next, [], Some(e))
  }

  /** `_flush`: final's result is pushed only when final succeeded. */
  function Flush(s: State, hook: Result<Bytes>, auth: Result<bool>, codec: Codec): (b: Bridged)
    ensures b.next == FinalStep(s, None, hook, auth, codec).next
    ensures b.callback == ErrorOf(FinalStep(s, None, hook, auth, codec).out)
    ensures b.pushed == if b.callback.None? then [hook.value] else []
    // a second end of input cannot push anything
    ensures s.finalized ==> b.pushed == [] && b.callback.Some?
  {
    var step := FinalStep(s, None, hook, auth, codec);
    match step.out
    case Ok(Data(Raw(bytes))) => Bridged(step.next, [bytes], None)
    case Ok(_) => assert false; Bridged(step.next, [], None)
    case Err(e) => Bridged(step.next, [], Some(e))
  }

  /** The raw chunks among a session's replies, in order. */
  function RawOutputs(replies: seq<Result<Reply>>): seq<Bytes> {
    if replies == [] then []
    else
      (match replies[0] case Ok(Data(Raw(b))) => [b] case _ => []) + RawOutputs(replies[1..])
  }

  /** A run of chunks through the bridge: last state, everything pushed, one callback per chunk. */
  datatype Piped = Piped(last: State, pushed: seq<Bytes>, callbacks: seq<Option<Error>>)

  function PipeAsWritten(s: State, chunks: seq<Chunk>, codec: Codec): (p: Piped)
    ensures |p.callbacks| == |chunks|
    decreases |chunks|
  {
    if chunks == [] then Piped(s, [], [])
    else
      var b := TransformAsWritten(s, chunks[0], codec);
      var rest := PipeAsWritten(b.next, chunks[1..], codec);
      Piped(rest.last, b.pushed + rest.pushed, [b.callback] + rest.callbacks)
  }

  function PipeForwarding(s: State, chunks: seq<Chunk>, codec: Codec): (p: Piped)
    ensures |p.callbacks| == |chunks|
    decreases |chunks|
  {
    if chunks == [] then Piped(s, [], [])
    else
      var b := TransformForwarding(s, chunks[0], codec);
      var rest := PipeForwarding(b.next, chunks[1..], codec);
      Piped(rest.last, b.pushed + rest.pushed, [b.callback] + rest.callbacks)
  }

  lemma RunAsUpdatesUnfold(s: State, chunks: seq<Chunk>, codec: Codec)
    requires chunks != []
    ensures var step := Apply(s, AsUpdate(chunks[0]), codec);
            var rest := Run(step.next, AsUpdates(chunks[1..]), codec);
            Run(s, AsUpdates(chunks), codec) ==
              Trace(rest.last, [step.out] + rest.replies, step.calls + rest.calls)
  {
  }

  /**
   * With forwarding, streaming a sequence of chunks is the same session as
   * calling update on each: same last state, one callback per reply (null
   * exactly when the update succeeded), and the pushed chunks are exactly the
   * outputs of the successful updates, in order.
   */
  lemma {:induction false} ForwardingPipeMatchesUpdates(s: State, chunks: seq<Chunk>, codec: Codec)
    ensures var p := PipeForwarding(s, chunks, codec);
            var t := Run(s, AsUpdates(chunks), codec);
            p.last == t.last && p.pushed == RawOutputs(t.replies) &&
            forall i :: 0 <= i < |chunks| ==> p.callbacks[i] == ErrorOf(t.replies[i])
    decreases |chunks|
  {
    if chunks != [] {
      var step := Apply(s, AsUpdate(chunks[0]), codec);
      RunAsUpdatesUnfold(s, chunks, codec);
      ForwardingPipeMatchesUpdates(step.next, chunks[1..], codec);
      var t := Run(s, AsUpdates(chunks), codec);
      var rest := Run(step.next, AsUpdates(chunks[1..]), codec);
      assert t.replies[0] == step.out;
      assert t.replies[1..] == rest.replies;
      var p := PipeForwarding(s, chunks, codec);
      forall i | 0 <= i < |chunks|
        ensures p.callbacks[i] == ErrorOf(t.replies[i])
      {
        if i > 0 { assert t.replies[i] == rest.replies[i - 1]; }
      }
    }
  }

  /**
   * As written, streaming keeps the state and callbacks of the updates but
   * pushes nothing, whatever the backend produces.
   */
  lemma {:induction false} AsWrittenPipePushesNothing(s: State, chunks: seq<Chunk>, codec: Codec)
    ensures var p := PipeAsWritten(s, chunks, codec);
            var t := Run(s, AsUpdates(chunks), codec);
            p.last == t.last && p.pushed == [] &&
            forall i :: 0 <= i < |chunks| ==> p.callbacks[i] == ErrorOf(t.replies[i])
    decreases |chunks|
  {
    if chunks != [] {
      var step := Apply(s, AsUpdate(chunks[0]), codec);
      RunAsUpdatesUnfold(s, chunks, codec);
      AsWrittenPipePushesNothing(step.next, chunks[1..], codec);
      var t := Run(s, AsUpdates(chunks), codec);
      var rest := Run(step.next, AsUpdates(chunks[1..]), codec);
      var p := PipeAsWritten(s, chunks, codec);
      forall i | 0 <= i < |chunks|
        ensures p.callbacks[i] == ErrorOf(t.replies[i])
      {
        if i > 0 { assert t.replies[i] == rest.replies[i - 1]; }
      }
    }
  }

  /**
   * The bytes a cipher produces for a streamed chunk are lost: one buffer chunk
   * that the backend turns into one byte is returned by update, but nothing
   * reaches the readable side; the forwarding bridge pushes it.
   */
  lemma StreamedOutputIsLost(codec: Codec)
    ensures var chunks := [Chunk(Buf([0x68]), None, Ok([0x68]))];
            RawOutputs(Run(Initial(true), AsUpdates(chunks), codec).replies) == [[0x68]] &&
            PipeAsWritten(Initial(true), chunks, codec).pushed == [] &&
            PipeForwarding(Initial(true), chunks, codec).pushed == [[0x68]]
  {
  }
}
