/**
 * The response capture: a writer that keeps a copy of every byte written through it and
 * hands each write on, unchanged and in order, to the writer it wraps.
 */
module Capture {
  import opened Wrappers

  newtype byte = x: int | 0 <= x < 256

  /** What a writer's `Write` returns: the count written and an error, if any. */
  datatype WriteReply = WriteReply(n: int, err: Option<string>)

  /** One write made by the downstream handler, with the reply the wrapped writer gives it. */
  datatype Chunk = Chunk(data: seq<byte>, reply: WriteReply)

  /** All bytes of a sequence of writes, in order. */
  function Flatten(chunks: seq<Chunk>): seq<byte>
    decreases |chunks|
  {
    if |chunks| == 0 then [] else Flatten(chunks[..|chunks| - 1]) + chunks[|chunks| - 1].data
  }

  /** The concatenated writes are empty exactly when every write was empty. */
  lemma {:induction false} FlattenEmptyIff(chunks: seq<Chunk>)
    ensures Flatten(chunks) == [] <==> forall i :: 0 <= i < |chunks| ==> chunks[i].data == []
    decreases |chunks|
  {
    if |chunks| > 0 {
      var init := chunks[..|chunks| - 1];
      FlattenEmptyIff(init);
      assert forall i :: 0 <= i < |init| ==> init[i] == chunks[i];
    }
  }

  /**
   * `responseCapture`: `body` is the capture buffer, `forwarded` the writes the wrapped
   * `ResponseWriter` has received from it, in order. Only `Write` is overridden; output sent
   * through the promoted `WriteString` bypasses the buffer and is not modelled.
   */
  class ResponseCapture {
    var body: seq<byte>
    var forwarded: seq<seq<byte>>

    constructor ()
      ensures body == [] && forwarded == []
    {
      body := [];
      forwarded := [];
    }

    /**
     * `Write`: the data goes into the buffer first, then to the wrapped writer, whose reply
     * (`innerReply`) is returned unchanged; the buffer does not depend on that reply.
     */
    method Write(data: seq<byte>, innerReply: WriteReply) returns (reply: WriteReply)
      modifies this
      ensures body == old(body) + data
      ensures forwarded == old(forwarded) + [data]
      ensures reply == innerReply
    {
      body := body + data;
      forwarded := forwarded + [data];
      reply := innerReply;
    }
  }

  /**
   * The downstream handler writing its response through the capture: afterwards the buffer
   * holds every chunk, concatenated in order, and the wrapped writer received each chunk.
   */
  method WriteChunks(rc: ResponseCapture, chunks: seq<Chunk>)
    modifies rc
    ensures rc.body == old(rc.body) + Flatten(chunks)
    ensures |rc.forwarded| == |old(rc.forwarded)| + |chunks|
    ensures rc.forwarded[..|old(rc.forwarded)|] == old(rc.forwarded)
    ensures forall i :: 0 <= i < |chunks| ==> rc.forwarded[|old(rc.forwarded)| + i] == chunks[i].data
  {
    for i := 0 to |chunks|
      invariant rc.body == old(rc.body) + Flatten(chunks[..i])
      invariant |rc.forwarded| == |old(rc.forwarded)| + i
      invariant rc.forwarded[..|old(rc.forwarded)|] == old(rc.forwarded)
      invariant forall j :: 0 <= j < i ==> rc.forwarded[|old(rc.forwarded)| + j] == chunks[j].data
    {
      assert chunks[..i + 1][..i] == chunks[..i];
      var _ := rc.Write(chunks[i].data, chunks[i].reply);
    }
    assert chunks[..|chunks|] == chunks;
  }
}
