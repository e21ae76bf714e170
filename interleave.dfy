/**
 * The push side of a ring-buffer sink: one block of a node's first input,
 * interleaved frame by frame (`[frame 0: ch 0, ch 1, ...][frame 1: ...]`), is
 * appended to the producer whole or not at all. Both sinks (the bridge's ring
 * sink and the device sink) push exactly this way.
 */
module Interleave {
  import opened Node
  import opened Ring

  /** Frame `i`: output channel `c` reads buffer `SourceChannel(c, |buffers|)`, so mono feeds every channel. */
  function Frame(buffers: Input, channels: nat, i: nat): (f: seq<real>)
    requires |buffers| > 0 && Uniform(buffers, |buffers[0]|) && i < |buffers[0]|
    ensures |f| == channels
  {
    seq(channels, c requires 0 <= c < channels => buffers[SourceChannel(c, |buffers|)][i])
  }

  /** The first `len` frames, interleaved. */
  function Interleaved(buffers: Input, channels: nat, len: nat): (s: seq<real>)
    requires |buffers| > 0 && Uniform(buffers, |buffers[0]|) && len <= |buffers[0]|
  {
    if len == 0 then [] else Interleaved(buffers, channels, len - 1) + Frame(buffers, channels, len - 1)
  }

  lemma {:induction false} InterleavedLength(buffers: Input, channels: nat, len: nat)
    requires |buffers| > 0 && Uniform(buffers, |buffers[0]|) && len <= |buffers[0]|
    ensures |Interleaved(buffers, channels, len)| == len * channels
  {
    if len > 0 {
      InterleavedLength(buffers, channels, len - 1);
    }
  }

  /** Sample `i * channels + c` of the pushed block is sample `i` of the buffer mapped to channel `c`. */
  lemma {:induction false} InterleavedAt(buffers: Input, channels: nat, len: nat, i: nat, c: nat)
    requires |buffers| > 0 && Uniform(buffers, |buffers[0]|) && len <= |buffers[0]|
    requires i < len && c < channels
    ensures |Interleaved(buffers, channels, len)| == len * channels
    ensures i * channels + c < len * channels
    ensures Interleaved(buffers, channels, len)[i * channels + c] == buffers[SourceChannel(c, |buffers|)][i]
  {
    InterleavedLength(buffers, channels, len);
    SlotBeforeEnd(i, c, len, channels);
    InterleavedLength(buffers, channels, len - 1);
    if i < len - 1 {
      InterleavedAt(buffers, channels, len - 1, i, c);
    } else {
      assert i * channels + c == |Interleaved(buffers, channels, len - 1)| + c;
    }
  }

  /**
   * What one `process` call appends: nothing without an input, without a
   * buffer, or without room for the whole block; otherwise the whole block.
   */
  function Accepted(inputs: seq<Input>, channels: nat, slots: nat): (block: seq<real>)
    requires |inputs| > 0 && |inputs[0]| > 0 ==> Uniform(inputs[0], |inputs[0][0]|)
    ensures block == [] || (|inputs| > 0 && |inputs[0]| > 0 && |block| == |inputs[0][0]| * channels && |block| <= slots)
    ensures |inputs| > 0 && |inputs[0]| > 0 && |inputs[0][0]| * channels <= slots ==>
              |block| == |inputs[0][0]| * channels
  {
    if |inputs| == 0 || |inputs[0]| == 0 then []
    else if slots < |inputs[0][0]| * channels then []
    else
      InterleavedLength(inputs[0], channels, |inputs[0][0]|);
      Interleaved(inputs[0], channels, |inputs[0][0]|)
  }

  /** The interleaving loop shared by both sinks; the caller has checked there is room. */
  method PushInterleaved(producer: Fifo<real>, buffers: Input, channels: nat)
    requires producer.Valid()
    requires |buffers| > 0 && Uniform(buffers, |buffers[0]|)
    requires |buffers[0]| * channels <= producer.Slots()
    modifies producer
    ensures producer.Valid()
    ensures producer.items == old(producer.items) + Interleaved(buffers, channels, |buffers[0]|)
  {
    var len := |buffers[0]|;
    for i := 0 to len
      invariant producer.Valid()
      invariant producer.items == old(producer.items) + Interleaved(buffers, channels, i)
    {
      InterleavedLength(buffers, channels, i);
      ghost var frame := Frame(buffers, channels, i);
      for ch := 0 to channels
        invariant producer.Valid()
        invariant producer.items == old(producer.items) + Interleaved(buffers, channels, i) + frame[..ch]
      {
        SlotBeforeEnd(i, ch, len, channels);
        var srcCh := SourceChannel(ch, |buffers|);
        var _ := producer.Push(buffers[srcCh][i]);
        assert frame[..ch + 1] == frame[..ch] + [buffers[srcCh][i]];
      }
      assert frame[..channels] == frame;
    }
  }
}
