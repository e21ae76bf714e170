/** A sink node that pushes its input, interleaved, into a ring buffer (the bridge's sub-graph end). */
module RtrbSinkNode {
  import opened Node
  import opened Ring
  import opened Interleave

  /** One input, no outputs, any rate. */
  const SinkInfo: NodeInfo := NodeInfo(1, 0, Wrappers.None)

  class RtrbSink {
    const producer: Fifo<real>
    /** Interleaved channels per frame, never below 1. */
    const channels: nat

    constructor (producer: Fifo<real>, channels: nat)
      ensures this.producer == producer
      ensures this.channels == Max(channels, 1)
    {
      this.producer := producer;
      this.channels := Max(channels, 1);
    }

    constructor Mono(producer: Fifo<real>)
      ensures this.producer == producer && channels == 1
    {
      this.producer := producer;
      this.channels := Max(1, 1);
    }

    constructor Stereo(producer: Fifo<real>)
      ensures this.producer == producer && channels == 2
    {
      this.producer := producer;
      this.channels := Max(2, 1);
    }

    /** Free sample slots in the ring. */
    function Available(): (n: nat)
      reads producer
      requires producer.Valid()
      ensures n + |producer.items| == producer.capacity
    {
      producer.Slots()
    }

    function Info(): (info: NodeInfo)
      ensures info.numInputs == 1 && info.numOutputs == 0 && info.nativeSampleRate.None?
    {
      SinkInfo
    }

    /** Pushes the block of the first input, whole or not at all; queued samples stay as they were. */
    method Process(inputs: seq<Input>)
      requires producer.Valid()
      requires |inputs| > 0 && |inputs[0]| > 0 ==> Uniform(inputs[0], |inputs[0][0]|)
      modifies producer
      ensures producer.Valid()
      ensures producer.items == old(producer.items) + Accepted(inputs, channels, old(producer.Slots()))
    {
      if |inputs| == 0 {
        return;
      }
      var buffers := inputs[0];
      if |buffers| == 0 {
        return;
      }
      var bufferLen := |buffers[0]|;
      var samplesNeeded := bufferLen * channels;
      if producer.Slots() < samplesNeeded {
        return;
      }
      PushInterleaved(producer, buffers, channels);
    }
  }
}
