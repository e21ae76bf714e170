/**
 * The device sink: the graph side pushes interleaved blocks into a ring, and
 * the device callback drains that ring into the device's output slice,
 * writing silence and raising an underrun flag when the ring runs dry.
 */
module CpalSinkNode {
  import opened Node
  import opened Ring
  import opened Interleave

  /** The two counters the sink shares with the device callback: samples played and the underrun flag. */
  class StreamStatus {
    var samplesConsumed: nat
    var hadUnderrun: bool

    constructor ()
      ensures samplesConsumed == 0 && !hadUnderrun
    {
      samplesConsumed := 0;
      hadUnderrun := false;
    }
  }

  class CpalSink {
    const buffer: Fifo<real>
    const channels: nat
    const status: StreamStatus

    /**
     * A sink for a device running at `sampleRate` with `channels` channels: a
     * fresh, empty ring of `RingSize(sampleRate, channels)` samples (about a
     * tenth of a second, a power of two, at least 8192) and fresh counters.
     * The ring's consumer side is what the device callback drains
     * (`FillOutput`); opening the device and starting its stream thread are
     * outside this model.
     */
    constructor (sampleRate: nat, channels: nat)
      ensures fresh(buffer) && buffer.Valid() && buffer.items == []
      ensures buffer.capacity == RingSize(sampleRate, channels)
      ensures fresh(status) && status.samplesConsumed == 0 && !status.hadUnderrun
      ensures this.channels == channels
    {
      buffer := new Fifo<real>(RingSize(sampleRate, channels));
      status := new StreamStatus();
      this.channels := channels;
    }

    /** One input, no outputs, any rate. */
    function Info(): (info: NodeInfo)
      ensures info.numInputs == 1 && info.numOutputs == 0 && info.nativeSampleRate.None?
    {
      NodeInfo(1, 0, Wrappers.None)
    }

    /** Pushes the block of the first input whole, or skips it when the ring lacks room for all of it. */
    method Process(inputs: seq<Input>)
      requires buffer.Valid()
      requires |inputs| > 0 && |inputs[0]| > 0 ==> Uniform(inputs[0], |inputs[0][0]|)
      modifies buffer
      ensures buffer.Valid()
      ensures buffer.items == old(buffer.items) + Accepted(inputs, channels, old(buffer.Slots()))
    {
      if |inputs| == 0 {
        return;
      }
      var buffers := inputs[0];
      if |buffers| == 0 {
        return;
      }
      var bufferLen := |buffers[0]|;
      var samplesNeeded := bufferLen * channels;
      if buffer.Slots() < samplesNeeded {
        return;
      }
      PushInterleaved(buffer, buffers, channels);
    }

    /** Reports whether an underrun happened since the last check, and clears the flag. */
    method CheckUnderrun() returns (underran: bool)
      modifies status
      ensures underran == old(status.hadUnderrun)
      ensures !status.hadUnderrun
      ensures status.samplesConsumed == old(status.samplesConsumed)
    {
      underran := status.hadUnderrun;
      status.hadUnderrun := false;
    }
  }

  /**
   * The body of the device callback for float output: each slot gets the next
   * queued sample, or 0.0 once the ring is empty.
   */
  method FillOutput(consumer: Fifo<real>, status: StreamStatus, data: array<real>)
    requires consumer.Valid()
    modifies consumer, status, data
    ensures consumer.Valid()
    ensures var k := Min(data.Length, |old(consumer.items)|);
      && data[..] == old(consumer.items)[..k] + Silence(data.Length - k)
      && consumer.items == old(consumer.items)[k..]
    ensures status.hadUnderrun == (old(status.hadUnderrun) || data.Length > |old(consumer.items)|)
    ensures status.samplesConsumed == old(status.samplesConsumed) + data.Length
  {
    ghost var queued := consumer.items;
    var underrun := false;
    var j := 0;
    while j < data.Length
      invariant 0 <= j <= data.Length
      invariant consumer.Valid()
      invariant data[..j] == queued[..Min(j, |queued|)] + Silence(j - Min(j, |queued|))
      invariant consumer.items == queued[Min(j, |queued|)..]
      invariant underrun == (j > |queued|)
      modifies consumer, data
    {
      var next := consumer.Pop();
      match next {
        case Some(x) =>
          data[j] := x;
          assert queued[..j + 1] == queued[..j] + [x];
        case None =>
          underrun := true;
          data[j] := 0.0;
      }
      assert data[..j + 1] == data[..j] + [data[j]];
      j := j + 1;
    }
    assert data[..] == data[..data.Length];
    if underrun {
      status.hadUnderrun := true;
    }
    status.samplesConsumed := status.samplesConsumed + data.Length;
  }
}
