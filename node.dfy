/**
 * The node contract shared by every audio node: the per-block context, node
 * identifiers, the metadata a node reports (inputs, outputs, native rate) and
 * the shape of the audio buffers handed to `process`.
 */
module Node {
  import opened Wrappers

  /** Samples per buffer: the fixed block length of the underlying graph processor. */
  const BlockSize: nat := 64

  /** What every node sees when it is processed: its graph's rate and the block length. */
  datatype ProcessContext = ProcessContext(sampleRate: nat, bufferSize: nat)

  /** A node's slot in one graph; equality is equality of the wrapped number. */
  datatype NodeId = NodeId(raw: nat)

  /** The metadata a node reports through `num_inputs`, `num_outputs` and `native_sample_rate`. */
  datatype NodeInfo = NodeInfo(numInputs: nat, numOutputs: nat, nativeSampleRate: Option<nat>)

  /** The trait's defaults: no inputs, one output, no native rate. */
  const DefaultInfo: NodeInfo := NodeInfo(0, 1, None)

  /** The ways a call into the engine aborts (Rust panics). */
  datatype Panic =
    | UnknownNode(id: NodeId)
    | UnsupportedConnection(fromGraph: nat, toGraph: nat)
    | MissingSubGraph(rate: nat)
    | NoOutputSink
    /** An integer remainder with a zero divisor (`x % 0`). */
    | RemainderByZero
    /** `unwrap` on a missing value (`None.unwrap()`). */
    | UnwrapNone
    /** An index at or past the end of a fixed-size array. */
    | IndexOutOfBounds(index: nat, length: nat)

  /** The buffers (one per channel) that one incoming edge presents to a node. */
  type Input = seq<seq<real>>

  /** Every buffer of the input holds exactly `n` samples (all buffers are block-sized). */
  predicate Uniform(buffers: Input, n: nat) {
    forall j :: 0 <= j < |buffers| ==> |buffers[j]| == n
  }

  /**
   * The channel a node reads for output channel `ch` when the source has
   * `available` channels: the same one if it exists, otherwise the last one.
   */
  function SourceChannel(ch: nat, available: nat): (src: nat)
    requires available > 0
    ensures src < available
    ensures ch < available ==> src == ch
    ensures ch >= available ==> src == available - 1
  {
    if ch < available - 1 then ch else available - 1
  }

  /** The buffer of an input that output channel `ch` reads: its own, or the last one there is. */
  function InputFor(buffers: Input, ch: nat): seq<real>
    requires |buffers| > 0
  {
    buffers[SourceChannel(ch, |buffers|)]
  }

  function Min(a: int, b: int): int { if a < b then a else b }

  function Max(a: int, b: int): int { if a < b then b else a }

  function Abs(x: real): real { if x < 0.0 then -x else x }

  /** `v` limited to `[lo, hi]` (Rust's `clamp`, which panics when `lo > hi`). */
  function Clamp(v: real, lo: real, hi: real): (r: real)
    requires lo <= hi
    ensures lo <= r <= hi
    ensures lo <= v <= hi ==> r == v
    ensures v < lo ==> r == lo
    ensures v > hi ==> r == hi
  {
    if v < lo then lo else if v > hi then hi else v
  }

  /** A sequence of `n` zero samples. */
  function Silence(n: nat): (s: seq<real>)
    ensures |s| == n && forall k :: 0 <= k < n ==> s[k] == 0.0
  {
    if n == 0 then [] else Silence(n - 1) + [0.0]
  }

  /** Zeroes every buffer from sample `from` to the end; earlier samples are kept. */
  method SilenceFrom(outputs: array2<real>, from: nat)
    modifies outputs
    ensures forall ch, j :: 0 <= ch < outputs.Length0 && 0 <= j < outputs.Length1 ==>
              outputs[ch, j] == if j < from then old(outputs[ch, j]) else 0.0
  {
    for ch := 0 to outputs.Length0
      invariant forall c, j :: 0 <= c < outputs.Length0 && 0 <= j < outputs.Length1 ==>
                  outputs[c, j] == if j < from || c >= ch then old(outputs[c, j]) else 0.0
    {
      var j := from;
      while j < outputs.Length1
        invariant forall c, k :: 0 <= c < outputs.Length0 && 0 <= k < outputs.Length1 ==>
                    outputs[c, k] == if k < from || c > ch || (c == ch && k >= j) then old(outputs[c, k]) else 0.0
      {
        outputs[ch, j] := 0.0;
        j := j + 1;
      }
    }
  }

  /** Slot `c` of frame `i` of an interleaved block of `len` frames lies inside the block. */
  lemma SlotBeforeEnd(i: nat, c: nat, len: nat, channels: nat)
    requires i < len && c < channels
    ensures i * channels + c < len * channels
  {
    assert (i + 1) * channels <= len * channels by {
      MulMono(i + 1, len, channels);
    }
  }

  lemma MulMono(a: nat, b: nat, k: nat)
    requires a <= b
    ensures a * k <= b * k
  {
  }
}
