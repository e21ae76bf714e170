/**
 * The gain node: scales its input by a gain that moves towards the target
 * by one-pole smoothing, `g' = target + c·(g − target)` per sample.
 */
module GainNode {
  import opened Wrappers
  import opened Node

  datatype GainMessage = SetGain(gain: real)

  /** The smoothing coefficient a new gain node starts with. */
  const DefaultCoeff: real := 0.995

  /** `c` to the power `n`. */
  function Pow(c: real, n: nat): real {
    if n == 0 then 1.0 else c * Pow(c, n - 1)
  }

  /** The target after the block's messages: the last `SetGain`, or the old target. */
  function Targeted(target: real, messages: seq<GainMessage>): (r: real)
    ensures |messages| == 0 ==> r == target
    ensures |messages| > 0 ==> r == messages[|messages| - 1].gain
    decreases |messages|
  {
    if |messages| == 0 then target else Targeted(messages[0].gain, messages[1..])
  }

  /** One step of smoothing. */
  function Approach(g: real, target: real, c: real): real {
    target + c * (g - target)
  }

  /** The gain after `n` steps of smoothing from `g`. */
  function GainAfter(g: real, target: real, c: real, n: nat): real {
    if n == 0 then g else Approach(GainAfter(g, target, c, n - 1), target, c)
  }

  /** Stepping first and then `n` more times is `n + 1` steps. */
  lemma {:induction false} GainAfterShift(g: real, target: real, c: real, n: nat)
    ensures GainAfter(Approach(g, target, c), target, c, n) == GainAfter(g, target, c, n + 1)
  {
    if n > 0 {
      GainAfterShift(g, target, c, n - 1);
    }
  }

  lemma MulAssoc(a: real, b: real, d: real)
    ensures a * (b * d) == (a * b) * d
  {
  }

  /** The distance to the target shrinks geometrically: after `n` steps it is `cⁿ` times the start's. */
  lemma {:induction false} GainClosedForm(g: real, target: real, c: real, n: nat)
    ensures GainAfter(g, target, c, n) - target == Pow(c, n) * (g - target)
  {
    if n > 0 {
      GainClosedForm(g, target, c, n - 1);
      var x := GainAfter(g, target, c, n - 1);
      var p := Pow(c, n - 1);
      assert GainAfter(g, target, c, n) - target == c * (x - target);
      assert x - target == p * (g - target);
      MulAssoc(c, p, g - target);
    }
  }

  /** A factor in `[0, 1]` does not move a value away from zero. */
  lemma ScaledCloser(p: real, x: real)
    requires 0.0 <= p <= 1.0
    ensures Abs(p * x) <= Abs(x)
  {
    if x >= 0.0 {
      assert p * x <= 1.0 * x;
    } else {
      assert p * x >= 1.0 * x;
    }
  }

  /** For a coefficient in `[0, 1]` the gain never ends up farther from the target than it started. */
  lemma {:induction false} GainCloser(g: real, target: real, c: real, n: nat)
    requires 0.0 <= c <= 1.0
    ensures Abs(GainAfter(g, target, c, n) - target) <= Abs(g - target)
  {
    if n > 0 {
      GainCloser(g, target, c, n - 1);
      var d := GainAfter(g, target, c, n - 1) - target;
      ScaledCloser(c, d);
      assert GainAfter(g, target, c, n) - target == c * d;
      assert Abs(GainAfter(g, target, c, n) - target) == Abs(c * d) <= Abs(d);
    }
  }

  /** With coefficient 0 the first step lands on the target. */
  lemma GainSnaps(g: real, target: real, n: nat)
    requires n > 0
    ensures GainAfter(g, target, 0.0, n) == target
  {
    var x := GainAfter(g, target, 0.0, n - 1);
    assert GainAfter(g, target, 0.0, n) == target + 0.0 * (x - target);
  }

  /** With coefficient 1 the gain never moves. */
  lemma {:induction false} GainFrozen(g: real, target: real, n: nat)
    ensures GainAfter(g, target, 1.0, n) == g
  {
    if n > 0 {
      GainFrozen(g, target, n - 1);
    }
  }

  /** A channel's output samples and the gain it ends with. */
  datatype Smoothed = Smoothed(out: seq<real>, gain: real)

  /** Smooths from gain `g` across `input`, scaling each sample by the stepped gain. */
  function Smooth(g: real, target: real, c: real, input: seq<real>): (r: Smoothed)
    ensures |r.out| == |input|
    decreases |input|
  {
    if |input| == 0 then Smoothed([], g)
    else
      var next := Approach(g, target, c);
      var rest := Smooth(next, target, c, input[1..]);
      Smoothed([input[0] * next] + rest.out, rest.gain)
  }

  /** Sample `i` is scaled by the gain `i + 1` steps from the start. */
  lemma {:induction false} SmoothAt(g: real, target: real, c: real, input: seq<real>, i: nat)
    requires i < |input|
    ensures Smooth(g, target, c, input).out[i] == input[i] * GainAfter(g, target, c, i + 1)
    decreases i
  {
    var next := Approach(g, target, c);
    var rest := Smooth(next, target, c, input[1..]);
    if i == 0 {
      assert Smooth(g, target, c, input).out[0] == input[0] * next;
    } else {
      assert Smooth(g, target, c, input).out[1..] == rest.out;
      assert Smooth(g, target, c, input).out[i] == rest.out[i - 1];
      SmoothAt(next, target, c, input[1..], i - 1);
      assert input[1..][i - 1] == input[i];
      GainAfterShift(g, target, c, i);
    }
  }

  /** The channel ends one step per sample from where it started. */
  lemma {:induction false} SmoothEnd(g: real, target: real, c: real, input: seq<real>)
    ensures Smooth(g, target, c, input).gain == GainAfter(g, target, c, |input|)
    decreases |input|
  {
    if |input| > 0 {
      var next := Approach(g, target, c);
      SmoothEnd(next, target, c, input[1..]);
      GainAfterShift(g, target, c, |input| - 1);
    }
  }

  lemma SnapsAt(g: real, target: real, input: seq<real>, i: nat)
    requires i < |input|
    ensures Smooth(g, target, 0.0, input).out[i] == input[i] * target
  {
    SmoothAt(g, target, 0.0, input, i);
    GainSnaps(g, target, i + 1);
  }

  /** Without smoothing every sample is scaled by the target, and the gain lands on it. */
  lemma NoSmoothing(g: real, target: real, input: seq<real>)
    ensures forall i :: 0 <= i < |input| ==> Smooth(g, target, 0.0, input).out[i] == input[i] * target
    ensures |input| > 0 ==> Smooth(g, target, 0.0, input).gain == target
  {
    forall i | 0 <= i < |input| {
      SnapsAt(g, target, input, i);
    }
    SmoothEnd(g, target, 0.0, input);
    if |input| > 0 {
      GainSnaps(g, target, |input|);
    }
  }

  lemma FrozenAt(g: real, target: real, input: seq<real>, i: nat)
    requires i < |input|
    ensures Smooth(g, target, 1.0, input).out[i] == input[i] * g
  {
    SmoothAt(g, target, 1.0, input, i);
    GainFrozen(g, target, i + 1);
  }

  /** With coefficient 1 every sample is scaled by the starting gain, which is kept. */
  lemma Frozen(g: real, target: real, input: seq<real>)
    ensures forall i :: 0 <= i < |input| ==> Smooth(g, target, 1.0, input).out[i] == input[i] * g
    ensures Smooth(g, target, 1.0, input).gain == g
  {
    forall i | 0 <= i < |input| {
      FrozenAt(g, target, input, i);
    }
    SmoothEnd(g, target, 1.0, input);
    GainFrozen(g, target, |input|);
  }

  /**
   * For a coefficient in `[0, 1]` the gain never overshoots the target: at
   * every sample and at the end it is no farther from the target than it
   * started.
   */
  lemma SmoothCloser(g: real, target: real, c: real, input: seq<real>)
    requires 0.0 <= c <= 1.0
    ensures forall k :: 1 <= k <= |input| ==> Abs(GainAfter(g, target, c, k) - target) <= Abs(g - target)
    ensures Abs(Smooth(g, target, c, input).gain - target) <= Abs(g - target)
  {
    forall k | 1 <= k <= |input| ensures Abs(GainAfter(g, target, c, k) - target) <= Abs(g - target) {
      GainCloser(g, target, c, k);
    }
    SmoothEnd(g, target, c, input);
    GainCloser(g, target, c, |input|);
  }

  /** The samples output channel `ch` scales: its input buffer zipped with an output buffer of `len`. */
  function Feed(buffers: Input, ch: nat, len: nat): (s: seq<real>)
    requires |buffers| > 0
    ensures |s| == Min(len, |InputFor(buffers, ch)|)
  {
    InputFor(buffers, ch)[..Min(len, |InputFor(buffers, ch)|)]
  }

  /** The block's output channels, and the gain stored for the next block. */
  datatype GainOut = GainOut(outs: seq<seq<real>>, stored: real)

  /**
   * Output channels `0 .. width` as the node computes them: channel 0 starts
   * from the stored gain, and every later channel from the gain channel 0
   * ended with, which is also what is stored.
   */
  function GainBlock(stored: real, target: real, c: real, buffers: Input, width: nat, len: nat): (r: GainOut)
    requires |buffers| > 0
    ensures |r.outs| == width
    ensures forall ch :: 0 <= ch < width ==> |r.outs[ch]| == |Feed(buffers, ch, len)|
    ensures width == 0 ==> r.stored == stored
    ensures width > 0 ==> r.stored == Smooth(stored, target, c, Feed(buffers, 0, len)).gain
    ensures forall ch :: 1 <= ch < width ==> r.outs[ch] == Smooth(r.stored, target, c, Feed(buffers, ch, len)).out
  {
    if width == 0 then GainOut([], stored)
    else
      var before := GainBlock(stored, target, c, buffers, width - 1, len);
      var sm := Smooth(before.stored, target, c, Feed(buffers, width - 1, len));
      GainOut(before.outs + [sm.out], if width == 1 then sm.gain else before.stored)
  }

  /**
   * The channels drift apart: with a coefficient of 1/2, a stored gain of 1
   * and a target of 0, two channels fed the same single sample 1 come out
   * as 1/2 and 1/4, because the second starts from where the first ended.
   */
  lemma GainDrift()
    ensures GainBlock(1.0, 0.0, 0.5, [[1.0], [1.0]], 2, 1).outs == [[0.5], [0.25]]
  {
    var buffers: Input := [[1.0], [1.0]];
    assert Feed(buffers, 0, 1) == [1.0] && Feed(buffers, 1, 1) == [1.0];
    assert Smooth(1.0, 0.0, 0.5, [1.0]) == Smoothed([0.5], 0.5);
    assert Smooth(0.5, 0.0, 0.5, [1.0]) == Smoothed([0.25], 0.25);
  }

  /**
   * Output channels `0 .. width` with every channel starting from the stored
   * gain, so that the channels track together; channel 0's end gain is
   * stored.
   */
  function TrackedGainBlock(stored: real, target: real, c: real, buffers: Input, width: nat, len: nat): (r: GainOut)
    requires |buffers| > 0
    ensures |r.outs| == width
  {
    GainOut(seq(width, ch requires 0 <= ch < width => Smooth(stored, target, c, Feed(buffers, ch, len)).out),
            if width == 0 then stored else Smooth(stored, target, c, Feed(buffers, 0, len)).gain)
  }

  /**
   * Every channel of a tracked block scales sample `j` by the same gain,
   * `j + 1` steps from the stored one, so channels fed alike come out alike.
   */
  lemma TrackedTogether(stored: real, target: real, c: real, buffers: Input, width: nat, len: nat)
    requires |buffers| > 0
    ensures forall ch, j :: 0 <= ch < width && 0 <= j < |Feed(buffers, ch, len)| ==>
              TrackedGainBlock(stored, target, c, buffers, width, len).outs[ch][j] ==
              Feed(buffers, ch, len)[j] * GainAfter(stored, target, c, j + 1)
  {
    forall ch, j | 0 <= ch < width && 0 <= j < |Feed(buffers, ch, len)|
      ensures TrackedGainBlock(stored, target, c, buffers, width, len).outs[ch][j] ==
              Feed(buffers, ch, len)[j] * GainAfter(stored, target, c, j + 1)
    {
      SmoothAt(stored, target, c, Feed(buffers, ch, len), j);
    }
  }

  /** In the tracked block the stored gain never overshoots the target either. */
  lemma TrackedCloser(stored: real, target: real, c: real, buffers: Input, width: nat, len: nat)
    requires |buffers| > 0 && 0.0 <= c <= 1.0
    ensures Abs(TrackedGainBlock(stored, target, c, buffers, width, len).stored - target) <= Abs(stored - target)
  {
    if width > 0 {
      SmoothCloser(stored, target, c, Feed(buffers, 0, len));
    }
  }

  class Gain {
    /** The target gain. */
    var gain: real
    var smoothedGain: real
    var smoothCoeff: real

    /** A gain node at `gain`, already settled there, with the default smoothing. */
    constructor (gain: real)
      ensures this.gain == gain && smoothedGain == gain && smoothCoeff == DefaultCoeff
    {
      this.gain := gain;
      smoothedGain := gain;
      smoothCoeff := DefaultCoeff;
    }

    /** Turns smoothing off, so that the gain jumps to the target at the first sample. */
    method WithoutSmoothing()
      modifies this
      ensures smoothCoeff == 0.0 && gain == old(gain) && smoothedGain == old(smoothedGain)
    {
      smoothCoeff := 0.0;
    }

    /** One input, two outputs, any rate. */
    function Info(): (info: NodeInfo)
      ensures info.numInputs == 1 && info.numOutputs == 2 && info.nativeSampleRate == None
    {
      NodeInfo(1, 2, None)
    }

    /**
     * Takes the last `SetGain` as the target, then scales the first input
     * into the outputs: nothing is written without an input or an output,
     * silence when the input has no buffers.
     */
    method Process(messages: seq<GainMessage>, inputs: seq<Input>, outputs: array2<real>)
      modifies this, outputs
      ensures gain == Targeted(old(gain), messages) && smoothCoeff == old(smoothCoeff)
      ensures |inputs| == 0 || outputs.Length0 == 0 ==>
                smoothedGain == old(smoothedGain) &&
                forall ch, j :: 0 <= ch < outputs.Length0 && 0 <= j < outputs.Length1 ==> outputs[ch, j] == old(outputs[ch, j])
      ensures |inputs| > 0 && outputs.Length0 > 0 && |inputs[0]| == 0 ==>
                smoothedGain == old(smoothedGain) &&
                forall ch, j :: 0 <= ch < outputs.Length0 && 0 <= j < outputs.Length1 ==> outputs[ch, j] == 0.0
      ensures |inputs| > 0 && outputs.Length0 > 0 && |inputs[0]| > 0 ==>
                var r := TrackedGainBlock(old(smoothedGain), gain, smoothCoeff, inputs[0], outputs.Length0, outputs.Length1);
                && smoothedGain == r.stored
                && forall ch, j :: 0 <= ch < outputs.Length0 && 0 <= j < outputs.Length1 ==>
                     outputs[ch, j] == if j < |r.outs[ch]| then r.outs[ch][j] else old(outputs[ch, j])
    {
      ApplyMessages(messages);
      if |inputs| == 0 || outputs.Length0 == 0 {
        return;
      }
      var buffers := inputs[0];
      if |buffers| == 0 {
        SilenceFrom(outputs, 0);
        return;
      }
      smoothedGain := ScaleAll(outputs, buffers, smoothedGain, gain, smoothCoeff);
    }

    /** Applies each `SetGain` in turn to the target. */
    method ApplyMessages(messages: seq<GainMessage>)
      modifies this
      ensures gain == Targeted(old(gain), messages)
      ensures smoothedGain == old(smoothedGain) && smoothCoeff == old(smoothCoeff)
    {
      for k := 0 to |messages|
        invariant Targeted(old(gain), messages) == Targeted(gain, messages[k..])
        invariant smoothedGain == old(smoothedGain) && smoothCoeff == old(smoothCoeff)
      {
        assert messages[k..][1..] == messages[k + 1..];
        gain := messages[k].gain;
      }
    }
  }

  /**
   * The channel loop, with every channel starting from the stored gain (the
   * corrected block); returns the gain to store.
   */
  method ScaleAll(outputs: array2<real>, buffers: Input, stored: real, target: real, c: real) returns (current: real)
    requires |buffers| > 0
    modifies outputs
    ensures current == TrackedGainBlock(stored, target, c, buffers, outputs.Length0, outputs.Length1).stored
    ensures forall ch, j :: 0 <= ch < outputs.Length0 && 0 <= j < outputs.Length1 ==>
              outputs[ch, j] == if j < |TrackedGainBlock(stored, target, c, buffers, outputs.Length0, outputs.Length1).outs[ch]|
                                then TrackedGainBlock(stored, target, c, buffers, outputs.Length0, outputs.Length1).outs[ch][j]
                                else old(outputs[ch, j])
  {
    var len := outputs.Length1;
    current := stored;
    for ch := 0 to outputs.Length0
      invariant current == if ch == 0 then stored else Smooth(stored, target, c, Feed(buffers, 0, len)).gain
      invariant forall c', j :: 0 <= c' < outputs.Length0 && 0 <= j < outputs.Length1 ==>
                  outputs[c', j] == if c' < ch && j < |Feed(buffers, c', len)|
                                    then Smooth(stored, target, c, Feed(buffers, c', len)).out[j]
                                    else old(outputs[c', j])
    {
      var input := InputFor(buffers, ch);
      var n := Min(len, |input|);
      var g := ScaleChannel(outputs, ch, input[..n], stored, target, c);
      if ch == 0 {
        current := g;
      }
    }
  }

  /** Scales one input buffer into output channel `ch` from gain `g`; returns the gain reached. */
  method ScaleChannel(outputs: array2<real>, ch: nat, input: seq<real>, g: real, target: real, c: real) returns (gain: real)
    requires ch < outputs.Length0 && |input| <= outputs.Length1
    modifies outputs
    ensures gain == Smooth(g, target, c, input).gain
    ensures forall c', j :: 0 <= c' < outputs.Length0 && 0 <= j < outputs.Length1 ==>
              outputs[c', j] == if c' == ch && j < |input| then Smooth(g, target, c, input).out[j] else old(outputs[c', j])
  {
    gain := g;
    for j := 0 to |input|
      invariant gain == GainAfter(g, target, c, j)
      invariant forall c', k :: 0 <= c' < outputs.Length0 && 0 <= k < outputs.Length1 ==>
                  outputs[c', k] == if c' == ch && k < j then Smooth(g, target, c, input).out[k] else old(outputs[c', k])
    {
      SmoothAt(g, target, c, input, j);
      gain := target + c * (gain - target);
      outputs[ch, j] := input[j] * gain;
    }
    SmoothEnd(g, target, c, input);
  }
}
