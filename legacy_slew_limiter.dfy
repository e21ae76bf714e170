/**
 * The first slew limiter: a fixed step of 1/16 per sample, one state slot
 * per output channel (eight of them), and only output channels with an
 * input buffer of their own are written.
 */
module LegacySlewLimiterNode {
  import opened Node
  import opened SlewLimiterNode
  import opened Wrappers

  /** The largest change from one output sample to the next. */
  const StepLimit: real := 1.0 / 16.0

  /** The magnitude `m` with the sign of `s` (a zero sign counts as positive). */
  function CopySign(m: real, s: real): real
    requires m >= 0.0
  {
    if s < 0.0 then -m else m
  }

  /**
   * One sample as the first limiter computes it, the step's magnitude capped
   * and its sign copied from the difference; this is the general limiter's
   * step at the fixed rate.
   */
  function LegacyStep(last: real, x: real): (o: real)
    ensures o == Step(last, x, StepLimit)
  {
    var delta := x - last;
    last + CopySign(if Abs(delta) < StepLimit then Abs(delta) else StepLimit, delta)
  }

  /** How many samples channel `ch` processes: its input buffer zipped with an output buffer of `len`. */
  function Zipped(buffers: Input, ch: nat, len: nat): nat {
    if ch < |buffers| then Min(len, |buffers[ch]|) else 0
  }

  /** Channel `ch`'s output from slot values `last`: nothing when it has no input buffer. */
  function LegacyOut(last: seq<real>, buffers: Input, ch: nat, len: nat): (out: seq<real>)
    requires Zipped(buffers, ch, len) > 0 ==> ch < |last|
    ensures |out| == Zipped(buffers, ch, len)
  {
    var n := Zipped(buffers, ch, len);
    if n == 0 then [] else Slew(last[ch], buffers[ch][..n], StepLimit)
  }

  /** The slots after output channels `0 .. width`: each written slot holds its channel's last output. */
  function LegacyLast(last: seq<real>, buffers: Input, width: nat, len: nat): (r: seq<real>)
    requires |last| == Slots
    requires forall ch :: 0 <= ch < width && Zipped(buffers, ch, len) > 0 ==> ch < Slots
    ensures |r| == Slots
    ensures forall s :: 0 <= s < Slots && (s >= width || Zipped(buffers, s, len) == 0) ==> r[s] == last[s]
  {
    seq(Slots, s requires 0 <= s < Slots =>
      if s < width then Final(last[s], LegacyOut(last, buffers, s, len)) else last[s])
  }

  /** The first input, which the limiter needs whenever it has an output channel. */
  function FirstInput(inputs: seq<Input>): Input {
    if |inputs| > 0 then inputs[0] else []
  }

  /**
   * The channels `0 .. k` that run before the first output channel from 8 up
   * with samples to process (whose slot does not exist); `k` is `width` when
   * there is no such channel.
   */
  function Reached(buffers: Input, width: nat, len: nat): (k: nat)
    ensures k <= width
    ensures forall ch :: 0 <= ch < k && Zipped(buffers, ch, len) > 0 ==> ch < Slots
    ensures k < width ==> k >= Slots && Zipped(buffers, k, len) > 0
  {
    if width == 0 then 0
    else
      var k := Reached(buffers, width - 1, len);
      if k < width - 1 then k
      else if width - 1 >= Slots && Zipped(buffers, width - 1, len) > 0 then width - 1
      else width
  }

  /**
   * A block the source runs to the end: an input whenever there is an output
   * channel, and no output channel from 8 up that has samples to process.
   */
  predicate Acceptable(inputs: seq<Input>, width: nat, len: nat) {
    && (width > 0 ==> |inputs| > 0)
    && forall ch :: 0 <= ch < width && Zipped(FirstInput(inputs), ch, len) > 0 ==> ch < Slots
  }

  class LegacySlewLimiter {
    /** The last output of each channel. */
    const channelLast: array<real>

    constructor ()
      ensures fresh(channelLast) && channelLast[..] == Silence(Slots)
    {
      channelLast := new real[Slots](_ => 0.0);
      new;
      assert channelLast[..] == Silence(Slots);
    }

    /**
     * Limits each output channel's own input buffer into it from the
     * channel's slot, updating the slot at every sample; channels without an
     * input buffer are left as they were. With an output channel and no
     * input, the `unwrap` of the first input panics before anything changes;
     * an output channel from 8 up with samples panics at its first sample,
     * after the channels before it ran.
     */
    method ProcessInner(inputs: seq<Input>, outputs: array2<real>) returns (r: Result<(), Panic>)
      requires channelLast.Length == Slots
      modifies channelLast, outputs
      ensures r.Ok? <==> Acceptable(inputs, outputs.Length0, outputs.Length1)
      ensures |inputs| == 0 && outputs.Length0 > 0 ==> r == Err(UnwrapNone)
      ensures |inputs| > 0 && r.Err? ==>
        var k := Reached(inputs[0], outputs.Length0, outputs.Length1);
        r == Err(IndexOutOfBounds(k, Slots))
      ensures var k := Reached(FirstInput(inputs), outputs.Length0, outputs.Length1);
        channelLast[..] == LegacyLast(old(channelLast[..]), FirstInput(inputs), k, outputs.Length1)
      ensures var k := Reached(FirstInput(inputs), outputs.Length0, outputs.Length1);
        forall ch, j :: 0 <= ch < outputs.Length0 && 0 <= j < outputs.Length1 ==>
          outputs[ch, j] == if ch < k && j < Zipped(FirstInput(inputs), ch, outputs.Length1)
                            then LegacyOut(old(channelLast[..]), FirstInput(inputs), ch, outputs.Length1)[j]
                            else old(outputs[ch, j])
    {
      if |inputs| == 0 && outputs.Length0 > 0 {
        assert LegacyLast(channelLast[..], [], 0, outputs.Length1) == channelLast[..];
        return Err(UnwrapNone);
      }
      var buffers := FirstInput(inputs);
      var k := Reached(buffers, outputs.Length0, outputs.Length1);
      LimitAll(outputs, buffers, channelLast, k);
      if k < outputs.Length0 {
        return Err(IndexOutOfBounds(k, Slots));
      }
      r := Ok(());
    }
  }

  /** The channel loop of the first limiter over output channels `0 .. width`, from the first input's buffers. */
  method LimitAll(outputs: array2<real>, buffers: Input, channelLast: array<real>, width: nat)
    requires channelLast.Length == Slots && width <= outputs.Length0
    requires forall ch :: 0 <= ch < width && Zipped(buffers, ch, outputs.Length1) > 0 ==> ch < Slots
    modifies channelLast, outputs
    ensures channelLast[..] == LegacyLast(old(channelLast[..]), buffers, width, outputs.Length1)
    ensures forall ch, j :: 0 <= ch < outputs.Length0 && 0 <= j < outputs.Length1 ==>
              outputs[ch, j] == if ch < width && j < Zipped(buffers, ch, outputs.Length1)
                                then LegacyOut(old(channelLast[..]), buffers, ch, outputs.Length1)[j]
                                else old(outputs[ch, j])
  {
    ghost var start := channelLast[..];
    var len := outputs.Length1;
    for ch := 0 to width
      invariant channelLast[..] == LegacyLast(start, buffers, ch, len)
      invariant forall c, j :: 0 <= c < outputs.Length0 && 0 <= j < outputs.Length1 ==>
                  outputs[c, j] == if c < ch && j < Zipped(buffers, c, len)
                                   then LegacyOut(start, buffers, c, len)[j]
                                   else old(outputs[c, j])
    {
      if ch < |buffers| {
        var n := Min(len, |buffers[ch]|);
        if n > 0 {
          assert Zipped(buffers, ch, len) > 0;
          LimitChannel(outputs, channelLast, ch, buffers[ch][..n]);
          assert channelLast[..] == LegacyLast(start, buffers, ch + 1, len);
        }
      }
    }
  }

  /** Limits one input buffer into output channel `ch`, writing the channel's slot at every sample. */
  method LimitChannel(outputs: array2<real>, channelLast: array<real>, ch: nat, input: seq<real>)
    requires ch < outputs.Length0 && ch < channelLast.Length && |input| <= outputs.Length1
    modifies outputs, channelLast
    ensures channelLast[..] == old(channelLast[..])[ch := Final(old(channelLast[ch]), Slew(old(channelLast[ch]), input, StepLimit))]
    ensures forall c, j :: 0 <= c < outputs.Length0 && 0 <= j < outputs.Length1 ==>
              outputs[c, j] == if c == ch && j < |input| then Slew(old(channelLast[ch]), input, StepLimit)[j] else old(outputs[c, j])
  {
    ghost var start := channelLast[ch];
    ghost var out := Slew(start, input, StepLimit);
    for j := 0 to |input|
      invariant channelLast[..] == old(channelLast[..])[ch := Before(start, out, j)]
      invariant forall c, k :: 0 <= c < outputs.Length0 && 0 <= k < outputs.Length1 ==>
                  outputs[c, k] == if c == ch && k < j then out[k] else old(outputs[c, k])
    {
      SlewAt(start, input, StepLimit, j);
      var last := channelLast[ch];
      var o := LegacyStep(last, input[j]);
      outputs[ch, j] := o;
      channelLast[ch] := o;
    }
  }
}
