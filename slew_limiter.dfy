/**
 * The slew limiter: each output sample moves from the previous output
 * towards the input by at most `rate`. The previous output of each channel
 * is kept across blocks in eight slots; channels from 7 up share the last
 * slot.
 */
module SlewLimiterNode {
  import opened Wrappers
  import opened Node

  /** Slots for the per-channel previous output. */
  const Slots: nat := 8

  datatype SlewLimiterMessage =
    /** A per-sample rate; its magnitude is stored and any per-second rate is dropped. */
    | SetRate(rate: real)
    /** A per-second rate, converted with the graph's sample rate every block. */
    | SetRatePerSecond(rate: real)

  /** The limiter's settings: the per-sample rate and the per-second rate it may come from. */
  datatype Control = Control(rate: real, perSecond: Option<real>)

  /** The block's output channels, and the slots after them. */
  datatype Slewed = Slewed(outs: seq<seq<real>>, last: seq<real>)

  /** One message's effect on the settings; a per-second rate needs a nonzero sample rate. */
  function Controlled(c: Control, m: SlewLimiterMessage, sampleRate: nat): (r: Control)
    requires m.SetRatePerSecond? ==> sampleRate > 0
    ensures m.SetRate? ==> r == Control(Abs(m.rate), None) && r.rate >= 0.0
    ensures m.SetRatePerSecond? ==> r.perSecond == Some(m.rate) && r.rate * sampleRate as real == m.rate
  {
    match m
    case SetRate(rate) => Control(Abs(rate), None)
    case SetRatePerSecond(rate) => Control(rate / sampleRate as real, Some(rate))
  }

  predicate PerSecondIn(messages: seq<SlewLimiterMessage>) {
    exists k :: 0 <= k < |messages| && messages[k].SetRatePerSecond?
  }

  /**
   * The settings after the block's messages, in order, followed by the
   * per-block conversion of a per-second rate.
   */
  function ControlledAll(c: Control, messages: seq<SlewLimiterMessage>, sampleRate: nat): (r: Control)
    requires sampleRate > 0 || (c.perSecond.None? && !PerSecondIn(messages))
    requires c.perSecond.None? ==> c.rate >= 0.0
    ensures r.perSecond.Some? ==> r.rate * sampleRate as real == r.perSecond.value
    ensures r.perSecond.None? ==> r.rate >= 0.0
    decreases |messages|
  {
    if |messages| == 0 then
      if c.perSecond.Some? then c.(rate := c.perSecond.value / sampleRate as real) else c
    else
      assert !PerSecondIn(messages) ==> !messages[0].SetRatePerSecond?;
      assert !PerSecondIn(messages) ==> !PerSecondIn(messages[1..]) by {
        if PerSecondIn(messages[1..]) {
          var k :| 0 <= k < |messages[1..]| && messages[1..][k].SetRatePerSecond?;
          assert messages[k + 1].SetRatePerSecond?;
        }
      }
      ControlledAll(Controlled(c, messages[0], sampleRate), messages[1..], sampleRate)
  }

  /** One sample: the previous output moved towards `x` by at most `rate`. */
  function Step(prev: real, x: real, rate: real): (r: real)
    requires rate >= 0.0
    ensures Abs(r - prev) <= rate
    ensures Abs(x - prev) <= rate ==> r == x
    ensures prev <= x ==> prev <= r <= x
    ensures x <= prev ==> x <= r <= prev
    ensures x - prev > rate ==> r == prev + rate
    ensures prev - x > rate ==> r == prev - rate
  {
    prev + Clamp(x - prev, -rate, rate)
  }

  /** The output before sample `i`: the slot's value for the first sample. */
  function Before(start: real, out: seq<real>, i: nat): real
    requires i <= |out|
  {
    if i == 0 then start else out[i - 1]
  }

  /** The value the slot holds after a channel: its last output, or the start if it had none. */
  function Final(start: real, out: seq<real>): real {
    if |out| == 0 then start else out[|out| - 1]
  }

  /** A channel's output from slot value `start`, one `Step` per input sample. */
  function Slew(start: real, input: seq<real>, rate: real): (out: seq<real>)
    requires rate >= 0.0
    ensures |out| == |input|
    decreases |input|
  {
    if |input| == 0 then [] else [Step(start, input[0], rate)] + Slew(Step(start, input[0], rate), input[1..], rate)
  }

  /** Each output sample is one step from the output before it (the slot value for the first). */
  lemma {:induction false} SlewAt(start: real, input: seq<real>, rate: real, i: nat)
    requires rate >= 0.0 && i < |input|
    ensures Slew(start, input, rate)[i] == Step(Before(start, Slew(start, input, rate), i), input[i], rate)
    decreases i
  {
    if i > 0 {
      var first := Step(start, input[0], rate);
      SlewAt(first, input[1..], rate, i - 1);
    }
  }

  /**
   * The limiter's promise: no output sample is more than `rate` from the one
   * before it, each moves towards its input sample without passing it, and
   * a sample within `rate` of the one before passes unchanged.
   */
  lemma SlewLimited(start: real, input: seq<real>, rate: real)
    requires rate >= 0.0
    ensures forall i :: 0 <= i < |input| ==>
              Abs(Slew(start, input, rate)[i] - Before(start, Slew(start, input, rate), i)) <= rate
    ensures forall i :: 0 <= i < |input| && Abs(input[i] - Before(start, Slew(start, input, rate), i)) <= rate ==>
              Slew(start, input, rate)[i] == input[i]
    ensures forall i :: 0 <= i < |input| && Before(start, Slew(start, input, rate), i) <= input[i] ==>
              Before(start, Slew(start, input, rate), i) <= Slew(start, input, rate)[i] <= input[i]
    ensures forall i :: 0 <= i < |input| && input[i] <= Before(start, Slew(start, input, rate), i) ==>
              input[i] <= Slew(start, input, rate)[i] <= Before(start, Slew(start, input, rate), i)
  {
    forall i | 0 <= i < |input| {
      SlewAt(start, input, rate, i);
    }
  }

  /**
   * Output channels `0 .. width` in order, each `len` samples long at most
   * (as long as its input buffer), starting from and updating slot
   * `min(ch, 7)`.
   */
  function SlewBlock(last: seq<real>, buffers: Input, width: nat, len: nat, rate: real): (r: Slewed)
    requires |last| == Slots && |buffers| > 0 && rate >= 0.0
    ensures |r.outs| == width && |r.last| == Slots
    ensures forall ch :: 0 <= ch < width ==> |r.outs[ch]| == Min(len, |InputFor(buffers, ch)|)
    ensures forall s :: width <= s < Slots ==> r.last[s] == last[s]
    ensures forall ch :: 0 <= ch < width && ch < Slots - 1 ==> r.last[ch] == Final(last[ch], r.outs[ch])
  {
    if width == 0 then Slewed([], last)
    else
      var before := SlewBlock(last, buffers, width - 1, len, rate);
      var ch := width - 1;
      var slot := Min(ch, Slots - 1);
      var input := InputFor(buffers, ch);
      var out := Slew(before.last[slot], input[..Min(len, |input|)], rate);
      Slewed(before.outs + [out], before.last[slot := Final(before.last[slot], out)])
  }

  /**
   * Channel `ch` of a block is the slew of its zipped input from the value
   * its slot holds once the channels before it have run.
   */
  lemma {:induction false} SlewBlockChannel(last: seq<real>, buffers: Input, width: nat, len: nat, rate: real, ch: nat)
    requires |last| == Slots && |buffers| > 0 && rate >= 0.0 && ch < width
    ensures var input := InputFor(buffers, ch);
      SlewBlock(last, buffers, width, len, rate).outs[ch]
        == Slew(SlewBlock(last, buffers, ch, len, rate).last[Min(ch, Slots - 1)], input[..Min(len, |input|)], rate)
    decreases width
  {
    if ch < width - 1 {
      SlewBlockChannel(last, buffers, width - 1, len, rate, ch);
    }
  }

  /** A channel below 7 has a slot of its own: it starts from that slot's stored value. */
  lemma SlewBlockOwnSlot(last: seq<real>, buffers: Input, width: nat, len: nat, rate: real, ch: nat)
    requires |last| == Slots && |buffers| > 0 && rate >= 0.0 && ch < width && ch < Slots - 1
    ensures var input := InputFor(buffers, ch);
      SlewBlock(last, buffers, width, len, rate).outs[ch] == Slew(last[ch], input[..Min(len, |input|)], rate)
  {
    SlewBlockChannel(last, buffers, width, len, rate, ch);
  }

  /**
   * Channels from 7 up share slot 7: channel 7 starts from its stored value,
   * and each later channel from the last output of the channel before it.
   */
  lemma SlewBlockSharedSlot(last: seq<real>, buffers: Input, width: nat, len: nat, rate: real, ch: nat)
    requires |last| == Slots && |buffers| > 0 && rate >= 0.0 && Slots - 1 <= ch < width
    ensures var input := InputFor(buffers, ch);
      var outs := SlewBlock(last, buffers, width, len, rate).outs;
      && (ch == Slots - 1 ==> outs[ch] == Slew(last[ch], input[..Min(len, |input|)], rate))
      && (ch > Slots - 1 && |outs[ch - 1]| > 0 ==>
            outs[ch] == Slew(outs[ch - 1][|outs[ch - 1]| - 1], input[..Min(len, |input|)], rate))
  {
    SlewBlockChannel(last, buffers, width, len, rate, ch);
    if ch > Slots - 1 {
      SlewBlockChannel(last, buffers, width, len, rate, ch - 1);
      SlewBlockChannel(last, buffers, ch, len, rate, ch - 1);
    }
  }

  /** The change from sample `i - 1` to sample `i`. */
  function Rise(out: seq<real>, i: nat): real
    requires 0 < i < |out|
  {
    out[i] - out[i - 1]
  }

  /** Consecutive samples of a slewed channel `out`, the first against its start, differ by at most `rate`. */
  lemma SlewSteps(out: seq<real>, start: real, input: seq<real>, rate: real)
    requires rate >= 0.0 && out == Slew(start, input, rate)
    ensures forall i :: 0 < i < |out| ==> Abs(Rise(out, i)) <= rate
    ensures |out| > 0 ==> Abs(out[0] - start) <= rate
  {
    forall i | 0 <= i < |out|
      ensures Abs(out[i] - Before(start, out, i)) <= rate
    {
      SlewAt(start, input, rate, i);
    }
  }

  /**
   * The limiter's promise for any channel of a block: no sample is more than
   * `rate` from the one before it, and a channel with a slot of its own
   * starts within `rate` of the slot's stored value.
   */
  lemma SlewBlockChannelLimited(last: seq<real>, buffers: Input, width: nat, len: nat, rate: real, ch: nat)
    requires |last| == Slots && |buffers| > 0 && rate >= 0.0 && ch < width
    ensures var out := SlewBlock(last, buffers, width, len, rate).outs[ch];
      forall i :: 0 < i < |out| ==> Abs(Rise(out, i)) <= rate
    ensures var outs := SlewBlock(last, buffers, width, len, rate).outs;
      ch < Slots - 1 && |outs[ch]| > 0 ==> Abs(outs[ch][0] - last[ch]) <= rate
  {
    var input := InputFor(buffers, ch);
    var start := SlewBlock(last, buffers, ch, len, rate).last[Min(ch, Slots - 1)];
    if ch < Slots - 1 {
      assert start == last[ch];
    }
    SlewBlockChannel(last, buffers, width, len, rate, ch);
    SlewSteps(SlewBlock(last, buffers, width, len, rate).outs[ch], start, input[..Min(len, |input|)], rate);
  }

  class SlewLimiter {
    var rate: real
    /** The previous output of each channel slot. */
    const last: array<real>
    var perSecond: Option<real>

    /** The slots, and a rate that is not negative unless it comes from a per-second rate. */
    predicate Valid()
      reads this
    {
      last.Length == Slots && (perSecond.None? ==> rate >= 0.0)
    }

    function Settings(): Control
      reads this
    {
      Control(rate, perSecond)
    }

    /** A limiter with per-sample rate `|rate|` and every slot at 0. */
    constructor (rate: real)
      ensures Valid() && fresh(last)
      ensures this.rate == Abs(rate) && perSecond == None && last[..] == Silence(Slots)
    {
      this.rate := Abs(rate);
      last := new real[Slots](_ => 0.0);
      perSecond := None;
      new;
      assert last[..] == Silence(Slots);
    }

    /** A limiter whose per-sample rate is derived from `rate` per second at the first block. */
    constructor FromRatePerSecond(rate: real)
      ensures Valid() && fresh(last)
      ensures this.rate == 0.0 && perSecond == Some(rate) && last[..] == Silence(Slots)
    {
      this.rate := 0.0;
      last := new real[Slots](_ => 0.0);
      perSecond := Some(rate);
      new;
      assert last[..] == Silence(Slots);
    }

    /** One input, two outputs, any rate. */
    function Info(): (info: NodeInfo)
      ensures info.numInputs == 1 && info.numOutputs == 2 && info.nativeSampleRate == None
    {
      NodeInfo(1, 2, None)
    }

    /**
     * Applies the messages and the per-second conversion, then limits the
     * first input into the outputs: nothing is written without an input or
     * an output, silence when the input has no buffers. The clamp needs a
     * rate that is not negative.
     */
    method Process(sampleRate: nat, messages: seq<SlewLimiterMessage>, inputs: seq<Input>, outputs: array2<real>)
      requires Valid()
      requires sampleRate > 0 || (perSecond.None? && !PerSecondIn(messages))
      requires |inputs| > 0 && outputs.Length0 > 0 && |inputs[0]| > 0 ==>
                 ControlledAll(Settings(), messages, sampleRate).rate >= 0.0
      modifies this, last, outputs
      ensures Valid() && Settings() == ControlledAll(old(Settings()), messages, sampleRate)
      ensures |inputs| == 0 || outputs.Length0 == 0 ==>
                last[..] == old(last[..]) &&
                forall ch, j :: 0 <= ch < outputs.Length0 && 0 <= j < outputs.Length1 ==> outputs[ch, j] == old(outputs[ch, j])
      ensures |inputs| > 0 && outputs.Length0 > 0 && |inputs[0]| == 0 ==>
                last[..] == old(last[..]) &&
                forall ch, j :: 0 <= ch < outputs.Length0 && 0 <= j < outputs.Length1 ==> outputs[ch, j] == 0.0
      ensures |inputs| > 0 && outputs.Length0 > 0 && |inputs[0]| > 0 ==>
                var r := SlewBlock(old(last[..]), inputs[0], outputs.Length0, outputs.Length1, rate);
                && last[..] == r.last
                && forall ch, j :: 0 <= ch < outputs.Length0 && 0 <= j < outputs.Length1 ==>
                     outputs[ch, j] == if j < |r.outs[ch]| then r.outs[ch][j] else old(outputs[ch, j])
    {
      ApplyMessages(sampleRate, messages);
      if |inputs| == 0 || outputs.Length0 == 0 {
        return;
      }
      var buffers := inputs[0];
      if |buffers| == 0 {
        SilenceFrom(outputs, 0);
        return;
      }
      SlewAll(outputs, buffers, last, rate);
    }

    /** Applies each message in turn, then converts a per-second rate. */
    method ApplyMessages(sampleRate: nat, messages: seq<SlewLimiterMessage>)
      requires Valid()
      requires sampleRate > 0 || (perSecond.None? && !PerSecondIn(messages))
      modifies this
      ensures Valid() && Settings() == ControlledAll(old(Settings()), messages, sampleRate)
    {
      for k := 0 to |messages|
        invariant perSecond.None? ==> rate >= 0.0
        invariant sampleRate > 0 || (perSecond.None? && !PerSecondIn(messages[k..]))
        invariant ControlledAll(old(Settings()), messages, sampleRate) == ControlledAll(Settings(), messages[k..], sampleRate)
      {
        assert messages[k..][0] == messages[k] && messages[k..][1..] == messages[k + 1..];
        match messages[k]
        case SetRate(r) =>
          rate := Abs(r);
          perSecond := None;
        case SetRatePerSecond(r) =>
          perSecond := Some(r);
          rate := r / sampleRate as real;
      }
      if perSecond.Some? {
        rate := perSecond.value / sampleRate as real;
      }
    }
  }

  /**
   * Limits output channels `0 .. outputs.Length0` in order from `buffers`,
   * reading and updating the slots in `last`.
   */
  method SlewAll(outputs: array2<real>, buffers: Input, last: array<real>, rate: real)
    requires last.Length == Slots && |buffers| > 0 && rate >= 0.0
    modifies outputs, last
    ensures last[..] == SlewBlock(old(last[..]), buffers, outputs.Length0, outputs.Length1, rate).last
    ensures forall c, j :: 0 <= c < outputs.Length0 && 0 <= j < outputs.Length1 ==>
              outputs[c, j] == if j < |SlewBlock(old(last[..]), buffers, outputs.Length0, outputs.Length1, rate).outs[c]|
                               then SlewBlock(old(last[..]), buffers, outputs.Length0, outputs.Length1, rate).outs[c][j]
                               else old(outputs[c, j])
  {
    ghost var start := last[..];
    var len := outputs.Length1;
    ghost var r := SlewBlock(start, buffers, 0, len, rate);
    for ch := 0 to outputs.Length0
      invariant r == SlewBlock(start, buffers, ch, len, rate)
      invariant last[..] == r.last
      invariant forall c, j :: 0 <= c < outputs.Length0 && 0 <= j < outputs.Length1 ==>
                  outputs[c, j] == if c < ch && j < |r.outs[c]| then r.outs[c][j] else old(outputs[c, j])
    {
      var slot := Min(ch, Slots - 1);
      var input := InputFor(buffers, ch);
      var n := Min(len, |input|);
      ghost var out := Slew(r.last[slot], input[..n], rate);
      ghost var next := SlewBlock(start, buffers, ch + 1, len, rate);
      assert next.outs == r.outs + [out] && next.outs[ch] == out;
      var level := SlewChannel(outputs, ch, input[..n], last[slot], rate);
      last[slot] := level;
      r := next;
    }
  }

  /** Limits one input buffer into output channel `ch`, from slot value `start`; returns the value the slot takes. */
  method SlewChannel(outputs: array2<real>, ch: nat, input: seq<real>, start: real, rate: real) returns (level: real)
    requires ch < outputs.Length0 && |input| <= outputs.Length1 && rate >= 0.0
    modifies outputs
    ensures level == Final(start, Slew(start, input, rate))
    ensures forall c, j :: 0 <= c < outputs.Length0 && 0 <= j < outputs.Length1 ==>
              outputs[c, j] == if c == ch && j < |input| then Slew(start, input, rate)[j] else old(outputs[c, j])
  {
    ghost var out := Slew(start, input, rate);
    level := start;
    for j := 0 to |input|
      invariant level == Before(start, out, j)
      invariant forall c, k :: 0 <= c < outputs.Length0 && 0 <= k < outputs.Length1 ==>
                  outputs[c, k] == if c == ch && k < j then out[k] else old(outputs[c, k])
    {
      SlewAt(start, input, rate, j);
      level := Step(level, input[j], rate);
      outputs[ch, j] := level;
    }
  }
}
