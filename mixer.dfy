/**
 * The mixer node: every incoming edge arrives as a separate input, and the
 * mixer sums them with equal weight into its `channels` output buffers. An
 * input with fewer channels is spread over the outputs (a mono input feeds
 * every output), and extra input channels are ignored.
 */
module MixerNode {
  import opened Wrappers
  import opened Node

  /** `usize::MAX` on a 64-bit target: the mixer takes any number of inputs. */
  const UsizeMax: nat := 0xFFFF_FFFF_FFFF_FFFF

  /**
   * What input `input` adds to sample `j` of output channel `ch`: the sample
   * of its mapped channel, or nothing past the end of that buffer.
   */
  function Tap(input: Input, ch: nat, j: nat): (t: real)
    requires |input| > 0
    ensures |input| == 1 ==> t == (if j < |input[0]| then input[0][j] else 0.0)
    ensures ch < |input| ==> t == (if j < |input[ch]| then input[ch][j] else 0.0)
    ensures ch >= |input| ==> t == (if j < |input[|input| - 1]| then input[|input| - 1][j] else 0.0)
  {
    var buffer := input[SourceChannel(ch, |input|)];
    if j < |buffer| then buffer[j] else 0.0
  }

  predicate Fed(inputs: seq<Input>) {
    forall k :: 0 <= k < |inputs| ==> |inputs[k]| > 0
  }

  /** Sample `j` of output channel `ch`: the sum of every input's tap, in input order. */
  function Mix(inputs: seq<Input>, ch: nat, j: nat): real
    requires Fed(inputs)
  {
    if |inputs| == 0 then 0.0 else Mix(inputs[..|inputs| - 1], ch, j) + Tap(inputs[|inputs| - 1], ch, j)
  }

  /** Mixing two groups of inputs is the sum of mixing each group. */
  lemma {:induction false} MixAppend(a: seq<Input>, b: seq<Input>, ch: nat, j: nat)
    requires Fed(a) && Fed(b)
    ensures Fed(a + b)
    ensures Mix(a + b, ch, j) == Mix(a, ch, j) + Mix(b, ch, j)
    decreases |b|
  {
    assert Fed(a + b) by {
      forall k | 0 <= k < |a + b| ensures |(a + b)[k]| > 0 {
        if k < |a| { assert (a + b)[k] == a[k]; } else { assert (a + b)[k] == b[k - |a|]; }
      }
    }
    if |b| > 0 {
      var b' := b[..|b| - 1];
      assert (a + b)[..|a + b| - 1] == a + b';
      MixAppend(a, b', ch, j);
    } else {
      assert a + b == a;
    }
  }

  /** Taking out the input at position `i` takes out exactly its tap. */
  lemma MixRemove(inputs: seq<Input>, i: nat, ch: nat, j: nat)
    requires Fed(inputs) && i < |inputs|
    ensures Fed(inputs[..i] + inputs[i + 1..])
    ensures Mix(inputs, ch, j) == Mix(inputs[..i] + inputs[i + 1..], ch, j) + Tap(inputs[i], ch, j)
  {
    assert inputs == inputs[..i] + ([inputs[i]] + inputs[i + 1..]);
    assert Fed(inputs[..i]) && Fed(inputs[i + 1..]) && Fed([inputs[i]]);
    MixAppend([inputs[i]], inputs[i + 1..], ch, j);
    MixAppend(inputs[..i], [inputs[i]] + inputs[i + 1..], ch, j);
    MixAppend(inputs[..i], inputs[i + 1..], ch, j);
    assert Mix([inputs[i]], ch, j) == Tap(inputs[i], ch, j) by {
      assert [inputs[i]][..0] == [];
    }
  }

  /** Inputs drawn from the same multiset are fed alike. */
  lemma FedReordered(inputs: seq<Input>, reordered: seq<Input>)
    requires Fed(inputs) && multiset(reordered) == multiset(inputs)
    ensures Fed(reordered) && |reordered| == |inputs|
  {
    forall k | 0 <= k < |reordered| ensures |reordered[k]| > 0 {
      assert reordered[k] in multiset(reordered);
      assert reordered[k] in inputs;
    }
    assert |multiset(reordered)| == |multiset(inputs)|;
  }

  /**
   * The last of the reordered inputs sits somewhere among the inputs, and
   * without it the two are still reorderings of each other.
   */
  lemma Unpick(inputs: seq<Input>, reordered: seq<Input>) returns (i: nat)
    requires |reordered| > 0 && multiset(reordered) == multiset(inputs)
    ensures i < |inputs| && inputs[i] == reordered[|reordered| - 1]
    ensures multiset(reordered[..|reordered| - 1]) == multiset(inputs[..i] + inputs[i + 1..])
  {
    var n := |reordered| - 1;
    var x := reordered[n];
    assert x in multiset(reordered);
    assert x in inputs;
    i :| 0 <= i < |inputs| && inputs[i] == x;
    var a, b := multiset(reordered[..n]), multiset(inputs[..i] + inputs[i + 1..]);
    assert reordered == reordered[..n] + [x];
    assert inputs == inputs[..i] + [x] + inputs[i + 1..];
    assert b == multiset(inputs[..i]) + multiset(inputs[i + 1..]);
    assert a + multiset{x} == b + multiset{x};
    assert a == (a + multiset{x}) - multiset{x};
    assert b == (b + multiset{x}) - multiset{x};
  }

  /** The order of the edges into the mixer does not change what it outputs. */
  lemma {:induction false} MixOrderIrrelevant(inputs: seq<Input>, reordered: seq<Input>, ch: nat, j: nat)
    requires Fed(inputs) && multiset(reordered) == multiset(inputs)
    ensures Fed(reordered)
    ensures Mix(reordered, ch, j) == Mix(inputs, ch, j)
    decreases |inputs|
  {
    FedReordered(inputs, reordered);
    if |inputs| > 0 {
      var i := Unpick(inputs, reordered);
      MixRemove(inputs, i, ch, j);
      MixOrderIrrelevant(inputs[..i] + inputs[i + 1..], reordered[..|reordered| - 1], ch, j);
    }
  }

  /** A mixer with `channels` outputs. */
  class Mixer {
    const channels: nat

    constructor (channels: nat)
      ensures this.channels == channels
    {
      this.channels := channels;
    }

    constructor Stereo()
      ensures channels == 2
    {
      channels := 2;
    }

    constructor Mono()
      ensures channels == 1
    {
      channels := 1;
    }

    /** Any number of inputs, `channels` outputs, no native rate. */
    function Info(): (info: NodeInfo)
      ensures info.numInputs == UsizeMax && info.numOutputs == channels && info.nativeSampleRate == None
    {
      NodeInfo(UsizeMax, channels, None)
    }

    /**
     * Zeroes every output buffer, then adds each input in turn into it; an
     * input with no buffers cannot be mapped (the source indexes past it).
     */
    method Process(inputs: seq<Input>, outputs: array2<real>)
      requires outputs.Length0 > 0 ==> Fed(inputs)
      modifies outputs
      ensures forall ch, j :: 0 <= ch < outputs.Length0 && 0 <= j < outputs.Length1 ==>
                Fed(inputs) && outputs[ch, j] == Mix(inputs, ch, j)
    {
      SilenceFrom(outputs, 0);
      if outputs.Length0 == 0 {
        return;
      }
      assert inputs[..0] == [];
      for k := 0 to |inputs|
        invariant Fed(inputs[..k])
        invariant forall ch, j :: 0 <= ch < outputs.Length0 && 0 <= j < outputs.Length1 ==>
                    outputs[ch, j] == Mix(inputs[..k], ch, j)
      {
        assert inputs[..k + 1][..k] == inputs[..k];
        AddInput(inputs, k, outputs);
      }
      assert inputs[..|inputs|] == inputs;
    }
  }

  /** Adds input `k` into every output buffer on top of the inputs before it. */
  method AddInput(inputs: seq<Input>, k: nat, outputs: array2<real>)
    requires k < |inputs| && Fed(inputs[..k + 1]) && Fed(inputs[..k])
    requires forall ch, j :: 0 <= ch < outputs.Length0 && 0 <= j < outputs.Length1 ==>
               outputs[ch, j] == Mix(inputs[..k], ch, j)
    modifies outputs
    ensures forall ch, j :: 0 <= ch < outputs.Length0 && 0 <= j < outputs.Length1 ==>
              outputs[ch, j] == Mix(inputs[..k + 1], ch, j)
  {
    var input := inputs[k];
    assert input == inputs[..k + 1][k];
    assert inputs[..k + 1][..k] == inputs[..k];
    for outCh := 0 to outputs.Length0
      invariant forall ch, j :: 0 <= ch < outputs.Length0 && 0 <= j < outputs.Length1 ==>
                  outputs[ch, j] == Mix(inputs[..k], ch, j) + (if ch < outCh then Tap(input, ch, j) else 0.0)
    {
      var buffer := input[SourceChannel(outCh, |input|)];
      var n := Min(outputs.Length1, |buffer|);
      for j := 0 to n
        invariant forall ch, i :: 0 <= ch < outputs.Length0 && 0 <= i < outputs.Length1 ==>
                    outputs[ch, i] == Mix(inputs[..k], ch, i) + (if ch < outCh || (ch == outCh && i < j) then Tap(input, ch, i) else 0.0)
      {
        outputs[outCh, j] := outputs[outCh, j] + buffer[j];
      }
    }
  }
}
