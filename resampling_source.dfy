/**
 * The main-graph end of a sub-graph bridge: pulls interleaved frames from the
 * ring at the sub-graph's rate and produces output at the graph's rate by
 * linear interpolation between the two most recent frames.
 */
module Resampler {
  import opened Wrappers
  import opened Node
  import opened Ring

  /** At most this many channels are interpolated. */
  const MaxChannels: nat := 8
  /** Length of the fixed per-channel sample arrays. */
  const FrameSlots: nat := 16

  datatype ResamplingSourceMessage = SetInputRate(rate: nat)

  /** The interpolator as values: read position, previous and current frame, and the ring's contents. */
  datatype Interp = Interp(position: real, prev: seq<real>, curr: seq<real>, queue: seq<real>)

  /** The outcome of a step that may run out of input. */
  datatype Step = Step(ok: bool, state: Interp)

  /** A block of frames (one sample per output buffer each) and the state after it. */
  datatype Rendered = Rendered(frames: seq<seq<real>>, state: Interp)

  predicate Shaped(s: Interp, c: nat) {
    |s.prev| == FrameSlots && |s.curr| == FrameSlots && c <= MaxChannels && s.position >= 0.0
  }

  /** Pops up to `c` samples into the current frame; fails when the ring holds less than a frame. */
  function NextFrame(s: Interp, c: nat): (r: Step)
    requires Shaped(s, c)
    ensures Shaped(r.state, c)
    ensures r.ok <==> |s.queue| >= c
    ensures r.state.position == s.position && r.state.prev == s.prev
    ensures r.ok ==> r.state.curr[..c] == s.queue[..c] && r.state.queue == s.queue[c..]
    ensures !r.ok ==> r.state.curr[..|s.queue|] == s.queue && r.state.queue == []
    ensures r.state.curr[c..] == s.curr[c..]
  {
    var k := Min(c, |s.queue|);
    Step(|s.queue| >= c, s.(curr := s.queue[..k] + s.curr[k..], queue := s.queue[k..]))
  }

  /** The current frame becomes the previous one, for the first `c` channels only. */
  function ShiftFrame(s: Interp, c: nat): (r: Interp)
    requires Shaped(s, c)
    ensures Shaped(r, c)
    ensures r.prev[..c] == s.curr[..c] && r.prev[c..] == s.prev[c..]
    ensures r.position == s.position && r.curr == s.curr && r.queue == s.queue
  {
    s.(prev := s.curr[..c] + s.prev[c..])
  }

  /** Priming: read a frame, shift it to `prev`, read the next; `ok` means both reads succeeded. */
  function PrimeFrames(s: Interp, c: nat): (r: Step)
    requires Shaped(s, c)
    ensures Shaped(r.state, c)
    ensures r.ok <==> |s.queue| >= 2 * c
  {
    var first := NextFrame(s, c);
    if !first.ok then first else NextFrame(ShiftFrame(first.state, c), c)
  }

  /** Priming happens only while not yet primed, and a primed source stays primed. */
  function PrimeIfNeeded(s: Interp, primed: bool, c: nat): (r: Step)
    requires Shaped(s, c)
    ensures Shaped(r.state, c)
    ensures primed ==> r == Step(true, s)
    ensures r.ok <==> primed || |s.queue| >= 2 * c
  {
    if primed then Step(true, s) else PrimeFrames(s, c)
  }

  /**
   * Before each output sample: while the read position has passed the current
   * frame, drop one from it and move to the next frame. Succeeds with the
   * position in [0, 1), or fails on the first frame the ring cannot supply.
   */
  function CatchUp(s: Interp, c: nat): (r: Step)
    requires Shaped(s, c)
    ensures Shaped(r.state, c)
    ensures r.ok ==> 0.0 <= r.state.position < 1.0
    ensures |r.state.queue| <= |s.queue|
    ensures !r.ok ==> |s.queue| >= |r.state.queue| && |r.state.queue| < c
    decreases s.position.Floor
  {
    if s.position < 1.0 then Step(true, s)
    else
      var read := NextFrame(ShiftFrame(s.(position := s.position - 1.0), c), c);
      if !read.ok then read else CatchUp(read.state, c)
  }

  /** Scaling a span by a weight in [0, 1] stays between zero and the span. */
  lemma ScaleWithin(t: real, d: real)
    requires 0.0 <= t <= 1.0
    ensures d >= 0.0 ==> 0.0 <= t * d <= d
    ensures d <= 0.0 ==> d <= t * d <= 0.0
  {
    assert d - t * d == (1.0 - t) * d;
  }

  /** Linear interpolation from `p` (at `t` = 0) towards `q` (at `t` = 1). */
  function Lerp(p: real, q: real, t: real): (v: real)
    ensures t == 0.0 ==> v == p
    ensures t == 1.0 ==> v == q
  {
    p + t * (q - p)
  }

  /** For a weight in [0, 1] the interpolated sample lies between the two samples. */
  lemma LerpBetween(p: real, q: real, t: real)
    requires 0.0 <= t <= 1.0
    ensures p <= q ==> p <= Lerp(p, q, t) <= q
    ensures q <= p ==> q <= Lerp(p, q, t) <= p
  {
    var d := q - p;
    ScaleWithin(t, d);
    assert Lerp(p, q, t) == p + t * d;
  }

  /** One output frame: buffer `ch` interpolates channel `ch % c` at weight `t`. */
  function InterpolatedFrame(s: Interp, c: nat, width: nat): (f: seq<real>)
    requires Shaped(s, c) && (width > 0 ==> c > 0)
    ensures |f| == width
    ensures forall ch :: 0 <= ch < width ==> f[ch] == Lerp(s.prev[ch % c], s.curr[ch % c], s.position)
  {
    if width == 0 then []
    else InterpolatedFrame(s, c, width - 1) + [Lerp(s.prev[(width - 1) % c], s.curr[(width - 1) % c], s.position)]
  }

  /** What one output sample does: the frame it produces (silence on underrun) and the state after it. */
  datatype Tick = Tick(ok: bool, frame: seq<real>, next: Interp)

  /** Catch up, interpolate, advance the position by `ratio`; on underrun, stop where the catch-up stopped. */
  function Sample(s: Interp, c: nat, ratio: real, width: nat): (t: Tick)
    requires Shaped(s, c) && ratio >= 0.0 && (width > 0 ==> c > 0)
    ensures Shaped(t.next, c) && |t.frame| == width
  {
    var u := CatchUp(s, c);
    if !u.ok then Tick(false, Silence(width), u.state)
    else Tick(true, InterpolatedFrame(u.state, c, width), u.state.(position := u.state.position + ratio))
  }

  /** `count` silent frames of `width` samples. */
  function SilentBlock(count: nat, width: nat): (r: seq<seq<real>>)
    ensures |r| == count && forall j :: 0 <= j < count ==> r[j] == Silence(width)
  {
    if count == 0 then [] else SilentBlock(count - 1, width) + [Silence(width)]
  }

  /**
   * `count` output frames of `width` samples, one `Sample` each; after an
   * underrun the rest of the block is silent.
   */
  function Render(s: Interp, c: nat, ratio: real, width: nat, count: nat): (r: Rendered)
    requires Shaped(s, c) && ratio >= 0.0 && (width > 0 && count > 0 ==> c > 0)
    ensures |r.frames| == count
    ensures forall j :: 0 <= j < count ==> |r.frames[j]| == width
    ensures Shaped(r.state, c)
    decreases count
  {
    if count == 0 then Rendered([], s)
    else
      var t := Sample(s, c, ratio, width);
      if !t.ok then Rendered(SilentBlock(count, width), t.next)
      else
        var rest := Render(t.next, c, ratio, width, count - 1);
        Rendered([t.frame] + rest.frames, rest.state)
  }

  /** The input rate after the block's messages: the last `SetInputRate` wins. */
  function RateAfter(rate: nat, messages: seq<ResamplingSourceMessage>): nat
    decreases |messages|
  {
    if |messages| == 0 then rate else RateAfter(messages[0].rate, messages[1..])
  }

  /** The interleaved sample stream as the interpolator sees it: previous frame, current frame, then the ring. */
  function Stream(s: Interp, c: nat): (t: seq<real>)
    requires Shaped(s, c)
    ensures |t| == 2 * c + |s.queue|
  {
    s.prev[..c] + s.curr[..c] + s.queue
  }

  /** Moving the current frame back and reading the next one shifts the stream by one frame. */
  lemma ReadShiftsStream(s: Interp, c: nat)
    requires Shaped(s, c) && |s.queue| >= c
    ensures NextFrame(ShiftFrame(s, c), c).ok
    ensures Stream(NextFrame(ShiftFrame(s, c), c).state, c) == Stream(s, c)[c..]
  {
    var t := NextFrame(ShiftFrame(s, c), c).state;
    assert t.prev[..c] == s.curr[..c];
    assert t.curr[..c] == s.queue[..c];
    assert t.queue == s.queue[c..];
    calc {
      Stream(t, c);
      s.curr[..c] + s.queue[..c] + s.queue[c..];
      { assert s.queue[..c] + s.queue[c..] == s.queue; }
      s.curr[..c] + s.queue;
      Stream(s, c)[c..];
    }
  }

  /**
   * With enough frames queued, catching up from position `p` consumes exactly
   * `floor(p)` frames of the stream and leaves the fractional part of `p`.
   */
  lemma CatchUpConsumes(s: Interp, c: nat)
    requires Shaped(s, c) && |s.queue| >= s.position.Floor * c
    ensures CatchUp(s, c).ok
    ensures CatchUp(s, c).state.position == s.position - s.position.Floor as real
    ensures |CatchUp(s, c).state.queue| == |s.queue| - s.position.Floor * c
    ensures Stream(CatchUp(s, c).state, c) == Stream(s, c)[s.position.Floor * c..]
  {
    SamplesIsProduct(s.position.Floor, c);
    CatchUpDrops(s, c, s.position.Floor);
  }

  /** `CatchUpConsumes` with the frames counted one by one. */
  lemma {:induction false} CatchUpDrops(s: Interp, c: nat, f: nat)
    requires Shaped(s, c) && f == s.position.Floor && |s.queue| >= Samples(f, c)
    ensures CatchUp(s, c).ok
    ensures CatchUp(s, c).state.position == s.position - f as real
    ensures |CatchUp(s, c).state.queue| == |s.queue| - Samples(f, c)
    ensures Stream(CatchUp(s, c).state, c) == Stream(s, c)[Samples(f, c)..]
    decreases f
  {
    if s.position >= 1.0 {
      var back := s.(position := s.position - 1.0);
      assert back.position.Floor == f - 1;
      ReadShiftsStream(back, c);
      var read := NextFrame(ShiftFrame(back, c), c);
      assert Stream(back, c) == Stream(s, c);
      CatchUpDrops(read.state, c, f - 1);
      DropTwice(Stream(s, c), c, Samples(f - 1, c), Samples(f, c));
    }
  }

  /** Catching up by a whole frame consumes exactly one frame of the stream. */
  lemma CatchUpOneFrame(s: Interp, c: nat)
    requires Shaped(s, c) && s.position == 1.0 && |s.queue| >= c
    ensures CatchUp(s, c).ok
    ensures CatchUp(s, c).state.position == 0.0
    ensures Stream(CatchUp(s, c).state, c) == Stream(s, c)[c..]
    ensures |CatchUp(s, c).state.queue| == |s.queue| - c
  {
    assert s.position.Floor == 1 && Samples(1, c) == c;
    CatchUpDrops(s, c, 1);
  }

  /** The position after `k` more output frames at ratio `ratio`, counted without catching up. */
  function Ahead(p: real, ratio: real, k: nat): (r: real)
    requires ratio >= 0.0
    ensures r >= p
    decreases k
  {
    if k == 0 then p else Ahead(p + ratio, ratio, k - 1)
  }

  /** Advancing `k` times by `ratio` is adding `k * ratio`. */
  lemma {:induction false} AheadIsLinear(p: real, ratio: real, k: nat)
    requires ratio >= 0.0
    ensures Ahead(p, ratio, k) == p + k as real * ratio
    decreases k
  {
    if k > 0 {
      AheadIsLinear(p + ratio, ratio, k - 1);
      assert (k - 1) as real * ratio + ratio == k as real * ratio;
    }
  }

  /** Moving the start moves every later position by as much. */
  lemma {:induction false} AheadShift(p: real, d: real, ratio: real, k: nat)
    requires ratio >= 0.0
    ensures Ahead(p + d, ratio, k) == Ahead(p, ratio, k) + d
    decreases k
  {
    if k > 0 {
      AheadShift(p + ratio, d, ratio, k - 1);
      assert p + d + ratio == p + ratio + d;
    }
  }

  /**
   * The rate of a block: with enough input, rendering `n` frames at ratio `ratio`
   * from position `p` consumes `F = floor(p + (n - 1) * ratio)` frames of the
   * stream (the last catch-up happens before the last output frame) and ends at
   * position `p + n * ratio - F`.
   */
  lemma RenderRate(s: Interp, c: nat, ratio: real, width: nat, n: nat)
    requires Shaped(s, c) && ratio >= 0.0 && c > 0 && n > 0
    requires |s.queue| >= (s.position + (n - 1) as real * ratio).Floor * c
    ensures var f := (s.position + (n - 1) as real * ratio).Floor;
            var r := Render(s, c, ratio, width, n);
            && |r.state.queue| == |s.queue| - f * c
            && r.state.position == s.position + n as real * ratio - f as real
            && Stream(r.state, c) == Stream(s, c)[f * c..]
  {
    var before := Ahead(s.position, ratio, n - 1);
    AheadIsLinear(s.position, ratio, n - 1);
    AheadIsLinear(s.position, ratio, n);
    assert before.Floor == (s.position + (n - 1) as real * ratio).Floor;
    SamplesIsProduct(before.Floor, c);
    RenderConsumes(s, c, ratio, width, n, before.Floor);
  }

  /** `frames * c`, the number of samples in `frames` frames of `c` channels, counted frame by frame. */
  function Samples(frames: nat, c: nat): nat
    decreases frames
  {
    if frames == 0 then 0 else Samples(frames - 1, c) + c
  }

  lemma {:induction false} SamplesIsProduct(frames: nat, c: nat)
    ensures Samples(frames, c) == frames * c
    decreases frames
  {
    if frames > 0 {
      SamplesIsProduct(frames - 1, c);
    }
  }

  lemma {:induction false} SamplesSplit(a: nat, k: nat, c: nat)
    requires a <= k
    ensures Samples(k, c) == Samples(a, c) + Samples(k - a, c)
    decreases k
  {
    if k > a {
      SamplesSplit(a, k - 1, c);
    }
  }

  /** With enough frames queued, one output sample consumes `floor(p)` frames and moves on by `ratio`. */
  lemma SampleConsumes(s: Interp, c: nat, ratio: real, width: nat, g: nat)
    requires Shaped(s, c) && ratio >= 0.0 && (width > 0 ==> c > 0)
    requires g == s.position.Floor && |s.queue| >= Samples(g, c)
    ensures var t := Sample(s, c, ratio, width);
            && t.ok
            && t.next.position == s.position + ratio - g as real
            && |t.next.queue| == |s.queue| - Samples(g, c)
            && Stream(t.next, c) == Stream(s, c)[Samples(g, c)..]
  {
    CatchUpDrops(s, c, g);
  }

  /** `RenderRate` with the positions counted step by step and `F` passed in. */
  lemma {:induction false} RenderConsumes(s: Interp, c: nat, ratio: real, width: nat, n: nat, f: nat)
    requires Shaped(s, c) && ratio >= 0.0 && c > 0 && n > 0
    requires f == Ahead(s.position, ratio, n - 1).Floor && |s.queue| >= Samples(f, c)
    ensures var r := Render(s, c, ratio, width, n);
            && r.state.position == Ahead(s.position, ratio, n) - f as real
            && Stream(r.state, c) == Stream(s, c)[Samples(f, c)..]
    decreases n
  {
    if n > 1 {
      var q, h := RenderStep(s, c, ratio, width, n, f);
      RenderConsumes(q, c, ratio, width, n - 1, h);
    } else {
      RenderLast(s, c, ratio, width, f);
    }
  }

  /**
   * The first frame of a block of `n > 1`: the rest of the block is rendered
   * from `q`, which still has to consume `h` of the `f` frames.
   */
  lemma RenderStep(s: Interp, c: nat, ratio: real, width: nat, n: nat, f: nat) returns (q: Interp, h: nat)
    requires Shaped(s, c) && ratio >= 0.0 && c > 0 && n > 1
    requires f == Ahead(s.position, ratio, n - 1).Floor && |s.queue| >= Samples(f, c)
    ensures Shaped(q, c) && h == Ahead(q.position, ratio, n - 2).Floor && |q.queue| >= Samples(h, c)
    ensures Render(s, c, ratio, width, n).state == Render(q, c, ratio, width, n - 1).state
    ensures Ahead(q.position, ratio, n - 1) - h as real == Ahead(s.position, ratio, n) - f as real
    ensures Stream(q, c)[Samples(h, c)..] == Stream(s, c)[Samples(f, c)..]
  {
    var p := s.position;
    var g: nat := p.Floor;
    q := Sample(s, c, ratio, width).next;
    h := f - g;
    SamplesSplit(g, f, c);
    SampleConsumes(s, c, ratio, width, g);
    RenderFirst(s, c, ratio, width, n);
    AheadAfterCatchUp(p, ratio, n);
    DropTwice(Stream(s, c), Samples(g, c), Samples(h, c), Samples(f, c));
  }

  /** A block of one frame consumes `floor(p)` frames and ends at `p + ratio - floor(p)`. */
  lemma RenderLast(s: Interp, c: nat, ratio: real, width: nat, f: nat)
    requires Shaped(s, c) && ratio >= 0.0 && c > 0
    requires f == s.position.Floor && |s.queue| >= Samples(f, c)
    ensures var r := Render(s, c, ratio, width, 1);
            && r.state.position == Ahead(s.position, ratio, 1) - f as real
            && Stream(r.state, c) == Stream(s, c)[Samples(f, c)..]
  {
    SampleConsumes(s, c, ratio, width, f);
    assert Ahead(s.position, ratio, 1) == s.position + ratio;
  }

  /** A block whose first sample succeeds continues from that sample's state. */
  lemma RenderFirst(s: Interp, c: nat, ratio: real, width: nat, n: nat)
    requires Shaped(s, c) && ratio >= 0.0 && c > 0 && n > 0 && Sample(s, c, ratio, width).ok
    ensures Render(s, c, ratio, width, n).state == Render(Sample(s, c, ratio, width).next, c, ratio, width, n - 1).state
  {
  }

  /** Catching up by `floor(p)` frames moves every later position back by as much. */
  lemma AheadAfterCatchUp(p: real, ratio: real, n: nat)
    requires ratio >= 0.0 && n > 1
    ensures var q := p + ratio - p.Floor as real;
            && Ahead(q, ratio, n - 2).Floor == Ahead(p, ratio, n - 1).Floor - p.Floor
            && Ahead(q, ratio, n - 1) == Ahead(p, ratio, n) - p.Floor as real
  {
    var g := p.Floor;
    var d := -(g as real);
    assert p + ratio - g as real == p + ratio + d;
    AheadShift(p + ratio, d, ratio, n - 2);
    AheadShift(p + ratio, d, ratio, n - 1);
    FloorShift(Ahead(p, ratio, n - 1), g);
  }

  lemma DropTwice(x: seq<real>, a: nat, b: nat, k: nat)
    requires a + b == k <= |x|
    ensures x[a..][b..] == x[k..]
  {
  }

  lemma FloorShift(x: real, k: int)
    ensures (x + -(k as real)).Floor == x.Floor - k
  {
  }

  /** At unit ratio from position 0, the frames after the first are those rendered from the stream one frame on. */
  lemma UnitRatioStep(s: Interp, c: nat, width: nat, count: nat) returns (next: Interp)
    requires Shaped(s, c) && c > 0 && s.position == 0.0 && count > 1 && |s.queue| >= c
    ensures Shaped(next, c) && next.position == 0.0
    ensures Stream(next, c) == Stream(s, c)[c..]
    ensures |next.queue| == |s.queue| - c
    ensures Render(s, c, 1.0, width, count).frames[1..] == Render(next, c, 1.0, width, count - 1).frames
  {
    var moved := s.(position := 1.0);
    CatchUpOneFrame(moved, c);
    next := CatchUp(moved, c).state;
    assert CatchUp(s, c) == Step(true, s);
    assert CatchUp(next, c) == Step(true, next);
  }

  /** An interleaved stream cut into frames of `c` samples; a trailing partial frame is dropped. */
  function Frames(x: seq<real>, c: nat): (r: seq<seq<real>>)
    requires c > 0
    ensures forall i :: 0 <= i < |r| ==> |r[i]| == c
    decreases |x|
  {
    if |x| < c then [] else [x[..c]] + Frames(x[c..], c)
  }

  /**
   * At equal input and output rates the interpolator is a one-frame delay line:
   * starting at position 0, output frame `j` on buffer `ch` is sample `ch % c`
   * of stream frame `j`, as long as the stream holds the frame after it.
   */
  lemma {:induction false} UnitRatioDelayLine(s: Interp, c: nat, width: nat, count: nat, j: nat, ch: nat)
    requires Shaped(s, c) && c > 0 && s.position == 0.0
    requires |Frames(Stream(s, c), c)| > count
    requires j < count && ch < width
    ensures Render(s, c, 1.0, width, count).frames[j][ch] == Frames(Stream(s, c), c)[j][ch % c]
    decreases j, 1
  {
    if j == 0 {
      UnitRatioFirstFrame(s, c, width, count, ch);
    } else {
      UnitRatioLaterFrame(s, c, width, count, j, ch);
    }
  }

  /** Frame `j` > 0 is frame `j - 1` of the stream one frame on. */
  lemma {:induction false} UnitRatioLaterFrame(s: Interp, c: nat, width: nat, count: nat, j: nat, ch: nat)
    requires Shaped(s, c) && c > 0 && s.position == 0.0
    requires |Frames(Stream(s, c), c)| > count
    requires 0 < j < count && ch < width
    ensures Render(s, c, 1.0, width, count).frames[j][ch] == Frames(Stream(s, c), c)[j][ch % c]
    decreases j, 0
  {
    var x := Stream(s, c);
    assert |s.queue| >= c by {
      assert Frames(x, c)[1..] == Frames(x[c..], c);
      assert Frames(x[c..], c)[1..] == Frames(x[c..][c..], c);
    }
    var next := UnitRatioStep(s, c, width, count);
    assert Frames(x, c)[1..] == Frames(Stream(next, c), c);
    UnitRatioDelayLine(next, c, width, count - 1, j - 1, ch);
    var r := Render(s, c, 1.0, width, count);
    assert r.frames[j] == r.frames[1..][j - 1];
  }

  /** Frame 0 at unit ratio from position 0 is the previous frame. */
  lemma UnitRatioFirstFrame(s: Interp, c: nat, width: nat, count: nat, ch: nat)
    requires Shaped(s, c) && c > 0 && s.position == 0.0 && 0 < count && ch < width
    requires |Frames(Stream(s, c), c)| > 0
    ensures Render(s, c, 1.0, width, count).frames[0][ch] == Frames(Stream(s, c), c)[0][ch % c]
  {
    assert Frames(Stream(s, c), c)[0] == Stream(s, c)[..c];
    assert CatchUp(s, c) == Step(true, s);
    var r := Render(s, c, 1.0, width, count);
    assert r.frames[0] == InterpolatedFrame(s, c, width);
    assert r.frames[0][ch] == Lerp(s.prev[ch % c], s.curr[ch % c], 0.0);
  }

  /** A ring that cannot supply the next frame silences the whole block once the position has passed the current frame. */
  lemma StarvedBlockIsSilent(s: Interp, c: nat, ratio: real, width: nat, count: nat)
    requires Shaped(s, c) && ratio >= 0.0 && (width > 0 && count > 0 ==> c > 0)
    requires s.position >= 1.0 && |s.queue| < c
    ensures forall j :: 0 <= j < count ==> Render(s, c, ratio, width, count).frames[j] == Silence(width)
    ensures count > 0 ==> Render(s, c, ratio, width, count).state.queue == []
  {
    if count > 0 {
      var read := NextFrame(ShiftFrame(s.(position := s.position - 1.0), c), c);
      assert CatchUp(s, c) == read && !read.ok;
    }
  }

  /** Rendering the last `n - i` frames of a block from `s` gives `frames[i..]` and ends in `final`. */
  ghost predicate Remaining(s: Interp, c: nat, ratio: real, width: nat, n: nat, i: nat, frames: seq<seq<real>>, final: Interp)
  {
    && Shaped(s, c) && ratio >= 0.0 && (width > 0 && i < n ==> c > 0) && i <= n && |frames| == n
    && Render(s, c, ratio, width, n - i) == Rendered(frames[i..], final)
  }

  /** Buffer `ch` holds sample `ch` of frame `j`, for every frame before `upto`. */
  ghost predicate Written(outputs: array2<real>, frames: seq<seq<real>>, upto: nat)
    reads outputs
  {
    forall ch, j :: 0 <= ch < outputs.Length0 && 0 <= j < upto && j < outputs.Length1 && j < |frames| && ch < |frames[j]| ==>
      outputs[ch, j] == frames[j][ch]
  }

  /**
   * One step of rendering a block of `n` frames, `i` of which are done: a
   * sample that succeeds produces frame `i` and leaves the rest to render.
   */
  lemma RenderAdvance(s: Interp, c: nat, ratio: real, width: nat, n: nat, i: nat, frames: seq<seq<real>>, final: Interp)
    requires Remaining(s, c, ratio, width, n, i, frames, final) && i < n
    requires Sample(s, c, ratio, width).ok
    ensures |frames[i]| == width
    ensures forall ch :: 0 <= ch < width ==> Sample(s, c, ratio, width).frame[ch] == frames[i][ch]
    ensures Remaining(Sample(s, c, ratio, width).next, c, ratio, width, n, i + 1, frames, final)
  {
    assert frames[i..][1..] == frames[i + 1..];
    assert frames[i..][0] == frames[i];
  }

  /** A sample that underruns leaves the rest of the block silent and the state where the catch-up stopped. */
  lemma RenderUnderrun(s: Interp, c: nat, ratio: real, width: nat, n: nat, i: nat, frames: seq<seq<real>>, final: Interp)
    requires Remaining(s, c, ratio, width, n, i, frames, final) && i < n
    requires !Sample(s, c, ratio, width).ok
    ensures forall j, ch :: i <= j < n && 0 <= ch < width ==> |frames[j]| == width && frames[j][ch] == 0.0
    ensures final == Sample(s, c, ratio, width).next
  {
    forall j, ch | i <= j < n && 0 <= ch < width
      ensures |frames[j]| == width && frames[j][ch] == 0.0
    {
      assert frames[j] == frames[i..][j - i];
    }
  }

  /** Zero inputs, one output per interpolated channel, any rate. */
  function SourceInfo(channels: nat): (info: NodeInfo)
    ensures info.numInputs == 0 && info.numOutputs == channels && info.nativeSampleRate.None?
  {
    NodeInfo(0, channels, Wrappers.None)
  }

  class ResamplingSource {
    const consumer: Fifo<real>
    const channels: nat
    var inputSampleRate: nat
    /** Fractional read position between `prevSamples` and `currSamples`. */
    var position: real
    const prevSamples: array<real>
    const currSamples: array<real>
    var primed: bool

    ghost predicate Valid()
      reads this, consumer
    {
      && prevSamples.Length == FrameSlots && currSamples.Length == FrameSlots
      && prevSamples != currSamples
      && channels <= MaxChannels && position >= 0.0
      && consumer.Valid()
    }

    ghost function State(): (s: Interp)
      reads this, prevSamples, currSamples, consumer
    {
      Interp(position, prevSamples[..], currSamples[..], consumer.items)
    }

    constructor (consumer: Fifo<real>, channels: nat, inputSampleRate: nat)
      requires consumer.Valid()
      ensures Valid() && fresh(prevSamples) && fresh(currSamples)
      ensures this.consumer == consumer && this.channels == Min(channels, MaxChannels)
      ensures this.inputSampleRate == inputSampleRate
      ensures position == 0.0 && !primed
      ensures prevSamples[..] == Silence(FrameSlots) && currSamples[..] == Silence(FrameSlots)
    {
      this.consumer := consumer;
      this.channels := Min(channels, MaxChannels);
      this.inputSampleRate := inputSampleRate;
      position := 0.0;
      prevSamples := new real[FrameSlots](_ => 0.0);
      currSamples := new real[FrameSlots](_ => 0.0);
      primed := false;
    }

    function Info(): (info: NodeInfo)
      ensures info.numInputs == 0 && info.numOutputs == channels && info.nativeSampleRate.None?
    {
      SourceInfo(channels)
    }

    /** Pops one frame into `currSamples`; at the first empty pop it stops, keeping what it took. */
    method ReadFrame() returns (ok: bool)
      requires Valid()
      modifies currSamples, consumer
      ensures Valid()
      ensures Step(ok, State()) == NextFrame(old(State()), channels)
    {
      ghost var s := State();
      for ch := 0 to channels
        invariant Valid()
        invariant ch <= |s.queue|
        invariant forall k :: 0 <= k < FrameSlots ==> currSamples[k] == if k < ch then s.queue[k] else s.curr[k]
        invariant consumer.items == s.queue[ch..]
        invariant prevSamples[..] == s.prev
      {
        var x := consumer.Pop();
        match x {
          case Some(v) =>
            currSamples[ch] := v;
          case None =>
            assert currSamples[..] == s.queue[..ch] + s.curr[ch..];
            return false;
        }
      }
      assert currSamples[..] == s.queue[..channels] + s.curr[channels..];
      return true;
    }

    /** Copies the current frame into the previous one, channel by channel. */
    method AdvanceFrame()
      requires Valid()
      modifies prevSamples
      ensures Valid()
      ensures State() == ShiftFrame(old(State()), channels)
    {
      ghost var s := State();
      for ch := 0 to channels
        invariant forall k :: 0 <= k < FrameSlots ==> prevSamples[k] == if k < ch then s.curr[k] else s.prev[k]
      {
        prevSamples[ch] := currSamples[ch];
      }
      assert prevSamples[..] == s.curr[..channels] + s.prev[channels..];
    }

    /** Writes the interpolated frame for output sample `i` into every buffer. */
    method EmitFrame(outputs: array2<real>, i: nat)
      requires Valid() && i < outputs.Length1
      requires outputs.Length0 > 0 ==> channels > 0
      modifies outputs
      ensures forall ch, j :: 0 <= ch < outputs.Length0 && 0 <= j < outputs.Length1 ==>
                outputs[ch, j] == if j == i then InterpolatedFrame(State(), channels, outputs.Length0)[ch]
                                  else old(outputs[ch, j])
    {
      ghost var frame := InterpolatedFrame(State(), channels, outputs.Length0);
      var t := position;
      for ch := 0 to outputs.Length0
        invariant forall c, j :: 0 <= c < outputs.Length0 && 0 <= j < outputs.Length1 ==>
                    outputs[c, j] == if j == i && c < ch then frame[c] else old(outputs[c, j])
      {
        var chIdx := ch % channels;
        var prev := prevSamples[chIdx];
        var curr := currSamples[chIdx];
        outputs[ch, i] := Lerp(prev, curr, t);
      }
    }

    /** Handles the block's messages: each `SetInputRate` replaces the input rate. */
    method ApplyMessages(messages: seq<ResamplingSourceMessage>)
      requires Valid()
      modifies this
      ensures Valid() && State() == old(State()) && primed == old(primed)
      ensures inputSampleRate == RateAfter(old(inputSampleRate), messages)
    {
      for k := 0 to |messages|
        invariant Valid() && State() == old(State()) && primed == old(primed)
        invariant RateAfter(old(inputSampleRate), messages) == RateAfter(inputSampleRate, messages[k..])
      {
        assert messages[k..][1..] == messages[k + 1..];
        inputSampleRate := messages[k].rate;
      }
    }

    /** Reads two frames when not yet primed; becomes primed only when both reads succeed. */
    method Prime()
      requires Valid()
      modifies this, prevSamples, currSamples, consumer
      ensures Valid() && inputSampleRate == old(inputSampleRate)
      ensures Step(primed, State()) == PrimeIfNeeded(old(State()), old(primed), channels)
    {
      if !primed {
        ghost var s0 := State();
        var ok := ReadFrame();
        if ok {
          ghost var s1 := State();
          AdvanceFrame();
          ok := ReadFrame();
          assert NextFrame(s0, channels) == Step(true, s1);
          if ok {
            primed := true;
          }
        }
      }
    }

    /** The catch-up loop before one output sample. */
    method CatchUpFrames() returns (ok: bool)
      requires Valid()
      modifies this, prevSamples, currSamples, consumer
      ensures Valid() && inputSampleRate == old(inputSampleRate) && primed == old(primed)
      ensures Step(ok, State()) == CatchUp(old(State()), channels)
    {
      while position >= 1.0
        invariant Valid() && inputSampleRate == old(inputSampleRate) && primed == old(primed)
        invariant CatchUp(State(), channels) == CatchUp(old(State()), channels)
        decreases position.Floor
      {
        position := position - 1.0;
        AdvanceFrame();
        ok := ReadFrame();
        if !ok {
          return;
        }
      }
      return true;
    }

    /** One output sample: catch up, then on success interpolate into column `i` and advance the position. */
    method RenderSample(outputs: array2<real>, i: nat, rateRatio: real) returns (ok: bool)
      requires Valid() && rateRatio >= 0.0 && i < outputs.Length1
      requires outputs.Length0 > 0 ==> channels > 0
      modifies this, prevSamples, currSamples, consumer, outputs
      ensures Valid() && inputSampleRate == old(inputSampleRate) && primed == old(primed)
      ensures var t := Sample(old(State()), channels, rateRatio, outputs.Length0);
        && ok == t.ok && State() == t.next
        && forall ch, j :: 0 <= ch < outputs.Length0 && 0 <= j < outputs.Length1 ==>
             outputs[ch, j] == if ok && j == i then t.frame[ch] else old(outputs[ch, j])
    {
      ok := CatchUpFrames();
      if ok {
        EmitFrame(outputs, i);
        position := position + rateRatio;
      }
    }

    /**
     * Renders samples until the block is full or the ring underruns; returns how
     * many were written. The rest of the block, if any, is what `Render` makes silent.
     */
    method RenderUntilUnderrun(outputs: array2<real>, rateRatio: real) returns (done: nat)
      requires Valid() && rateRatio >= 0.0
      requires outputs.Length0 > 0 && outputs.Length1 > 0 ==> channels > 0
      modifies this, prevSamples, currSamples, consumer, outputs
      ensures Valid() && inputSampleRate == old(inputSampleRate) && primed == old(primed)
      ensures done <= outputs.Length1
      ensures var r := Render(old(State()), channels, rateRatio, outputs.Length0, outputs.Length1);
        && State() == r.state
        && (forall j, ch :: done <= j < outputs.Length1 && 0 <= ch < outputs.Length0 ==> r.frames[j][ch] == 0.0)
        && Written(outputs, r.frames, done)
    {
      var bufferLen := outputs.Length1;
      ghost var width := outputs.Length0;
      ghost var spec := Render(State(), channels, rateRatio, width, bufferLen);
      for i := 0 to bufferLen
        invariant Valid() && inputSampleRate == old(inputSampleRate) && primed == old(primed)
        invariant Remaining(State(), channels, rateRatio, width, bufferLen, i, spec.frames, spec.state)
        invariant Written(outputs, spec.frames, i)
      {
        ghost var here := State();
        var ok := RenderSample(outputs, i, rateRatio);
        if !ok {
          RenderUnderrun(here, channels, rateRatio, width, bufferLen, i, spec.frames, spec.state);
          return i;
        }
        RenderAdvance(here, channels, rateRatio, width, bufferLen, i, spec.frames, spec.state);
      }
      return bufferLen;
    }

    /** Renders one block at the given input/output rate ratio, as `Render` describes. */
    method RenderBlock(outputs: array2<real>, rateRatio: real)
      requires Valid() && rateRatio >= 0.0
      requires outputs.Length0 > 0 && outputs.Length1 > 0 ==> channels > 0
      modifies this, prevSamples, currSamples, consumer, outputs
      ensures Valid() && inputSampleRate == old(inputSampleRate) && primed == old(primed)
      ensures var r := Render(old(State()), channels, rateRatio, outputs.Length0, outputs.Length1);
        && State() == r.state
        && forall ch, i :: 0 <= ch < outputs.Length0 && 0 <= i < outputs.Length1 ==>
             outputs[ch, i] == r.frames[i][ch]
    {
      var done := RenderUntilUnderrun(outputs, rateRatio);
      if done < outputs.Length1 {
        SilenceFrom(outputs, done);
      }
    }

    /**
     * Renders one non-empty block; with no channels it panics at the first
     * sample, after catching up, and writes nothing.
     */
    method RenderOrPanic(outputs: array2<real>, rateRatio: real) returns (r: Result<(), Panic>)
      requires Valid() && rateRatio >= 0.0 && outputs.Length0 > 0
      modifies this, prevSamples, currSamples, consumer, outputs
      ensures Valid() && inputSampleRate == old(inputSampleRate) && primed == old(primed)
      ensures r.Err? <==> channels == 0 && outputs.Length1 > 0
      ensures r.Err? ==>
        && r == Err(RemainderByZero)
        && State() == CatchUp(old(State()), channels).state
        && forall ch, i :: 0 <= ch < outputs.Length0 && 0 <= i < outputs.Length1 ==>
             outputs[ch, i] == old(outputs[ch, i])
      ensures r.Ok? ==>
        var r := Render(old(State()), channels, rateRatio, outputs.Length0, outputs.Length1);
        && State() == r.state
        && forall ch, i :: 0 <= ch < outputs.Length0 && 0 <= i < outputs.Length1 ==>
             outputs[ch, i] == r.frames[i][ch]
    {
      if channels == 0 && outputs.Length1 > 0 {
        var _ := CatchUpFrames();
        return Err(RemainderByZero);
      }
      RenderBlock(outputs, rateRatio);
      r := Ok(());
    }

    /**
     * Primes the interpolator if it is not primed, then renders one non-empty
     * block or panics as `RenderOrPanic` says.
     */
    method PrimeAndRender(outputs: array2<real>, rateRatio: real) returns (r: Result<(), Panic>)
      requires Valid() && rateRatio >= 0.0 && outputs.Length0 > 0
      modifies this, prevSamples, currSamples, consumer, outputs
      ensures Valid() && inputSampleRate == old(inputSampleRate)
      ensures r.Err? <==> channels == 0 && outputs.Length1 > 0
      ensures r.Err? ==>
        var p := PrimeIfNeeded(old(State()), old(primed), channels);
        && r == Err(RemainderByZero)
        && primed == p.ok
        && State() == CatchUp(p.state, channels).state
        && forall ch, i :: 0 <= ch < outputs.Length0 && 0 <= i < outputs.Length1 ==>
             outputs[ch, i] == old(outputs[ch, i])
      ensures r.Ok? ==>
        var p := PrimeIfNeeded(old(State()), old(primed), channels);
        var r := Render(p.state, channels, rateRatio, outputs.Length0, outputs.Length1);
        && primed == p.ok
        && State() == r.state
        && forall ch, i :: 0 <= ch < outputs.Length0 && 0 <= i < outputs.Length1 ==>
             outputs[ch, i] == r.frames[i][ch]
    {
      ghost var p := PrimeIfNeeded(State(), primed, channels);
      Prime();
      assert primed == p.ok && State() == p.state;
      r := RenderOrPanic(outputs, rateRatio);
    }

    /**
     * Applies the rate messages, primes the interpolator if it is not primed,
     * then renders one block; a block without output buffers does nothing more.
     * A source with no channels panics at the first sample it interpolates
     * (the channel index is taken modulo the channel count), after catching up.
     */
    method Process(ctx: ProcessContext, messages: seq<ResamplingSourceMessage>, outputs: array2<real>)
      returns (r: Result<(), Panic>)
      requires Valid()
      requires ctx.sampleRate > 0
      modifies this, prevSamples, currSamples, consumer, outputs
      ensures Valid()
      ensures inputSampleRate == RateAfter(old(inputSampleRate), messages)
      ensures r.Err? <==> channels == 0 && outputs.Length0 > 0 && outputs.Length1 > 0
      ensures outputs.Length0 == 0 ==> State() == old(State()) && primed == old(primed)
      ensures r.Err? ==>
        var p := PrimeIfNeeded(old(State()), old(primed), channels);
        && r == Err(RemainderByZero)
        && primed == p.ok
        && State() == CatchUp(p.state, channels).state
        && forall ch, i :: 0 <= ch < outputs.Length0 && 0 <= i < outputs.Length1 ==>
             outputs[ch, i] == old(outputs[ch, i])
      ensures outputs.Length0 > 0 && r.Ok? ==>
        var p := PrimeIfNeeded(old(State()), old(primed), channels);
        var r := Render(p.state, channels, inputSampleRate as real / ctx.sampleRate as real,
                        outputs.Length0, outputs.Length1);
        && primed == p.ok
        && State() == r.state
        && forall ch, i :: 0 <= ch < outputs.Length0 && 0 <= i < outputs.Length1 ==>
             outputs[ch, i] == r.frames[i][ch]
    {
      ApplyMessages(messages);
      if outputs.Length0 == 0 {
        return Ok(());
      }
      var outputRate := ctx.sampleRate as real;
      var inputRate := inputSampleRate as real;
      r := PrimeAndRender(outputs, inputRate / outputRate);
    }
  }
}
