/**
 * The sample player: plays pre-decoded interleaved samples at their own rate
 * (so the engine places it in the sub-graph for that rate), driven by
 * play/pause/stop/seek/volume/looping messages applied at the start of each
 * block.
 */
module Player {
  import opened Wrappers
  import opened Node

  datatype PlayerMessage =
    | Play
    | Pause
    /** Stops and rewinds to the start. */
    | Stop
    | SetVolume(volume: real)
    | Seek(seconds: real)
    | SetLooping(looping: bool)

  /** The player's mutable state: read position (in samples), whether it plays, volume, looping. */
  datatype Transport = Transport(position: nat, playing: bool, volume: real, looping: bool)

  /** A rendered block, frame by frame (`frames[i][ch]`), and the transport after it. */
  datatype Block = Block(frames: seq<seq<real>>, state: Transport)

  const MaxVolume: real := 2.0

  /** The frame `seconds` falls on at `rate`: the product truncated toward zero, never below zero. */
  function SeekFrame(seconds: real, rate: nat): (frame: nat)
    ensures seconds * rate as real >= 0.0 ==> frame as real <= seconds * rate as real < frame as real + 1.0
    ensures seconds * rate as real < 0.0 ==> frame == 0
  {
    var x := seconds * rate as real;
    if x < 0.0 then 0 else x.Floor
  }

  /** One message's effect; `total` is the number of samples, `channels` the frame width. */
  function Handle(t: Transport, m: PlayerMessage, channels: nat, rate: nat, total: nat): (r: Transport)
    ensures m.Play? ==> r == t.(playing := true)
    ensures m.Pause? ==> r == t.(playing := false)
    ensures m.Stop? ==> r == t.(playing := false, position := 0)
    ensures m.SetVolume? ==> r == t.(volume := r.volume) && 0.0 <= r.volume <= MaxVolume
    ensures m.SetVolume? && 0.0 <= m.volume <= MaxVolume ==> r.volume == m.volume
    ensures m.SetVolume? ==> r.volume == Clamp(m.volume, 0.0, MaxVolume)
    ensures m.Seek? ==> r == t.(position := r.position) && r.position <= total
    ensures m.Seek? && SeekFrame(m.seconds, rate) * channels <= total ==> r.position == SeekFrame(m.seconds, rate) * channels
    ensures m.Seek? && SeekFrame(m.seconds, rate) * channels > total ==> r.position == total
    ensures m.SetLooping? ==> r == t.(looping := m.looping)
  {
    match m
    case Play => t.(playing := true)
    case Pause => t.(playing := false)
    case Stop => t.(playing := false, position := 0)
    case SetVolume(v) => t.(volume := Clamp(v, 0.0, MaxVolume))
    case Seek(seconds) => t.(position := Min(SeekFrame(seconds, rate) * channels, total))
    case SetLooping(l) => t.(looping := l)
  }

  /** The block's messages, applied in the order they were sent. */
  function HandleAll(t: Transport, messages: seq<PlayerMessage>, channels: nat, rate: nat, total: nat): (r: Transport)
    ensures 0.0 <= t.volume <= MaxVolume ==> 0.0 <= r.volume <= MaxVolume
    decreases |messages|
  {
    if |messages| == 0 then t
    else HandleAll(Handle(t, messages[0], channels, rate, total), messages[1..], channels, rate, total)
  }

  /** Sample `index` of the data scaled by the volume, or silence past the end. */
  function SampleAt(samples: seq<real>, index: nat, volume: real): real {
    if index < |samples| then samples[index] * volume else 0.0
  }

  /** The frame read at `position`: output channel `ch` takes source channel `ch % channels`. */
  function FrameAt(samples: seq<real>, position: nat, channels: nat, volume: real, width: nat): (f: seq<real>)
    requires channels > 0
    ensures |f| == width
    ensures forall ch :: 0 <= ch < width ==> f[ch] == SampleAt(samples, position + ch % channels, volume)
  {
    seq(width, ch requires 0 <= ch => SampleAt(samples, position + ch % channels, volume))
  }

  function SilentFrames(n: nat, width: nat): (frames: seq<seq<real>>)
    ensures |frames| == n && forall i :: 0 <= i < n ==> frames[i] == Silence(width)
  {
    seq(n, _ => Silence(width))
  }

  /**
   * `n` frames of playback from `t`: at the end of the data a looping player
   * rewinds to 0, any other stops and leaves the rest of the block silent.
   */
  function Render(samples: seq<real>, channels: nat, t: Transport, n: nat, width: nat): (b: Block)
    requires channels > 0
    ensures |b.frames| == n && forall i :: 0 <= i < n ==> |b.frames[i]| == width
    ensures b.state.volume == t.volume && b.state.looping == t.looping
    ensures t.looping ==> b.state.playing == t.playing
    decreases n
  {
    if n == 0 then Block([], t)
    else if t.position >= |samples| && !t.looping then Block(SilentFrames(n, width), t.(playing := false))
    else
      var position := if t.position >= |samples| then 0 else t.position;
      var rest := Render(samples, channels, t.(position := position + channels), n - 1, width);
      Block([FrameAt(samples, position, channels, t.volume, width)] + rest.frames, rest.state)
  }

  /** A block from a paused or stopped player is silent and leaves the transport as it was. */
  function Played(samples: seq<real>, channels: nat, t: Transport, n: nat, width: nat): (b: Block)
    requires channels > 0
    ensures |b.frames| == n && forall i :: 0 <= i < n ==> |b.frames[i]| == width
    ensures !t.playing ==> b == Block(SilentFrames(n, width), t)
    ensures t.playing ==> b == Render(samples, channels, t, n, width)
  {
    if t.playing then Render(samples, channels, t, n, width) else Block(SilentFrames(n, width), t)
  }

  /** While every frame of the block starts inside the data, the position ends `n` frames further on. */
  lemma {:induction false} RenderWithinDataEnds(samples: seq<real>, channels: nat, t: Transport, n: nat, width: nat)
    requires channels > 0
    requires n > 0 ==> t.position + (n - 1) * channels < |samples|
    ensures Render(samples, channels, t, n, width).state == t.(position := t.position + n * channels)
    decreases n
  {
    if n > 0 {
      var t' := t.(position := t.position + channels);
      assert t'.position + (n - 1) * channels == t.position + n * channels;
      assert n - 1 > 0 ==> t'.position + (n - 2) * channels == t.position + (n - 1) * channels;
      RenderWithinDataEnds(samples, channels, t', n - 1, width);
    }
  }

  /** While every frame of the block starts inside the data, frame `i` is the frame read at `position + i * channels`. */
  lemma {:induction false} RenderFrameAt(samples: seq<real>, channels: nat, t: Transport, n: nat, width: nat, i: nat)
    requires channels > 0 && i < n
    requires t.position + (n - 1) * channels < |samples|
    ensures Render(samples, channels, t, n, width).frames[i] == FrameAt(samples, t.position + i * channels, channels, t.volume, width)
    decreases i
  {
    if i > 0 {
      var t' := t.(position := t.position + channels);
      MulSucc(n - 2, channels);
      MulSucc(i - 1, channels);
      RenderFrameAt(samples, channels, t', n - 1, width, i - 1);
      assert t'.position + (i - 1) * channels == t.position + i * channels;
    }
  }

  lemma MulSucc(k: nat, c: nat)
    ensures (k + 1) * c == k * c + c
  {
  }

  /** While every frame of the block starts inside the data, sample `ch` of frame `i` is read at `position + i * channels + ch % channels`. */
  lemma RenderWithinData(samples: seq<real>, channels: nat, t: Transport, n: nat, width: nat)
    requires channels > 0
    requires n > 0 ==> t.position + (n - 1) * channels < |samples|
    ensures forall i, ch :: 0 <= i < n && 0 <= ch < width ==>
              Render(samples, channels, t, n, width).frames[i][ch] ==
              SampleAt(samples, t.position + i * channels + ch % channels, t.volume)
  {
    forall i, ch | 0 <= i < n && 0 <= ch < width
      ensures Render(samples, channels, t, n, width).frames[i][ch] ==
              SampleAt(samples, t.position + i * channels + ch % channels, t.volume)
    {
      RenderFrameAt(samples, channels, t, n, width, i);
    }
  }

  /**
   * One frame of a block that does not stop there: it is read at the
   * position (rewound to 0 past the end) and the rest of the block follows
   * from one frame further on.
   */
  lemma RenderNext(samples: seq<real>, channels: nat, t: Transport, m: nat, width: nat, frames: seq<seq<real>>, end: Transport, p: nat)
    requires channels > 0 && m > 0 && Render(samples, channels, t, m, width) == Block(frames, end)
    requires t.position < |samples| || t.looping
    requires p == if t.position >= |samples| then 0 else t.position
    ensures frames[0] == FrameAt(samples, p, channels, t.volume, width)
    ensures Render(samples, channels, t.(position := p + channels), m - 1, width) == Block(frames[1..], end)
  {
    var rest := Render(samples, channels, t.(position := p + channels), m - 1, width);
    assert frames == [FrameAt(samples, p, channels, t.volume, width)] + rest.frames;
    assert frames[1..] == rest.frames;
  }

  /** A block that starts past the end of the data without looping is silent from there on. */
  lemma RenderEnds(samples: seq<real>, channels: nat, t: Transport, width: nat, frames: seq<seq<real>>, from: nat, end: Transport)
    requires channels > 0 && from < |frames|
    requires Render(samples, channels, t, |frames| - from, width) == Block(frames[from..], end)
    requires t.position >= |samples| && !t.looping
    ensures end == t.(playing := false)
    ensures forall j :: from <= j < |frames| ==> frames[j] == Silence(width)
  {
    forall j | from <= j < |frames| ensures frames[j] == Silence(width) {
      assert frames[j] == frames[from..][j - from];
    }
  }

  class SamplePlayer {
    /** Interleaved samples: frame `f`, channel `c` at `f * channels + c`. */
    const samples: seq<real>
    const channels: nat
    const sampleRate: nat
    var position: nat
    var playing: bool
    var volume: real
    var looping: bool

    function State(): Transport
      reads this
    {
      Transport(position, playing, volume, looping)
    }

    /** Starts playing from the beginning at unity volume, not looping, with at least one channel. */
    constructor (samples: seq<real>, channels: nat, sampleRate: nat)
      ensures this.samples == samples && this.channels == Max(channels, 1) && this.sampleRate == sampleRate
      ensures State() == Transport(0, true, 1.0, false)
    {
      this.samples := samples;
      this.channels := Max(channels, 1);
      this.sampleRate := sampleRate;
      position := 0;
      playing := true;
      volume := 1.0;
      looping := false;
    }

    method SetLooping(looping: bool)
      modifies this
      ensures State() == old(State()).(looping := looping)
    {
      this.looping := looping;
    }

    /** No inputs, `channels` outputs, and the data's own sample rate. */
    function Info(): (info: NodeInfo)
      ensures info.numInputs == 0 && info.numOutputs == channels && info.nativeSampleRate == Some(sampleRate)
    {
      NodeInfo(0, channels, Some(sampleRate))
    }

    /**
     * Applies the block's messages, then (when there are output buffers)
     * renders one block; a player that is not playing writes silence.
     */
    method Process(messages: seq<PlayerMessage>, outputs: array2<real>)
      requires channels > 0
      modifies this, outputs
      ensures outputs.Length0 == 0 ==>
                State() == HandleAll(old(State()), messages, channels, sampleRate, |samples|)
      ensures outputs.Length0 > 0 ==>
                var b := Played(samples, channels, HandleAll(old(State()), messages, channels, sampleRate, |samples|),
                                outputs.Length1, outputs.Length0);
                && State() == b.state
                && forall ch, i :: 0 <= ch < outputs.Length0 && 0 <= i < outputs.Length1 ==> outputs[ch, i] == b.frames[i][ch]
    {
      ApplyMessages(messages);
      if outputs.Length0 == 0 {
        return;
      }
      if !playing {
        SilenceFrom(outputs, 0);
        return;
      }
      RenderBlock(outputs);
    }

    /** Applies each message in turn. */
    method ApplyMessages(messages: seq<PlayerMessage>)
      modifies this
      ensures State() == HandleAll(old(State()), messages, channels, sampleRate, |samples|)
    {
      for k := 0 to |messages|
        invariant HandleAll(old(State()), messages, channels, sampleRate, |samples|) ==
                  HandleAll(State(), messages[k..], channels, sampleRate, |samples|)
      {
        assert messages[k..][1..] == messages[k + 1..];
        match messages[k]
        case Play => playing := true;
        case Pause => playing := false;
        case Stop => playing := false; position := 0;
        case SetVolume(v) => volume := Clamp(v, 0.0, MaxVolume);
        case Seek(seconds) => position := Min(SeekFrame(seconds, sampleRate) * channels, |samples|);
        case SetLooping(l) => looping := l;
      }
    }

    /** The playing path: renders the block, then stores the new position and whether it still plays. */
    method RenderBlock(outputs: array2<real>)
      requires channels > 0 && playing && outputs.Length0 > 0
      modifies this, outputs
      ensures var b := Render(samples, channels, old(State()), outputs.Length1, outputs.Length0);
              && State() == b.state
              && forall ch, i :: 0 <= ch < outputs.Length0 && 0 <= i < outputs.Length1 ==> outputs[ch, i] == b.frames[i][ch]
    {
      var pos, ended := RenderFrames(outputs);
      position := pos;
      if ended {
        playing := false;
      }
    }

    /**
     * Frame by frame from the current position, rewinding or stopping at the
     * end of the data; returns the position reached and whether it stopped.
     */
    method RenderFrames(outputs: array2<real>) returns (pos: nat, ended: bool)
      requires channels > 0 && playing && outputs.Length0 > 0
      modifies outputs
      ensures var b := Render(samples, channels, State(), outputs.Length1, outputs.Length0);
              && b.state == Transport(pos, !ended, volume, looping)
              && forall ch, i :: 0 <= ch < outputs.Length0 && 0 <= i < outputs.Length1 ==> outputs[ch, i] == b.frames[i][ch]
    {
      var n, width := outputs.Length1, outputs.Length0;
      ghost var whole := Render(samples, channels, State(), n, width);
      pos, ended := position, false;
      ghost var cur := State();
      for i := 0 to n
        invariant cur == Transport(pos, true, volume, looping)
        invariant Render(samples, channels, cur, n - i, width) == Block(whole.frames[i..], whole.state)
        invariant forall ch, j :: 0 <= ch < width && 0 <= j < i ==> outputs[ch, j] == whole.frames[j][ch]
      {
        if pos >= |samples| {
          if looping {
            pos := 0;
          } else {
            SilenceFrom(outputs, i);
            RenderEnds(samples, channels, cur, width, whole.frames, i, whole.state);
            ended := true;
            return;
          }
        }
        RenderNext(samples, channels, cur, n - i, width, whole.frames[i..], whole.state, pos);
        assert whole.frames[i..][1..] == whole.frames[i + 1..];
        WriteFrame(outputs, i, pos, whole.frames[i]);
        cur := cur.(position := pos + channels);
        pos := pos + channels;
      }
    }

    /** Writes the frame read at `pos` into sample `i` of every output buffer. */
    method WriteFrame(outputs: array2<real>, i: nat, pos: nat, ghost frame: seq<real>)
      requires channels > 0 && i < outputs.Length1
      requires frame == FrameAt(samples, pos, channels, volume, outputs.Length0)
      modifies outputs
      ensures forall ch, j :: 0 <= ch < outputs.Length0 && 0 <= j < outputs.Length1 ==>
                outputs[ch, j] == if j == i then frame[ch] else old(outputs[ch, j])
    {
      for ch := 0 to outputs.Length0
        invariant forall c, j :: 0 <= c < outputs.Length0 && 0 <= j < outputs.Length1 ==>
                    outputs[c, j] == if j == i && c < ch then frame[c] else old(outputs[c, j])
      {
        var index := pos + ch % channels;
        outputs[ch, i] := if index < |samples| then samples[index] * volume else 0.0;
      }
    }
  }
}
