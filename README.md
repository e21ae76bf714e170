# Klingt audio engine — a verified Dafny model

Klingt is a small Rust audio engine built on a pull-based node graph. The
application adds nodes (sources, effects, sinks) to a `Klingt` engine. Each
node is placed by its native sample rate:

- A node with no native rate, or with the engine's own rate, goes into the
  main graph.
- A node at any other rate goes into a sub-graph for that rate. When a rate
  first appears, the engine creates that sub-graph with its own graph and a
  *bridge*. The bridge is an `RtrbSink` terminal that interleaves the
  sub-graph's output into a lock-free ring buffer. A `ResamplingSource` in
  the main graph reads that ring at the sub-graph's rate and produces samples
  at the engine's rate by linear interpolation.

Each call to `process` renders one 64-sample block of the main graph. Before
that, it runs every sub-graph enough blocks to stay a few blocks ahead of
what the main graph will consume. Nodes receive control messages through
bounded per-node queues. The queued messages are applied at the start of the
node's next block.

The model covers:

- **Node** (`node.dfy`): the node contract, i.e. inputs, outputs and native
  rate. It also holds the channel-mapping rule shared by the sinks and
  effects, and small numeric helpers.
- **Ring** (`ring.dfy`): the bounded single-producer/single-consumer queue
  that carries both messages and interleaved audio, and the sizing rule for
  audio rings (a tenth of a second, a power of two, at least 8192 samples).
- **Graph** (`graph.dfy`): `AudioGraph`, with dense node ids, a default
  message queue of 64, an edge list, a terminal node, and a process step that
  renders only when a terminal is set.
- **Engine** (`klingt.dfy`): `Klingt`, covering node placement, sub-graph
  creation, bridge wiring, connection routing (and the panics it raises),
  output routing and block pacing. The whole-engine state is an
  `EngineState` value. The class's methods are proved to move that state
  exactly as the transition functions say. The invariant `Wired` (every
  bridge's sink and resampler exist and the sub-graph's terminal is its sink)
  holds across every operation.
- **RtrbSinkNode**, **CpalSinkNode** and **Interleave**: the sinks. Each
  pushes a whole interleaved block or nothing. The device callback drains the
  ring, pads it with silence, and records underruns.
- **Resampler** (`resampling_source.dfy`): the `ResamplingSource`
  interpolator, with priming, catch-up over the input frames, and an
  underrun that turns the rest of the block to silence. At an input/output
  rate ratio of 1 it is proved to be a one-frame delay line. At any ratio, a
  block with enough input is proved to consume exactly
  `floor(p + (n - 1) * ratio)` input frames and to end at position
  `p + n * ratio` minus that count.
- **MixerNode**, **Player**, **SlewLimiterNode**, **LegacySlewLimiterNode**
  and **GainNode**: the effect and source nodes in the core.

Audio samples are `real`. Output buffers are `array2<real>` indexed
`[channel, sample]`. An input is a sequence of channel buffers.

## Model

| member | source | states |
|---|---|---|
| Node.SourceChannel | src/nodes/sink/rtrb_sink.rs:77 | the source channel is always an existing one: channel `ch` itself when it exists, otherwise the last channel |
| Node.Clamp | src/v2/nodes/effect/slew_limiter.rs:113 | the result lies in `[lo, hi]`: it is the value when that is in range, `lo` below the range and `hi` above it |
| Ring.Fifo.Slots | src/nodes/sink/rtrb_sink.rs:40-42 | free slots plus queued items always equal the capacity |
| Ring.Fifo.Push | src/graph.rs:25-27 | a push onto a queue with room appends the item and returns Ok; on a full queue it returns the item back as Err and leaves the queue unchanged |
| Ring.Fifo.Pop | src/v2/nodes/source/resampling_source.rs:61-63 | a pop from an empty queue returns None and changes nothing; otherwise it returns the head and removes exactly that item |
| Ring.NextPowerOfTwo | src/klingt.rs:345 | the result is the least power of two that is at least `x` |
| Ring.MinRingSizeIsPowerOfTwo | src/klingt.rs:345 | the 8192-sample ring minimum is a power of two |
| Ring.RingSize | src/klingt.rs:345 | the bridge ring is a power of two, at least 8192, and holds at least a tenth of a second of interleaved samples; it is the least such power of two |
| Graph.Empty | src/graph.rs:84-96 | a new graph is well formed, carries the given sample rate, and has no nodes, edges or terminal; no id is known |
| Graph.AddNode | src/graph.rs:109-137 | the next id is fresh before and known after; the ids stay dense; the node gets two buffers for two outputs and one otherwise, plus its queue size; everything else is unchanged |
| Graph.BufferCount | src/graph.rs:122-127 | a node gets two output buffers exactly when it has two outputs, and at least one otherwise, sinks included |
| Graph.Connected | src/graph.rs:140-148 | succeeds exactly when both ends are known, and then appends exactly that edge; otherwise it names the unknown node (the `from` end first) |
| Graph.WithTerminal | src/graph.rs:151-153 | succeeds exactly when the id is known, and then sets only the terminal |
| Graph.Processed | src/graph.rs:156-160 | without a terminal nothing changes; with one, exactly one more block is rendered |
| Graph.DrainMessages | src/graph.rs:45-53 | a node that consumes its message iterator receives every queued message in order and empties the queue; the mixer and the sinks never read theirs (see Left out) |
| Graph.NodeHandle.Send | src/graph.rs:25-27 | appends the message when the queue has room and returns Ok; returns the message back when the queue is full |
| Graph.AudioGraph.constructor | src/graph.rs:84-96 | the new graph's state is `Empty(sampleRate)` |
| Graph.AudioGraph.Add | src/graph.rs:104-106 | adds with the default queue size of 64 and returns the fresh id with an empty sender |
| Graph.AudioGraph.AddWithQueueSize | src/graph.rs:109-137 | the state becomes `AddNode(old, info, queueSize)`; the handle carries the fresh id and an empty sender of that capacity |
| Graph.AudioGraph.Connect | src/graph.rs:140-148 | the state and result are those of `Connected`; an unknown id leaves the graph unchanged |
| Graph.AudioGraph.SetTerminal | src/graph.rs:151-153 | the state and result are those of `WithTerminal` |
| Graph.AudioGraph.Process | src/graph.rs:156-160 | the state becomes `Processed(old)` |
| Engine.Placement | src/klingt.rs:300-307 | a node goes to the main graph exactly when it has no native rate or has the engine's rate; otherwise it goes to the sub-graph of its own rate |
| Engine.GraphId | src/klingt.rs:313-318 | the handle's graph id is 0 exactly for the main graph or a sub-graph of rate 0; otherwise it is the sub-graph's rate (src/klingt.rs:334-339) |
| Engine.ConnectRoute | src/klingt.rs:411-439 | connecting within one graph is direct; sub-graph to main goes through that rate's bridge; every other pair of graphs is unsupported |
| Engine.CeilDiv | src/klingt.rs:528 | the quotient is the least `q` with `q * b >= a` |
| Engine.BlocksNeeded | src/klingt.rs:526-528 | the block target is at least the slack of 4; after removing the slack, its input covers `mainBlocks * rate / mainRate` main blocks, and one block fewer would not |
| Engine.BlocksNeededMonotone | src/klingt.rs:523-528 | the block target never decreases as the main block count grows |
| Engine.Handle.Send | src/klingt.rs:71-73 | appends the message when the node's queue has room; otherwise returns it back and leaves the queue unchanged |
| Engine.BridgesWellFormed | src/klingt.rs:77-88 | under the engine invariant, every sub-graph is a well-formed graph |
| Engine.MainGraphGrown | src/klingt.rs:359 | adding nodes to the main graph keeps every bridge valid |
| Engine.SubGraphAt | src/klingt.rs:349-355 | a fresh sub-graph holds only its sink, as node 0, and that sink is the terminal |
| Engine.OutputAdded | src/klingt.rs:265-270 | the sink gets a fresh main-graph id and becomes the main graph's terminal; the invariant holds |
| Engine.SubGraphCreated | src/klingt.rs:343-369 | adds exactly one sub-graph at the new rate, with only its sink and no blocks rendered; adds a resampler of `min(width, 8)` channels to the main graph; leaves the other sub-graphs alone |
| Engine.SubGraphJoined | src/klingt.rs:330-339 | appends the node to that rate's sub-graph under a fresh id and changes nothing else |
| Engine.AddedToSubGraph | src/klingt.rs:322-340 | creates the sub-graph first when the rate is new, with bridge width `max(outputs, engine channels)`, so the node gets id 1 after the sink; otherwise it joins the existing sub-graph |
| Engine.Added | src/klingt.rs:299-319 | the node lands in the main graph or in its rate's sub-graph, as `Placement` decides, under an id that is new there |
| Engine.MainConnected | src/klingt.rs:413-415 | succeeds exactly when both ids are known in the main graph; on an unknown id it panics and nothing changes |
| Engine.SubConnected | src/klingt.rs:417-421 | the same rule inside one sub-graph |
| Engine.EngineConnected | src/klingt.rs:398-440 | an unsupported route panics with both graph ids; a bridged route wires the node to the sink and the resampler to the target; a missing sub-graph panics |
| Engine.OutputConnected | src/klingt.rs:463-487 | without a sink it panics; a main-graph node is wired to the sink; a sub-graph node is wired through its bridge; a missing sub-graph panics |
| Engine.CaughtUp | src/klingt.rs:530-533 | a sub-graph ends with `max(done, needed)` blocks, rendering exactly the missing ones, and nothing else changes |
| Engine.CaughtUpKeepsBridge | src/klingt.rs:530-533 | catching a sub-graph up keeps its bridge valid |
| Engine.SubGraphStaysAhead | src/klingt.rs:526-533 | after catching up, a sub-graph never loses blocks and is ahead of the main graph by the slack |
| Engine.PacedKeepsWiring | src/klingt.rs:525-534 | pacing keeps the engine invariant |
| Engine.PacedStaysAhead | src/klingt.rs:525-534 | after pacing, every sub-graph is ahead of the next main block and none lost blocks |
| Engine.PacedEngine | src/klingt.rs:520-534 | pacing changes only the sub-graphs, keeps their rates, and keeps the invariant |
| Engine.MainRendered | src/klingt.rs:537-538 | the main graph renders one block and the main block count goes up by one |
| Engine.EngineProcessed | src/klingt.rs:520-539 | one engine step renders one main block, keeps the sub-graph rates, the sink and the channels, and keeps the invariant |
| Engine.ProcessedPacesSubGraphs | src/klingt.rs:523-533 | after a step, each sub-graph has `max(previous, needed)` blocks and is ahead of the main graph |
| Engine.Klingt.constructor | src/klingt.rs:196-205 | a stereo engine with an empty main graph, no sub-graphs, no sink and no blocks rendered |
| Engine.Klingt.WithChannels | src/klingt.rs:244-247 | only the channel count changes |
| Engine.Klingt.WithOutput | src/klingt.rs:265-270 | the state becomes `OutputAdded(old, sink)` |
| Engine.Klingt.Add | src/klingt.rs:299-319 | the state becomes `Added(old, info)`; the handle's graph id is 0 for the main graph and the rate for a sub-graph; the handle has an empty queue of 64 |
| Engine.Klingt.AddToSubGraph | src/klingt.rs:322-340 | the state becomes `AddedToSubGraph(old, info, rate)` and the handle's graph id is the rate |
| Engine.Klingt.JoinSubGraph | src/klingt.rs:330-339 | the state becomes `SubGraphJoined(old, info, rate)` |
| Engine.Klingt.CreateSubGraph | src/klingt.rs:343-369 | the state becomes `SubGraphCreated`; the sink and the resampler share one fresh, empty ring of `RingSize` slots; the sink has `max(ch, 1)` channels and the resampler `min(ch, 8)`, starting unprimed at position 0 |
| Engine.Klingt.Connect | src/klingt.rs:398-440 | the state and result are those of `EngineConnected` |
| Engine.Klingt.ConnectMain | src/klingt.rs:413-415 | the state and result are those of `MainConnected` |
| Engine.Klingt.ConnectSub | src/klingt.rs:417-421 | the state and result are those of `SubConnected` |
| Engine.Klingt.Output | src/klingt.rs:463-487 | the state and result are those of `OutputConnected` |
| Engine.Klingt.Process | src/klingt.rs:520-539 | the state becomes `EngineProcessed(old)` |
| Engine.Pace | src/klingt.rs:525-534 | the loop over the sub-graphs yields exactly `PacedAll` |
| Engine.CatchUp | src/klingt.rs:530-533 | the while loop yields exactly `CaughtUp(sub, needed)` |
| Interleave.InterleavedLength | src/nodes/sink/rtrb_sink.rs:75-80 | a block of `len` frames interleaves to `len * channels` samples |
| Interleave.InterleavedAt | src/nodes/sink/rtrb_sink.rs:75-80 | sample `i * channels + c` of the interleaved block is sample `i` of source channel `SourceChannel(c)` |
| Interleave.Accepted | src/nodes/sink/rtrb_sink.rs:55-72 | a block is pushed whole when the ring has room for `len * channels` samples; otherwise nothing is pushed (also when there is no input or no buffer) |
| Interleave.PushInterleaved | src/nodes/sink/rtrb_sink.rs:75-80 | the ring gains exactly the interleaved block |
| RtrbSinkNode.RtrbSink.constructor | src/nodes/sink/rtrb_sink.rs:21-26 | the channel count is at least 1 |
| RtrbSinkNode.RtrbSink.Mono | src/nodes/sink/rtrb_sink.rs:29-31 | one channel |
| RtrbSinkNode.RtrbSink.Stereo | src/nodes/sink/rtrb_sink.rs:34-36 | two channels |
| RtrbSinkNode.RtrbSink.Available | src/nodes/sink/rtrb_sink.rs:40-42 | the free slots complement the queued samples to the capacity |
| RtrbSinkNode.RtrbSink.Info | src/nodes/sink/rtrb_sink.rs:84-87 | one input, no outputs, no native rate |
| RtrbSinkNode.RtrbSink.Process | src/nodes/sink/rtrb_sink.rs:55-80 | the ring gains exactly `Accepted(inputs, channels, free slots)`, i.e. the whole interleaved block or nothing |
| CpalSinkNode.CpalSink.constructor | src/v2/nodes/sink/cpal_sink.rs:27-36 | the sink owns a fresh, empty ring of `RingSize(sampleRate, channels)` samples (a tenth of a second rounded up to a power of two, at least 8192) and fresh counters at zero |
| CpalSinkNode.CpalSink.Process | src/v2/nodes/sink/cpal_sink.rs:170-198 | the same all-or-nothing interleaved push onto the device ring |
| CpalSinkNode.CpalSink.Info | src/v2/nodes/sink/cpal_sink.rs:201-205 | one input, no outputs, no native rate |
| CpalSinkNode.CpalSink.CheckUnderrun | src/v2/nodes/sink/cpal_sink.rs:86-88 | returns the underrun flag and clears it; the consumed count is untouched |
| CpalSinkNode.FillOutput | src/v2/nodes/sink/cpal_sink.rs:102-114 | the device buffer receives the queued samples in order, padded with zeros; the flag is set iff the buffer was longer than the queue; the consumed count grows by the buffer length |
| Resampler.NextFrame | src/v2/nodes/source/resampling_source.rs:59-67 | a frame read succeeds iff the ring holds a whole frame; it then moves exactly `c` samples into the current frame; otherwise it drains the ring into it and fails |
| Resampler.ShiftFrame | src/v2/nodes/source/resampling_source.rs:70-74 | the first `c` slots of the previous frame take the current frame; the other slots are unchanged |
| Resampler.PrimeIfNeeded | src/v2/nodes/source/resampling_source.rs:107-114 | an unprimed source becomes primed iff the ring holds two whole frames; a primed one is untouched |
| Resampler.CatchUp | src/v2/nodes/source/resampling_source.rs:118-130 | on success the position is in `[0, 1)`; on underrun less than a frame is left in the ring |
| Resampler.Lerp | src/v2/nodes/source/resampling_source.rs:139 | at `t = 0` the result is the previous sample and at `t = 1` the current one |
| Resampler.LerpBetween | src/v2/nodes/source/resampling_source.rs:139 | for `t` in `[0, 1]` the interpolated value lies between the two samples |
| Resampler.InterpolatedFrame | src/v2/nodes/source/resampling_source.rs:135-140 | output channel `ch` interpolates source channel `ch % c` at the current position |
| Resampler.Render | src/v2/nodes/source/resampling_source.rs:116-144 | one block has one frame per output sample, each as wide as the outputs |
| Resampler.ReadShiftsStream | src/v2/nodes/source/resampling_source.rs:119-121 | advancing and then reading a frame shifts the stream (previous frame, current frame, queued samples) by exactly one frame |
| Resampler.CatchUpConsumes | src/v2/nodes/source/resampling_source.rs:118-130 | with at least `floor(p) * c` samples queued, catching up succeeds, consumes exactly `floor(p)` frames of the stream and leaves position `p - floor(p)` |
| Resampler.SampleConsumes | src/v2/nodes/source/resampling_source.rs:118-143 | with enough frames queued, one output sample consumes `floor(p)` frames and leaves position `p - floor(p) + ratio` |
| Resampler.AheadIsLinear | src/v2/nodes/source/resampling_source.rs:143 | advancing the position by `ratio` `k` times adds `k * ratio` |
| Resampler.RenderRate | src/v2/nodes/source/resampling_source.rs:100-143 | with enough input, a block of `n` output frames at ratio `input rate / output rate` from position `p` consumes exactly `F = floor(p + (n - 1) * ratio)` input frames (`F * c` samples, the front of the stream) and ends at position `p + n * ratio - F` |
| Resampler.CatchUpOneFrame | src/v2/nodes/source/resampling_source.rs:118-130 | with position 1 and a frame queued, catching up consumes exactly one frame of the input stream and returns the position to 0 |
| Resampler.UnitRatioStep | src/v2/nodes/source/resampling_source.rs:116-144 | at ratio 1 each output frame after the first consumes exactly one input frame |
| Resampler.UnitRatioDelayLine | src/v2/nodes/source/resampling_source.rs:116-144 | at ratio 1 and position 0, output frame `j` is input frame `j` of the stream (previous, current, then queued frames) |
| Resampler.StarvedBlockIsSilent | src/v2/nodes/source/resampling_source.rs:118-129 | when the next frame is due and the ring holds less than a frame, the whole block is silence and the ring is drained |
| Resampler.RenderUnderrun | src/v2/nodes/source/resampling_source.rs:121-128 | an underrun at sample `i` zeroes samples `i..` of every channel |
| Resampler.ResamplingSource.constructor | src/v2/nodes/source/resampling_source.rs:45-55 | at most 8 channels; position 0, unprimed, zeroed 16-slot frames |
| Resampler.SourceInfo | src/v2/nodes/source/resampling_source.rs:147-151 | no inputs, one output per channel, no native rate |
| Resampler.ResamplingSource.Info | src/v2/nodes/source/resampling_source.rs:147-151 | the source reports `SourceInfo` of its channel count |
| Resampler.ResamplingSource.ReadFrame | src/v2/nodes/source/resampling_source.rs:59-67 | the state moves as `NextFrame` says |
| Resampler.ResamplingSource.AdvanceFrame | src/v2/nodes/source/resampling_source.rs:70-74 | the state moves as `ShiftFrame` says |
| Resampler.ResamplingSource.ApplyMessages | src/v2/nodes/source/resampling_source.rs:88-94 | the input rate becomes the last `SetInputRate`; nothing else changes |
| Resampler.ResamplingSource.Prime | src/v2/nodes/source/resampling_source.rs:107-114 | the state moves as `PrimeIfNeeded` says |
| Resampler.ResamplingSource.CatchUpFrames | src/v2/nodes/source/resampling_source.rs:118-130 | the state moves as `CatchUp` says |
| Resampler.ResamplingSource.RenderSample | src/v2/nodes/source/resampling_source.rs:118-143 | one output sample per channel and the new state are those of `Sample` |
| Resampler.ResamplingSource.RenderUntilUnderrun | src/v2/nodes/source/resampling_source.rs:116-144 | the buffers hold the frames of `Render` up to the underrun, and the state is `Render`'s final state |
| Resampler.ResamplingSource.RenderBlock | src/v2/nodes/source/resampling_source.rs:116-144 | the whole block equals `Render`'s frames, silence after an underrun included |
| Resampler.ResamplingSource.Process | src/v2/nodes/source/resampling_source.rs:80-145 | messages are applied first; no outputs means nothing else happens; otherwise it primes and renders the block at ratio `input rate / output rate`; a source with no channels and a non-empty block panics at the first interpolated sample (`ch % 0`) after catching up, with the outputs untouched |
| MixerNode.Tap | src/nodes/effect/mixer.rs:49-61 | a mono input feeds every output channel; otherwise channel `min(ch, last)` is read; samples past the input's end add 0 |
| MixerNode.MixAppend | src/nodes/effect/mixer.rs:48-64 | mixing two groups of inputs is the sum of mixing each |
| MixerNode.MixRemove | src/nodes/effect/mixer.rs:48-64 | the mix is the mix of the other inputs plus that input's tap |
| MixerNode.MixOrderIrrelevant | src/nodes/effect/mixer.rs:48-64 | the mix does not depend on the order of the inputs |
| MixerNode.Mixer.constructor | src/nodes/effect/mixer.rs:17-19 | the given channel count |
| MixerNode.Mixer.Stereo | src/nodes/effect/mixer.rs:22-24 | two channels |
| MixerNode.Mixer.Mono | src/nodes/effect/mixer.rs:27-29 | one channel |
| MixerNode.Mixer.Info | src/nodes/effect/mixer.rs:67-74 | any number of inputs, one output per channel |
| MixerNode.Mixer.Process | src/nodes/effect/mixer.rs:35-65 | every output sample is the sum over all inputs of that input's tap; buffers are cleared first |
| MixerNode.AddInput | src/nodes/effect/mixer.rs:59-62 | adding one more input adds its tap to every output sample |
| Player.SeekFrame | src/nodes/source/player.rs:147 | the frame is `seconds * rate` truncated toward zero, and 0 for negative times |
| Player.Handle | src/nodes/source/player.rs:137-153 | play, pause and stop set the flags (stop also rewinds); the volume becomes the requested one clamped to `[0, 2]`; seek goes to the frame times channels, or to the data length when that is past the end; looping is set; each message changes only its own field |
| Player.HandleAll | src/nodes/source/player.rs:137-153 | the volume stays within `[0, 2]` across any message sequence |
| Player.FrameAt | src/nodes/source/player.rs:191-202 | output channel `ch` takes sample `position + ch % channels`, scaled by volume, or 0 past the end |
| Player.Render | src/nodes/source/player.rs:173-206 | one frame per output sample; a looping player keeps playing |
| Player.Played | src/nodes/source/player.rs:155-206 | a paused player outputs silence and keeps its state; a playing one renders |
| Player.RenderWithinDataEnds | src/nodes/source/player.rs:204-205 | while the data lasts, a block of `n` frames advances the position by `n * channels` |
| Player.RenderFrameAt | src/nodes/source/player.rs:191-205 | while the data lasts, frame `i` is the frame at `position + i * channels` |
| Player.RenderWithinData | src/nodes/source/player.rs:191-205 | every output sample of a block within the data is the matching source sample scaled by volume |
| Player.RenderEnds | src/nodes/source/player.rs:179-186 | a non-looping player at the end outputs silence for the rest of the block and stops |
| Player.SamplePlayer.constructor | src/nodes/source/player.rs:76-86 | at least one channel; starts at position 0, playing, volume 1, not looping |
| Player.SamplePlayer.SetLooping | src/nodes/source/player.rs:91-93 | only the looping flag changes |
| Player.SamplePlayer.Info | src/nodes/source/player.rs:210-220 | no inputs, one output per channel, native rate is the sample's rate |
| Player.SamplePlayer.Process | src/nodes/source/player.rs:129-207 | applies the messages, then writes `Played` for the block and keeps its final transport |
| Player.SamplePlayer.ApplyMessages | src/nodes/source/player.rs:137-153 | the transport becomes `HandleAll` of the messages |
| Player.SamplePlayer.RenderBlock | src/nodes/source/player.rs:173-206 | the block and transport are those of `Render` |
| SlewLimiterNode.Controlled | src/v2/nodes/effect/slew_limiter.rs:72-83 | `SetRate` stores `|rate|` and clears the per-second rate; `SetRatePerSecond` keeps it and sets the per-sample rate to rate / sample rate |
| SlewLimiterNode.ControlledAll | src/v2/nodes/effect/slew_limiter.rs:72-88 | after the messages, a per-second rate always agrees with the per-sample rate; without one, the rate is non-negative |
| SlewLimiterNode.Step | src/v2/nodes/effect/slew_limiter.rs:111-115 | a step moves at most `rate`, reaches the input when it is within `rate`, and otherwise moves exactly `rate` toward it; it never passes the input |
| SlewLimiterNode.SlewAt | src/v2/nodes/effect/slew_limiter.rs:110-116 | output sample `i` is one step from the previous output (from the stored level for `i = 0`) toward input sample `i` |
| SlewLimiterNode.SlewLimited | src/v2/nodes/effect/slew_limiter.rs:110-116 | consecutive outputs differ by at most the rate; an output reaches the input when it is within reach and never overshoots it |
| SlewLimiterNode.SlewBlock | src/v2/nodes/effect/slew_limiter.rs:104-119 | each channel is as long as its zipped input; channels past the outputs keep their level; channels below 7 end at their last output |
| SlewLimiterNode.SlewBlockChannel | src/v2/nodes/effect/slew_limiter.rs:104-119 | channel `ch` of a block is the slew of its zipped input from the level slot `min(ch, 7)` holds after the channels before it |
| SlewLimiterNode.SlewBlockOwnSlot | src/v2/nodes/effect/slew_limiter.rs:106-118 | a channel below 7 is the slew of its zipped input from its own stored level |
| SlewLimiterNode.SlewBlockSharedSlot | src/v2/nodes/effect/slew_limiter.rs:106-118 | channel 7 starts from slot 7's stored level, and each later channel from the last output of the channel before it |
| SlewLimiterNode.SlewBlockChannelLimited | src/v2/nodes/effect/slew_limiter.rs:108-116 | in every channel of a block, consecutive outputs differ by at most the rate, and a channel below 7 starts within the rate of its stored level |
| SlewLimiterNode.SlewLimiter.constructor | src/v2/nodes/effect/slew_limiter.rs:35-41 | the rate is `|rate|`, with no per-second rate and 8 zero levels |
| SlewLimiterNode.SlewLimiter.FromRatePerSecond | src/v2/nodes/effect/slew_limiter.rs:47-53 | the rate is 0, the per-second rate is set, and there are 8 zero levels |
| SlewLimiterNode.SlewLimiter.Info | src/v2/nodes/effect/slew_limiter.rs:122-126 | one input, two outputs |
| SlewLimiterNode.SlewLimiter.Process | src/v2/nodes/effect/slew_limiter.rs:64-120 | the settings become `ControlledAll`; with no input or outputs nothing is written; with no buffers the outputs are zeroed; otherwise the outputs and levels are those of `SlewBlock` |
| SlewLimiterNode.SlewLimiter.ApplyMessages | src/v2/nodes/effect/slew_limiter.rs:72-88 | the settings become `ControlledAll` |
| SlewLimiterNode.SlewAll | src/v2/nodes/effect/slew_limiter.rs:106-119 | the outputs and stored levels are those of `SlewBlock` |
| SlewLimiterNode.SlewChannel | src/v2/nodes/effect/slew_limiter.rs:107-118 | the channel's output is `Slew` of its input and the returned level is its last output |
| LegacySlewLimiterNode.LegacyStep | src/nodes/effect/slewlimiter.rs:28-32 | the copysign step is exactly a slew step with rate 1/16 |
| LegacySlewLimiterNode.LegacyOut | src/nodes/effect/slewlimiter.rs:25-34 | a channel without an input buffer is left alone; otherwise as many samples as the zip yields |
| LegacySlewLimiterNode.LegacyLast | src/nodes/effect/slewlimiter.rs:33 | a channel without samples keeps its stored level |
| LegacySlewLimiterNode.Reached | src/nodes/effect/slewlimiter.rs:21-33 | the channels that run are those before the first output channel from 8 up with samples to process, or all of them when there is none |
| LegacySlewLimiterNode.LegacySlewLimiter.constructor | src/nodes/effect/slewlimiter.rs:11-15 | eight zero levels |
| LegacySlewLimiterNode.LegacySlewLimiter.ProcessInner | src/nodes/effect/slewlimiter.rs:19-37 | Ok exactly when there is an input for any output channel and no channel from 8 up has samples; with an output channel and no input it panics (`UnwrapNone`) with nothing changed; otherwise the channels before the first overflowing one get the 1/16 slew of the first input and their levels, and that channel panics (`IndexOutOfBounds`); channels without an input are untouched |
| LegacySlewLimiterNode.LimitAll | src/nodes/effect/slewlimiter.rs:21-36 | the loop over the first `width` channels yields `LegacyOut` and `LegacyLast`, and later channels are untouched |
| LegacySlewLimiterNode.LimitChannel | src/nodes/effect/slewlimiter.rs:26-34 | one channel's output is the 1/16 slew, and its level is the last output |
| GainNode.Targeted | src/v2/nodes/effect/gain.rs:65-69 | the target gain is that of the last `SetGain`, or unchanged without one |
| GainNode.GainClosedForm | src/v2/nodes/effect/gain.rs:100 | after `n` samples the distance to the target is `c^n` times the starting distance |
| GainNode.GainCloser | src/v2/nodes/effect/gain.rs:100 | for a coefficient in `[0, 1]` the smoothed gain never moves away from the target |
| GainNode.GainSnaps | src/v2/nodes/effect/gain.rs:43-46 | with coefficient 0 the gain is at the target after one sample |
| GainNode.GainFrozen | src/v2/nodes/effect/gain.rs:20 | with coefficient 1 the gain never changes |
| GainNode.SmoothAt | src/v2/nodes/effect/gain.rs:98-102 | output sample `i` is the input times the gain after `i + 1` smoothing steps |
| GainNode.SmoothEnd | src/v2/nodes/effect/gain.rs:98-102 | the channel's final gain is the gain after one step per sample |
| GainNode.NoSmoothing | src/v2/nodes/effect/gain.rs:43-46 | without smoothing every sample is scaled by the target and the final gain is the target |
| GainNode.Frozen | src/v2/nodes/effect/gain.rs:20 | with coefficient 1 every sample is scaled by the starting gain |
| GainNode.SmoothCloser | src/v2/nodes/effect/gain.rs:98-102 | for a coefficient in `[0, 1]` no gain along the channel is farther from the target than the start |
| GainNode.GainBlock | src/v2/nodes/effect/gain.rs:86-110 | as written: the stored gain becomes channel 0's final gain, and every later channel starts from that gain |
| GainNode.GainDrift | src/v2/nodes/effect/gain.rs:88-108 | as written, two equal channels come out different: 1/2 and 1/4 |
| GainNode.TrackedGainBlock | src/v2/nodes/effect/gain.rs:95-96 | corrected: every channel starts from the stored gain |
| GainNode.TrackedTogether | src/v2/nodes/effect/gain.rs:95-101 | corrected: sample `j` of every channel is scaled by the same gain, the gain after `j + 1` steps |
| GainNode.TrackedCloser | src/v2/nodes/effect/gain.rs:95-110 | corrected: the stored gain never moves away from the target |
| GainNode.Gain.constructor | src/v2/nodes/effect/gain.rs:26-32 | target and smoothed gain are the given gain, with coefficient 0.995 |
| GainNode.Gain.WithoutSmoothing | src/v2/nodes/effect/gain.rs:43-46 | the coefficient becomes 0 and nothing else changes |
| GainNode.Gain.Info | src/v2/nodes/effect/gain.rs:113-117 | one input, two outputs |
| GainNode.Gain.Process | src/v2/nodes/effect/gain.rs:57-111 | the target becomes `Targeted`; with no input or outputs nothing is written; with no buffers the outputs are zeroed; otherwise the outputs and stored gain are those of the corrected `TrackedGainBlock` (see Findings) |
| GainNode.Gain.ApplyMessages | src/v2/nodes/effect/gain.rs:65-69 | the target becomes `Targeted`; the smoothed gain and coefficient are unchanged |
| GainNode.ScaleAll | src/v2/nodes/effect/gain.rs:91-108 | the loop over the channels yields the outputs and stored gain of `TrackedGainBlock`; every channel starts from the stored gain |
| GainNode.ScaleChannel | src/v2/nodes/effect/gain.rs:96-102 | the channel's output is `Smooth`, and the returned gain is its final gain |

## Left out

- The graph executor (`dasp_graph`'s processor) is external code. `Processed` records only that one block was rendered from the terminal. The model does not evaluate the audio that flows along the edges.
- Audio devices, `cpal` streams, threads and the atomics shared with the device thread are not modelled. `default_output` and the device part of `CpalSink::new` (reading the device config, building and starting the stream on its own thread) are left out; the constructor takes the device's sample rate and channel count and models the ring sizing. `FillOutput` stands for the f32 device callback. The i16 and u16 callbacks are left out; they only add a clamp and an integer conversion.
- `make_handle` is not a separate member. The model passes node ids directly.
- Floating point is modelled as exact reals. Samples and gains are f32, and pacing and the rate ratio are f64, so rounding, NaN and infinity are not modelled.
- Engine.BlocksNeeded: the f64 `ceil(main_blocks * rate / main_rate)` is modelled as exact integer ceiling division.
- Ring.RingSize: `(rate as f32 * 0.1) as usize` (src/klingt.rs:345, src/v2/nodes/sink/cpal_sink.rs:34) is modelled as `rate / 10`. The f32 rounding of that product is not modelled.
- Engine.Klingt.Process: requires a nonzero engine sample rate while sub-graphs exist. With rate 0 the f64 ratio is infinite, `ceil() as u64` saturates to `u64::MAX`, and the `+ 4` at src/klingt.rs:528 overflows. A debug build panics there; a release build wraps the target to 3. The model has no overflowing integer for either outcome.
- Resampler.ResamplingSource.Process: requires a nonzero output sample rate. With rate 0 the f64 ratio is infinite, or NaN when the input rate is 0 too, and exact reals have neither value.
- SlewLimiterNode.SlewLimiter.Process: requires a non-negative rate when the block has samples to limit. The rate can only be negative when it comes from a negative per-second rate; `SetRate` and the constructors store `|rate|`. The source's `f32::clamp` panics on a negative rate only at the first sample it limits, which happens only if a channel's zipped input is non-empty. It also requires a nonzero sample rate whenever a per-second rate is in use. In f32 that division gives infinity instead.
- Player.SeekFrame: the f64 product is truncated exactly. The `usize` multiplication by the channel count is unbounded rather than wrapping.
- Node ids and sample rates are unbounded naturals. The `u32` id counter and `usize` wrap-around are not modelled.
- A node whose native rate is `Some(0)` is placed in a sub-graph keyed by rate 0. Its handle's graph id is then 0, the same as a main-graph node (`Engine.GraphIdZero`). The model keeps this as written.
- A bridge with more than 8 channels pushes `max(ch, 1)`-wide frames but pops `min(ch, 8)`-wide frames. The model keeps both widths as written. It proves no property about the mismatch.
- The v1 and v2 copies of the engine, node contract and player are identical in behaviour, so each is modelled once. The citations are to the v1 files.
- `Gain::with_smoothing_ms` computes `exp(-1 / samples)`. The exponential is not modelled; any coefficient can be set through the constructor and `WithoutSmoothing`.
- The plain getters (`sample_rate`, `rate`, `gain`, `available`, `samples_consumed`, `buffer_available`, the player's duration and position in seconds, `channels`, `is_playing`) are not separate members. They read fields that the model exposes directly. Conversions to seconds are f64 division.
- The vorbis decoder and the sine and square oscillators are outside the modelled core.
- GainNode.Gain.Process and GainNode.ScaleAll: follow the corrected channel loop, in which every channel starts from the stored gain. The source's own loop is modelled by `GainNode.GainBlock` (see Findings).
- Panics are modelled as an `Err(Panic)` result. An unknown node id, an unsupported connection, a missing sub-graph and a missing output sink leave the state as it was before the panic. The resampler's `ch % 0` and the first slew limiter's `unwrap` and slot index leave the state as it was at the point of the panic.
- Message queues: the graph hands each node a lazy iterator that pops its queue only as far as the node reads it (src/graph.rs:51-52). `DrainMessages` models a node that reads it to the end. The mixer (src/nodes/effect/mixer.rs:38), the ring sink (src/nodes/sink/rtrb_sink.rs:51) and the device sink (src/v2/nodes/sink/cpal_sink.rs:166) never read theirs. Their queues are therefore never emptied, so after as many sends as the queue holds (64 by default) every further `Send` to them returns Err. `Graph.Processed` does not model the per-node queues.

## Findings

| source | as written | input that shows it | evidently intended | confidence | as-written member | corrected member |
|---|---|---|---|---|---|---|
| src/v2/nodes/effect/gain.rs:88-108 | `current_gain` is overwritten by channel 0's final gain before channel 1 runs, so channel 1 starts smoothing where channel 0 ended | coefficient 1/2, stored gain 1, target 0, input `[[1], [1]]` on two outputs: channel 0 outputs 1/2 and channel 1 outputs 1/4 | every channel starts from the stored gain and tracks the same gain curve, as the comment "they should track together" says | not executed | GainNode.GainDrift | GainNode.TrackedTogether |
