/**
 * The engine: a main graph at the output rate plus one sub-graph per foreign
 * native rate, each bridged to the main graph by a ring buffer with an
 * `RtrbSink` terminal at the sub-graph end and a `ResamplingSource` in the
 * main graph.  Graph id 0 names the main graph; any other graph id is the rate
 * of a sub-graph.
 */
module Engine {
  import opened Wrappers
  import opened Node
  import opened Ring
  import opened Graph
  import RtrbSinkNode
  import Resampler

  /** Extra sub-graph blocks rendered ahead of the main graph. */
  const PacingSlack: nat := 4

  /**
   * A sub-graph at `rate` that has rendered `blocks` blocks has produced the
   * input that `mainBlocks` main blocks at `mainRate` consume, plus the slack.
   */
  predicate AheadOf(blocks: nat, mainBlocks: nat, rate: nat, mainRate: nat)
  {
    (blocks - PacingSlack) * mainRate >= mainBlocks * rate
  }

  // ---------------------------------------------------------------- placement

  /** The sub-graph rate a node lands in, or `None` for the main graph. */
  function Placement(native: Option<nat>, engineRate: nat): (sub: Option<nat>)
    ensures sub.None? <==> native.None? || native.value == engineRate
    ensures sub.Some? ==> sub.value == native.value && sub.value != engineRate
  {
    if native.Some? && native.value != engineRate then native else None
  }

  /** The graph id the node's handle carries: the sub-graph's rate, or 0 for the main graph. */
  function GraphId(sub: Option<nat>): (id: nat)
    ensures id == 0 <==> sub.None? || sub == Some(0)
    ensures id != 0 ==> sub == Some(id)
  {
    if sub.Some? then sub.value else 0
  }

  /**
   * A handle's graph id is 0 exactly when the node is in the main graph or in
   * a sub-graph keyed by rate 0; only nonzero rates keep the two apart.
   */
  lemma GraphIdZero(native: Option<nat>, engineRate: nat)
    ensures GraphId(Placement(native, engineRate)) == 0 <==>
              native.None? || native.value == engineRate || native.value == 0
    ensures GraphId(Placement(native, engineRate)) != 0 ==>
              Placement(native, engineRate) == Some(GraphId(Placement(native, engineRate)))
  {
  }

  // ------------------------------------------------------------------ routing

  /** How a connection between two graph ids is made. */
  datatype Route =
    | Direct(graphId: nat)  // both ends in the same graph
    | Bridged(rate: nat)    // sub-graph -> main graph, through the bridge of `rate`
    | Unsupported           // panics

  function ConnectRoute(fromGraph: nat, toGraph: nat): (route: Route)
    ensures route.Direct? <==> fromGraph == toGraph
    ensures route.Direct? ==> route.graphId == fromGraph
    ensures route.Bridged? <==> fromGraph != 0 && toGraph == 0
    ensures route.Bridged? ==> route.rate == fromGraph
    ensures route.Unsupported? <==> fromGraph != toGraph && toGraph != 0
  {
    if fromGraph == 0 && toGraph == 0 then Direct(0)
    else if fromGraph == toGraph && fromGraph != 0 then Direct(fromGraph)
    else if fromGraph != 0 && toGraph == 0 then Bridged(fromGraph)
    else Unsupported
  }

  // ------------------------------------------------------------------- pacing

  /** Integer ceiling of `a / b`. */
  function CeilDiv(a: nat, b: nat): (q: nat)
    requires b > 0
    ensures q * b >= a
    ensures q == 0 || (q - 1) * b < a
  {
    var q := (a + b - 1) / b;
    DivBounds(a + b - 1, b);
    q
  }

  lemma DivBounds(n: nat, b: nat)
    requires b > 0
    ensures (n / b) * b <= n < (n / b) * b + b
  {
  }

  /**
   * Sub-graph blocks needed before main block number `mainBlocks` is rendered:
   * enough input for `mainBlocks` output blocks, rounded up, plus the slack.
   */
  function BlocksNeeded(mainBlocks: nat, rate: nat, mainRate: nat): (blocks: nat)
    requires mainRate > 0
    ensures blocks >= PacingSlack
    ensures (blocks - PacingSlack) * mainRate >= mainBlocks * rate
    ensures blocks == PacingSlack || (blocks - PacingSlack - 1) * mainRate < mainBlocks * rate
  {
    CeilDiv(mainBlocks * rate, mainRate) + PacingSlack
  }

  /** More main blocks never need fewer sub-graph blocks. */
  lemma BlocksNeededMonotone(m1: nat, m2: nat, rate: nat, mainRate: nat)
    requires mainRate > 0 && m1 <= m2
    ensures BlocksNeeded(m1, rate, mainRate) <= BlocksNeeded(m2, rate, mainRate)
  {
    var b1, b2 := BlocksNeeded(m1, rate, mainRate), BlocksNeeded(m2, rate, mainRate);
    MulMono(m1, m2, rate);
    if b1 > b2 {
      assert b2 - PacingSlack <= b1 - PacingSlack - 1;
      MulMono(b2 - PacingSlack, b1 - PacingSlack - 1, mainRate);
      assert false;
    }
  }

  // ------------------------------------------------------------------ engine

  /** A user's handle: the node's id, the graph it lives in, and its message queue. */
  class Handle<M> {
    const nodeId: NodeId
    const graphId: nat
    const sender: Fifo<M>

    constructor (nodeId: NodeId, graphId: nat, sender: Fifo<M>)
      ensures this.nodeId == nodeId && this.graphId == graphId && this.sender == sender
    {
      this.nodeId := nodeId;
      this.graphId := graphId;
      this.sender := sender;
    }

    /** Queues `msg` for the node's next block, or gives it back when the queue is full. */
    method Send(msg: M) returns (r: Result<(), M>)
      requires sender.Valid()
      modifies sender
      ensures sender.Valid()
      ensures old(|sender.items|) < sender.capacity ==> r == Ok(()) && sender.items == old(sender.items) + [msg]
      ensures old(|sender.items|) == sender.capacity ==> r == Err(msg) && sender.items == old(sender.items)
    {
      r := sender.Push(msg);
    }
  }



  /** A sub-graph at a foreign rate and the two ends of its bridge. */
  datatype SubGraph = SubGraph(
    graph: GraphState,
    sampleRate: nat,
    /** The `RtrbSink` terminal, in `graph`. */
    sinkNode: NodeId,
    /** The `ResamplingSource`, in the main graph. */
    resamplerNode: NodeId,
    blocksProcessed: nat)

  /** What an engine holds: its graphs, its output channels and sink, and the main blocks rendered. */
  datatype EngineState = EngineState(
    main: GraphState,
    sampleRate: nat,
    /** Output channels; a new bridge is at least this wide. */
    channels: nat,
    subs: map<nat, SubGraph>,
    /** The output sink, in the main graph. */
    sink: Option<NodeId>,
    mainBlocks: nat)

  /** Sub-graph `r` runs at rate `r` and ends in its sink; its resampler is a node of `main`. */
  ghost predicate BridgeValid(r: nat, sub: SubGraph, main: GraphState)
  {
    && WellFormed(sub.graph) && sub.graph.ctx.sampleRate == r && sub.sampleRate == r
    && Known(sub.graph, sub.sinkNode) && sub.graph.terminal == Some(sub.sinkNode.raw)
    && Known(main, sub.resamplerNode)
  }

  /**
   * The engine's wiring invariant: the main graph is at the engine's rate and
   * holds the sink, and every sub-graph is a valid bridge into it.
   */
  ghost predicate Wired(e: EngineState)
  {
    && WellFormed(e.main) && e.main.ctx.sampleRate == e.sampleRate
    && (e.sink.Some? ==> Known(e.main, e.sink.value))
    && (forall r :: r in e.subs ==> BridgeValid(r, e.subs[r], e.main))
  }

  lemma BridgesWellFormed(e: EngineState)
    requires Wired(e)
    ensures forall r :: r in e.subs ==> WellFormed(e.subs[r].graph)
  {
  }

  /** A main graph that keeps every id it had keeps the wiring. */
  lemma MainGraphGrown(e: EngineState, main: GraphState)
    requires Wired(e) && WellFormed(main) && main.ctx == e.main.ctx
    requires |e.main.nodes| <= |main.nodes|
    ensures Wired(e.(main := main))
  {
    forall r | r in e.subs
      ensures BridgeValid(r, e.subs[r], main)
    {
      assert BridgeValid(r, e.subs[r], e.main);
    }
  }

  /** A new sub-graph at `rate`: its first node is the bridge's sink, which is also its terminal. */
  function SubGraphAt(rate: nat): (g: GraphState)
    ensures WellFormed(g) && g.ctx.sampleRate == rate
    ensures Known(g, NodeId(0)) && g.terminal == Some(0)
    ensures g.nodes == [NodeData(RtrbSinkNode.SinkInfo, 1, DefaultQueueSize)] && g.edges == []
  {
    AddNode(Empty(rate), RtrbSinkNode.SinkInfo, DefaultQueueSize).(terminal := Some(0))
  }

  // ---------------------------------------------------------------- building

  /** Adding the output sink: a new main-graph node, which becomes the main graph's terminal. */
  function OutputAdded(e: EngineState, sink: NodeInfo): (r: EngineState)
    requires Wired(e)
    ensures Wired(r)
    ensures r.sink == Some(NextId(e.main)) && !Known(e.main, NextId(e.main))
    ensures r.main.terminal == Some(r.sink.value.raw)
    ensures r.main.nodes == e.main.nodes + [NodeData(sink, BufferCount(sink.numOutputs), DefaultQueueSize)]
    ensures r.main.edges == e.main.edges && r.subs == e.subs
    ensures r.channels == e.channels && r.mainBlocks == e.mainBlocks
  {
    var id := NextId(e.main);
    var withSink := AddNode(e.main, sink, DefaultQueueSize);
    var main := WithTerminal(withSink, id).value;
    MainGraphGrown(e, main);
    e.(main := main, sink := Some(id))
  }

  /**
   * The bridge for a new rate: a sub-graph whose only node is the sink and
   * its terminal, and a `ResamplingSource` at most eight channels wide added
   * to the main graph.  Every other sub-graph stays as it was.
   */
  function SubGraphCreated(e: EngineState, rate: nat, width: nat): (r: EngineState)
    requires Wired(e) && rate !in e.subs
    ensures Wired(r)
    ensures r.subs.Keys == e.subs.Keys + {rate}
    ensures forall q :: q in e.subs ==> r.subs[q] == e.subs[q]
    ensures r.subs[rate].graph.nodes == [NodeData(RtrbSinkNode.SinkInfo, 1, DefaultQueueSize)]
    ensures r.subs[rate].graph.edges == [] && r.subs[rate].blocksProcessed == 0
    ensures r.subs[rate].resamplerNode == NextId(e.main) && !Known(e.main, NextId(e.main))
    ensures r.main == AddNode(e.main, Resampler.SourceInfo(Min(width, Resampler.MaxChannels)), DefaultQueueSize)
    ensures r.sink == e.sink && r.channels == e.channels && r.mainBlocks == e.mainBlocks
  {
    var main := AddNode(e.main, Resampler.SourceInfo(Min(width, Resampler.MaxChannels)), DefaultQueueSize);
    var sub := SubGraph(SubGraphAt(rate), rate, NodeId(0), NextId(e.main), 0);
    MainGraphGrown(e, main);
    e.(main := main, subs := e.subs[rate := sub])
  }

  /** A node added to the existing sub-graph of `rate`: only that sub-graph's topology grows. */
  function SubGraphJoined(e: EngineState, info: NodeInfo, rate: nat): (r: (EngineState, NodeId))
    requires Wired(e) && rate in e.subs
    ensures Wired(r.0)
    ensures rate in r.0.subs && !Known(e.subs[rate].graph, r.1) && Known(r.0.subs[rate].graph, r.1)
    ensures r.0.subs[rate].graph.nodes == e.subs[rate].graph.nodes + [NodeData(info, BufferCount(info.numOutputs), DefaultQueueSize)]
    ensures r.0.subs[rate].graph.edges == e.subs[rate].graph.edges
    ensures r.0.subs[rate].(graph := e.subs[rate].graph) == e.subs[rate]
    ensures r.0.subs.Keys == e.subs.Keys && forall q :: q in e.subs && q != rate ==> r.0.subs[q] == e.subs[q]
    ensures r.0.main == e.main && r.0.sink == e.sink && r.0.channels == e.channels && r.0.mainBlocks == e.mainBlocks
  {
    var sub := e.subs[rate];
    (e.(subs := e.subs[rate := sub.(graph := AddNode(sub.graph, info, DefaultQueueSize))]), NextId(sub.graph))
  }

  /**
   * A node added to the sub-graph of `rate`, which the first node at that rate
   * creates with a bridge `max(num_outputs, channels)` wide.
   */
  function AddedToSubGraph(e: EngineState, info: NodeInfo, rate: nat): (r: (EngineState, NodeId))
    requires Wired(e)
    ensures Wired(r.0)
    ensures r.0.subs.Keys == e.subs.Keys + {rate}
    ensures Known(r.0.subs[rate].graph, r.1) && r.0.subs[rate].graph.nodes[r.1.raw].info == info
    ensures rate in e.subs ==> !Known(e.subs[rate].graph, r.1) && r.0.main == e.main
    ensures rate !in e.subs ==>
              && r.1 == NodeId(1) && r.0.subs[rate].graph.nodes[0].info == RtrbSinkNode.SinkInfo
              && r.0.main == AddNode(e.main, Resampler.SourceInfo(Min(Max(info.numOutputs, e.channels), Resampler.MaxChannels)), DefaultQueueSize)
    ensures forall q :: q in e.subs && q != rate ==> r.0.subs[q] == e.subs[q]
    ensures r.0.sink == e.sink && r.0.channels == e.channels && r.0.mainBlocks == e.mainBlocks
  {
    var e' := if rate in e.subs then e else SubGraphCreated(e, rate, Max(info.numOutputs, e.channels));
    SubGraphJoined(e', info, rate)
  }

  /**
   * Adding a node: to the main graph when it has no native rate or the
   * engine's rate, otherwise to the sub-graph of its native rate; the handle's
   * node id is new in that graph.
   */
  function Added(e: EngineState, info: NodeInfo): (r: (EngineState, NodeId))
    requires Wired(e)
    ensures Wired(r.0)
    ensures Placement(info.nativeSampleRate, e.sampleRate).None? ==>
              && r.0.main.nodes == e.main.nodes + [NodeData(info, BufferCount(info.numOutputs), DefaultQueueSize)]
              && !Known(e.main, r.1) && Known(r.0.main, r.1) && r.0.subs == e.subs
    ensures Placement(info.nativeSampleRate, e.sampleRate).Some? ==>
              var rate := Placement(info.nativeSampleRate, e.sampleRate).value;
              && r.0.subs.Keys == e.subs.Keys + {rate}
              && Known(r.0.subs[rate].graph, r.1) && r.0.subs[rate].graph.nodes[r.1.raw].info == info
    ensures r.0.sink == e.sink && r.0.channels == e.channels && r.0.mainBlocks == e.mainBlocks
  {
    var placement := Placement(info.nativeSampleRate, e.sampleRate);
    if placement.Some? then AddedToSubGraph(e, info, placement.value)
    else
      var main := AddNode(e.main, info, DefaultQueueSize);
      MainGraphGrown(e, main);
      (e.(main := main), NextId(e.main))
  }

  // ------------------------------------------------------------- connecting

  /** One edge in the main graph; an unknown id panics and changes nothing. */
  function MainConnected(e: EngineState, from: NodeId, to: NodeId): (r: (EngineState, Result<(), Panic>))
    requires Wired(e)
    ensures Wired(r.0)
    ensures r.1.Ok? <==> Known(e.main, from) && Known(e.main, to)
    ensures r.1.Err? ==> r.0 == e && r.1 == Err(UnknownNode(if !Known(e.main, from) then from else to))
    ensures r.1.Ok? ==> r.0 == e.(main := e.main.(edges := e.main.edges + [(from.raw, to.raw)]))
  {
    var c := Connected(e.main, from, to);
    if c.Err? then (e, Err(c.error))
    else
      MainGraphGrown(e, c.value);
      (e.(main := c.value), Ok(()))
  }

  /** One edge in the sub-graph of `rate`; an unknown id panics and changes nothing. */
  function SubConnected(e: EngineState, rate: nat, from: NodeId, to: NodeId): (r: (EngineState, Result<(), Panic>))
    requires Wired(e) && rate in e.subs
    ensures Wired(r.0)
    ensures var g := e.subs[rate].graph;
            && (r.1.Ok? <==> Known(g, from) && Known(g, to))
            && (r.1.Err? ==> r.0 == e && r.1 == Err(UnknownNode(if !Known(g, from) then from else to)))
            && (r.1.Ok? ==> r.0 == e.(subs := e.subs[rate := e.subs[rate].(graph := g.(edges := g.edges + [(from.raw, to.raw)]))]))
  {
    var sub := e.subs[rate];
    var c := Connected(sub.graph, from, to);
    if c.Err? then (e, Err(c.error))
    else (e.(subs := e.subs[rate := sub.(graph := c.value)]), Ok(()))
  }

  /**
   * Connecting `from` to `to`: within one graph directly; from a sub-graph to
   * the main graph as two edges, into the bridge's sink and out of its
   * resampler; into a sub-graph from elsewhere, a panic.
   */
  function EngineConnected(e: EngineState, fromGraph: nat, from: NodeId, toGraph: nat, to: NodeId)
    : (r: (EngineState, Result<(), Panic>))
    requires Wired(e)
    ensures Wired(r.0)
    ensures r.0.subs.Keys == e.subs.Keys
    ensures ConnectRoute(fromGraph, toGraph).Unsupported? ==> r == (e, Err(UnsupportedConnection(fromGraph, toGraph)))
    ensures fromGraph != 0 && fromGraph !in e.subs && !ConnectRoute(fromGraph, toGraph).Unsupported? ==>
              r == (e, Err(MissingSubGraph(fromGraph)))
    ensures fromGraph == 0 && toGraph == 0 ==> r == MainConnected(e, from, to)
    ensures fromGraph == toGraph && fromGraph in e.subs && fromGraph != 0 ==> r == SubConnected(e, fromGraph, from, to)
    ensures fromGraph != 0 && toGraph == 0 && fromGraph in e.subs ==>
              var sub := e.subs[fromGraph];
              && (r.1.Ok? <==> Known(sub.graph, from) && Known(e.main, to))
              && (r.1.Ok? ==>
                    && r.0.subs[fromGraph].graph.edges == sub.graph.edges + [(from.raw, sub.sinkNode.raw)]
                    && r.0.main.edges == e.main.edges + [(sub.resamplerNode.raw, to.raw)])
  {
    match ConnectRoute(fromGraph, toGraph)
    case Unsupported => (e, Err(UnsupportedConnection(fromGraph, toGraph)))
    case Direct(g) =>
      if g == 0 then MainConnected(e, from, to)
      else if g !in e.subs then (e, Err(MissingSubGraph(g)))
      else SubConnected(e, g, from, to)
    case Bridged(rate) =>
      if rate !in e.subs then (e, Err(MissingSubGraph(rate)))
      else
        var intoSink := SubConnected(e, rate, from, e.subs[rate].sinkNode);
        if intoSink.1.Err? then intoSink
        else MainConnected(intoSink.0, e.subs[rate].resamplerNode, to)
  }

  /**
   * Connecting a node to the output sink: directly from the main graph, or
   * from a sub-graph through its bridge; without a sink it panics.
   */
  function OutputConnected(e: EngineState, graphId: nat, node: NodeId): (r: (EngineState, Result<(), Panic>))
    requires Wired(e)
    ensures Wired(r.0)
    ensures r.0.subs.Keys == e.subs.Keys
    ensures e.sink.None? ==> r == (e, Err(NoOutputSink))
    ensures e.sink.Some? && graphId == 0 ==> r == MainConnected(e, node, e.sink.value)
    ensures e.sink.Some? && graphId != 0 && graphId !in e.subs ==> r == (e, Err(MissingSubGraph(graphId)))
    ensures e.sink.Some? && graphId != 0 && graphId in e.subs ==>
              var sub := e.subs[graphId];
              && (r.1.Ok? <==> Known(sub.graph, node))
              && (r.1.Ok? ==>
                    && r.0.subs[graphId].graph.edges == sub.graph.edges + [(node.raw, sub.sinkNode.raw)]
                    && r.0.main.edges == e.main.edges + [(sub.resamplerNode.raw, e.sink.value.raw)])
  {
    if e.sink.None? then (e, Err(NoOutputSink))
    else if graphId == 0 then MainConnected(e, node, e.sink.value)
    else if graphId !in e.subs then (e, Err(MissingSubGraph(graphId)))
    else
      var sub := e.subs[graphId];
      var intoSink := SubConnected(e, graphId, node, sub.sinkNode);
      if intoSink.1.Err? then intoSink
      else MainConnected(intoSink.0, sub.resamplerNode, e.sink.value)
  }

  // --------------------------------------------------------------- rendering

  /**
   * Runs a sub-graph block by block until it has processed `needed` blocks;
   * one that is already there is returned as it is.
   */
  function CaughtUp(sub: SubGraph, needed: nat): (r: SubGraph)
    requires WellFormed(sub.graph)
    ensures WellFormed(r.graph)
    ensures r.blocksProcessed == Max(sub.blocksProcessed, needed)
    ensures r.graph.rendered == sub.graph.rendered +
              (if sub.graph.terminal.Some? then r.blocksProcessed - sub.blocksProcessed else 0)
    ensures r.(graph := r.graph.(rendered := sub.graph.rendered), blocksProcessed := sub.blocksProcessed) == sub
    decreases needed - sub.blocksProcessed
  {
    if sub.blocksProcessed >= needed then sub
    else CaughtUp(sub.(graph := Processed(sub.graph), blocksProcessed := sub.blocksProcessed + 1), needed)
  }

  /** Catching up only runs the processor, so the bridge stays valid. */
  lemma CaughtUpKeepsBridge(r: nat, sub: SubGraph, main: GraphState, needed: nat)
    requires BridgeValid(r, sub, main)
    ensures BridgeValid(r, CaughtUp(sub, needed), main)
  {
    var c := CaughtUp(sub, needed);
    assert c.graph.(rendered := sub.graph.rendered) == sub.graph;
  }

  /**
   * After catching up for main block `n`, a sub-graph has rendered at least
   * the input that `n` output blocks consume, plus the slack, and its counter
   * has not gone back.
   */
  lemma SubGraphStaysAhead(sub: SubGraph, n: nat, rate: nat, mainRate: nat)
    requires mainRate > 0 && WellFormed(sub.graph)
    ensures CaughtUp(sub, BlocksNeeded(n, rate, mainRate)).blocksProcessed >= sub.blocksProcessed
    ensures AheadOf(CaughtUp(sub, BlocksNeeded(n, rate, mainRate)).blocksProcessed, n, rate, mainRate)
  {
    var needed := BlocksNeeded(n, rate, mainRate);
    var blocks := CaughtUp(sub, needed).blocksProcessed;
    MulMono(needed - PacingSlack, blocks - PacingSlack, mainRate);
  }

  /** Every sub-graph caught up to the blocks main block `mainBlocks` needs. */
  function PacedAll(subs: map<nat, SubGraph>, mainBlocks: nat, mainRate: nat): (r: map<nat, SubGraph>)
    requires mainRate > 0 || subs == map[]
    requires forall rate :: rate in subs ==> WellFormed(subs[rate].graph)
  {
    map rate | rate in subs :: CaughtUp(subs[rate], BlocksNeeded(mainBlocks, rate, mainRate))
  }

  /** Partway through pacing: the sub-graphs in `todo` as they were, the others caught up. */
  function PacedExcept(subs: map<nat, SubGraph>, todo: set<nat>, mainBlocks: nat, mainRate: nat): (r: map<nat, SubGraph>)
    requires mainRate > 0 || subs == map[]
    requires forall rate :: rate in subs ==> WellFormed(subs[rate].graph)
  {
    map rate | rate in subs ::
      if rate in todo then subs[rate] else CaughtUp(subs[rate], BlocksNeeded(mainBlocks, rate, mainRate))
  }

  lemma PacedNone(subs: map<nat, SubGraph>, mainBlocks: nat, mainRate: nat)
    requires mainRate > 0 || subs == map[]
    requires forall q :: q in subs ==> WellFormed(subs[q].graph)
    ensures PacedExcept(subs, subs.Keys, mainBlocks, mainRate) == subs
  {
  }

  lemma PacedStep(subs: map<nat, SubGraph>, todo: set<nat>, rate: nat, mainBlocks: nat, mainRate: nat)
    requires mainRate > 0 || subs == map[]
    requires forall q :: q in subs ==> WellFormed(subs[q].graph)
    requires rate in subs && rate in todo
    ensures PacedExcept(subs, todo - {rate}, mainBlocks, mainRate)
              == PacedExcept(subs, todo, mainBlocks, mainRate)[rate := CaughtUp(subs[rate], BlocksNeeded(mainBlocks, rate, mainRate))]
  {
  }

  lemma PacedDone(subs: map<nat, SubGraph>, mainBlocks: nat, mainRate: nat)
    requires mainRate > 0 || subs == map[]
    requires forall q :: q in subs ==> WellFormed(subs[q].graph)
    ensures PacedExcept(subs, {}, mainBlocks, mainRate) == PacedAll(subs, mainBlocks, mainRate)
  {
  }

  /** Pacing keeps every bridge valid. */
  lemma PacedKeepsWiring(e: EngineState, mainBlocks: nat)
    requires Wired(e) && (e.sampleRate > 0 || e.subs == map[])
    ensures Wired(e.(subs := PacedAll(e.subs, mainBlocks, e.sampleRate)))
  {
    forall r | r in e.subs
      ensures BridgeValid(r, PacedAll(e.subs, mainBlocks, e.sampleRate)[r], e.main)
    {
      CaughtUpKeepsBridge(r, e.subs[r], e.main, BlocksNeeded(mainBlocks, r, e.sampleRate));
    }
  }

  /**
   * Every paced sub-graph has rendered at least the input `mainBlocks` output
   * blocks consume plus the slack, and none has gone back.
   */
  lemma PacedStaysAhead(subs: map<nat, SubGraph>, mainBlocks: nat, mainRate: nat)
    requires mainRate > 0
    requires forall q :: q in subs ==> WellFormed(subs[q].graph)
    ensures forall r :: r in subs ==> PacedAll(subs, mainBlocks, mainRate)[r].blocksProcessed >= subs[r].blocksProcessed
    ensures forall r :: r in subs ==>
              AheadOf(PacedAll(subs, mainBlocks, mainRate)[r].blocksProcessed, mainBlocks, r, mainRate)
  {
    forall r | r in subs
      ensures PacedAll(subs, mainBlocks, mainRate)[r].blocksProcessed >= subs[r].blocksProcessed
      ensures AheadOf(PacedAll(subs, mainBlocks, mainRate)[r].blocksProcessed, mainBlocks, r, mainRate)
    {
      SubGraphStaysAhead(subs[r], mainBlocks, r, mainRate);
    }
  }

  /** Every sub-graph caught up to what main block `e.mainBlocks + 1` needs; nothing else changes. */
  function PacedEngine(e: EngineState): (r: EngineState)
    requires Wired(e) && (e.sampleRate > 0 || e.subs == map[])
    ensures Wired(r) && r.subs.Keys == e.subs.Keys && r.(subs := e.subs) == e
  {
    BridgesWellFormed(e);
    PacedKeepsWiring(e, e.mainBlocks + 1);
    e.(subs := PacedAll(e.subs, e.mainBlocks + 1, e.sampleRate))
  }

  /** The main graph runs once and the main block counter advances; nothing else changes. */
  function MainRendered(e: EngineState): (r: EngineState)
    requires Wired(e)
    ensures Wired(r) && r.mainBlocks == e.mainBlocks + 1 && r.main == Processed(e.main)
    ensures r.(main := e.main, mainBlocks := e.mainBlocks) == e
  {
    MainGraphGrown(e, Processed(e.main));
    e.(main := Processed(e.main), mainBlocks := e.mainBlocks + 1)
  }

  /** One main block: every sub-graph catches up to what the next main block needs, then the main graph runs once. */
  function EngineProcessed(e: EngineState): (r: EngineState)
    requires Wired(e) && (e.sampleRate > 0 || e.subs == map[])
    ensures Wired(r)
    ensures r.mainBlocks == e.mainBlocks + 1 && r.main == Processed(e.main) && r.subs.Keys == e.subs.Keys
    ensures r.sink == e.sink && r.channels == e.channels && r.sampleRate == e.sampleRate
  {
    MainRendered(PacedEngine(e))
  }

  lemma EngineProcessedIs(e: EngineState)
    requires Wired(e) && (e.sampleRate > 0 || e.subs == map[])
    ensures forall rate :: rate in e.subs ==> WellFormed(e.subs[rate].graph)
    ensures EngineProcessed(e) == e.(subs := PacedAll(e.subs, e.mainBlocks + 1, e.sampleRate),
                                     main := Processed(e.main), mainBlocks := e.mainBlocks + 1)
  {
  }

  /** The engine after a main block, assembled field by field from the paced sub-graphs. */
  lemma ProcessedFrom(e: EngineState, paced: map<nat, SubGraph>)
    requires Wired(e) && (e.sampleRate > 0 || e.subs == map[])
    requires forall rate :: rate in e.subs ==> WellFormed(e.subs[rate].graph)
    requires paced == PacedAll(e.subs, e.mainBlocks + 1, e.sampleRate)
    ensures EngineState(Processed(e.main), e.sampleRate, e.channels, paced, e.sink, e.mainBlocks + 1) == EngineProcessed(e)
  {
    EngineProcessedIs(e);
  }

  /**
   * After a main block every sub-graph's counter is `max(counter, BlocksNeeded)`,
   * so it never goes back, and it has rendered at least the input the main
   * blocks so far consume plus the slack.
   */
  lemma ProcessedPacesSubGraphs(e: EngineState)
    requires Wired(e) && e.sampleRate > 0
    ensures var r := EngineProcessed(e);
            forall rate :: rate in e.subs ==>
              && r.subs[rate].blocksProcessed == Max(e.subs[rate].blocksProcessed, BlocksNeeded(r.mainBlocks, rate, e.sampleRate))
              && AheadOf(r.subs[rate].blocksProcessed, r.mainBlocks, rate, e.sampleRate)
  {
    BridgesWellFormed(e);
    EngineProcessedIs(e);
    var r := EngineProcessed(e);
    forall rate | rate in e.subs
      ensures r.subs[rate].blocksProcessed == Max(e.subs[rate].blocksProcessed, BlocksNeeded(r.mainBlocks, rate, e.sampleRate))
      ensures AheadOf(r.subs[rate].blocksProcessed, r.mainBlocks, rate, e.sampleRate)
    {
      assert r.subs[rate] == CaughtUp(e.subs[rate], BlocksNeeded(r.mainBlocks, rate, e.sampleRate));
      SubGraphStaysAhead(e.subs[rate], r.mainBlocks, rate, e.sampleRate);
    }
  }

  // ------------------------------------------------------------------ engine

  class Klingt {
    var mainGraph: GraphState
    const sampleRate: nat
    var channels: nat
    var subGraphs: map<nat, SubGraph>
    var sinkNode: Option<NodeId>
    var mainBlocksProcessed: nat

    ghost function State(): EngineState
      reads this
    {
      EngineState(mainGraph, sampleRate, channels, subGraphs, sinkNode, mainBlocksProcessed)
    }

    ghost predicate Valid()
      reads this
    {
      Wired(State())
    }

    /** A stereo engine at `sampleRate` with an empty main graph, no sink and no sub-graphs. */
    constructor (sampleRate: nat)
      ensures Valid() && State() == EngineState(Empty(sampleRate), sampleRate, 2, map[], None, 0)
    {
      mainGraph := Empty(sampleRate);
      this.sampleRate := sampleRate;
      channels := 2;
      subGraphs := map[];
      sinkNode := None;
      mainBlocksProcessed := 0;
    }

    method WithChannels(channels: nat)
      requires Valid()
      modifies this
      ensures Valid() && State() == old(State()).(channels := channels)
    {
      this.channels := channels;
    }

    /** Adds the output sink to the main graph and makes it the main graph's terminal. */
    method WithOutput(sink: NodeInfo)
      requires Valid()
      modifies this
      ensures Valid() && State() == OutputAdded(old(State()), sink)
    {
      var id := NextId(mainGraph);
      mainGraph := AddNode(mainGraph, sink, DefaultQueueSize);
      sinkNode := Some(id);
      var t := WithTerminal(mainGraph, id);
      mainGraph := t.value;
    }

    /** Adds a node to the main graph or to the sub-graph of its native rate. */
    method Add<M>(info: NodeInfo) returns (handle: Handle<M>)
      requires Valid()
      modifies this
      ensures Valid() && (State(), handle.nodeId) == Added(old(State()), info)
      ensures handle.graphId == GraphId(Placement(info.nativeSampleRate, sampleRate))
      ensures fresh(handle.sender) && handle.sender.Valid() && handle.sender.items == []
      ensures handle.sender.capacity == DefaultQueueSize
    {
      var placement := Placement(info.nativeSampleRate, sampleRate);
      if placement.Some? {
        handle := AddToSubGraph(info, placement.value);
        return;
      }
      var id := NextId(mainGraph);
      mainGraph := AddNode(mainGraph, info, DefaultQueueSize);
      var sender := new Fifo<M>(DefaultQueueSize);
      handle := new Handle(id, 0, sender);
    }

    /** Adds a node to the sub-graph of `rate`, creating the sub-graph and its bridge first when there is none. */
    method AddToSubGraph<M>(info: NodeInfo, rate: nat) returns (handle: Handle<M>)
      requires Valid()
      modifies this
      ensures Valid() && (State(), handle.nodeId) == AddedToSubGraph(old(State()), info, rate)
      ensures handle.graphId == rate
      ensures fresh(handle.sender) && handle.sender.Valid() && handle.sender.items == []
      ensures handle.sender.capacity == DefaultQueueSize
    {
      if rate !in subGraphs {
        var _, _ := CreateSubGraph(rate, Max(info.numOutputs, channels));
      }
      handle := JoinSubGraph(info, rate);
    }

    /** Adds a node to the existing sub-graph of `rate`. */
    method JoinSubGraph<M>(info: NodeInfo, rate: nat) returns (handle: Handle<M>)
      requires Valid() && rate in subGraphs
      modifies this
      ensures Valid() && (State(), handle.nodeId) == SubGraphJoined(old(State()), info, rate)
      ensures handle.graphId == rate
      ensures fresh(handle.sender) && handle.sender.Valid() && handle.sender.items == []
      ensures handle.sender.capacity == DefaultQueueSize
    {
      var sub := subGraphs[rate];
      var id := NextId(sub.graph);
      subGraphs := subGraphs[rate := sub.(graph := AddNode(sub.graph, info, DefaultQueueSize))];
      var sender := new Fifo<M>(DefaultQueueSize);
      handle := new Handle(id, rate, sender);
    }

    /**
     * Builds the bridge for `rate`: a ring of `RingSize(rate, channels)` samples,
     * a new sub-graph whose only node, the `RtrbSink` writing the ring, is its
     * terminal, and a `ResamplingSource` reading the ring, added to the main graph.
     */
    method CreateSubGraph(rate: nat, channels: nat)
      returns (sink: RtrbSinkNode.RtrbSink, resampler: Resampler.ResamplingSource)
      requires Valid() && rate !in subGraphs
      modifies this
      ensures Valid() && State() == SubGraphCreated(old(State()), rate, channels)
      ensures fresh(sink) && fresh(resampler) && fresh(sink.producer)
      ensures sink.producer == resampler.consumer && sink.producer.items == []
      ensures sink.producer.capacity == RingSize(rate, channels)
      ensures sink.Info() == RtrbSinkNode.SinkInfo
      ensures sink.channels == Max(channels, 1) && resampler.channels == Min(channels, Resampler.MaxChannels)
      ensures resampler.inputSampleRate == rate && resampler.position == 0.0 && !resampler.primed
      ensures resampler.Valid()
    {
      var ring := new Fifo<real>(RingSize(rate, channels));
      var graph := Empty(rate);
      sink := new RtrbSinkNode.RtrbSink(ring, channels);
      var sinkId := NextId(graph);
      graph := AddNode(graph, sink.Info(), DefaultQueueSize);
      var t := WithTerminal(graph, sinkId);
      graph := t.value;
      resampler := new Resampler.ResamplingSource(ring, channels, rate);
      var resamplerId := NextId(mainGraph);
      mainGraph := AddNode(mainGraph, resampler.Info(), DefaultQueueSize);
      subGraphs := subGraphs[rate := SubGraph(graph, rate, sinkId, resamplerId, 0)];
    }

    /** Connects `from` to `to`, within one graph or from a sub-graph through its bridge. */
    method Connect<M1, M2>(from: Handle<M1>, to: Handle<M2>) returns (r: Result<(), Panic>)
      requires Valid()
      modifies this
      ensures Valid() && (State(), r) == EngineConnected(old(State()), from.graphId, from.nodeId, to.graphId, to.nodeId)
    {
      match ConnectRoute(from.graphId, to.graphId) {
        case Unsupported =>
          r := Err(UnsupportedConnection(from.graphId, to.graphId));
        case Direct(g) =>
          if g == 0 {
            r := ConnectMain(from.nodeId, to.nodeId);
          } else if g !in subGraphs {
            r := Err(MissingSubGraph(g));
          } else {
            r := ConnectSub(g, from.nodeId, to.nodeId);
          }
        case Bridged(rate) =>
          if rate !in subGraphs {
            r := Err(MissingSubGraph(rate));
          } else {
            var sub := subGraphs[rate];
            r := ConnectSub(rate, from.nodeId, sub.sinkNode);
            if r.Ok? {
              r := ConnectMain(sub.resamplerNode, to.nodeId);
            }
          }
      }
    }

    /** One edge in the main graph. */
    method ConnectMain(from: NodeId, to: NodeId) returns (r: Result<(), Panic>)
      requires Valid()
      modifies this
      ensures Valid() && (State(), r) == MainConnected(old(State()), from, to)
    {
      var c := Connected(mainGraph, from, to);
      if c.Err? {
        return Err(c.error);
      }
      mainGraph := c.value;
      r := Ok(());
    }

    /** One edge in the sub-graph of `rate`. */
    method ConnectSub(rate: nat, from: NodeId, to: NodeId) returns (r: Result<(), Panic>)
      requires Valid() && rate in subGraphs
      modifies this
      ensures Valid() && (State(), r) == SubConnected(old(State()), rate, from, to)
    {
      var sub := subGraphs[rate];
      var c := Connected(sub.graph, from, to);
      if c.Err? {
        return Err(c.error);
      }
      subGraphs := subGraphs[rate := sub.(graph := c.value)];
      r := Ok(());
    }

    /** Connects a node to the output sink, through its sub-graph's bridge when it has one. */
    method Output<M>(handle: Handle<M>) returns (r: Result<(), Panic>)
      requires Valid()
      modifies this
      ensures Valid() && (State(), r) == OutputConnected(old(State()), handle.graphId, handle.nodeId)
    {
      if sinkNode.None? {
        return Err(NoOutputSink);
      }
      var sinkId := sinkNode.value;
      if handle.graphId == 0 {
        r := ConnectMain(handle.nodeId, sinkId);
      } else if handle.graphId !in subGraphs {
        r := Err(MissingSubGraph(handle.graphId));
      } else {
        var sub := subGraphs[handle.graphId];
        r := ConnectSub(handle.graphId, handle.nodeId, sub.sinkNode);
        if r.Ok? {
          r := ConnectMain(sub.resamplerNode, sinkId);
        }
      }
    }

    /**
     * Renders one main block: every sub-graph first catches up to the blocks
     * the next main block needs, one rate at a time, then the main graph runs once.
     */
    method Process()
      requires Valid()
      requires sampleRate > 0 || subGraphs == map[]
      modifies this
      ensures Valid() && State() == EngineProcessed(old(State()))
    {
      ghost var e := EngineState(mainGraph, sampleRate, channels, subGraphs, sinkNode, mainBlocksProcessed);
      BridgesWellFormed(e);
      var paced := Pace(subGraphs, mainBlocksProcessed + 1, sampleRate);
      ProcessedFrom(e, paced);
      subGraphs := paced;
      mainGraph := Processed(mainGraph);
      mainBlocksProcessed := mainBlocksProcessed + 1;
    }
  }

  /** Catches every sub-graph up, one rate at a time, to what main block `mainBlocks` needs. */
  method Pace(subs: map<nat, SubGraph>, mainBlocks: nat, mainRate: nat) returns (paced: map<nat, SubGraph>)
    requires mainRate > 0 || subs == map[]
    requires forall q :: q in subs ==> WellFormed(subs[q].graph)
    ensures paced == PacedAll(subs, mainBlocks, mainRate)
  {
    paced := subs;
    var rates := subs.Keys;
    PacedNone(subs, mainBlocks, mainRate);
    while rates != {}
      invariant rates <= subs.Keys
      invariant paced == PacedExcept(subs, rates, mainBlocks, mainRate)
      decreases rates
    {
      var r :| r in rates;
      var caught := CatchUp(subs[r], BlocksNeeded(mainBlocks, r, mainRate));
      PacedStep(subs, rates, r, mainBlocks, mainRate);
      paced := paced[r := caught];
      rates := rates - {r};
    }
    PacedDone(subs, mainBlocks, mainRate);
  }

  /** Runs a sub-graph block by block until it has processed `needed` blocks. */
  method CatchUp(sub: SubGraph, needed: nat) returns (caught: SubGraph)
    requires WellFormed(sub.graph)
    ensures caught == CaughtUp(sub, needed)
  {
    caught := sub;
    while caught.blocksProcessed < needed
      invariant WellFormed(caught.graph)
      invariant CaughtUp(caught, needed) == CaughtUp(sub, needed)
      decreases needed - caught.blocksProcessed
    {
      caught := caught.(graph := Processed(caught.graph), blocksProcessed := caught.blocksProcessed + 1);
    }
  }
}
