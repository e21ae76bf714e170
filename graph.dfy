/**
 * One audio graph at a fixed sample rate: dense node ids, the id-to-index map,
 * edges, the terminal node and the per-node message queues.  What the graph
 * processor does on a block (execution order, buffer routing) belongs to a
 * foreign library and is modelled as one opaque step, counted by `rendered`.
 */
module Graph {
  import opened Wrappers
  import opened Node
  import opened Ring

  /** Capacity of the message queue `Add` gives every node. */
  const DefaultQueueSize: nat := 64

  /** A node as the graph holds it: what it reports, how many output buffers it owns, its queue capacity. */
  datatype NodeData = NodeData(info: NodeInfo, buffers: nat, queueSize: nat)

  /** Output buffers allocated for a node: two for a two-output node, one for any other count, sinks included. */
  function BufferCount(numOutputs: nat): (n: nat)
    ensures n >= 1
    ensures n == 2 <==> numOutputs == 2
  {
    if numOutputs == 2 then 2 else 1
  }

  /**
   * A graph's topology: nodes in insertion order, edges as (from index, to
   * index) pairs, the terminal's index, and the blocks the processor has run.
   * Ids are handed out densely from 0 and nodes are never removed, so the
   * node with id `k` is the `k`-th one added and sits at index `k`; the
   * id-to-index map `AudioGraph` keeps is that identity (see its `Valid`).
   */
  datatype GraphState = GraphState(
    ctx: ProcessContext,
    nodes: seq<NodeData>,
    edges: seq<(nat, nat)>,
    terminal: Option<nat>,
    rendered: nat)

  /** The id the next node gets. */
  function NextId(g: GraphState): NodeId
  {
    NodeId(|g.nodes|)
  }

  /** `id` names a node of `g`. */
  predicate Known(g: GraphState, id: NodeId)
  {
    id.raw < |g.nodes|
  }

  /** Edges and the terminal name existing nodes; every node sees the 64-sample block. */
  ghost predicate WellFormed(g: GraphState)
  {
    && g.ctx.bufferSize == BlockSize
    && (forall k :: 0 <= k < |g.edges| ==> g.edges[k].0 < |g.nodes| && g.edges[k].1 < |g.nodes|)
    && (g.terminal.Some? ==> g.terminal.value < |g.nodes|)
  }

  /** A graph at `sampleRate` with no nodes, no edges and no terminal. */
  function Empty(sampleRate: nat): (g: GraphState)
    ensures WellFormed(g) && g.ctx.sampleRate == sampleRate
    ensures g.nodes == [] && g.edges == [] && g.terminal == None
    ensures forall id :: !Known(g, id)
  {
    GraphState(ProcessContext(sampleRate, BlockSize), [], [], None, 0)
  }

  /**
   * Adding a node: it gets the next id, which named no node before, and is
   * appended with its buffers; every earlier id keeps its node; nothing else
   * changes.
   */
  function AddNode(g: GraphState, info: NodeInfo, queueSize: nat): (r: GraphState)
    requires WellFormed(g)
    ensures WellFormed(r)
    ensures !Known(g, NextId(g)) && Known(r, NextId(g)) && NextId(r).raw == NextId(g).raw + 1
    ensures r.nodes[NextId(g).raw] == NodeData(info, BufferCount(info.numOutputs), queueSize)
    ensures r.nodes[..|g.nodes|] == g.nodes
    ensures r.ctx == g.ctx && r.edges == g.edges && r.terminal == g.terminal && r.rendered == g.rendered
  {
    g.(nodes := g.nodes + [NodeData(info, BufferCount(info.numOutputs), queueSize)])
  }

  /** Connecting: one more edge `from -> to` when both ids are known; an unknown id panics. */
  function Connected(g: GraphState, from: NodeId, to: NodeId): (r: Result<GraphState, Panic>)
    requires WellFormed(g)
    ensures r.Ok? <==> Known(g, from) && Known(g, to)
    ensures r.Err? ==> r.error == UnknownNode(if !Known(g, from) then from else to)
    ensures r.Ok? ==> WellFormed(r.value)
    ensures r.Ok? ==> r.value.edges == g.edges + [(from.raw, to.raw)] && r.value.(edges := g.edges) == g
  {
    if !Known(g, from) then Err(UnknownNode(from))
    else if !Known(g, to) then Err(UnknownNode(to))
    else Ok(g.(edges := g.edges + [(from.raw, to.raw)]))
  }

  /** Choosing the terminal: a known id's node becomes it; an unknown id panics. */
  function WithTerminal(g: GraphState, id: NodeId): (r: Result<GraphState, Panic>)
    requires WellFormed(g)
    ensures r.Ok? <==> Known(g, id)
    ensures r.Err? ==> r.error == UnknownNode(id)
    ensures r.Ok? ==> WellFormed(r.value) && r.value.terminal == Some(id.raw) && r.value.(terminal := g.terminal) == g
  {
    if !Known(g, id) then Err(UnknownNode(id))
    else Ok(g.(terminal := Some(id.raw)))
  }

  /** One block: the processor runs up to the terminal; without one nothing happens. */
  function Processed(g: GraphState): (r: GraphState)
    requires WellFormed(g)
    ensures WellFormed(r)
    ensures g.terminal.None? ==> r == g
    ensures g.terminal.Some? ==> r.rendered == g.rendered + 1
    ensures r.(rendered := g.rendered) == g
  {
    if g.terminal.Some? then g.(rendered := g.rendered + 1) else g
  }

  /** The sending end of a node's message queue, tagged with the node's id. */
  class NodeHandle<M> {
    const id: NodeId
    const sender: Fifo<M>

    constructor (id: NodeId, sender: Fifo<M>)
      ensures this.id == id && this.sender == sender
    {
      this.id := id;
      this.sender := sender;
    }

    /** Queues `msg` for the node's next block, or hands it back when the queue is full. */
    method Send(msg: M) returns (r: Result<(), M>)
      requires sender.Valid()
      modifies sender
      ensures sender.Valid()
      ensures old(|sender.items|) < sender.capacity ==> r == Ok(()) && sender.items == old(sender.items) + [msg]
      ensures old(|sender.items|) == sender.capacity ==> r == Err(msg) && sender.items == old(sender.items)
    {
      r := sender.Push(msg);
    }
  }

  /**
   * What a node that reads its message iterator to the end receives: every
   * message queued for it, oldest first, popped until the first empty pop,
   * which leaves the queue empty. The iterator pops lazily, so a node that
   * never reads it leaves its queue as it was.
   */
  method DrainMessages<M>(receiver: Fifo<M>) returns (messages: seq<M>)
    requires receiver.Valid()
    modifies receiver
    ensures receiver.Valid()
    ensures messages == old(receiver.items) && receiver.items == []
  {
    messages := [];
    var next := receiver.Pop();
    while next.Some?
      invariant receiver.Valid()
      invariant messages + (if next.Some? then [next.value] else []) + receiver.items == old(receiver.items)
      invariant next.None? ==> receiver.items == []
      decreases |receiver.items| + (if next.Some? then 1 else 0)
    {
      messages := messages + [next.value];
      next := receiver.Pop();
    }
  }

  class AudioGraph {
    const ctx: ProcessContext
    var nodes: seq<NodeData>
    var edges: seq<(nat, nat)>
    /** Id to graph index, for every node added. */
    var nodeIndices: map<NodeId, nat>
    var nextNodeId: nat
    var terminal: Option<nat>
    /** Blocks the processor has run to the terminal. */
    var rendered: nat

    ghost function State(): (g: GraphState)
      reads this
    {
      GraphState(ctx, nodes, edges, terminal, rendered)
    }

    /** The topology is well formed and the id map is the identity on the ids handed out so far. */
    ghost predicate Valid()
      reads this
    {
      && WellFormed(State())
      && nextNodeId == |nodes|
      && (forall id :: id in nodeIndices <==> id.raw < nextNodeId)
      && (forall id :: id in nodeIndices ==> nodeIndices[id] == id.raw)
    }

    constructor (sampleRate: nat)
      ensures Valid() && State() == Empty(sampleRate)
    {
      ctx := ProcessContext(sampleRate, BlockSize);
      nodes := [];
      edges := [];
      nodeIndices := map[];
      nextNodeId := 0;
      terminal := None;
      rendered := 0;
    }

    function SampleRate(): (rate: nat)
    {
      ctx.sampleRate
    }

    /** Adds a node with the default 64-message queue. */
    method Add<M>(info: NodeInfo) returns (handle: NodeHandle<M>)
      requires Valid()
      modifies this
      ensures Valid() && State() == AddNode(old(State()), info, DefaultQueueSize)
      ensures handle.id == NextId(old(State()))
      ensures fresh(handle.sender) && handle.sender.Valid()
      ensures handle.sender.items == [] && handle.sender.capacity == DefaultQueueSize
    {
      handle := AddWithQueueSize(info, DefaultQueueSize);
    }

    /** Gives the node the next id, appends it with its buffers and maps the id to its index. */
    method AddWithQueueSize<M>(info: NodeInfo, queueSize: nat) returns (handle: NodeHandle<M>)
      requires Valid()
      modifies this
      ensures Valid() && State() == AddNode(old(State()), info, queueSize)
      ensures handle.id == NextId(old(State()))
      ensures fresh(handle.sender) && handle.sender.Valid()
      ensures handle.sender.items == [] && handle.sender.capacity == queueSize
    {
      var id := NodeId(nextNodeId);
      nextNodeId := nextNodeId + 1;
      var queue := new Fifo<M>(queueSize);
      var idx := |nodes|;
      nodes := nodes + [NodeData(info, BufferCount(info.numOutputs), queueSize)];
      nodeIndices := nodeIndices[id := idx];
      handle := new NodeHandle(id, queue);
    }

    /** Appends one edge `from -> to`; an id the graph does not know panics and changes nothing. */
    method Connect(from: NodeId, to: NodeId) returns (r: Result<(), Panic>)
      requires Valid()
      modifies this
      ensures Valid()
      ensures var c := Connected(old(State()), from, to);
              if c.Ok? then r == Ok(()) && State() == c.value
              else r == Err(c.error) && State() == old(State())
    {
      if from !in nodeIndices {
        return Err(UnknownNode(from));
      }
      if to !in nodeIndices {
        return Err(UnknownNode(to));
      }
      edges := edges + [(nodeIndices[from], nodeIndices[to])];
      r := Ok(());
    }

    /** Makes `id`'s node the one each block is processed up to; an unknown id panics and changes nothing. */
    method SetTerminal(id: NodeId) returns (r: Result<(), Panic>)
      requires Valid()
      modifies this
      ensures Valid()
      ensures var t := WithTerminal(old(State()), id);
              if t.Ok? then r == Ok(()) && State() == t.value
              else r == Err(t.error) && State() == old(State())
    {
      if id !in nodeIndices {
        return Err(UnknownNode(id));
      }
      terminal := Some(nodeIndices[id]);
      r := Ok(());
    }

    /** Runs the processor for one block up to the terminal; without a terminal nothing happens. */
    method Process()
      requires Valid()
      modifies this
      ensures Valid() && State() == Processed(old(State()))
    {
      if terminal.Some? {
        rendered := rendered + 1;
      }
    }
  }
}
