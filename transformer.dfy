/**
 * The conversion of the career graph into the records of the flow-chart view:
 * one renderer node per graph node and one styled edge per graph edge, then
 * each node moved to the top-left corner of the box the layout engine centred
 * for it. The layout engine itself is a parameter: `centre` gives the centre
 * it computed for each node id.
 */
module FlowTransform {
  import opened Graph

  /** The box every node is laid out as. */
  const NodeWidth: real := 172.0
  const NodeHeight: real := 36.0

  /** The colour of every edge. */
  const EdgeColour: string := "#555"

  datatype Position = Position(x: real, y: real)

  /** The `data` record of a renderer node: the graph node's own fields. */
  datatype NodeData = NodeData(name: string, kind: string, time: real, value: real)

  datatype EdgeStyle = EdgeStyle(strokeWidth: real, stroke: string)

  /** A renderer edge. */
  datatype FlowEdge = FlowEdge(id: string, source: string, target: string, style: EdgeStyle)

  /** The renderer component for a node type: jobs get the job component, everything else the skill one. */
  function RendererType(kind: string): (t: string)
    ensures t == "jobNode" || t == "skillNode"
    ensures t == "jobNode" <==> kind == "job"
  {
    if kind == "job" then "jobNode" else "skillNode"
  }

  /** `necessity * 4 + 1`: the line width that shows how strongly an edge is needed. */
  function StrokeWidth(necessity: real): (w: real)
    ensures 0.0 <= necessity <= 1.0 ==> 1.0 <= w <= 5.0
    ensures necessity == 0.0 ==> w == 1.0
    ensures necessity == 1.0 ==> w == 5.0
  {
    necessity * 4.0 + 1.0
  }

  /** The width determines the necessity, and a stronger need draws a thicker line. */
  lemma StrokeWidthFaithful(a: real, b: real)
    ensures (StrokeWidth(a) - 1.0) / 4.0 == a
    ensures a < b <==> StrokeWidth(a) < StrokeWidth(b)
  {
  }

  function ToFlowEdge(e: GraphEdge): FlowEdge
  {
    FlowEdge(e.id, e.source, e.target, EdgeStyle(StrokeWidth(e.necessity), EdgeColour))
  }

  /** The `edges.map(...)` of `getInitialElements`: one styled edge per graph edge, in order. */
  function ToFlowEdges(edges: seq<GraphEdge>): (r: seq<FlowEdge>)
    ensures |r| == |edges|
    ensures forall i :: 0 <= i < |edges| ==>
      r[i].id == edges[i].id && r[i].source == edges[i].source && r[i].target == edges[i].target
      && r[i].style.stroke == EdgeColour
      && (r[i].style.strokeWidth - 1.0) / 4.0 == edges[i].necessity
  {
    seq(|edges|, i requires 0 <= i < |edges| => ToFlowEdge(edges[i]))
  }

  /** When all necessities are weights, every line is 1 to 5 units wide. */
  lemma FlowEdgeWidths(g: GraphData)
    requires NecessitiesInRange(g)
    ensures forall i :: 0 <= i < |g.edges| ==> 1.0 <= ToFlowEdges(g.edges)[i].style.strokeWidth <= 5.0
  {
  }

  /** When the graph's edges join its nodes, every renderer edge joins two renderer nodes: their ids are the graph's node ids. */
  lemma FlowEdgesJoinNodes(g: GraphData)
    requires EndpointsExist(g)
    ensures forall e :: e in ToFlowEdges(g.edges) ==> e.source in NodeIds(g) && e.target in NodeIds(g)
  {
    var r := ToFlowEdges(g.edges);
    forall e | e in r ensures e.source in NodeIds(g) && e.target in NodeIds(g) {
      var i :| 0 <= i < |r| && r[i] == e;
      HasNodeIff(g, g.edges[i].source);
      HasNodeIff(g, g.edges[i].target);
    }
  }

  /** The top-left corner of the node box centred at `c`. */
  function TopLeft(c: Position): (p: Position)
    ensures p.x + NodeWidth / 2.0 == c.x && p.y + NodeHeight / 2.0 == c.y
  {
    Position(c.x - NodeWidth / 2.0, c.y - NodeHeight / 2.0)
  }

  /** The corner lies 86 units left of and 18 units above the centre. */
  lemma TopLeftOffset(c: Position)
    ensures TopLeft(c) == Position(c.x - 86.0, c.y - 18.0)
  {
  }

  /** A renderer node; the layout writes its position in place. */
  class FlowNode {
    const id: string
    const data: NodeData
    const rendererType: string
    var position: Position

    /** The record `getInitialElements` builds for a graph node, placed at the origin. */
    constructor (n: GraphNode)
      ensures id == n.id && data == NodeData(n.name, n.kind, n.time, n.value)
      ensures rendererType == RendererType(n.kind) && position == Position(0.0, 0.0)
    {
      id := n.id;
      data := NodeData(n.name, n.kind, n.time, n.value);
      rendererType := RendererType(n.kind);
      position := Position(0.0, 0.0);
    }
  }

  /** The renderer node built for `n`. */
  predicate Renders(f: FlowNode, n: GraphNode)
  {
    f.id == n.id && f.data == NodeData(n.name, n.kind, n.time, n.value) && f.rendererType == RendererType(n.kind)
  }

  /** The `nodes.map(...)` of `getInitialElements`: one new renderer node per graph node, in order, all at the origin. */
  method ToFlowNodes(nodes: seq<GraphNode>) returns (flow: seq<FlowNode>)
    ensures |flow| == |nodes|
    ensures forall i :: 0 <= i < |nodes| ==> fresh(flow[i]) && Renders(flow[i], nodes[i]) && flow[i].position == Position(0.0, 0.0)
  {
    flow := [];
    for i := 0 to |nodes|
      invariant |flow| == i
      invariant forall j :: 0 <= j < i ==> fresh(flow[j]) && Renders(flow[j], nodes[j]) && flow[j].position == Position(0.0, 0.0)
    {
      var f := new FlowNode(nodes[i]);
      flow := flow + [f];
    }
  }

  /**
   * The position step of `getLayoutedElements`: every node is moved to the
   * top-left corner of the box centred where the layout put its id. Nothing
   * but positions is written, and the same lists are returned.
   */
  method Layout(nodes: seq<FlowNode>, edges: seq<FlowEdge>, centre: string -> Position)
    returns (laidNodes: seq<FlowNode>, laidEdges: seq<FlowEdge>)
    modifies set n | n in nodes
    ensures laidNodes == nodes && laidEdges == edges
    ensures forall i :: 0 <= i < |nodes| ==> nodes[i].position == TopLeft(centre(nodes[i].id))
  {
    for i := 0 to |nodes|
      invariant forall j :: 0 <= j < i ==> nodes[j].position == TopLeft(centre(nodes[j].id))
    {
      nodes[i].position := TopLeft(centre(nodes[i].id));
    }
    laidNodes, laidEdges := nodes, edges;
  }

  /** `getInitialElements`: the renderer records of the graph, laid out. */
  method GetInitialElements(g: GraphData, centre: string -> Position) returns (nodes: seq<FlowNode>, edges: seq<FlowEdge>)
    ensures |nodes| == |g.nodes|
    ensures forall i :: 0 <= i < |g.nodes| ==>
      (fresh(nodes[i]) && Renders(nodes[i], g.nodes[i]) && nodes[i].position == TopLeft(centre(g.nodes[i].id)))
    ensures edges == ToFlowEdges(g.edges)
  {
    var flowNodes := ToFlowNodes(g.nodes);
    var flowEdges := ToFlowEdges(g.edges);
    nodes, edges := Layout(flowNodes, flowEdges, centre);
  }
}
