/**
 * The career graph's data: skill and job nodes, and weighted dependency edges
 * from a prerequisite to what it leads to. Times are hours, values scores and
 * necessities weights, kept as exact reals.
 */
module Graph {

  /** A node; `kind` is the source's `type` field, "skill" or "job". */
  datatype GraphNode = GraphNode(id: string, name: string, kind: string, time: real, value: real)

  /** A dependency edge: `source` is needed for `target`, with weight `necessity`. */
  datatype GraphEdge = GraphEdge(id: string, source: string, target: string, necessity: real)

  datatype GraphData = GraphData(nodes: seq<GraphNode>, edges: seq<GraphEdge>)

  /** No string occurs twice. */
  predicate Distinct(s: seq<string>) {
    forall i, j :: 0 <= i < j < |s| ==> s[i] != s[j]
  }

  /** The entry at `i` does not occur after `i`. */
  predicate FreshFrom(s: seq<string>, i: int)
    requires 0 <= i < |s|
  {
    forall j :: i < j < |s| ==> s[i] != s[j]
  }

  /** Checking distinctness one entry at a time. */
  lemma DistinctByRows(s: seq<string>)
    requires forall i :: 0 <= i < |s| ==> FreshFrom(s, i)
    ensures Distinct(s)
  {
    forall i, j | 0 <= i < j < |s| ensures s[i] != s[j] {
      assert FreshFrom(s, i);
    }
  }

  function NodeIds(g: GraphData): (ids: seq<string>)
    ensures |ids| == |g.nodes|
    ensures forall i :: 0 <= i < |g.nodes| ==> ids[i] == g.nodes[i].id
  {
    seq(|g.nodes|, i requires 0 <= i < |g.nodes| => g.nodes[i].id)
  }

  function EdgeIds(g: GraphData): (ids: seq<string>)
    ensures |ids| == |g.edges|
    ensures forall i :: 0 <= i < |g.edges| ==> ids[i] == g.edges[i].id
  {
    seq(|g.edges|, i requires 0 <= i < |g.edges| => g.edges[i].id)
  }

  predicate HasNode(g: GraphData, id: string) {
    exists k :: 0 <= k < |g.nodes| && g.nodes[k].id == id
  }

  /** A node with a given id exists exactly when the id is among the node ids. */
  lemma HasNodeIff(g: GraphData, id: string)
    ensures HasNode(g, id) <==> id in NodeIds(g)
  {
    if id in NodeIds(g) {
      var k :| 0 <= k < |NodeIds(g)| && NodeIds(g)[k] == id;
      assert g.nodes[k].id == id;
    }
  }

  /** Every edge joins two nodes of the graph. */
  predicate EndpointsExist(g: GraphData) {
    forall i :: 0 <= i < |g.edges| ==> HasNode(g, g.edges[i].source) && HasNode(g, g.edges[i].target)
  }

  /** Every necessity is a weight between 0 and 1. */
  predicate NecessitiesInRange(g: GraphData) {
    forall i :: 0 <= i < |g.edges| ==> 0.0 <= g.edges[i].necessity <= 1.0
  }

  /** Every value lies in 0..100. */
  predicate ValuesInRange(g: GraphData) {
    forall i :: 0 <= i < |g.nodes| ==> 0.0 <= g.nodes[i].value <= 100.0
  }

  /** Every node is a skill or a job. */
  predicate KindsKnown(g: GraphData) {
    forall i :: 0 <= i < |g.nodes| ==> g.nodes[i].kind == "skill" || g.nodes[i].kind == "job"
  }

  /** Jobs take no time to learn; skills take some. */
  predicate TimesFitKinds(g: GraphData) {
    forall i :: 0 <= i < |g.nodes| ==>
      (g.nodes[i].kind == "job" ==> g.nodes[i].time == 0.0) && (g.nodes[i].kind == "skill" ==> g.nodes[i].time > 0.0)
  }

  predicate NoSelfLoops(g: GraphData) {
    forall i :: 0 <= i < |g.edges| ==> g.edges[i].source != g.edges[i].target
  }

  /** No edge leaves `id`: nothing depends on it. */
  predicate IsSink(g: GraphData, id: string) {
    forall i :: 0 <= i < |g.edges| ==> g.edges[i].source != id
  }

  /** Some edge goes from `a` to `b`. */
  predicate HasEdge(g: GraphData, a: string, b: string) {
    exists i :: 0 <= i < |g.edges| && g.edges[i].source == a && g.edges[i].target == b
  }

  /** A walk along edges, visiting the ids of `p` in order. */
  predicate IsPath(g: GraphData, p: seq<string>) {
    |p| >= 1 && forall k :: 0 <= k < |p| - 1 ==> HasEdge(g, p[k], p[k + 1])
  }

  /** No walk of one or more edges returns to where it started. */
  ghost predicate Acyclic(g: GraphData) {
    forall p :: IsPath(g, p) && |p| >= 2 ==> p[0] != p[|p| - 1]
  }

  /** The edge goes from a lower rank to a higher one. */
  predicate Climbs(rank: map<string, nat>, e: GraphEdge) {
    e.source in rank && e.target in rank && rank[e.source] < rank[e.target]
  }

  /** A layering: every edge climbs. */
  predicate RankedBy(g: GraphData, rank: map<string, nat>) {
    forall i :: 0 <= i < |g.edges| ==> Climbs(rank, g.edges[i])
  }

  /** Ranks strictly grow along every walk of one or more edges. */
  lemma {:induction false} RankGrowsAlongPath(g: GraphData, rank: map<string, nat>, p: seq<string>)
    requires RankedBy(g, rank) && IsPath(g, p) && |p| >= 2
    ensures p[0] in rank && p[|p| - 1] in rank && rank[p[0]] < rank[p[|p| - 1]]
  {
    assert HasEdge(g, p[0], p[1]);
    if |p| > 2 {
      var q := p[1..];
      forall k | 0 <= k < |q| - 1 ensures HasEdge(g, q[k], q[k + 1]) {
        assert q[k] == p[k + 1] && q[k + 1] == p[k + 2];
      }
      RankGrowsAlongPath(g, rank, q);
    }
  }

  /** A graph that has a layering has no cycle. */
  lemma RankedIsAcyclic(g: GraphData, rank: map<string, nat>)
    requires RankedBy(g, rank)
    ensures Acyclic(g)
  {
    forall p | IsPath(g, p) && |p| >= 2 ensures p[0] != p[|p| - 1] {
      RankGrowsAlongPath(g, rank, p);
    }
  }

  /** A layered graph has no self-loop either. */
  lemma RankedHasNoSelfLoops(g: GraphData, rank: map<string, nat>)
    requires RankedBy(g, rank)
    ensures NoSelfLoops(g)
  {
  }
}
