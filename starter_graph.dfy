/**
 * The starter career graph: three front-end skills leading to one front-end
 * job. Its values are written as fractions of 1, which still lie in the
 * documented 0..100 range.
 */
module StarterGraph {
  import opened Graph
  import SkillImport

  const Starter: GraphData := GraphData(
    [
      GraphNode("js", "JavaScript", "skill", 100.0, 0.85),
      GraphNode("react", "React", "skill", 150.0, 0.9),
      GraphNode("fe_dev", "前端开发", "job", 0.0, 0.95),
      GraphNode("html", "HTML/CSS", "skill", 50.0, 0.7)
    ],
    [
      GraphEdge("e-html-js", "html", "js", 0.8),
      GraphEdge("e-js-react", "js", "react", 0.95),
      GraphEdge("e-react-fe", "react", "fe_dev", 0.85),
      GraphEdge("e-js-fe", "js", "fe_dev", 0.4)
    ])

  const StarterRanks: map<string, nat> := map["html" := 0, "js" := 1, "react" := 2, "fe_dev" := 3]

  /** Node ids and edge ids are unique. */
  lemma StarterIdsDistinct()
    ensures Distinct(NodeIds(Starter)) && Distinct(EdgeIds(Starter))
  {
    assert NodeIds(Starter) == ["js", "react", "fe_dev", "html"];
    assert EdgeIds(Starter) == ["e-html-js", "e-js-react", "e-react-fe", "e-js-fe"];
  }

  /** Every edge joins two nodes of the graph. */
  lemma StarterEndpoints()
    ensures EndpointsExist(Starter)
  {
    assert NodeIds(Starter) == ["js", "react", "fe_dev", "html"];
    forall i | 0 <= i < |Starter.edges|
      ensures HasNode(Starter, Starter.edges[i].source) && HasNode(Starter, Starter.edges[i].target)
    {
      HasNodeIff(Starter, Starter.edges[i].source);
      HasNodeIff(Starter, Starter.edges[i].target);
    }
  }

  /** Every node is a skill or a job; necessities are weights and values lie in 0..100. */
  lemma StarterAttributes()
    ensures KindsKnown(Starter) && NecessitiesInRange(Starter) && ValuesInRange(Starter)
  {
  }

  /** The only job takes no time and nothing depends on it. */
  lemma OnlyJobIsSink()
    ensures forall i :: 0 <= i < |Starter.nodes| ==> (Starter.nodes[i].kind == "job" <==> Starter.nodes[i].id == "fe_dev")
    ensures TimesFitKinds(Starter) && IsSink(Starter, "fe_dev")
  {
  }

  /** html → js → react → fe_dev, plus js → fe_dev: a layered, hence acyclic, graph. */
  lemma StarterIsAcyclic()
    ensures RankedBy(Starter, StarterRanks)
    ensures Acyclic(Starter) && NoSelfLoops(Starter)
  {
    RankedIsAcyclic(Starter, StarterRanks);
  }

  /** Of the ids the skills importer can produce from its alias table, only "react" names a node of this graph. */
  lemma AliasTargetsInStarter()
    ensures forall alias :: alias in SkillImport.SkillAliases ==>
      (HasNode(Starter, SkillImport.SkillAliases[alias]) <==> SkillImport.SkillAliases[alias] == "react")
  {
    assert NodeIds(Starter) == ["js", "react", "fe_dev", "html"];
    forall alias | alias in SkillImport.SkillAliases
      ensures HasNode(Starter, SkillImport.SkillAliases[alias]) <==> SkillImport.SkillAliases[alias] == "react"
    {
      HasNodeIff(Starter, SkillImport.SkillAliases[alias]);
      assert SkillImport.SkillAliases[alias] in {"html_css", "javascript", "typescript", "react", "nodejs",
        "express", "python", "fastapi", "pandas", "numpy", "sql", "docker"};
    }
  }
}
