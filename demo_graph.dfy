/**
 * The demonstration career graph the flow view lays out: the user's starting
 * point, eleven skills and three target jobs, joined by seventeen dependency
 * edges.
 */
module DemoGraph {
  import opened Graph

  const Demo: GraphData := GraphData(
    [
      GraphNode("you", "我 (已具备)", "job", 0.0, 0.0),
      GraphNode("english", "商务英语", "skill", 80.0, 65.0),
      GraphNode("excel", "高级Excel", "skill", 40.0, 50.0),
      GraphNode("html", "HTML/CSS", "skill", 50.0, 70.0),
      GraphNode("js", "JavaScript", "skill", 100.0, 85.0),
      GraphNode("react", "React", "skill", 150.0, 90.0),
      GraphNode("python", "Python", "skill", 120.0, 80.0),
      GraphNode("sql", "SQL/数据库", "skill", 60.0, 78.0),
      GraphNode("ts", "TypeScript", "skill", 60.0, 88.0),
      GraphNode("docker", "Docker/K8S", "skill", 90.0, 90.0),
      GraphNode("finance", "金融知识", "skill", 120.0, 75.0),
      GraphNode("fe_dev", "高级前端工程师", "job", 0.0, 95.0),
      GraphNode("be_dev", "全栈工程师", "job", 0.0, 92.0),
      GraphNode("data_sci", "金融数据分析师", "job", 0.0, 88.0)
    ],
    [
      EYouEnglish, EYouExcel, EExcelSql, EHtmlJs,
      EJsReact, EReactTs, EJsPython, EPythonDocker,
      ETsDocker, ETsFe, EDockerFe, EDockerBe,
      ETsBe, EPythonData, ESqlData, EFinanceData,
      EEnglishData
    ])

  /** The edges, one constant each, in the order of the data file. */
  const EYouEnglish: GraphEdge := GraphEdge("e-you-english", "you", "english", 0.90)
  const EYouExcel: GraphEdge := GraphEdge("e-you-excel", "you", "excel", 0.80)
  const EExcelSql: GraphEdge := GraphEdge("e-excel-sql", "excel", "sql", 0.60)
  const EHtmlJs: GraphEdge := GraphEdge("e-html-js", "html", "js", 0.80)
  const EJsReact: GraphEdge := GraphEdge("e-js-react", "js", "react", 0.95)
  const EReactTs: GraphEdge := GraphEdge("e-react-ts", "react", "ts", 0.70)
  const EJsPython: GraphEdge := GraphEdge("e-js-python", "js", "python", 0.30)
  const EPythonDocker: GraphEdge := GraphEdge("e-python-docker", "python", "docker", 0.65)
  const ETsDocker: GraphEdge := GraphEdge("e-ts-docker", "ts", "docker", 0.40)
  const ETsFe: GraphEdge := GraphEdge("e-ts-fe", "ts", "fe_dev", 0.90)
  const EDockerFe: GraphEdge := GraphEdge("e-docker-fe", "docker", "fe_dev", 0.50)
  const EDockerBe: GraphEdge := GraphEdge("e-docker-be", "docker", "be_dev", 0.80)
  const ETsBe: GraphEdge := GraphEdge("e-ts-be", "ts", "be_dev", 0.75)
  const EPythonData: GraphEdge := GraphEdge("e-python-data", "python", "data_sci", 0.85)
  const ESqlData: GraphEdge := GraphEdge("e-sql-data", "sql", "data_sci", 0.70)
  const EFinanceData: GraphEdge := GraphEdge("e-finance-data", "finance", "data_sci", 0.95)
  const EEnglishData: GraphEdge := GraphEdge("e-english-data", "english", "data_sci", 0.40)

  const DemoNodeIds: seq<string> := [
    "you", "english", "excel", "html", "js", "react", "python", "sql",
    "ts", "docker", "finance", "fe_dev", "be_dev", "data_sci"]

  const DemoEdgeIds: seq<string> := [
    "e-you-english", "e-you-excel", "e-excel-sql", "e-html-js", "e-js-react", "e-react-ts",
    "e-js-python", "e-python-docker", "e-ts-docker", "e-ts-fe", "e-docker-fe", "e-docker-be",
    "e-ts-be", "e-python-data", "e-sql-data", "e-finance-data", "e-english-data"]

  lemma NodeIdList()
    ensures NodeIds(Demo) == DemoNodeIds
  {
  }

  lemma EdgeIdList()
    ensures EdgeIds(Demo) == DemoEdgeIds
  {
  }

  lemma NodeRows0() ensures FreshFrom(DemoNodeIds, 0) && FreshFrom(DemoNodeIds, 1) {}
  lemma NodeRows2() ensures FreshFrom(DemoNodeIds, 2) && FreshFrom(DemoNodeIds, 3) {}
  lemma NodeRows4() ensures FreshFrom(DemoNodeIds, 4) && FreshFrom(DemoNodeIds, 5) {}
  lemma NodeRows6() ensures FreshFrom(DemoNodeIds, 6) && FreshFrom(DemoNodeIds, 7) {}
  lemma NodeRows8() ensures FreshFrom(DemoNodeIds, 8) && FreshFrom(DemoNodeIds, 9) {}
  lemma NodeRows10() ensures FreshFrom(DemoNodeIds, 10) && FreshFrom(DemoNodeIds, 11) {}
  lemma NodeRows12() ensures FreshFrom(DemoNodeIds, 12) && FreshFrom(DemoNodeIds, 13) {}

  lemma NodeIdListDistinct()
    ensures Distinct(DemoNodeIds)
  {
    forall i | 0 <= i < |DemoNodeIds| ensures FreshFrom(DemoNodeIds, i) {
      if i < 2 { NodeRows0(); }
      else if i < 4 { NodeRows2(); }
      else if i < 6 { NodeRows4(); }
      else if i < 8 { NodeRows6(); }
      else if i < 10 { NodeRows8(); }
      else if i < 12 { NodeRows10(); }
      else if i < 14 { NodeRows12(); }
    }
    DistinctByRows(DemoNodeIds);
  }

  /** No two nodes share an id. */
  lemma NodeIdsDistinct()
    ensures Distinct(NodeIds(Demo))
  {
    NodeIdList();
    NodeIdListDistinct();
  }

  lemma EdgeRows0() ensures FreshFrom(DemoEdgeIds, 0) && FreshFrom(DemoEdgeIds, 1) {}
  lemma EdgeRows2() ensures FreshFrom(DemoEdgeIds, 2) && FreshFrom(DemoEdgeIds, 3) {}
  lemma EdgeRows4() ensures FreshFrom(DemoEdgeIds, 4) && FreshFrom(DemoEdgeIds, 5) {}
  lemma EdgeRows6() ensures FreshFrom(DemoEdgeIds, 6) && FreshFrom(DemoEdgeIds, 7) {}
  lemma EdgeRows8() ensures FreshFrom(DemoEdgeIds, 8) && FreshFrom(DemoEdgeIds, 9) {}
  lemma EdgeRows10() ensures FreshFrom(DemoEdgeIds, 10) && FreshFrom(DemoEdgeIds, 11) {}
  lemma EdgeRows12() ensures FreshFrom(DemoEdgeIds, 12) && FreshFrom(DemoEdgeIds, 13) {}
  lemma EdgeRows14() ensures FreshFrom(DemoEdgeIds, 14) && FreshFrom(DemoEdgeIds, 15) {}
  lemma EdgeRows16() ensures FreshFrom(DemoEdgeIds, 16) {}

  lemma EdgeIdListDistinct()
    ensures Distinct(DemoEdgeIds)
  {
    forall i | 0 <= i < |DemoEdgeIds| ensures FreshFrom(DemoEdgeIds, i) {
      if i < 2 { EdgeRows0(); }
      else if i < 4 { EdgeRows2(); }
      else if i < 6 { EdgeRows4(); }
      else if i < 8 { EdgeRows6(); }
      else if i < 10 { EdgeRows8(); }
      else if i < 12 { EdgeRows10(); }
      else if i < 14 { EdgeRows12(); }
      else if i < 16 { EdgeRows14(); }
      else if i < 18 { EdgeRows16(); }
    }
    DistinctByRows(DemoEdgeIds);
  }

  /** No two edges share an id. */
  lemma EdgeIdsDistinct()
    ensures Distinct(EdgeIds(Demo))
  {
    EdgeIdList();
    EdgeIdListDistinct();
  }

  /** Every edge starts and ends at a node of the graph. */
  lemma EndpointsAreNodes()
    ensures EndpointsExist(Demo)
  {
    NodeIdList();
    forall i | 0 <= i < |Demo.edges|
      ensures HasNode(Demo, Demo.edges[i].source) && HasNode(Demo, Demo.edges[i].target)
    {
      HasNodeIff(Demo, Demo.edges[i].source);
      HasNodeIff(Demo, Demo.edges[i].target);
    }
  }

  lemma NecessitiesAreWeights()
    ensures NecessitiesInRange(Demo)
  {
  }

  lemma ValuesAreScores()
    ensures ValuesInRange(Demo)
  {
  }

  lemma KindsAreKnown()
    ensures KindsKnown(Demo)
  {
  }

  lemma TimesMatchKinds()
    ensures TimesFitKinds(Demo)
  {
  }

  /** Necessities are weights, values scores out of 100, and times fit the kinds. */
  lemma AttributesInRange()
    ensures NecessitiesInRange(Demo)
    ensures ValuesInRange(Demo) && KindsKnown(Demo) && TimesFitKinds(Demo)
  {
    NecessitiesAreWeights();
    ValuesAreScores();
    KindsAreKnown();
    TimesMatchKinds();
  }

  /** The three target jobs are the right-hand ends: nothing depends on them. */
  lemma TargetJobsAreSinks()
    ensures IsSink(Demo, "fe_dev") && IsSink(Demo, "be_dev") && IsSink(Demo, "data_sci")
  {
  }

  /** A layering of the demo graph, from the starting points (rank 0) to the jobs (rank 5). */
  const DemoRanks: map<string, nat> := map[
    "you" := 0, "html" := 0, "finance" := 0,
    "english" := 1, "excel" := 1, "js" := 1,
    "sql" := 2, "react" := 2, "python" := 2,
    "ts" := 3, "docker" := 4,
    "fe_dev" := 5, "be_dev" := 5, "data_sci" := 5]

  lemma Climbs0() ensures Climbs(DemoRanks, EYouEnglish) && Climbs(DemoRanks, EYouExcel) && Climbs(DemoRanks, EExcelSql) {}
  lemma Climbs3() ensures Climbs(DemoRanks, EHtmlJs) && Climbs(DemoRanks, EJsReact) && Climbs(DemoRanks, EReactTs) {}
  lemma Climbs6() ensures Climbs(DemoRanks, EJsPython) && Climbs(DemoRanks, EPythonDocker) && Climbs(DemoRanks, ETsDocker) {}
  lemma Climbs9() ensures Climbs(DemoRanks, ETsFe) && Climbs(DemoRanks, EDockerFe) && Climbs(DemoRanks, EDockerBe) {}
  lemma Climbs12() ensures Climbs(DemoRanks, ETsBe) && Climbs(DemoRanks, EPythonData) && Climbs(DemoRanks, ESqlData) {}
  lemma Climbs15() ensures Climbs(DemoRanks, EFinanceData) && Climbs(DemoRanks, EEnglishData) {}

  /** Every edge climbs the layering. */
  lemma DemoRanked()
    ensures RankedBy(Demo, DemoRanks)
  {
    forall i | 0 <= i < |Demo.edges| ensures Climbs(DemoRanks, Demo.edges[i]) {
      if i < 3 { Climbs0(); }
      else if i < 6 { Climbs3(); }
      else if i < 9 { Climbs6(); }
      else if i < 12 { Climbs9(); }
      else if i < 15 { Climbs12(); }
      else { Climbs15(); }
    }
  }

  /** So the graph has no cycle and no self-loop. */
  lemma DemoIsAcyclic()
    ensures Acyclic(Demo) && NoSelfLoops(Demo)
  {
    DemoRanked();
    RankedIsAcyclic(Demo, DemoRanks);
    RankedHasNoSelfLoops(Demo, DemoRanks);
  }
}
