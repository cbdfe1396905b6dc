/** The node graph of one pipeline (`pkg/query/scenario/node_graph.go`): a
  "nodes" frame with one row per vertex and an "edges" frame with one row per
  buffer. */
module NodeGraph {

  import opened Wrappers
  import opened Text
  import opened Seqs
  import opened Query
  import opened Store
  import opened Enrichment
  import opened Frames

  const OnlyPipelines: string := "node graph currently only supports pipelines"
  const OnlySinglePipeline: string := "node graph currently only supports a single pipeline"
  const PipelineNil: string := "retrieved pipeline was nil"
  const FromVertexNil: string := "edge from-vertex was nil"
  const ToVertexNil: string := "edge to-vertex was nil"

  /** The spec replicas a vertex reports when its spec leaves them unset. */
  const DefaultReplicas: int := 1

  /** The health arcs of a vertex: failure for a failed vertex, success for a
    running or succeeded one, neutral for any other phase. */
  function ArcsFor(phase: string): (r: Arcs)
    ensures r.success + r.failure + r.neutral == 1
    ensures r.failure == 1 <==> phase == PhaseFailed
    ensures r.success == 1 <==> phase == PhaseRunning || phase == PhaseSucceeded
  {
    if phase == PhaseFailed then Arcs(0, 1, 0)
    else if phase == PhaseSucceeded || phase == PhaseRunning then Arcs(1, 0, 0)
    else Arcs(0, 0, 1)
  }

  /** The subtitle "actual/desired" of a vertex, `%d/%d` of its status
    replicas and its spec replicas (1 when unset). */
  function Subtitle(actual: nat, desired: Option<int>): string {
    NatToDecimal(actual) + "/" + IntToDecimal(desired.GetOr(DefaultReplicas))
  }

  /** The subtitle reads back: it is two numerals split by one slash, giving
    the status replicas and the spec replicas (or the default). */
  lemma SubtitleReadsBack(actual: nat, desired: Option<int>)
    ensures |Split(Subtitle(actual, desired), '/')| == 2
    ensures ParseInt(Split(Subtitle(actual, desired), '/')[0]) == Some(actual)
    ensures ParseInt(Split(Subtitle(actual, desired), '/')[1]) == Some(desired.GetOr(DefaultReplicas))
  {
    var a := NatToDecimal(actual);
    var d := IntToDecimal(desired.GetOr(DefaultReplicas));
    DecimalLacksOtherChars(actual, '/');
    DecimalLacksOtherChars(desired.GetOr(DefaultReplicas), '/');
    assert Subtitle(actual, desired) == a + ['/'] + d;
    SplitPrefix(a, d, '/');
    SplitWhole(d, '/');
    assert a == IntToDecimal(actual);
    IntDecimalRoundTrip(actual);
    IntDecimalRoundTrip(desired.GetOr(DefaultReplicas));
  }

  /** The suffix of a node's processing rate. */
  const RateSuffix: string := " msg/s"

  /** One node. Unlike the vertex table, the metrics and watermark are fetched
    under the vertex's own spec pipeline name. */
  function NodeRowOf(store: Cluster, render: Render, scope: string, v: Vertex): (r: NodeRow)
    ensures r.id == v.name && r.title == v.name
    ensures r.subtitle == Subtitle(v.statusReplicas, v.replicas)
    ensures r.arcs == ArcsFor(v.phase)
    ensures var rate := RateOf(store.getVertexMetrics(scope, v.pipelineName, v.name), store.rateNotAvailable);
      && (r.mainStat == "" <==> rate.None?)
      && (rate.Some? ==> r.mainStat == render.rate(rate.value) + RateSuffix)
    ensures var watermark := WatermarkOf(store.getVertexWatermark(scope, v.pipelineName, v.name));
      && (r.secondaryStat.Some? <==> watermark.Some?)
      && (watermark.Some? ==> r.secondaryStat == Some(render.timestamp(watermark.value)))
  {
    var rate := RateOf(store.getVertexMetrics(scope, v.pipelineName, v.name), store.rateNotAvailable);
    var watermark := WatermarkOf(store.getVertexWatermark(scope, v.pipelineName, v.name));
    NodeRow(
      v.name,
      v.name,
      Subtitle(v.statusReplicas, v.replicas),
      if rate.Some? then render.rate(rate.value) + RateSuffix else "",
      if watermark.Some? then Some(render.timestamp(watermark.value)) else None,
      ArcsFor(v.phase))
  }

  /** True of an edge that names both of its vertices. */
  predicate HasEndpoints(e: Edge) {
    e.fromVertex.Some? && e.toVertex.Some?
  }

  /** The id of the edge between two vertices, `%s-%s`. */
  function EdgeId(source: string, target: string): string {
    source + "-" + target
  }

  /** Edge ids tell dash-free endpoint pairs apart: the id splits back into
    the source and the target. */
  lemma EdgeIdSplitsBack(source: string, target: string)
    requires '-' !in source && '-' !in target
    ensures Split(EdgeId(source, target), '-') == [source, target]
  {
    assert EdgeId(source, target) == source + ['-'] + target;
    SplitPrefix(source, target, '-');
    SplitWhole(target, '-');
  }

  /** One edge: its endpoints, the summed pending and ack-pending counts when
    both are reported, and the buffer usage as a percentage when reported. */
  function EdgeRowOf(render: Render, e: Edge): (r: EdgeRow)
    requires HasEndpoints(e)
    ensures r.source == e.fromVertex.value && r.target == e.toVertex.value
    ensures r.id == EdgeId(r.source, r.target)
    ensures r.mainStat == "" <==> e.pendingCount.None? || e.ackPendingCount.None?
    ensures r.mainStat != "" ==> ParseInt(r.mainStat) == Some(e.pendingCount.value + e.ackPendingCount.value)
    ensures r.mainStat != "" ==> r.mainStat == IntToDecimal(ParseInt(r.mainStat).value)
    ensures r.secondaryStat == "" <==> e.bufferUsage.None?
    ensures e.bufferUsage.Some? ==> r.secondaryStat == render.usage(e.bufferUsage.value) + "%"
  {
    var source := e.fromVertex.value;
    var target := e.toVertex.value;
    var mainStat :=
      if e.pendingCount.Some? && e.ackPendingCount.Some?
      then IntToDecimal(e.pendingCount.value + e.ackPendingCount.value)
      else "";
    assert mainStat != "" ==> ParseInt(mainStat) == Some(e.pendingCount.value + e.ackPendingCount.value) by {
      if mainStat != "" {
        IntDecimalRoundTrip(e.pendingCount.value + e.ackPendingCount.value);
      }
    }
    EdgeRow(
      EdgeId(source, target), source, target, mainStat,
      if e.bufferUsage.Some? then render.usage(e.bufferUsage.value) + "%" else "")
  }

  /** The error for an edge lacking an endpoint; the source is checked
    first. */
  function MissingEndpoint(e: Edge): string {
    if e.fromVertex.None? then FromVertexNil else ToVertexNil
  }

  /** The edge rows, in order, or the error of the first edge that lacks an
    endpoint: the loop returns on that edge. */
  function EdgeRecords(render: Render, edges: seq<Edge>): (r: Result<seq<EdgeRow>>)
    ensures r.Ok? <==> forall i :: 0 <= i < |edges| ==> HasEndpoints(edges[i])
    ensures r.Ok? ==> |r.value| == |edges|
    ensures r.Ok? ==> forall i :: 0 <= i < |edges| ==> r.value[i] == EdgeRowOf(render, edges[i])
    ensures r.Err? ==> exists i :: (
      && 0 <= i < |edges| && !HasEndpoints(edges[i])
      && (forall j :: 0 <= j < i ==> HasEndpoints(edges[j]))
      && r.error == MissingEndpoint(edges[i]))
    decreases |edges|
  {
    if |edges| == 0 then Ok([])
    else
      var e := edges[0];
      if !HasEndpoints(e) then Err(MissingEndpoint(e))
      else
        var rest := EdgeRecords(render, edges[1..]);
        assert forall i :: 1 <= i < |edges| ==> edges[1..][i - 1] == edges[i];
        match rest
        case Err(error) =>
          assert exists k :: (
            && 0 <= k < |edges[1..]| && !HasEndpoints(edges[1..][k])
            && (forall j :: 0 <= j < k ==> HasEndpoints(edges[1..][j]))
            && error == MissingEndpoint(edges[1..][k]));
          var k :| && 0 <= k < |edges[1..]| && !HasEndpoints(edges[1..][k])
            && (forall j :: 0 <= j < k ==> HasEndpoints(edges[1..][j]))
            && error == MissingEndpoint(edges[1..][k]);
          assert forall j :: 0 <= j < k + 1 ==> HasEndpoints(edges[j]) by {
            forall j | 0 <= j < k + 1 ensures HasEndpoints(edges[j]) {
              if j > 0 {
                assert edges[j] == edges[1..][j - 1];
              }
            }
          }
          Err(error)
        case Ok(rows) =>
          Ok([EdgeRowOf(render, e)] + rows)
  }

  /** True of a query the node graph accepts: a pipeline query naming one
    pipeline, neither the wildcard nor a comma-separated list. */
  predicate AsksForOnePipeline(rq: RunnableQuery) {
    && rq.resourceType == PipelineType && rq.pipeline.Some?
    && rq.pipeline.value != Wildcard && !IsMultiPipelineFilter(rq)
  }

  /** True when the node graph's one pipeline is found: the store returns it,
    neither an error nor nil. */
  predicate FindsPipeline(store: Cluster, rq: RunnableQuery)
    requires rq.namespace.Some?
  {
    && AsksForOnePipeline(rq)
    && store.getPipeline(GetNamespace(rq), rq.pipeline.value).Ok?
    && store.getPipeline(GetNamespace(rq), rq.pipeline.value).value.Some?
  }

  /** The older `newNodeGraphFrames`: a single named pipeline only; its
    vertices come from the pipeline label selector in the query's scope, and
    the whole graph fails on the first edge lacking an endpoint. */
  function NewNodeGraphFrames(store: Cluster, render: Render, rq: RunnableQuery): (r: Result<seq<Frame>>)
    requires rq.namespace.Some? && FieldsPresent(rq)
    ensures rq.resourceType != PipelineType ==> r == Err(OnlyPipelines)
    ensures rq.resourceType == PipelineType && (rq.pipeline.value == Wildcard || IsMultiPipelineFilter(rq)) ==>
      r == Err(OnlySinglePipeline)
    ensures AsksForOnePipeline(rq) ==>
      var got := store.getPipeline(GetNamespace(rq), rq.pipeline.value);
      && (got.Err? ==> r == Err(got.error))
      && (got == Ok(None) ==> r == Err(PipelineNil))
    ensures FindsPipeline(store, rq) ==>
      var scope := GetNamespace(rq);
      var vertices := ListPipelineVertices(store.listVertices(scope), rq.pipeline.value);
      var edges := store.listPipelineEdges(scope, rq.pipeline.value);
      && (vertices.Err? ==> r == Err(vertices.error))
      && (vertices.Ok? && edges.Err? ==> r == Err(edges.error))
      && (vertices.Ok? && edges.Ok? ==>
            (r.Ok? <==> forall i :: 0 <= i < |edges.value| ==> HasEndpoints(edges.value[i])))
      && (vertices.Ok? && edges.Ok? && r.Err? ==> exists i :: (
            && 0 <= i < |edges.value| && !HasEndpoints(edges.value[i])
            && (forall j :: 0 <= j < i ==> HasEndpoints(edges.value[j]))
            && r.error == MissingEndpoint(edges.value[i])))
    ensures r.Ok? ==> FindsPipeline(store, rq)
    ensures r.Ok? ==>
      var scope := GetNamespace(rq);
      var vertices := ListPipelineVertices(store.listVertices(scope), rq.pipeline.value);
      var edges := store.listPipelineEdges(scope, rq.pipeline.value);
      && vertices.Ok? && edges.Ok?
      && |r.value| == 2
      && r.value[0].name == "nodes" && r.value[0].body.NodeRows?
      && r.value[1].name == "edges" && r.value[1].body.EdgeRows?
      && |r.value[0].body.nodes| == |vertices.value|
      && (forall i :: 0 <= i < |vertices.value| ==>
            r.value[0].body.nodes[i] == NodeRowOf(store, render, scope, vertices.value[i]))
      && |r.value[1].body.edges| == |edges.value|
      && (forall i :: 0 <= i < |edges.value| ==>
            HasEndpoints(edges.value[i]) && r.value[1].body.edges[i] == EdgeRowOf(render, edges.value[i]))
  {
    if rq.resourceType != PipelineType then Err(OnlyPipelines)
    else if rq.pipeline.value == Wildcard || IsMultiPipelineFilter(rq) then Err(OnlySinglePipeline)
    else
      var scope := GetNamespace(rq);
      var pipeline := rq.pipeline.value;
      var got :- store.getPipeline(scope, pipeline);
      if got.None? then Err(PipelineNil)
      else
        var vertices :- ListPipelineVertices(store.listVertices(scope), pipeline);
        var edges :- store.listPipelineEdges(scope, pipeline);
        var nodes := seq(|vertices|, i requires 0 <= i < |vertices| => NodeRowOf(store, render, scope, vertices[i]));
        var edgeRows :- EdgeRecords(render, edges);
        Ok([NewFrame("nodes", NodeRows(nodes)), NewFrame("edges", EdgeRows(edgeRows))])
  }

  /** Only a vertex carrying the pipeline's label appears as a node. */
  lemma NodesCarryPipelineLabel(store: Cluster, render: Render, rq: RunnableQuery)
    requires rq.namespace.Some? && FieldsPresent(rq)
    ensures var r := NewNodeGraphFrames(store, render, rq);
      r.Ok? ==> forall i :: 0 <= i < |r.value[0].body.nodes| ==> exists v :: (
        && v in store.listVertices(GetNamespace(rq)).value
        && InPipeline(v, rq.pipeline.value) && r.value[0].body.nodes[i].id == v.name)
  {
    var r := NewNodeGraphFrames(store, render, rq);
    if r.Ok? {
      var scope := GetNamespace(rq);
      var listing := store.listVertices(scope).value;
      var vertices := ListPipelineVertices(store.listVertices(scope), rq.pipeline.value).value;
      var nodes := r.value[0].body.nodes;
      forall i | 0 <= i < |nodes|
        ensures exists v :: v in listing && InPipeline(v, rq.pipeline.value) && nodes[i].id == v.name
      {
        var v := vertices[i];
        FilterMembership(listing, (v: Vertex) => InPipeline(v, rq.pipeline.value), v);
        assert v in vertices;
      }
    }
  }
}
