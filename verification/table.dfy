/** The newer table shaper (`pkg/scenario/table.go`): one frame of rows per
  resource kind, selected by a post-filtered listing for a wildcard name or
  by a single lookup otherwise. */
module Table {

  import opened Wrappers
  import opened Seqs
  import opened Query
  import opened Store
  import opened Enrichment
  import opened Frames

  /** The error for a resource type no table exists for. */
  const UnknownResourceType: string := "unknown query resource type, this shouldn't happen"

  /** A lookup that succeeded with a nil resource; the Go code would panic
    dereferencing it. */
  const NilDereference: string := "nil pointer dereference"

  /** The pipeline post-filter: its namespace is one of the filter names. */
  function PipelineInNamespaces(filter: seq<string>): Pipeline -> bool {
    (p: Pipeline) => p.namespace in filter
  }

  /** The isbsvc post-filter: its namespace is one of the filter names. */
  function IsbsvcInNamespaces(filter: seq<string>): Isbsvc -> bool {
    (i: Isbsvc) => i.namespace in filter
  }

  /** The vertex post-filter: its namespace is one of the namespace names, and
    either the query's pipeline field is "" or the vertex's spec pipeline name
    is one of the pipeline names. */
  function VertexSelected(namespaces: seq<string>, queryPipeline: string, pipelines: seq<string>): Vertex -> bool {
    (v: Vertex) => v.namespace in namespaces && (queryPipeline == "" || v.pipelineName in pipelines)
  }

  /** The pipelines a pipeline query selects. */
  function SelectPipelines(store: Cluster, rq: RunnableQuery): (r: Result<seq<Pipeline>>)
    requires rq.namespace.Some? && rq.pipeline.Some?
    ensures rq.pipeline.value == Wildcard ==>
      var listing := store.listPipelines(GetNamespace(rq));
      && (listing.Err? ==> r == Err(listing.error))
      && (listing.Ok? ==> r.Ok? && IsFilterOf(r.value, listing.value, PipelineInNamespaces(GetFilterNamespaces(rq))))
    ensures rq.pipeline.value != Wildcard ==>
      var got := store.getPipeline(GetNamespace(rq), rq.pipeline.value);
      && (got.Err? ==> r == Err(got.error))
      && (got.Ok? && got.value.None? ==> r == Err(NilDereference))
      && (got.Ok? && got.value.Some? ==> r == Ok([got.value.value]))
  {
    var scope := GetNamespace(rq);
    if rq.pipeline.value == Wildcard then
      var listed :- store.listPipelines(scope);
      Ok(Filter(listed, PipelineInNamespaces(GetFilterNamespaces(rq))))
    else
      var got :- store.getPipeline(scope, rq.pipeline.value);
      if got.None? then Err(NilDereference) else Ok([got.value])
  }

  /** The isbsvcs an isbsvc query selects. */
  function SelectIsbsvcs(store: Cluster, rq: RunnableQuery): (r: Result<seq<Isbsvc>>)
    requires rq.namespace.Some? && rq.isbsvc.Some?
    ensures rq.isbsvc.value == Wildcard ==>
      var listing := store.listIsbsvcs(GetNamespace(rq));
      && (listing.Err? ==> r == Err(listing.error))
      && (listing.Ok? ==> r.Ok? && IsFilterOf(r.value, listing.value, IsbsvcInNamespaces(GetFilterNamespaces(rq))))
    ensures rq.isbsvc.value != Wildcard ==>
      var got := store.getIsbsvc(GetNamespace(rq), rq.isbsvc.value);
      && (got.Err? ==> r == Err(got.error))
      && (got.Ok? ==> r == Ok([got.value]))
  {
    var scope := GetNamespace(rq);
    if rq.isbsvc.value == Wildcard then
      var listed :- store.listIsbsvcs(scope);
      Ok(Filter(listed, IsbsvcInNamespaces(GetFilterNamespaces(rq))))
    else
      var got :- store.getIsbsvc(scope, rq.isbsvc.value);
      Ok([got])
  }

  /** The vertices a vertex query selects: a wildcard listing filtered on
    namespace and spec pipeline name, or the first vertex the labels of the
    query's pipeline and vertex match. */
  function SelectVertices(store: Cluster, rq: RunnableQuery): (r: Result<seq<Vertex>>)
    requires rq.namespace.Some? && rq.pipeline.Some? && rq.vertex.Some?
    ensures rq.vertex.value == Wildcard ==>
      var listing := store.listVertices(GetNamespace(rq));
      && (listing.Err? ==> r == Err(listing.error))
      && (listing.Ok? ==> r.Ok? && IsFilterOf(r.value, listing.value,
            VertexSelected(GetFilterNamespaces(rq), rq.pipeline.value, GetFilterPipelines(rq))))
    ensures rq.vertex.value != Wildcard ==>
      var got := GetPipelineVertex(store.listVertices(GetNamespace(rq)), rq.pipeline.value, rq.vertex.value);
      && (got.Err? ==> r == Err(got.error))
      && (got.Ok? ==> r == Ok([got.value]))
  {
    var scope := GetNamespace(rq);
    if rq.vertex.value == Wildcard then
      var listed :- store.listVertices(scope);
      Ok(Filter(listed, VertexSelected(GetFilterNamespaces(rq), rq.pipeline.value, GetFilterPipelines(rq))))
    else
      var got :- GetPipelineVertex(store.listVertices(scope), rq.pipeline.value, rq.vertex.value);
      Ok([got])
  }

  /** The type column of a vertex: the first role it has, in the order
    source, sink, map UDF, reduce UDF; "" when it has none. */
  function VertexKind(role: VertexRole): (r: string)
    ensures r == "source" <==> role.source
    ensures r == "" <==> !(role.source || role.sink || role.mapUdf || role.reduceUdf)
    ensures r == "sink" <==> !role.source && role.sink
    ensures r == "udf (map)" <==> !role.source && !role.sink && role.mapUdf
    ensures r == "udf (reduce)" <==> !role.source && !role.sink && !role.mapUdf && role.reduceUdf
  {
    if role.source then "source"
    else if role.sink then "sink"
    else if role.mapUdf then "udf (map)"
    else if role.reduceUdf then "udf (reduce)"
    else ""
  }

  /** Worked example of `VertexKind`: a vertex with exactly one role is typed
    by that role, whatever the order of the checks. */
  lemma VertexKindOfSingleRole(role: VertexRole)
    ensures role == VertexRole(true, false, false, false) ==> VertexKind(role) == "source"
    ensures role == VertexRole(false, true, false, false) ==> VertexKind(role) == "sink"
    ensures role == VertexRole(false, false, true, false) ==> VertexKind(role) == "udf (map)"
    ensures role == VertexRole(false, false, false, true) ==> VertexKind(role) == "udf (reduce)"
  {
  }

  /** The type column of an isbsvc: external Redis, internal Redis,
    JetStream, or "" when no backing spec is set. Redis wins over JetStream. */
  function IsbsvcKind(i: Isbsvc): (r: string)
    ensures r == "redis (external)" <==> i.redis.Some? && i.redis.value.external
    ensures r == "redis (internal)" <==> i.redis.Some? && !i.redis.value.external
    ensures r == "jetstream" <==> i.redis.None? && i.jetStream
    ensures r == "" <==> i.redis.None? && !i.jetStream
  {
    match i.redis
    case Some(redis) => if redis.external then "redis (external)" else "redis (internal)"
    case None => if i.jetStream then "jetstream" else ""
  }

  /** One pipeline row: namespace, name, phase, the four status counts (each
    absent when the status leaves it unset) and the creation time. */
  function PipelineRowOf(p: Pipeline): (r: PipelineRow)
    ensures r.namespace == p.namespace && r.name == p.name && r.phase == p.phase
    ensures r.vertices == p.vertexCount && r.sources == p.sourceCount
    ensures r.sinks == p.sinkCount && r.udfs == p.udfCount
    ensures r.created == p.created
  {
    PipelineRow(p.namespace, p.name, p.phase, p.vertexCount, p.sourceCount, p.sinkCount, p.udfCount, p.created)
  }

  /** One isbsvc row: namespace, name, the backing kind, phase and the
    creation time. */
  function IsbsvcRowOf(i: Isbsvc): (r: IsbsvcRow)
    ensures r.namespace == i.namespace && r.name == i.name && r.phase == i.phase
    ensures r.kind == IsbsvcKind(i) && r.created == i.created
  {
    IsbsvcRow(i.namespace, i.name, IsbsvcKind(i), i.phase, i.created)
  }

  /** One vertex row. The metrics, watermark and pods are fetched under the
    query's listing scope and the query's pipeline field (not the vertex's own
    pipeline); each fetch is best effort. */
  function VertexRowOf(store: Cluster, scope: string, queryPipeline: string, v: Vertex): (r: VertexRow)
    ensures r.namespace == v.namespace && r.pipeline == v.pipelineName && r.name == v.name
    ensures r.kind == VertexKind(v.role) && r.phase == v.phase
    ensures r.replicas == v.statusReplicas && r.desiredReplicas == v.replicas
    ensures r.created == v.created
    ensures r.processingRate == RateOf(store.getVertexMetrics(scope, queryPipeline, v.name), store.rateNotAvailable)
    ensures r.pendingMessages == PendingOf(store.getVertexMetrics(scope, queryPipeline, v.name), store.pendingNotAvailable)
    ensures r.watermark == WatermarkOf(store.getVertexWatermark(scope, queryPipeline, v.name))
    ensures r.cpuUsage.Some? <==> r.memoryUsage.Some?
    ensures r.cpuUsage.Some? ==> r.cpuUsage.value != 0 && r.memoryUsage.value != 0
    ensures store.listVertexPods(scope, queryPipeline, v.name).Err? ==> r.cpuUsage.None?
    ensures (var pods := store.listVertexPods(scope, queryPipeline, v.name);
      pods.Ok? && SomeFetchFails(pods.value, name => store.getPodMetrics(scope, name))) ==> r.cpuUsage.None?
    ensures var u := PodUsage(store.listVertexPods(scope, queryPipeline, v.name), name => store.getPodMetrics(scope, name));
      && r.cpuUsage == (if u.Some? then Some(u.value.cpu) else None)
      && r.memoryUsage == (if u.Some? then Some(u.value.memory) else None)
  {
    var metrics := store.getVertexMetrics(scope, queryPipeline, v.name);
    var usage := PodUsage(store.listVertexPods(scope, queryPipeline, v.name), name => store.getPodMetrics(scope, name));
    VertexRow(
      v.namespace, v.pipelineName, v.name, VertexKind(v.role), v.phase, v.statusReplicas, v.replicas,
      RateOf(metrics, store.rateNotAvailable),
      PendingOf(metrics, store.pendingNotAvailable),
      WatermarkOf(store.getVertexWatermark(scope, queryPipeline, v.name)),
      if usage.Some? then Some(usage.value.cpu) else None,
      if usage.Some? then Some(usage.value.memory) else None,
      v.created)
  }

  /** The newer `newTableFrames`: one frame for the query's resource kind,
    with one row per selected resource in selection order. */
  function NewTableFrames(store: Cluster, rq: RunnableQuery): (r: Result<seq<Frame>>)
    requires rq.namespace.Some? && FieldsPresent(rq)
    ensures rq.resourceType == NamespaceType ==> r == Err(UnknownResourceType)
    ensures r.Ok? ==> |r.value| == 1 && r.value[0].refId == ""
    ensures rq.resourceType == PipelineType ==>
      match SelectPipelines(store, rq)
      case Err(e) => r == Err(e)
      case Ok(ps) => (
        && r.Ok? && r.value[0].name == "pipelines" && r.value[0].body.PipelineRows?
        && |r.value[0].body.pipelines| == |ps|
        && forall i :: 0 <= i < |ps| ==> r.value[0].body.pipelines[i] == PipelineRowOf(ps[i]))
    ensures rq.resourceType == VertexType ==>
      match SelectVertices(store, rq)
      case Err(e) => r == Err(e)
      case Ok(vs) => (
        && r.Ok? && r.value[0].name == "vertices" && r.value[0].body.VertexRows?
        && |r.value[0].body.vertices| == |vs|
        && forall i :: 0 <= i < |vs| ==>
          r.value[0].body.vertices[i] == VertexRowOf(store, GetNamespace(rq), rq.pipeline.value, vs[i]))
    ensures rq.resourceType == IsbsvcType ==>
      match SelectIsbsvcs(store, rq)
      case Err(e) => r == Err(e)
      case Ok(svcs) => (
        && r.Ok? && r.value[0].name == "isbsvcs" && r.value[0].body.IsbsvcRows?
        && |r.value[0].body.isbsvcs| == |svcs|
        && forall i :: 0 <= i < |svcs| ==> r.value[0].body.isbsvcs[i] == IsbsvcRowOf(svcs[i]))
  {
    match rq.resourceType
    case PipelineType =>
      var ps :- SelectPipelines(store, rq);
      Ok([NewFrame("pipelines", PipelineRows(seq(|ps|, i requires 0 <= i < |ps| => PipelineRowOf(ps[i]))))])
    case VertexType =>
      var vs :- SelectVertices(store, rq);
      var scope := GetNamespace(rq);
      var rows := seq(|vs|, i requires 0 <= i < |vs| => VertexRowOf(store, scope, rq.pipeline.value, vs[i]));
      Ok([NewFrame("vertices", VertexRows(rows))])
    case IsbsvcType =>
      var svcs :- SelectIsbsvcs(store, rq);
      Ok([NewFrame("isbsvcs", IsbsvcRows(seq(|svcs|, i requires 0 <= i < |svcs| => IsbsvcRowOf(svcs[i]))))])
    case NamespaceType =>
      Err(UnknownResourceType)
  }

  /** A filter result holding nothing the predicate accepts is empty. */
  lemma FilterOfNothingIsEmpty<T(!new)>(r: seq<T>, xs: seq<T>, keep: T -> bool)
    requires IsFilterOf(r, xs, keep)
    requires forall i :: 0 <= i < |xs| ==> !keep(xs[i])
    ensures r == []
  {
  }

  /** With the namespace field "" (every namespace) and a wildcard pipeline,
    the listing covers every namespace but the post-filter is [""], so every
    pipeline that lives in a real namespace is dropped: the table is empty,
    not "all pipelines in all namespaces". */
  lemma AllNamespacesWildcardKeepsNoNamespacedPipeline(store: Cluster, rq: RunnableQuery, listed: seq<Pipeline>)
    requires rq.namespace == Some(NamespaceAll) && rq.pipeline == Some(Wildcard)
    requires rq.resourceType == PipelineType
    requires store.listPipelines(NamespaceAll) == Ok(listed)
    requires forall i :: 0 <= i < |listed| ==> listed[i].namespace != NamespaceAll
    ensures NewTableFrames(store, rq) == Ok([NewFrame("pipelines", PipelineRows([]))])
  {
    EmptyNamespaceExpandsToItself();
    var keep := PipelineInNamespaces(GetFilterNamespaces(rq));
    var selected := SelectPipelines(store, rq);
    assert selected.Ok? && IsFilterOf(selected.value, listed, keep);
    FilterOfNothingIsEmpty(selected.value, listed, keep);
  }
}
