/** The older table shaper (`pkg/query/scenario/table.go`): the same three
  tables with four-column vertex and isbsvc rows and a vertex filter on the
  pipeline label instead of the spec. */
module LegacyTable {

  import opened Wrappers
  import opened Seqs
  import opened Query
  import opened Store
  import opened Frames
  import Table

  /** The older vertex post-filter: its namespace is one of the namespace
    names, and either the query's pipeline field is "" or the vertex's
    pipeline label is one of the pipeline names. */
  function VertexLabelSelected(namespaces: seq<string>, queryPipeline: string, pipelines: seq<string>): Vertex -> bool {
    (v: Vertex) => v.namespace in namespaces && (queryPipeline == "" || Label(v, PipelineNameLabel) in pipelines)
  }

  /** The vertices an older vertex query selects. */
  function SelectVertices(store: Cluster, rq: RunnableQuery): (r: Result<seq<Vertex>>)
    requires rq.namespace.Some? && rq.pipeline.Some? && rq.vertex.Some?
    ensures rq.vertex.value == Wildcard ==>
      var listing := store.listVertices(GetNamespace(rq));
      && (listing.Err? ==> r == Err(listing.error))
      && (listing.Ok? ==> r.Ok? && IsFilterOf(r.value, listing.value,
            VertexLabelSelected(GetFilterNamespaces(rq), rq.pipeline.value, GetFilterPipelines(rq))))
    ensures rq.vertex.value != Wildcard ==>
      var got := GetPipelineVertex(store.listVertices(GetNamespace(rq)), rq.pipeline.value, rq.vertex.value);
      && (got.Err? ==> r == Err(got.error))
      && (got.Ok? ==> r == Ok([got.value]))
  {
    var scope := GetNamespace(rq);
    if rq.vertex.value == Wildcard then
      var listed :- store.listVertices(scope);
      Ok(Filter(listed, VertexLabelSelected(GetFilterNamespaces(rq), rq.pipeline.value, GetFilterPipelines(rq))))
    else
      var got :- GetPipelineVertex(store.listVertices(scope), rq.pipeline.value, rq.vertex.value);
      Ok([got])
  }

  /** The two vertex filters agree on every vertex whose pipeline label names
    its spec pipeline, and may disagree on any other. */
  lemma LabelFilterAgreesWhenLabelMatchesSpec(namespaces: seq<string>, queryPipeline: string, pipelines: seq<string>, v: Vertex)
    requires Label(v, PipelineNameLabel) == v.pipelineName
    ensures VertexLabelSelected(namespaces, queryPipeline, pipelines)(v) ==
      Table.VertexSelected(namespaces, queryPipeline, pipelines)(v)
  {
  }

  /** A vertex row of the older table: the name comes from the vertex-name
    label, "" when the label is missing. */
  function VertexRowOf(v: Vertex): (r: BasicRow)
    ensures r.namespace == v.namespace && r.phase == v.phase && r.created == v.created
    ensures VertexNameLabel in v.labels ==> r.name == v.labels[VertexNameLabel]
    ensures VertexNameLabel !in v.labels ==> r.name == ""
  {
    BasicRow(v.namespace, Label(v, VertexNameLabel), v.phase, v.created)
  }

  /** An isbsvc row of the older table: no type column. */
  function IsbsvcRowOf(i: Isbsvc): (r: BasicRow)
    ensures r.namespace == i.namespace && r.name == i.name
    ensures r.phase == i.phase && r.created == i.created
  {
    BasicRow(i.namespace, i.name, i.phase, i.created)
  }

  /** The older `newTableFrames`. The namespace field is read for every
    resource type, before the type is looked at. */
  function NewTableFrames(store: Cluster, rq: RunnableQuery): (r: Result<seq<Frame>>)
    requires rq.namespace.Some? && FieldsPresent(rq)
    ensures rq.resourceType == NamespaceType ==> r == Err(Table.UnknownResourceType)
    ensures r.Ok? ==> |r.value| == 1 && r.value[0].refId == ""
    ensures rq.resourceType == PipelineType ==> r == Table.NewTableFrames(store, rq)
    ensures rq.resourceType == VertexType ==>
      match SelectVertices(store, rq)
      case Err(e) => r == Err(e)
      case Ok(vs) => (
        && r.Ok? && r.value[0].name == "vertices" && r.value[0].body.BasicRows?
        && |r.value[0].body.basics| == |vs|
        && forall i :: 0 <= i < |vs| ==> r.value[0].body.basics[i] == VertexRowOf(vs[i]))
    ensures rq.resourceType == IsbsvcType ==>
      match Table.SelectIsbsvcs(store, rq)
      case Err(e) => r == Err(e)
      case Ok(svcs) => (
        && r.Ok? && r.value[0].name == "isbsvcs" && r.value[0].body.BasicRows?
        && |r.value[0].body.basics| == |svcs|
        && forall i :: 0 <= i < |svcs| ==> r.value[0].body.basics[i] == IsbsvcRowOf(svcs[i]))
  {
    match rq.resourceType
    case PipelineType =>
      var ps :- Table.SelectPipelines(store, rq);
      Ok([NewFrame("pipelines", PipelineRows(seq(|ps|, i requires 0 <= i < |ps| => Table.PipelineRowOf(ps[i]))))])
    case VertexType =>
      var vs :- SelectVertices(store, rq);
      Ok([NewFrame("vertices", BasicRows(seq(|vs|, i requires 0 <= i < |vs| => VertexRowOf(vs[i]))))])
    case IsbsvcType =>
      var svcs :- Table.SelectIsbsvcs(store, rq);
      Ok([NewFrame("isbsvcs", BasicRows(seq(|svcs|, i requires 0 <= i < |svcs| => IsbsvcRowOf(svcs[i]))))])
    case NamespaceType =>
      Err(Table.UnknownResourceType)
  }

  /** Both generations select the same vertices whenever every listed vertex's
    pipeline label names its spec pipeline. */
  lemma {:induction false} GenerationsSelectSameVertices(store: Cluster, rq: RunnableQuery)
    requires rq.namespace.Some? && rq.pipeline.Some? && rq.vertex.Some?
    requires var listing := store.listVertices(GetNamespace(rq));
      listing.Ok? ==> forall i :: 0 <= i < |listing.value| ==>
        Label(listing.value[i], PipelineNameLabel) == listing.value[i].pipelineName
    ensures SelectVertices(store, rq) == Table.SelectVertices(store, rq)
  {
    var listing := store.listVertices(GetNamespace(rq));
    if rq.vertex.value == Wildcard && listing.Ok? {
      var namespaces := GetFilterNamespaces(rq);
      var pipelines := GetFilterPipelines(rq);
      var older := VertexLabelSelected(namespaces, rq.pipeline.value, pipelines);
      var newer := Table.VertexSelected(namespaces, rq.pipeline.value, pipelines);
      forall i | 0 <= i < |listing.value| ensures older(listing.value[i]) == newer(listing.value[i]) {
        LabelFilterAgreesWhenLabelMatchesSpec(namespaces, rq.pipeline.value, pipelines, listing.value[i]);
      }
      FilterAgreesOnAgreeingItems(listing.value, older, newer);
      assert SelectVertices(store, rq) == Ok(Filter(listing.value, older));
      assert Table.SelectVertices(store, rq) == Ok(Filter(listing.value, newer));
    }
  }
}
