/** The metric-names resource (`pkg/resource/metric_names.go`): the values a
  dashboard variable offers, either the namespaces holding a kind of resource
  or the names of that kind in one namespace. */
module MetricNames {

  import opened Wrappers
  import opened Query
  import opened Store

  /** The resource route that lists metric names. */
  const MetricNamesPath: string := "/metric-names"
  const MetricNamesMethod: string := "POST"

  const NamespaceEmpty: string := "namespace cannot be empty"
  const InvalidFormat: string := "query format is invalid"
  const UnknownTypePrefix: string := "error listing namespaces, resource type unknown, "

  /** The error for a resource type no listing exists for, `%v` of the
    type. */
  function UnknownType(t: ResourceType): string {
    UnknownTypePrefix + t.Name()
  }

  /** A store client bound to a namespace: the calls without a namespace
    argument list in `scope`, which is "" (every namespace) unless the
    datasource is pinned to one. */
  datatype Client = Client(scope: string, cluster: Cluster)

  /** The vertex-name label of a vertex, "" when missing. */
  function VertexLabelName(v: Vertex): string {
    Label(v, VertexNameLabel)
  }

  function PipelineName(p: Pipeline): string { p.name }
  function IsbsvcName(i: Isbsvc): string { i.name }

  /** The names of the listed items, in listing order; a listing error is
    passed on. */
  function NamesIn<T>(listing: Result<seq<T>>, nameOf: T -> string): (r: Result<seq<string>>)
    ensures listing.Err? ==> r == Err(listing.error)
    ensures listing.Ok? ==> r.Ok? && NamesOf(r.value, listing.value, nameOf)
  {
    match listing
    case Err(e) => Err(e)
    case Ok(items) => Ok(seq(|items|, i requires 0 <= i < |items| => nameOf(items[i])))
  }

  /** `getNamespacesContainingResource`: the namespaces, within the client's
    scope, that hold at least one resource of the type. */
  function NamespacesContaining(t: ResourceType, c: Client): (r: Result<seq<string>>)
    ensures t == NamespaceType ==> r == Err(UnknownType(t))
    ensures t == PipelineType ==> var l := c.cluster.listPipelines(c.scope);
      && (l.Err? ==> r == Err(l.error))
      && (l.Ok? ==> r.Ok? && NamespacesOf(r.value, l.value, PipelineNamespace))
    ensures t == VertexType ==> var l := c.cluster.listVertices(c.scope);
      && (l.Err? ==> r == Err(l.error))
      && (l.Ok? ==> r.Ok? && NamespacesOf(r.value, l.value, VertexNamespace))
    ensures t == IsbsvcType ==> var l := c.cluster.listIsbsvcs(c.scope);
      && (l.Err? ==> r == Err(l.error))
      && (l.Ok? ==> r.Ok? && NamespacesOf(r.value, l.value, IsbsvcNamespace))
  {
    match t
    case PipelineType => ListNamespacesWith(c.cluster.listPipelines(c.scope), PipelineNamespace)
    case VertexType => ListNamespacesWith(c.cluster.listVertices(c.scope), VertexNamespace)
    case IsbsvcType => ListNamespacesWith(c.cluster.listIsbsvcs(c.scope), IsbsvcNamespace)
    case NamespaceType => Err(UnknownType(t))
  }

  /** `getResourcesInNamespace`: the names of the resources of the query's
    type in the namespace field taken verbatim; vertices are those of the
    query's pipeline, named by their vertex-name label. */
  function ResourcesIn(q: RunnableQuery, c: Client): (r: Result<seq<string>>)
    requires q.namespace.Some? && FieldsPresent(q)
    ensures q.resourceType == NamespaceType ==> r == Err(UnknownType(q.resourceType))
    ensures q.resourceType == PipelineType ==> var l := c.cluster.listPipelines(q.namespace.value);
      && (l.Err? ==> r == Err(l.error))
      && (l.Ok? ==> r.Ok? && NamesOf(r.value, l.value, PipelineName))
    ensures q.resourceType == VertexType ==>
      var l := ListPipelineVertices(c.cluster.listVertices(q.namespace.value), q.pipeline.value);
      && (l.Err? ==> r == Err(l.error))
      && (l.Ok? ==> r.Ok? && NamesOf(r.value, l.value, VertexLabelName))
    ensures q.resourceType == IsbsvcType ==> var l := c.cluster.listIsbsvcs(q.namespace.value);
      && (l.Err? ==> r == Err(l.error))
      && (l.Ok? ==> r.Ok? && NamesOf(r.value, l.value, IsbsvcName))
  {
    var ns := q.namespace.value;
    match q.resourceType
    case PipelineType => NamesIn(c.cluster.listPipelines(ns), PipelineName)
    case VertexType => NamesIn(ListPipelineVertices(c.cluster.listVertices(ns), q.pipeline.value), VertexLabelName)
    case IsbsvcType => NamesIn(c.cluster.listIsbsvcs(ns), IsbsvcName)
    case NamespaceType => Err(UnknownType(q.resourceType))
  }

  /** True of a query asking for the namespaces that hold its kind: no
    resource name and the namespace "*". */
  predicate AsksForNamespaces(q: RunnableQuery) {
    q.namespace == Some(Wildcard) && q.resourceName == ""
  }

  /** True of a query asking for the names of its kind in one namespace: the
    name "*" and a namespace that is neither "*" nor "". */
  predicate AsksForNames(q: RunnableQuery) {
    q.namespace.Some? && q.namespace.value != Wildcard && q.namespace.value != NamespaceAll
      && q.resourceName == Wildcard
  }

  /** `MetricNamesJson` before the encoding: the namespace must be given and
    not be "", and the query must have one of the two accepted shapes. */
  function MetricNamesOf(q: RunnableQuery, c: Client): (r: Result<seq<string>>)
    requires FieldsPresent(q)
    ensures q.namespace.None? || q.namespace == Some(NamespaceAll) ==> r == Err(NamespaceEmpty)
    ensures AsksForNamespaces(q) ==> r == NamespacesContaining(q.resourceType, c)
    ensures AsksForNames(q) ==> r == ResourcesIn(q, c)
    ensures q.namespace.Some? && q.namespace != Some(NamespaceAll) && !AsksForNamespaces(q) && !AsksForNames(q) ==>
      r == Err(InvalidFormat)
  {
    if q.namespace.None? || q.namespace.value == NamespaceAll then Err(NamespaceEmpty)
    else if q.resourceName == "" && q.namespace.value == Wildcard then NamespacesContaining(q.resourceType, c)
    else if q.resourceName == Wildcard && q.namespace.value != Wildcard && q.namespace.value != NamespaceAll then
      ResourcesIn(q, c)
    else Err(InvalidFormat)
  }

  /** The two accepted shapes never overlap, and a successful answer comes
    from one of them. */
  lemma AcceptedShapesAreExclusive(q: RunnableQuery, c: Client)
    requires FieldsPresent(q)
    ensures !(AsksForNamespaces(q) && AsksForNames(q))
    ensures MetricNamesOf(q, c).Ok? ==> AsksForNamespaces(q) || AsksForNames(q)
  {
  }

  /** Asking for the namespaces of a kind lists in the client's scope and
    ignores the query's namespace "*": a pinned client answers with at most
    its own namespace. */
  lemma PinnedClientListsOnlyItsNamespace(q: RunnableQuery, c: Client, n: string)
    requires FieldsPresent(q) && AsksForNamespaces(q) && q.resourceType == PipelineType
    requires c.cluster.listPipelines(c.scope).Ok?
    requires forall i :: 0 <= i < |c.cluster.listPipelines(c.scope).value| ==>
      c.cluster.listPipelines(c.scope).value[i].namespace == c.scope
    requires MetricNamesOf(q, c).Ok? && n in MetricNamesOf(q, c).value
    ensures n == c.scope
  {
    var l := c.cluster.listPipelines(c.scope).value;
    var i :| 0 <= i < |l| && PipelineNamespace(l[i]) == n;
  }
}
