# Numaflow datasource: query resolution and result shaping

A Dafny model of the backend core of the Numaflow datasource for Grafana. It
covers the following.

- **Query resolution.** A query carries optional namespace, pipeline, vertex
  and isbsvc fields. These become a resource type plus a resource name. A
  precedence cascade picks the type: pipeline+vertex is a vertex query,
  pipeline alone is a pipeline query, and isbsvc without pipeline is an isbsvc
  query. Anything else is "cannot unmarshal json".
- **Filter helpers.** A multi-value filter is any field containing a comma.
  Its braces are stripped and it is split on commas. A multi-value namespace
  makes the listing scope `""`, which is every namespace.
- **Request validation.** A datasource pinned to a namespace overrides the
  query's namespace. A missing namespace defaults to `""`. A named resource
  under `""` is rejected. Shaping errors are replaced by a fixed message, and
  every frame is stamped with the query's RefID.
- **The resource endpoints.** The query-types route, and the metric-names
  route with its branch table (namespace listing vs. name listing).
- **The two table shapers.**
  - The newer one (`pkg/scenario/table.go`) filters listings by namespace and
    pipeline sets. It classifies vertex and isbsvc kinds, and enriches vertex
    rows best-effort with the processing rate, pending count, watermark and
    pod CPU/memory.
  - The older one (`pkg/query/scenario/table.go`) reads the pipeline and
    vertex names from labels and has four columns.
- **The node-graph shaper.** Its preconditions, node rows with their
  `actual/desired` subtitle and health arcs, and edge rows with `src-dst` ids.
  A nil endpoint fails the whole result.
- **The two query-type dispatchers** and the query-types list.
- **The pure parts of the Numaflow client of `pkg/query/numaflow_client.go`.**
  Namespace de-duplication, the first-match vertex lookup, and the daemon
  service address.

The Kubernetes and daemon stores are a `Store.Cluster` record of function
fields. Each list or get call becomes a `Result` value keyed by its
arguments; so does the pod listing of a vertex.

Two label-selected listings are filters over the plain namespace listing of
vertices:
- `ListPipelineVertices`;
- `GetPipelineVertex`.

Values the model does not format are produced by a `Frames.Render` record of
function fields:
- floats rounded to two decimals;
- a buffer usage printed in the shortest form;
- a millisecond watermark as a UTC timestamp.

Integers are printed with `%d`. `Text.IntToDecimal` models that and parses
back.

Files:
- `wrappers.dfy`: Option and Result.
- `text.dfy`: split, join, brace removal, decimals.
- `seqs.dfy`: the order-keeping filter, first match, de-duplication.
- `query.dfy`: resolution and filter helpers.
- `store.dfy`: store records and the pure client parts.
- `enrich.dfy`: metric enrichment.
- `frames.dfy`: frame rows.
- `table.dfy`: the newer table shaper.
- `legacy_table.dfy`: the older table shaper.
- `node_graph.dfy`: the node-graph shaper.
- `dispatch.dfy`: the dispatchers.
- `metric_names.dfy`: the metric-names endpoint.
- `datasource.dfy`: the plugin entry points.

The older filter helpers `getNamespace`, `isMulti*Filter` and `getFilter*`
(`pkg/query/scenario/table.go:149-182`) are identical to the methods at
`pkg/models/query.go:88-121` and `pkg/query/runnable_query.go:46-79`. One set
of functions in `Query` models all three copies.

Two behaviours of the code are stated as they are written.

- **The `""` namespace quirk.** A non-multi namespace `""` has the filter set
  `[""]`. A wildcard listing under it therefore keeps only items whose
  namespace is `""`, i.e. nothing a cluster returns
  (`Table.AllNamespacesWildcardKeepsNoNamespacedPipeline`). This is so even
  though the listing itself spans every namespace. The comment at
  `pkg/models/query.go:31` describes that query as "all pipelines all
  namespaces"; the model follows the code.
- **Vertex-table metrics are keyed by the query.** The newer vertex table
  fetches each vertex's metrics, watermark and pods under the query's listing
  scope and the query's pipeline field, not the vertex's own pipeline
  (`Table.VertexRowOf`). The node graph uses the vertex's own pipeline name
  (`NodeGraph.NodeRowOf`).

## Model

| member | source | states |
|---|---|---|
| Query.ParseResourceType | pkg/query/query.go:16-18 | a recognised type name maps to the type whose name it is |
| Query.ResourceTypeNamesRoundTrip | pkg/query/query.go:16-18 | every resource type's string reads back as that type, so the names are pairwise distinct |
| Query.Resolve | pkg/query/query.go:29-43 | resolution succeeds iff pipeline or isbsvc is present, and otherwise fails with "cannot unmarshal json"; a result is a consistent query (vertex needs pipeline, the name is the field of the resolved kind) with the input fields unchanged |
| Query.ResolveUnique | pkg/models/query.go:69-83 | every consistent query is what the cascade makes of its own fields: the cascade is the only reading of a field combination |
| Query.VertexWithoutPipeline | pkg/models/query.go:77-83 | a vertex without a pipeline is never a vertex query: it is an isbsvc query when isbsvc is present and an error otherwise |
| Query.PipelineOutranksIsbsvc | pkg/models/query.go:69-76 | with pipeline and isbsvc both present resolution succeeds and never gives an isbsvc query: it is a vertex query named by the vertex when a vertex is present, otherwise a pipeline query named by the pipeline |
| Query.StripBraces | pkg/models/query.go:107-109 | the result is the field's non-brace characters, each as often as in the field and in the field's order; so it has no brace, keeps every comma, and is the field itself when it had no brace |
| Query.ExpandFilter | pkg/query/runnable_query.go:61-69 | a comma-free field is a singleton; otherwise comma count + 1 pieces, none holding a comma or brace, which join back with commas to the brace-stripped field |
| Query.PiecesKeepAbsentChars | pkg/models/query.go:110 | splitting never introduces a character the input lacks |
| Query.ListingScope | pkg/query/runnable_query.go:46-51 | the listing scope is "" (every namespace) for a multi filter, otherwise the field, whose filter set is exactly itself |
| Query.EmptyNamespaceExpandsToItself | pkg/models/query.go:103-106 | worked example: namespace "" is not a multi filter, its filter set is [""], and it lists in every namespace |
| Query.IsMultiNamespaceFilter | pkg/models/query.go:95-97 | holds iff the namespace field has a comma, which is exactly when it expands to more than one name |
| Query.IsMultiPipelineFilter | pkg/models/query.go:99-101 | the same on the pipeline field |
| Query.GetNamespace | pkg/models/query.go:88-93 | "" for a namespace containing a comma, the raw namespace otherwise |
| Query.GetFilterNamespaces | pkg/models/query.go:103-111 | the raw namespace as a singleton (braces kept) when comma-free, otherwise comma count + 1 brace- and comma-free names that join back to the brace-stripped field |
| Query.GetFilterPipelines | pkg/models/query.go:113-121 | the same on the pipeline field |
| Text.JoinSplit | pkg/models/query.go:110 | joining the pieces of a split with the separator gives back the input |
| Text.SplitJoin | pkg/models/query.go:110 | separator-free pieces joined by the separator split back into themselves |
| Text.SplitCount | pkg/query/runnable_query.go:65-68 | a split has one more piece than the input has separators |
| Text.IntDecimalRoundTrip | pkg/query/scenario/node_graph.go:67 | the `%d` numeral of an integer parses back to that integer |
| Seqs.Filter | pkg/scenario/table.go:33-42 | the post-filter keeps exactly the accepted items, each as often as listed, in listing order |
| Seqs.FilterAppend | pkg/query/scenario/table.go:21-30 | filtering distributes over concatenation, so listing order is kept across parts |
| Seqs.FilterAgreesOnAgreeingItems | pkg/query/scenario/table.go:76-81 | two predicates agreeing on every listed item select the same items |
| Seqs.Distinct | pkg/query/numaflow_client.go:73-81 | every input value appears, nothing else does, and no value twice |
| Store.ListNamespacesWith | pkg/query/numaflow_client.go:68-114 | a listing error passes through; otherwise the result holds exactly the namespaces of listed items, each once |
| Store.ListPipelineVertices | pkg/query/numaflow_client.go:132-140 | the vertices whose pipeline label matches, in listing order, or the listing error |
| Store.GetPipelineVertex | pkg/query/numaflow_client.go:158-169 | the first vertex matching both labels; `Vertex "<name>" not found` iff none matches; a listing error passes through |
| Store.DaemonSvcAddress | pkg/query/numaflow_client.go:266-268 | for dot-free names the address splits on dots into `<pipeline>-daemon-svc`, the namespace, svc, cluster and `local:<port>` with the port's `%d` numeral |
| Enrichment.RateOf | pkg/scenario/table.go:135-143 | a rate is reported iff the fetch succeeded, the "default" key exists, and the value is non-negative and not the sentinel; it is then that value |
| Enrichment.PendingOf | pkg/scenario/table.go:144-152 | the same rule for the pending count with its own sentinel |
| Enrichment.UnavailableRatesLookAlike | pkg/query/scenario/node_graph.go:68-79 | worked example: a fetch error, the sentinel and a negative rate all leave the rate absent |
| Enrichment.WatermarkOf | pkg/scenario/table.go:153-161 | the watermark is present iff the fetch succeeded and it is set |
| Enrichment.PodTotals | pkg/scenario/table.go:168-184 | totals are absent iff some pod's metrics fetch fails |
| Enrichment.AggregatePodUsage | pkg/scenario/table.go:162-185 | the loop yields 0/0 on any failed fetch and otherwise the per-pod container sums; its outcome is the reported usage |
| Enrichment.PodUsage | pkg/scenario/table.go:162-185 | CPU and memory are both present or both absent; absent on a pod-listing error, any failed fetch, or a zero total; never a partial sum |
| Table.SelectPipelines | pkg/scenario/table.go:29-49 | a wildcard lists in the scope and keeps exactly the pipelines whose namespace is in the filter set, in order; a name gets that one pipeline or its error |
| Table.SelectIsbsvcs | pkg/scenario/table.go:207-225 | the same for isbsvcs |
| Table.SelectVertices | pkg/scenario/table.go:87-105 | a wildcard keeps a vertex iff its namespace is in the filter and the query pipeline is "" or its spec pipeline is in the pipeline filter; a name gets the first matching vertex or its error |
| Table.VertexKind | pkg/scenario/table.go:123-131 | each kind string holds iff its role is the first one the vertex has in the order source, sink, map UDF, reduce UDF; "" iff it has none |
| Table.VertexKindOfSingleRole | pkg/scenario/table.go:123-131 | worked example: each single role is named by its own kind string |
| Table.IsbsvcKind | pkg/scenario/table.go:236-244 | each of the four kind strings holds iff its Redis/JetStream condition does |
| Table.PipelineRowOf | pkg/scenario/table.go:58-66 | each pipeline column is the pipeline's namespace, name, phase, vertex/source/sink/UDF counts (absent when unset) and creation time |
| Table.IsbsvcRowOf | pkg/scenario/table.go:233-247 | each isbsvc column is the isbsvc's namespace, name, backing kind, phase and creation time |
| Table.VertexRowOf | pkg/scenario/table.go:119-185 | a vertex row projects the spec and status; rate, pending and watermark follow the availability rules under the query's scope and pipeline; CPU and memory are the summed container CPU and memory of the vertex's pods when the pod listing and every pod's metrics fetch succeed and neither sum is zero, both absent otherwise |
| Table.NewTableFrames | pkg/scenario/table.go:17-27 | the namespace type is "unknown query resource type"; each other type yields one unstamped frame with one row per selected item, in order, or the selection's error |
| Table.FilterOfNothingIsEmpty | pkg/scenario/table.go:36-41 | a filter that accepts no listed item keeps nothing |
| Table.AllNamespacesWildcardKeepsNoNamespacedPipeline | pkg/models/query.go:31 | a wildcard pipeline query under namespace "" yields an empty pipelines frame whenever every listed pipeline has a namespace |
| LegacyTable.SelectVertices | pkg/query/scenario/table.go:69-87 | a wildcard keeps a vertex iff its namespace is in the filter and the query pipeline is "" or its pipeline-name label is in the pipeline filter; a name gets the first matching vertex |
| LegacyTable.LabelFilterAgreesWhenLabelMatchesSpec | pkg/query/scenario/table.go:76-81 | the label filter and the spec filter agree on a vertex whose pipeline label equals its spec pipeline name |
| LegacyTable.IsbsvcRowOf | pkg/query/scenario/table.go:130-135 | each column of the older isbsvc row is the isbsvc's namespace, name, phase and creation time |
| LegacyTable.VertexRowOf | pkg/query/scenario/table.go:92-98 | the name column is the vertex-name label ("" when missing), not the spec name |
| LegacyTable.NewTableFrames | pkg/query/scenario/table.go:15-146 | the namespace type is "unknown query resource type"; pipelines are shaped exactly as in the newer table; vertex and isbsvc rows have four columns, one row per selected item |
| LegacyTable.GenerationsSelectSameVertices | pkg/query/scenario/table.go:73-81 | when every listed vertex's pipeline label equals its spec pipeline name, both generations select the same vertices |
| NodeGraph.ArcsFor | pkg/query/scenario/node_graph.go:89-102 | exactly one arc is 1; failure iff Failed; success iff Running or Succeeded |
| NodeGraph.SubtitleReadsBack | pkg/query/scenario/node_graph.go:63-67 | the subtitle is two numerals around one slash giving the status replicas and the spec replicas (1 when unset) |
| NodeGraph.NodeRowOf | pkg/query/scenario/node_graph.go:60-88 | id and title are the vertex name; main stat is empty iff no rate is available, otherwise the rounded rate + " msg/s"; secondary stat present iff the watermark is |
| NodeGraph.EdgeIdSplitsBack | pkg/query/scenario/node_graph.go:113 | the id of two dash-free endpoints splits back into source and target |
| NodeGraph.EdgeRowOf | pkg/query/scenario/node_graph.go:108-119 | source, target and `src-dst` id; main stat is empty iff a pending count is missing, otherwise it parses back to pending + ack-pending and is in canonical `%d` form (no leading zero); secondary stat is present iff buffer usage is |
| NodeGraph.EdgeRecords | pkg/query/scenario/node_graph.go:104-120 | succeeds iff every edge has both endpoints, with one row per edge in order; otherwise the error names the missing endpoint of the first bad edge |
| NodeGraph.NewNodeGraphFrames | pkg/query/scenario/node_graph.go:17-146 | non-pipeline, wildcard and multi-pipeline queries are rejected; get errors and a nil pipeline fail; once the pipeline is found, a vertex-listing or edge-listing error is returned as is, and otherwise a graph is produced iff every edge has both endpoints, else the first bad edge's missing-endpoint error; a graph is a nodes and an edges frame, one row per vertex and per edge, in order |
| NodeGraph.NodesCarryPipelineLabel | pkg/query/scenario/node_graph.go:34-41 | every node is a listed vertex of the queried pipeline |
| Dispatch.QueryTypes | pkg/resource/query_types.go:20-25 | exactly ["Table", "NodeGraph"], in that order, two distinct types |
| Dispatch.NewDataFrames | pkg/scenario/frame.go:12-20 | Table and NodeGraph route to their shapers with the query unchanged; any other type is "unsupported query type" |
| Dispatch.LegacyNewDataFrames | pkg/query/scenario/frame.go:11-18 | the same routing to the older table shaper |
| Dispatch.DispatchedFramesHaveKnownShape | pkg/resource/query_types.go:20-25 | a successful dispatch had a listed query type and gives one frame, or two iff the type is NodeGraph |
| Dispatch.GenerationsAgreeOnPipelines | pkg/query/scenario/frame.go:11-18 | outside vertex and isbsvc tables the two dispatchers give the same result |
| MetricNames.NamesIn | pkg/resource/metric_names.go:91-115 | one name per listed item, in listing order, or the listing error |
| MetricNames.NamespacesContaining | pkg/resource/metric_names.go:56-81 | each type lists in the client's scope and yields exactly the namespaces holding that kind, each once; the namespace type is an error |
| MetricNames.ResourcesIn | pkg/resource/metric_names.go:83-120 | pipeline and isbsvc names of the namespace, vertex-name labels of the query pipeline's vertices, in order; the namespace type is an error |
| MetricNames.MetricNamesOf | pkg/resource/metric_names.go:25-54 | a missing or "" namespace is "namespace cannot be empty"; namespace "*" with name "" lists namespaces; name "*" with a real namespace lists names; everything else is "query format is invalid" |
| MetricNames.AcceptedShapesAreExclusive | pkg/resource/metric_names.go:34-46 | the two accepted shapes never overlap, and every success had one of them |
| MetricNames.PinnedClientListsOnlyItsNamespace | pkg/plugin/datasource.go:37-40 | a namespace listing through a client whose store only returns its scope's pipelines names only that scope |
| Datasource.NewDatasource | pkg/plugin/datasource.go:32-40 | the client scope is the pinned namespace when pinned, otherwise "" |
| Datasource.Unmarshall | pkg/query/query.go:20-45 | a decode error passes through; otherwise the result is the cascade's, consistent and with every field a shaper needs |
| Datasource.PrepareQuery | pkg/plugin/datasource.go:161-167 | the namespace is set afterwards: the pin when pinned, else the query's own, else ""; no other field changes |
| Datasource.Stamp | pkg/plugin/datasource.go:183-186 | every frame, in order, carries the RefID and is otherwise unchanged |
| Datasource.RunQuery | pkg/plugin/datasource.go:153-188 | decode errors pass through; "" with a name other than "*" is the namespace-required error; shaping errors become "error retrieving frames"; errors carry no frames; frames carry the RefID |
| Datasource.PinnedNamespaceNeverMissing | pkg/plugin/datasource.go:161-171 | a datasource pinned to a real namespace never reports the namespace-required error |
| Datasource.UnpinnedSingleResourceNeedsNamespace | pkg/plugin/datasource.go:165-171 | an unpinned query naming a resource without a namespace is rejected with no frames |
| Datasource.LastIndexOfKey | pkg/plugin/datasource.go:78-84 | the last position holding a key, with no later one; absent iff no element has it |
| Datasource.LastByKey | pkg/plugin/datasource.go:78-84 | the map has the keys that occur, each mapped to the value of its last occurrence |
| Datasource.LastByKeyLaterWins | pkg/plugin/datasource.go:78-84 | every key occurs in the map, and an element that no later element shares a key with supplies its key's value |
| Datasource.QueryData | pkg/plugin/datasource.go:69-85 | one response per RefID present, which is that query's own run; with a repeated RefID the later query's response is kept |
| Datasource.CallResource | pkg/plugin/datasource.go:87-131 | 404 iff neither route matches; GET query-types gives 200 with the list; metric names gives 400 without settings or on a decode error, 500 on a collection error, else 200 with the names |
| Datasource.PinDoesNotScopeNamesQuery | pkg/plugin/datasource.go:99-125 | on a pinned datasource a names query still lists the pipelines of the query's own namespace |
| Datasource.CheckHealth | pkg/plugin/datasource.go:137-151 | healthy iff listing isbsvcs in the client's scope succeeds; the message is the fixed one or the error |

## Left out

- JSON decoding and encoding. This covers the decoders in every `Unmarshall`
  and the marshallers behind `MetricNamesJson` and `QueryTypesJson`. Inputs
  are already decoded: `Result<RawQuery>` stands for a decode that may fail
  with its error.
- The 500 branch of the query-types route (pkg/plugin/datasource.go:90-93).
  `QueryTypesJson` panics on a marshal error instead of returning it
  (pkg/resource/query_types.go:31-33), so that branch is unreachable;
  `Dispatch.CallResource` answers the route with the list and nothing else.
- Label-selector semantics. A missing label reads as "", so
  `Store.ListPipelineVertices` with pipeline "" selects the vertices that
  have no pipeline label, where a Kubernetes `key=` selector requires the
  label to be present.
- Label-selector parse errors. A pipeline such as `*` or `{a,b}` makes the
  vertex listing of `MetricNames.ResourcesIn` fail in the source; the model
  compares it with the label as a plain string.
- NaN. Processing rates and their sentinel are modelled as reals; a NaN rate from
  the daemon is not modelled.
- The client package `pkg/client`, which the newer datasource, metric-names
  resource and table call (pkg/plugin/datasource.go:6, pkg/resource/metric_names.go:9,
  pkg/scenario/table.go:5). It is not part of this model. Its methods are
  modelled by their namesakes in `pkg/query/numaflow_client.go`, and
  `client.NewClient(ns)` (pkg/plugin/datasource.go:41) by a
  `MetricNames.Client` whose `scope` is that namespace. The argument-free
  `ListNamespacesWith*()` calls (pkg/resource/metric_names.go:60-72,
  pkg/plugin/datasource.go:140) are taken to pass that scope as the `ns` of
  their `pkg/query` namesakes. `Datasource.NewDatasource`,
  `Datasource.CheckHealth`, `MetricNames.NamespacesContaining` and
  `MetricNames.PinnedClientListsOnlyItsNamespace` rest on this reading.
- Every Kubernetes, metrics-server and daemon gRPC call, and the
  kubeconfig/in-cluster client setup. These are the `Store.Cluster` fields.
  Also left out:
  - the 1000-item page limit of the listings;
  - the daemon port, a constant of a package that is not part of this model,
    so `Store.DaemonSvcAddress` takes it as a parameter;
  - the values of the rate and pending not-available sentinels, which come
    from the same package; they are the fields `rateNotAvailable` and
    `pendingNotAvailable`.
- The vertex-metrics, watermark, edge and pod fetches that build a
  daemon-client address. The address is modelled (`Store.DaemonSvcAddress`);
  the connection is not.
- Float formatting. `roundFloat` and `strconv.FormatFloat` are the `rate` and
  `usage` functions of `Frames.Render`.
- Time formatting. `time.UnixMilli` and `Format` are the `timestamp` function
  of `Frames.Render`.
- `Quantity.MilliValue` and `Quantity.ScaledValue`. Container usage is taken as
  integers.
- Grafana `data.Frame` and `data.Field` construction, and field colour
  configuration. A frame is a sequence of row records, so every column has the
  row count by construction. The node-graph arc columns are float32 in the
  source and `nat` here.
- Go integer widths. Integers are unbounded, so the int32 replica count and
  the int64 sum of two pending counts never wrap.
- `%q` escaping. `Store.VertexNotFound` puts plain quotes around the name,
  which matches `%q` only for names without quotes, backslashes or
  non-printable characters.
- Go map iteration order. `Store.ListNamespacesWith` keeps first occurrences;
  the source returns the namespaces in an unspecified order, and only the set
  and the absence of repeats are promised.
- Logging, `Dispose`, instance settings loading (`pkg/models/settings.go`,
  `pkg/plugin/settings.go`), the resource handler and runner plumbing
  (`pkg/plugin/resource_handler.go`, `pkg/query/runner.go`), the demo time
  series (`pkg/query/scenario/time_series.go`), the client wrappers
  (`pkg/plugin/numaflow_client.go`, `pkg/query/scenario/numaflow_client.go`),
  and the TypeScript front end.
- The node-graph shaper of `pkg/scenario`. The newer dispatcher calls it, but
  it is not part of this model, so `Dispatch.NewDataFrames` routes NodeGraph
  to `NodeGraph.NewNodeGraphFrames`, the shaper of
  `pkg/query/scenario/node_graph.go`.
- The older query-type constants. They are defined in a file that is not part
  of this model; the older dispatcher is modelled with the same "Table" and
  "NodeGraph" strings as `pkg/resource/query_types.go`.
- The older client's vertex lookup. The older table calls
  `GetPipelineVertex`, which the older `NFClients`
  (`pkg/query/scenario/numaflow_client.go`) does not define. Its
  `GetVertex(ns, vertex, pipeline)` (lines 172-184) lists with the same
  pipeline-and-vertex label selector and fails with the same
  `Vertex "<name>" not found`. Both are modelled as `Store.GetPipelineVertex`,
  the lookup of `pkg/query/numaflow_client.go`; the two differ only in
  argument order.
- `MetricNames.UnknownType` and `Table.UnknownResourceType` (and the
  matching branch of `LegacyTable`) are reachable only for `NamespaceType`,
  which only the older models package defines; `Query.Resolve` never yields
  it, so the newer generation cannot produce those errors. They are modelled
  for the older dispatcher.
- Go panics. A single-pipeline table query whose store returns no pipeline
  and no error dereferences nil in the source. `Table.SelectPipelines` returns
  the error `Table.NilDereference` instead.
- `QueryData`'s handling of queries that share a RefID. Go stores each
  response in a map in query order, so the last one wins;
  `Datasource.QueryData` states exactly that and nothing about the discarded
  responses.
