/** The query types the datasource serves and the two frame dispatchers
  (`pkg/resource/query_types.go`, `pkg/scenario/frame.go`,
  `pkg/query/scenario/frame.go`). */
module Dispatch {

  import opened Wrappers
  import opened Query
  import opened Store
  import opened Frames
  import Table
  import LegacyTable
  import NodeGraph

  const TableQueryType: string := "Table"
  const NodeGraphQueryType: string := "NodeGraph"

  /** The resource route that lists the query types. */
  const QueryTypesPath: string := "/query-types"
  const QueryTypesMethod: string := "GET"

  const UnsupportedQueryType: string := "unsupported query type"

  /** The query types the editor offers: the table first, then the node
    graph, each once. */
  function QueryTypes(): (r: seq<string>)
    ensures r == [TableQueryType, NodeGraphQueryType]
    ensures r[0] != r[1]
  {
    [TableQueryType, NodeGraphQueryType]
  }

  /** The newer dispatcher: a table or a node graph by the query type. */
  function NewDataFrames(store: Cluster, render: Render, queryType: string, rq: RunnableQuery): (r: Result<seq<Frame>>)
    requires rq.namespace.Some? && FieldsPresent(rq)
    ensures queryType !in QueryTypes() ==> r == Err(UnsupportedQueryType)
    ensures queryType == TableQueryType ==> r == Table.NewTableFrames(store, rq)
    ensures queryType == NodeGraphQueryType ==> r == NodeGraph.NewNodeGraphFrames(store, render, rq)
  {
    if queryType == TableQueryType then Table.NewTableFrames(store, rq)
    else if queryType == NodeGraphQueryType then NodeGraph.NewNodeGraphFrames(store, render, rq)
    else Err(UnsupportedQueryType)
  }

  /** The older dispatcher: the same routing onto the older table shaper. */
  function LegacyNewDataFrames(store: Cluster, render: Render, queryType: string, rq: RunnableQuery): (r: Result<seq<Frame>>)
    requires rq.namespace.Some? && FieldsPresent(rq)
    ensures queryType !in QueryTypes() ==> r == Err(UnsupportedQueryType)
    ensures queryType == TableQueryType ==> r == LegacyTable.NewTableFrames(store, rq)
    ensures queryType == NodeGraphQueryType ==> r == NodeGraph.NewNodeGraphFrames(store, render, rq)
  {
    if queryType == TableQueryType then LegacyTable.NewTableFrames(store, rq)
    else if queryType == NodeGraphQueryType then NodeGraph.NewNodeGraphFrames(store, render, rq)
    else Err(UnsupportedQueryType)
  }

  /** Every frame either dispatcher returns comes without a reference id and
    is one the shapers name: a successful table is one frame, a successful
    node graph is the pair nodes, edges. */
  lemma DispatchedFramesHaveKnownShape(store: Cluster, render: Render, queryType: string, rq: RunnableQuery)
    requires rq.namespace.Some? && FieldsPresent(rq)
    ensures var r := NewDataFrames(store, render, queryType, rq);
      r.Ok? ==> (queryType in QueryTypes() && 1 <= |r.value| <= 2
        && (|r.value| == 2 <==> queryType == NodeGraphQueryType))
    ensures var r := LegacyNewDataFrames(store, render, queryType, rq);
      r.Ok? ==> (queryType in QueryTypes() && 1 <= |r.value| <= 2
        && (|r.value| == 2 <==> queryType == NodeGraphQueryType))
  {
  }

  /** The two generations differ only in the table of a vertex or isbsvc
    query: pipeline tables and node graphs are the same. */
  lemma GenerationsAgreeOnPipelines(store: Cluster, render: Render, queryType: string, rq: RunnableQuery)
    requires rq.namespace.Some? && FieldsPresent(rq)
    requires rq.resourceType == PipelineType || queryType != TableQueryType
    ensures NewDataFrames(store, render, queryType, rq) == LegacyNewDataFrames(store, render, queryType, rq)
  {
  }
}
