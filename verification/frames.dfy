/** The data frames the shapers return. Each frame's columns are kept as one
  sequence of row records, so every column has the row count by
  construction. */
module Frames {

  import opened Wrappers

  /** The eight columns of the pipeline table. */
  datatype PipelineRow = PipelineRow(
    namespace: string,
    name: string,
    phase: string,
    vertices: Option<nat>,
    sources: Option<nat>,
    sinks: Option<nat>,
    udfs: Option<nat>,
    created: int)

  /** The thirteen columns of the newer vertex table; the optional columns are
    the best-effort ones. The watermark stays in epoch milliseconds. */
  datatype VertexRow = VertexRow(
    namespace: string,
    pipeline: string,
    name: string,
    kind: string,
    phase: string,
    replicas: nat,
    desiredReplicas: Option<int>,
    processingRate: Option<real>,
    pendingMessages: Option<int>,
    watermark: Option<int>,
    cpuUsage: Option<int>,
    memoryUsage: Option<int>,
    created: int)

  /** The five columns of the newer isbsvc table. */
  datatype IsbsvcRow = IsbsvcRow(namespace: string, name: string, kind: string, phase: string, created: int)

  /** The four columns of the older vertex and isbsvc tables. */
  datatype BasicRow = BasicRow(namespace: string, name: string, phase: string, created: int)

  /** The weights of a node's health arcs. */
  datatype Arcs = Arcs(success: nat, failure: nat, neutral: nat)

  /** One node of the node graph. */
  datatype NodeRow = NodeRow(
    id: string,
    title: string,
    subtitle: string,
    mainStat: string,
    secondaryStat: Option<string>,
    arcs: Arcs)

  /** One edge of the node graph. */
  datatype EdgeRow = EdgeRow(id: string, source: string, target: string, mainStat: string, secondaryStat: string)

  datatype FrameBody =
    | PipelineRows(pipelines: seq<PipelineRow>)
    | VertexRows(vertices: seq<VertexRow>)
    | IsbsvcRows(isbsvcs: seq<IsbsvcRow>)
    | BasicRows(basics: seq<BasicRow>)
    | NodeRows(nodes: seq<NodeRow>)
    | EdgeRows(edges: seq<EdgeRow>)

  /** A named frame; `refId` is "" until the query runner stamps it. */
  datatype Frame = Frame(name: string, refId: string, body: FrameBody)

  /** A frame as a shaper builds it. */
  function NewFrame(name: string, body: FrameBody): Frame {
    Frame(name, "", body)
  }

  /** Renderers for the values the model does not format itself: a rate
    rounded to two decimals, a buffer usage, and an epoch-millisecond
    watermark as a UTC timestamp. */
  datatype Render = Render(rate: real -> string, usage: real -> string, timestamp: int -> string)
}
