/** The resources the Kubernetes and daemon stores return, the store itself as
  a record of calls, and the pure parts of the client in
  `pkg/query/numaflow_client.go`. */
module Store {

  import opened Wrappers
  import opened Text
  import opened Seqs

  /** The label a vertex carries naming its pipeline. */
  const PipelineNameLabel: string := "numaflow.numaproj.io/pipeline-name"

  /** The label a vertex carries naming itself. */
  const VertexNameLabel: string := "numaflow.numaproj.io/vertex-name"

  /** The vertex phases the node graph tells apart. */
  const PhaseFailed: string := "Failed"
  const PhaseRunning: string := "Running"
  const PhaseSucceeded: string := "Succeeded"

  /** A pipeline as listed; the counts are optional in its status. Creation
    time is kept as epoch milliseconds. */
  datatype Pipeline = Pipeline(
    namespace: string,
    name: string,
    phase: string,
    vertexCount: Option<nat>,
    sourceCount: Option<nat>,
    sinkCount: Option<nat>,
    udfCount: Option<nat>,
    created: int)

  /** Which role predicates a vertex satisfies (`IsASource`, `IsASink`,
    `IsMapUDF`, `IsReduceUDF`). */
  datatype VertexRole = VertexRole(source: bool, sink: bool, mapUdf: bool, reduceUdf: bool)

  /** A vertex as listed: its labels, spec name, spec pipeline name, optional
    spec replicas, role, status phase and status replicas. */
  datatype Vertex = Vertex(
    namespace: string,
    labels: map<string, string>,
    name: string,
    pipelineName: string,
    replicas: Option<int>,
    role: VertexRole,
    phase: string,
    statusReplicas: nat,
    created: int)

  /** The Redis part of an isbsvc spec; `external` is the presence of
    `Redis.External`. */
  datatype Redis = Redis(external: bool)

  /** An inter-step buffer service as listed. */
  datatype Isbsvc = Isbsvc(
    namespace: string,
    name: string,
    redis: Option<Redis>,
    jetStream: bool,
    phase: string,
    created: int)

  /** A buffer between two vertices as the daemon reports it. */
  datatype Edge = Edge(
    fromVertex: Option<string>,
    toVertex: Option<string>,
    pendingCount: Option<int>,
    ackPendingCount: Option<int>,
    bufferUsage: Option<real>)

  datatype Pod = Pod(name: string)

  /** One container's usage: CPU in milli-units and memory scaled to mega. */
  datatype ContainerUsage = ContainerUsage(cpuMilli: int, memoryMega: int)

  datatype PodMetrics = PodMetrics(containers: seq<ContainerUsage>)

  /** The daemon's vertex metrics, keyed by aggregation period. */
  datatype VertexMetrics = VertexMetrics(processingRates: map<string, real>, pendings: map<string, int>)

  datatype VertexWatermark = VertexWatermark(watermark: Option<int>)

  /** The stores the datasource reads, each call keyed by its arguments. The
    two sentinels are the daemon's "not available" values for rates and
    pending counts. */
  datatype Cluster = Cluster(
    listPipelines: string -> Result<seq<Pipeline>>,
    getPipeline: (string, string) -> Result<Option<Pipeline>>,
    listVertices: string -> Result<seq<Vertex>>,
    listIsbsvcs: string -> Result<seq<Isbsvc>>,
    getIsbsvc: (string, string) -> Result<Isbsvc>,
    listVertexPods: (string, string, string) -> Result<seq<Pod>>,
    getPodMetrics: (string, string) -> Result<PodMetrics>,
    listPipelineEdges: (string, string) -> Result<seq<Edge>>,
    getVertexMetrics: (string, string, string) -> Result<VertexMetrics>,
    getVertexWatermark: (string, string, string) -> Result<VertexWatermark>,
    rateNotAvailable: real,
    pendingNotAvailable: int)

  /** A label's value, or "" when the vertex lacks it (Go's map lookup). */
  function Label(v: Vertex, key: string): string {
    if key in v.labels then v.labels[key] else ""
  }

  /** `namespaces` names each namespace of `items` exactly once, in some
    order. */
  ghost predicate NamespacesOf<T>(namespaces: seq<string>, items: seq<T>, namespaceOf: T -> string) {
    && (forall n :: n in namespaces <==> exists i :: 0 <= i < |items| && namespaceOf(items[i]) == n)
    && (forall i, j :: 0 <= i < j < |namespaces| ==> namespaces[i] != namespaces[j])
  }

  /** `names` holds the name of each item, in item order. */
  predicate NamesOf<T>(names: seq<string>, items: seq<T>, nameOf: T -> string) {
    |names| == |items| && forall i :: 0 <= i < |items| ==> names[i] == nameOf(items[i])
  }

  function PipelineNamespace(p: Pipeline): string { p.namespace }
  function VertexNamespace(v: Vertex): string { v.namespace }
  function IsbsvcNamespace(i: Isbsvc): string { i.namespace }

  /** The namespaces holding at least one listed item, each once. Go collects
    them as map keys, so their order is unspecified; this model keeps first
    occurrences. */
  function ListNamespacesWith<T>(listing: Result<seq<T>>, namespaceOf: T -> string): (r: Result<seq<string>>)
    ensures listing.Err? ==> r == Err(listing.error)
    ensures listing.Ok? ==> r.Ok? && NamespacesOf(r.value, listing.value, namespaceOf)
  {
    match listing
    case Err(e) => Err(e)
    case Ok(items) =>
      var namespaces := seq(|items|, i requires 0 <= i < |items| => namespaceOf(items[i]));
      assert forall n :: n in namespaces <==>
        exists i :: 0 <= i < |items| && namespaceOf(items[i]) == n by {
        forall n | n in namespaces
          ensures exists i :: 0 <= i < |items| && namespaceOf(items[i]) == n
        {
          var k :| 0 <= k < |namespaces| && namespaces[k] == n;
          assert namespaceOf(items[k]) == n;
        }
        forall i | 0 <= i < |items| ensures namespaceOf(items[i]) in namespaces {
          assert namespaces[i] == namespaceOf(items[i]);
        }
      }
      Ok(Distinct(namespaces))
  }

  /** True of a vertex carrying the pipeline label `pipeline`: the label
    selector `pipeline-name=<pipeline>`. */
  predicate InPipeline(v: Vertex, pipeline: string) {
    Label(v, PipelineNameLabel) == pipeline
  }

  /** `ListPipelineVertices`: the vertices of a namespace listing that the
    pipeline label selector matches, in listing order. */
  function ListPipelineVertices(listing: Result<seq<Vertex>>, pipeline: string): (r: Result<seq<Vertex>>)
    ensures listing.Err? ==> r == Err(listing.error)
    ensures listing.Ok? ==> r.Ok? && IsFilterOf(r.value, listing.value, v => InPipeline(v, pipeline))
  {
    match listing
    case Err(e) => Err(e)
    case Ok(vs) => Ok(Filter(vs, v => InPipeline(v, pipeline)))
  }

  /** The error of a vertex lookup that matched nothing (`%q` of a plain
    name). */
  function VertexNotFound(vertex: string): string {
    "Vertex \"" + vertex + "\" not found"
  }

  /** `GetPipelineVertex`: the first vertex of the namespace listing whose
    pipeline and vertex labels both match, or a not-found error. */
  function GetPipelineVertex(listing: Result<seq<Vertex>>, pipeline: string, vertex: string): (r: Result<Vertex>)
    ensures listing.Err? ==> r == Err(listing.error)
    ensures listing.Ok? && r.Err? ==> r.error == VertexNotFound(vertex)
    ensures listing.Ok? ==> (r.Err? <==>
      forall j :: 0 <= j < |listing.value| ==>
        !(InPipeline(listing.value[j], pipeline) && Label(listing.value[j], VertexNameLabel) == vertex))
    ensures r.Ok? ==> exists i :: (
      && 0 <= i < |listing.value| && r.value == listing.value[i]
      && InPipeline(r.value, pipeline) && Label(r.value, VertexNameLabel) == vertex
      && forall j :: 0 <= j < i ==>
        !(InPipeline(listing.value[j], pipeline) && Label(listing.value[j], VertexNameLabel) == vertex))
  {
    match listing
    case Err(e) => Err(e)
    case Ok(vs) =>
      match FirstIndex(vs, v => InPipeline(v, pipeline) && Label(v, VertexNameLabel) == vertex)
      case None => Err(VertexNotFound(vertex))
      case Some(i) => Ok(vs[i])
  }


  /** Five separator-free labels joined by the separator split back into
    themselves. */
  lemma {:induction false} SplitFiveLabels(a: string, b: string, c: string, d: string, e: string, sep: char)
    requires sep !in a && sep !in b && sep !in c && sep !in d && sep !in e
    ensures Split(a + [sep] + b + [sep] + c + [sep] + d + [sep] + e, sep) == [a, b, c, d, e]
  {
    var de := d + [sep] + e;
    var cde := c + [sep] + de;
    var bcde := b + [sep] + cde;
    assert a + [sep] + b + [sep] + c + [sep] + d + [sep] + e == a + [sep] + bcde;
    SplitPrefix(a, bcde, sep);
    SplitPrefix(b, cde, sep);
    SplitPrefix(c, de, sep);
    SplitPrefix(d, e, sep);
    SplitWhole(e, sep);
  }

  /** The host and port of a pipeline's daemon service. For dot-free names,
    its dot-separated labels are the service `<pipeline>-daemon-svc`, the
    namespace, "svc", "cluster", and "local:" with the port's numeral. */
  function DaemonSvcAddress(namespace: string, pipeline: string, port: nat): (r: string)
    ensures '.' !in namespace && '.' !in pipeline ==>
      Split(r, '.') == [pipeline + "-daemon-svc", namespace, "svc", "cluster", "local:" + NatToDecimal(port)]
  {
    var digits := NatToDecimal(port);
    if '.' !in namespace && '.' !in pipeline then
      DaemonAddressLabels(namespace, pipeline, digits);
      DaemonAddressText(namespace, pipeline, digits)
    else
      DaemonAddressText(namespace, pipeline, digits)
  }

  /** The address with the port already printed. */
  function DaemonAddressText(namespace: string, pipeline: string, digits: string): string {
    pipeline + "-daemon-svc." + namespace + ".svc.cluster.local:" + digits
  }

  /** The address text splits on dots into its five labels when the names
    and the port's digits hold no dot. */
  lemma DaemonAddressLabels(namespace: string, pipeline: string, digits: string)
    requires '.' !in namespace && '.' !in pipeline
    requires IsDigits(digits)
    ensures Split(DaemonAddressText(namespace, pipeline, digits), '.') ==
      [pipeline + "-daemon-svc", namespace, "svc", "cluster", "local:" + digits]
  {
    var host := pipeline + "-daemon-svc";
    var last := "local:" + digits;
    assert '.' !in host by {
      forall k | 0 <= k < |host| ensures host[k] != '.' {
        if k >= |pipeline| {
          assert host[k] == "-daemon-svc"[k - |pipeline|];
        }
      }
    }
    assert '.' !in last by {
      forall k | 0 <= k < |last| ensures last[k] != '.' {
        if k >= 6 {
          assert IsDigit(digits[k - 6]);
          assert last[k] == digits[k - 6];
        }
      }
    }
    assert DaemonAddressText(namespace, pipeline, digits) ==
      host + ['.'] + namespace + ['.'] + "svc" + ['.'] + "cluster" + ['.'] + last;
    SplitFiveLabels(host, namespace, "svc", "cluster", last, '.');
  }

}
