/** Best-effort metric enrichment of a vertex: processing rate, pending count,
  watermark and pod CPU/memory usage. A failed fetch never fails the caller;
  it only leaves the value absent. */
module Enrichment {

  import opened Wrappers
  import opened Store

  /** The key of the aggregate rate and pending values in the daemon's maps. */
  const DefaultKey: string := "default"

  /** The processing rate to report: present only when the fetch succeeded,
    the "default" key exists, and the value is neither negative nor the
    not-available sentinel. */
  function RateOf(metrics: Result<VertexMetrics>, sentinel: real): (r: Option<real>)
    ensures r.Some? <==>
      && metrics.Ok?
      && DefaultKey in metrics.value.processingRates
      && metrics.value.processingRates[DefaultKey] >= 0.0
      && metrics.value.processingRates[DefaultKey] != sentinel
    ensures r.Some? ==> r.value == metrics.value.processingRates[DefaultKey] && r.value >= 0.0
  {
    match metrics
    case Err(_) => None
    case Ok(m) =>
      if DefaultKey !in m.processingRates then None
      else
        var rate := m.processingRates[DefaultKey];
        if rate < 0.0 || rate == sentinel then None else Some(rate)
  }

  /** The pending count to report, by the same rule with its own sentinel. */
  function PendingOf(metrics: Result<VertexMetrics>, sentinel: int): (r: Option<int>)
    ensures r.Some? <==>
      && metrics.Ok?
      && DefaultKey in metrics.value.pendings
      && metrics.value.pendings[DefaultKey] >= 0
      && metrics.value.pendings[DefaultKey] != sentinel
    ensures r.Some? ==> r.value == metrics.value.pendings[DefaultKey] && r.value >= 0
  {
    match metrics
    case Err(_) => None
    case Ok(m) =>
      if DefaultKey !in m.pendings then None
      else
        var pending := m.pendings[DefaultKey];
        if pending < 0 || pending == sentinel then None else Some(pending)
  }

  /** Worked example of `RateOf`: a fetch error, the sentinel and a negative
    rate are indistinguishable to the caller; all three leave the rate
    absent, never zero. */
  lemma UnavailableRatesLookAlike(error: string, sentinel: real, negative: real, pendings: map<string, int>)
    requires negative < 0.0
    ensures RateOf(Err(error), sentinel) == None
    ensures RateOf(Ok(VertexMetrics(map[DefaultKey := sentinel], pendings)), sentinel) == None
    ensures RateOf(Ok(VertexMetrics(map[DefaultKey := negative], pendings)), sentinel) == None
  {
  }

  /** The watermark, as epoch milliseconds, when fetched and set. */
  function WatermarkOf(w: Result<VertexWatermark>): (r: Option<int>)
    ensures r.Some? <==> w.Ok? && w.value.watermark.Some?
    ensures r.Some? ==> r == w.value.watermark
  {
    match w
    case Err(_) => None
    case Ok(wm) => wm.watermark
  }

  /** Summed CPU and memory usage. */
  datatype Usage = Usage(cpu: int, memory: int)

  /** The usage of a pod's containers, summed. */
  function ContainerTotals(cs: seq<ContainerUsage>): Usage
    decreases |cs|
  {
    if |cs| == 0 then Usage(0, 0)
    else
      var before := ContainerTotals(cs[..|cs| - 1]);
      var c := cs[|cs| - 1];
      Usage(before.cpu + c.cpuMilli, before.memory + c.memoryMega)
  }

  /** True when some pod's metrics cannot be fetched. */
  predicate SomeFetchFails(pods: seq<Pod>, fetch: string -> Result<PodMetrics>) {
    exists i :: 0 <= i < |pods| && fetch(pods[i].name).Err?
  }

  /** The usage of all pods, or `None` as soon as one pod's metrics cannot be
    fetched: never a partial sum. */
  function PodTotals(pods: seq<Pod>, fetch: string -> Result<PodMetrics>): (r: Option<Usage>)
    ensures r.None? <==> SomeFetchFails(pods, fetch)
    decreases |pods|
  {
    if |pods| == 0 then Some(Usage(0, 0))
    else
      var init := pods[..|pods| - 1];
      var last := pods[|pods| - 1];
      assert forall i :: 0 <= i < |init| ==> init[i] == pods[i];
      match PodTotals(init, fetch)
      case None => None
      case Some(before) =>
        match fetch(last.name)
        case Err(_) => None
        case Ok(m) =>
          var more := ContainerTotals(m.containers);
          Some(Usage(before.cpu + more.cpu, before.memory + more.memory))
  }

  /** The loop of the vertex table: sum each pod's containers, and on the
    first failed fetch reset both totals to zero and stop. */
  method AggregatePodUsage(pods: seq<Pod>, fetch: string -> Result<PodMetrics>) returns (cpu: int, memory: int)
    ensures SomeFetchFails(pods, fetch) ==> cpu == 0 && memory == 0
    ensures !SomeFetchFails(pods, fetch) ==> PodTotals(pods, fetch) == Some(Usage(cpu, memory))
    ensures PodUsage(Ok(pods), fetch) ==
      if cpu != 0 && memory != 0 then Some(Usage(cpu, memory)) else None
  {
    cpu := 0;
    memory := 0;
    var i := 0;
    while i < |pods|
      invariant 0 <= i <= |pods|
      invariant PodTotals(pods[..i], fetch) == Some(Usage(cpu, memory))
    {
      assert pods[..i + 1][..i] == pods[..i];
      match fetch(pods[i].name)
      case Err(_) =>
        assert pods[..i + 1][i] == pods[i];
        assert SomeFetchFails(pods, fetch);
        return 0, 0;
      case Ok(m) =>
        var more := ContainerTotals(m.containers);
        cpu := cpu + more.cpu;
        memory := memory + more.memory;
      i := i + 1;
    }
    assert pods[..i] == pods;
  }

  /** CPU and memory as the vertex table reports them: both present or both
    absent; absent when the pods cannot be listed, when any pod's metrics
    cannot be fetched, or when either total is zero. */
  function PodUsage(pods: Result<seq<Pod>>, fetch: string -> Result<PodMetrics>): (r: Option<Usage>)
    ensures pods.Err? ==> r.None?
    ensures pods.Ok? && SomeFetchFails(pods.value, fetch) ==> r.None?
    ensures r.Some? ==> r.value.cpu != 0 && r.value.memory != 0
    ensures r.Some? ==> PodTotals(pods.value, fetch) == r
    ensures pods.Ok? && !SomeFetchFails(pods.value, fetch) ==>
      var totals := PodTotals(pods.value, fetch).value;
      (r.Some? <==> totals.cpu != 0 && totals.memory != 0)
  {
    match pods
    case Err(_) => None
    case Ok(ps) =>
      match PodTotals(ps, fetch)
      case None => None
      case Some(u) => if u.cpu != 0 && u.memory != 0 then Some(u) else None
  }
}
