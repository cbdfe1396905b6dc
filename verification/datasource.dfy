/** The datasource entry points (`pkg/plugin/datasource.go`): the client's
  scope, query validation and running, the per-RefID response map, the
  resource routes and the health check. */
module Datasource {

  import opened Wrappers
  import opened Query
  import opened Store
  import opened Frames
  import opened Dispatch
  import opened MetricNames

  /** The datasource settings: whether the datasource is pinned to one
    namespace, and which. */
  datatype Settings = Settings(namespaced: bool, namespace: string)

  /** A datasource instance; `settings` is `None` when it was built without
    them. */
  datatype Instance = Instance(settings: Option<Settings>, client: Client)

  /** `NewDatasource` after loading the settings: the client is scoped to the
    pinned namespace, or to every namespace when not pinned. */
  function NewDatasource(s: Settings, cluster: Cluster): (d: Instance)
    ensures d.settings == Some(s) && d.client.cluster == cluster
    ensures s.namespaced ==> d.client.scope == s.namespace
    ensures !s.namespaced ==> d.client.scope == NamespaceAll
  {
    Instance(Some(s), Client(if s.namespaced then s.namespace else NamespaceAll, cluster))
  }

  /** A panel query: its RefID, its query type, and its JSON as decoded (the
    outer object, then the raw query string inside it); a decode failure is
    `Err`. */
  datatype DataQuery = DataQuery(refId: string, queryType: string, decoded: Result<RawQuery>)

  /** The answer to one panel query. */
  datatype DataResponse = DataResponse(frames: seq<Frame>, error: Option<string>)

  /** `Unmarshall`: the decode error, or the resolved query. */
  function Unmarshall(decoded: Result<RawQuery>): (r: Result<RunnableQuery>)
    ensures decoded.Err? ==> r == Err(decoded.error)
    ensures decoded.Ok? ==> r == Resolve(decoded.value)
    ensures r.Ok? ==> Resolved(r.value) && FieldsPresent(r.value)
  {
    var raw :- decoded;
    Resolve(raw)
  }

  /** The query as it is run: a pinned namespace replaces the query's, and a
    missing namespace becomes "" (every namespace). Nothing else changes. */
  function PrepareQuery(s: Settings, q: RunnableQuery): (r: RunnableQuery)
    ensures r.namespace.Some?
    ensures s.namespaced ==> r.namespace == Some(s.namespace)
    ensures !s.namespaced && q.namespace.Some? ==> r.namespace == q.namespace
    ensures !s.namespaced && q.namespace.None? ==> r.namespace == Some(NamespaceAll)
    ensures r == q.(namespace := r.namespace)
  {
    var pinned := if s.namespaced then q.(namespace := Some(s.namespace)) else q;
    if pinned.namespace.None? then pinned.(namespace := Some(NamespaceAll)) else pinned
  }

  const NamespaceRequired: string :=
    "\"namespace\" must be provided when requesting a single pipeline, vertex, or isbsvc by name"

  /** The error that replaces whatever a shaper reported. */
  const FramesError: string := "error retrieving frames"

  /** True of a prepared query that names one resource while spanning every
    namespace: it is rejected before any store call. */
  predicate NeedsNamespace(q: RunnableQuery)
    requires q.namespace.Some?
  {
    q.namespace.value == NamespaceAll && q.resourceName != Wildcard
  }

  /** The frames with the query's RefID stamped on each. */
  function Stamp(frames: seq<Frame>, refId: string): (r: seq<Frame>)
    ensures |r| == |frames|
    ensures forall i :: 0 <= i < |frames| ==> r[i] == frames[i].(refId := refId)
  {
    seq(|frames|, i requires 0 <= i < |frames| => frames[i].(refId := refId))
  }

  /** `runQuery`: decode, prepare, validate, dispatch, stamp. A response holds
    frames or an error, never both, and a shaper's own error text is hidden
    behind one fixed message. */
  function RunQuery(s: Settings, cluster: Cluster, render: Render, dq: DataQuery): (r: DataResponse)
    ensures r.error.Some? ==> r.frames == []
    ensures Unmarshall(dq.decoded).Err? ==> r.error == Some(Unmarshall(dq.decoded).error)
    ensures Unmarshall(dq.decoded).Ok? ==>
      var q := PrepareQuery(s, Unmarshall(dq.decoded).value);
      && (NeedsNamespace(q) ==> r.error == Some(NamespaceRequired))
      && (!NeedsNamespace(q) ==>
            var frames := NewDataFrames(cluster, render, dq.queryType, q);
            && (frames.Err? ==> r.error == Some(FramesError))
            && (frames.Ok? ==> r.error.None? && r.frames == Stamp(frames.value, dq.refId)))
    ensures forall i :: 0 <= i < |r.frames| ==> r.frames[i].refId == dq.refId
  {
    match Unmarshall(dq.decoded)
    case Err(e) => DataResponse([], Some(e))
    case Ok(decoded) =>
      var q := PrepareQuery(s, decoded);
      if NeedsNamespace(q) then DataResponse([], Some(NamespaceRequired))
      else
        match NewDataFrames(cluster, render, dq.queryType, q)
        case Err(_) => DataResponse([], Some(FramesError))
        case Ok(frames) => DataResponse(Stamp(frames, dq.refId), None)
  }

  /** A datasource pinned to a real namespace never rejects a query for
    lacking one, whatever namespace the query named: once decoded, a query
    either runs or fails in its shaper. */
  lemma PinnedNamespaceNeverMissing(s: Settings, cluster: Cluster, render: Render, dq: DataQuery)
    requires s.namespaced && s.namespace != NamespaceAll
    requires Unmarshall(dq.decoded).Ok?
    ensures RunQuery(s, cluster, render, dq).error.None? || RunQuery(s, cluster, render, dq).error == Some(FramesError)
  {
  }

  /** An unpinned datasource rejects a query that names one resource without
    a namespace, before reaching the store. */
  lemma UnpinnedSingleResourceNeedsNamespace(s: Settings, cluster: Cluster, render: Render, dq: DataQuery)
    requires !s.namespaced
    requires Unmarshall(dq.decoded).Ok?
    requires Unmarshall(dq.decoded).value.namespace.None?
    requires Unmarshall(dq.decoded).value.resourceName != Wildcard
    ensures RunQuery(s, cluster, render, dq) == DataResponse([], Some(NamespaceRequired))
  {
  }

  /** The position of the last element of `xs` whose key is `k`, if any. */
  function LastIndexOfKey<T>(xs: seq<T>, key: T -> string, k: string): (r: Option<nat>)
    ensures r.Some? ==> r.value < |xs| && key(xs[r.value]) == k
    ensures r.Some? ==> forall j :: r.value < j < |xs| ==> key(xs[j]) != k
    ensures r.None? <==> forall j :: 0 <= j < |xs| ==> key(xs[j]) != k
    decreases |xs|
  {
    if |xs| == 0 then None
    else if key(xs[|xs| - 1]) == k then Some(|xs| - 1)
    else
      var init := xs[..|xs| - 1];
      assert forall j :: 0 <= j < |init| ==> init[j] == xs[j];
      LastIndexOfKey(init, key, k)
  }

  /** The map from each key of `xs` to `f` of the last element with that
    key: the map a loop builds by storing `f(x)` under `key(x)` in order. */
  function LastByKey<T, U>(xs: seq<T>, key: T -> string, f: T -> U): (r: map<string, U>)
    ensures forall k :: k in r <==> LastIndexOfKey(xs, key, k).Some?
    ensures forall k :: k in r ==> r[k] == f(xs[LastIndexOfKey(xs, key, k).value])
    decreases |xs|
  {
    if |xs| == 0 then map[]
    else
      var init := xs[..|xs| - 1];
      var last := xs[|xs| - 1];
      assert forall k :: k != key(last) ==> LastIndexOfKey(xs, key, k) == LastIndexOfKey(init, key, k);
      LastByKey(init, key, f)[key(last) := f(last)]
  }

  /** Every key of `xs` is in the map, and the element that no later element
    shares a key with is the one whose value is stored. */
  lemma LastByKeyLaterWins<T, U>(xs: seq<T>, key: T -> string, f: T -> U)
    ensures forall k :: k in LastByKey(xs, key, f) <==> exists i :: 0 <= i < |xs| && key(xs[i]) == k
    ensures forall i :: 0 <= i < |xs| && (forall j :: i < j < |xs| ==> key(xs[j]) != key(xs[i])) ==>
      key(xs[i]) in LastByKey(xs, key, f) && LastByKey(xs, key, f)[key(xs[i])] == f(xs[i])
  {
    var r := LastByKey(xs, key, f);
    forall k
      ensures k in r <==> exists i :: 0 <= i < |xs| && key(xs[i]) == k
    {
      var found := LastIndexOfKey(xs, key, k);
      if found.Some? {
        assert 0 <= found.value < |xs| && key(xs[found.value]) == k;
      }
    }
    forall i | 0 <= i < |xs| && (forall j :: i < j < |xs| ==> key(xs[j]) != key(xs[i]))
      ensures key(xs[i]) in r && r[key(xs[i])] == f(xs[i])
    {
      var found := LastIndexOfKey(xs, key, key(xs[i]));
      assert found.Some?;
      assert found.value == i;
    }
  }

  function RefIdOf(dq: DataQuery): string { dq.refId }

  /** `QueryData`: each query is run on its own and its response stored
    under its RefID; of two queries sharing a RefID the later one wins. */
  function QueryData(s: Settings, cluster: Cluster, render: Render, queries: seq<DataQuery>): (r: map<string, DataResponse>)
    ensures forall k :: k in r <==> exists i :: 0 <= i < |queries| && queries[i].refId == k
    ensures forall i :: 0 <= i < |queries| && (forall j :: i < j < |queries| ==> queries[j].refId != queries[i].refId) ==>
      queries[i].refId in r && r[queries[i].refId] == RunQuery(s, cluster, render, queries[i])
  {
    var run := (dq: DataQuery) => RunQuery(s, cluster, render, dq);
    LastByKeyLaterWins(queries, RefIdOf, run);
    LastByKey(queries, RefIdOf, run)
  }

  const StatusOK: int := 200
  const StatusBadRequest: int := 400
  const StatusNotFound: int := 404
  const StatusInternalServerError: int := 500

  const SettingsNil: string := "datasource settings nil when trying to get metric names"

  /** A resource call: its path, HTTP method, and body as decoded. */
  datatype ResourceRequest = ResourceRequest(path: string, verb: string, body: Result<RawQuery>)

  /** A resource response body: nothing, an error text, or the value the JSON
    body encodes. */
  datatype Payload =
    | NoBody
    | Message(text: string)
    | QueryTypesBody(queryTypes: seq<string>)
    | MetricNamesBody(metricNames: seq<string>)

  datatype ResourceResponse = ResourceResponse(status: int, payload: Payload)

  predicate IsQueryTypesRoute(req: ResourceRequest) {
    req.path == QueryTypesPath && req.verb == QueryTypesMethod
  }

  predicate IsMetricNamesRoute(req: ResourceRequest) {
    req.path == MetricNamesPath && req.verb == MetricNamesMethod
  }

  /** `CallResource`: the query-types and metric-names routes; anything else
    is 404. A missing settings record or a query that does not decode is a
    400; a failure while collecting names is a 500. The metric-names query
    runs with its own namespace: no pinned namespace replaces it. */
  function CallResource(d: Instance, req: ResourceRequest): (r: ResourceResponse)
    ensures r.status in {StatusOK, StatusBadRequest, StatusNotFound, StatusInternalServerError}
    ensures r.status == StatusNotFound <==> !IsQueryTypesRoute(req) && !IsMetricNamesRoute(req)
    ensures r.status == StatusNotFound ==> r.payload == NoBody
    ensures IsQueryTypesRoute(req) ==> r == ResourceResponse(StatusOK, QueryTypesBody(QueryTypes()))
    ensures IsMetricNamesRoute(req) && d.settings.None? ==>
      r == ResourceResponse(StatusBadRequest, Message(SettingsNil))
    ensures IsMetricNamesRoute(req) && d.settings.Some? && Unmarshall(req.body).Err? ==>
      r == ResourceResponse(StatusBadRequest, Message(Unmarshall(req.body).error))
    ensures IsMetricNamesRoute(req) && d.settings.Some? && Unmarshall(req.body).Ok? ==>
      var names := MetricNamesOf(Unmarshall(req.body).value, d.client);
      && (names.Err? ==> r == ResourceResponse(StatusInternalServerError, Message(names.error)))
      && (names.Ok? ==> r == ResourceResponse(StatusOK, MetricNamesBody(names.value)))
  {
    if IsQueryTypesRoute(req) then ResourceResponse(StatusOK, QueryTypesBody(QueryTypes()))
    else if IsMetricNamesRoute(req) then
      if d.settings.None? then ResourceResponse(StatusBadRequest, Message(SettingsNil))
      else
        match Unmarshall(req.body)
        case Err(e) => ResourceResponse(StatusBadRequest, Message(e))
        case Ok(q) =>
          match MetricNamesOf(q, d.client)
          case Err(e) => ResourceResponse(StatusInternalServerError, Message(e))
          case Ok(names) => ResourceResponse(StatusOK, MetricNamesBody(names))
    else ResourceResponse(StatusNotFound, NoBody)
  }

  /** A datasource pinned to one namespace still answers a names query for
    another namespace from that namespace's listing: the pin scopes only the
    client's own listings. */
  lemma PinDoesNotScopeNamesQuery(s: Settings, cluster: Cluster, req: ResourceRequest, q: RunnableQuery, listed: seq<Pipeline>)
    requires s.namespaced
    requires IsMetricNamesRoute(req) && Unmarshall(req.body) == Ok(q)
    requires q.resourceType == PipelineType && AsksForNames(q)
    requires cluster.listPipelines(q.namespace.value) == Ok(listed)
    ensures CallResource(NewDatasource(s, cluster), req).status == StatusOK
    ensures var p := CallResource(NewDatasource(s, cluster), req).payload;
      p.MetricNamesBody? && NamesOf(p.metricNames, listed, PipelineName)
  {
  }

  const HealthyMessage: string := "Data source is working"

  datatype HealthResult = HealthResult(ok: bool, message: string)

  /** `CheckHealth`: healthy exactly when the client can list isbsvcs in its
    scope; otherwise the listing error is the message. */
  function CheckHealth(c: Client): (r: HealthResult)
    ensures r.ok <==> c.cluster.listIsbsvcs(c.scope).Ok?
    ensures r.ok ==> r.message == HealthyMessage
    ensures !r.ok ==> r.message == c.cluster.listIsbsvcs(c.scope).error
  {
    match ListNamespacesWith(c.cluster.listIsbsvcs(c.scope), IsbsvcNamespace)
    case Err(e) => HealthResult(false, e)
    case Ok(_) => HealthResult(true, HealthyMessage)
  }
}
