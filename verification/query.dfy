/** The query model shared by both code generations (`pkg/models/query.go` and
  `pkg/query/query.go` with `pkg/query/runnable_query.go`): the decoded query
  fields, the resource-type cascade that resolves them, and the multi-value
  filter helpers. */
module Query {

  import opened Wrappers
  import opened Text
  import opened Seqs

  /** Kubernetes' `NamespaceAll`: the empty string, meaning "every namespace". */
  const NamespaceAll: string := ""

  /** The resource name that asks for a listing instead of one resource. */
  const Wildcard: string := "*"

  /** The error of a query that names neither a pipeline nor an isbsvc. */
  const UnmarshalError: string := "cannot unmarshal json"

  /** The kinds of resource a query can ask for. `NamespaceType` exists only in
    the older generation and is never produced by resolution. */
  datatype ResourceType = NamespaceType | PipelineType | VertexType | IsbsvcType {

    /** The string value of the Go constant. */
    function Name(): string {
      match this
      case NamespaceType => "namespace"
      case PipelineType => "pipeline"
      case VertexType => "vertex"
      case IsbsvcType => "isbsvc"
    }
  }

  /** The resource type a Go string value denotes, if any. */
  function ParseResourceType(name: string): (r: Option<ResourceType>)
    ensures r.Some? ==> r.value.Name() == name
  {
    if name == "namespace" then Some(NamespaceType)
    else if name == "pipeline" then Some(PipelineType)
    else if name == "vertex" then Some(VertexType)
    else if name == "isbsvc" then Some(IsbsvcType)
    else None
  }

  /** Every resource type has its own string: parsing the name gives the type
    back, so no two constants share a value. */
  lemma ResourceTypeNamesRoundTrip(t: ResourceType)
    ensures ParseResourceType(t.Name()) == Some(t)
  {
  }

  /** The JSON fields of a query after decoding; a missing key is `None`. */
  datatype RawQuery = RawQuery(
    namespace: Option<string>,
    pipeline: Option<string>,
    vertex: Option<string>,
    isbsvc: Option<string>)

  /** A decoded query together with the resource type and name resolved from
    it. */
  datatype RunnableQuery = RunnableQuery(
    namespace: Option<string>,
    pipeline: Option<string>,
    vertex: Option<string>,
    isbsvc: Option<string>,
    resourceType: ResourceType,
    resourceName: string)

  /** The decoded fields a runnable query was resolved from. */
  function FieldsOf(q: RunnableQuery): RawQuery {
    RawQuery(q.namespace, q.pipeline, q.vertex, q.isbsvc)
  }

  /** What a resolved query looks like: a vertex query carries its pipeline, a
    pipeline query has no vertex, an isbsvc query has no pipeline, and the
    resource name is the field of the resolved kind. */
  predicate Resolved(q: RunnableQuery) {
    match q.resourceType
    case VertexType =>
      q.pipeline.Some? && q.vertex.Some? && q.resourceName == q.vertex.value
    case PipelineType =>
      q.pipeline.Some? && q.vertex.None? && q.resourceName == q.pipeline.value
    case IsbsvcType =>
      q.pipeline.None? && q.isbsvc.Some? && q.resourceName == q.isbsvc.value
    case NamespaceType => false
  }

  /** The fields a shaper dereferences for each resource type are present. */
  predicate FieldsPresent(q: RunnableQuery) {
    match q.resourceType
    case VertexType => q.pipeline.Some? && q.vertex.Some?
    case PipelineType => q.pipeline.Some?
    case IsbsvcType => q.isbsvc.Some?
    case NamespaceType => true
  }

  /** The resource-type cascade run after the JSON decode. Presence is a nil
    check only, so a present empty string is a legal name. */
  function Resolve(raw: RawQuery): (r: Result<RunnableQuery>)
    ensures r.Ok? <==> raw.pipeline.Some? || raw.isbsvc.Some?
    ensures r.Err? ==> r.error == UnmarshalError
    ensures r.Ok? ==> Resolved(r.value) && FieldsOf(r.value) == raw
  {
    if raw.pipeline.Some? then
      if raw.vertex.Some? then
        Ok(RunnableQuery(raw.namespace, raw.pipeline, raw.vertex, raw.isbsvc, VertexType, raw.vertex.value))
      else
        Ok(RunnableQuery(raw.namespace, raw.pipeline, raw.vertex, raw.isbsvc, PipelineType, raw.pipeline.value))
    else if raw.isbsvc.Some? then
      Ok(RunnableQuery(raw.namespace, raw.pipeline, raw.vertex, raw.isbsvc, IsbsvcType, raw.isbsvc.value))
    else
      Err(UnmarshalError)
  }

  /** A resolved query is the only resolution of its fields: `Resolve` and
    `Resolved` describe the same queries. */
  lemma ResolveUnique(q: RunnableQuery)
    requires Resolved(q)
    ensures Resolve(FieldsOf(q)) == Ok(q)
  {
  }

  /** A vertex field without a pipeline field is ignored: the query resolves
    to its isbsvc or fails. */
  lemma VertexWithoutPipeline(raw: RawQuery)
    requires raw.pipeline.None? && raw.vertex.Some?
    ensures Resolve(raw).Ok? ==> Resolve(raw).value.resourceType == IsbsvcType
    ensures raw.isbsvc.None? ==> Resolve(raw) == Err(UnmarshalError)
  {
  }

  /** A pipeline field outranks an isbsvc field. */
  lemma PipelineOutranksIsbsvc(raw: RawQuery)
    requires raw.pipeline.Some? && raw.isbsvc.Some?
    ensures Resolve(raw).Ok?
    ensures Resolve(raw).value.resourceType != IsbsvcType
    ensures Resolve(raw).value.resourceType == if raw.vertex.Some? then VertexType else PipelineType
    ensures Resolve(raw).value.resourceName == raw.vertex.GetOr(raw.pipeline.value)
  {
  }

  /** True when a filter field lists several names, which it does by
    containing a comma. */
  predicate IsMultiFilter(field: string) {
    ',' in field
  }

  /** True of every character but the two braces. */
  predicate NotBrace(c: char) {
    c != '{' && c != '}'
  }

  /** The field with every brace removed (`ReplaceAll` of "{", then of "}"):
    the other characters, in order. */
  function StripBraces(field: string): (r: string)
    ensures IsFilterOf(r, field, NotBrace)
    ensures '{' !in r && '}' !in r
    ensures multiset(r)[','] == multiset(field)[',']
    ensures '{' !in field && '}' !in field ==> r == field
  {
    var r := Filter(field, NotBrace);
    FilterMembership(field, NotBrace, '{');
    FilterMembership(field, NotBrace, '}');
    assert '{' !in field && '}' !in field ==> r == field by {
      if '{' !in field && '}' !in field {
        FilterKeepsAll(field, NotBrace);
      }
    }
    assert NotBrace(',');
    r
  }

  /** The names a filter field stands for: the raw field itself when it has no
    comma (braces kept), otherwise the comma-separated pieces of the field with
    every brace removed. */
  function ExpandFilter(field: string): (r: seq<string>)
    ensures !IsMultiFilter(field) ==> r == [field]
    ensures IsMultiFilter(field) ==> |r| == multiset(field)[','] + 1 >= 2
    ensures IsMultiFilter(field) ==>
      forall i :: 0 <= i < |r| ==> ',' !in r[i] && '{' !in r[i] && '}' !in r[i]
    ensures IsMultiFilter(field) ==> Join(r, ',') == StripBraces(field)
  {
    if !IsMultiFilter(field) then [field]
    else
      var stripped := StripBraces(field);
      var parts := Split(stripped, ',');
      JoinSplit(stripped, ',');
      SplitCount(stripped, ',');
      forall i | 0 <= i < |parts|
        ensures '{' !in parts[i] && '}' !in parts[i]
      {
        PiecesKeepAbsentChars(stripped, ',', '{', i);
        PiecesKeepAbsentChars(stripped, ',', '}', i);
      }
      parts
  }

  /** A character absent from a string is absent from each of its pieces. */
  lemma {:induction false} PiecesKeepAbsentChars(s: string, sep: char, c: char, i: nat)
    requires c !in s
    requires i < |Split(s, sep)|
    ensures c !in Split(s, sep)[i]
    decreases |s|
  {
    if |s| > 0 {
      var rest := Split(s[1..], sep);
      assert c !in s[1..] by {
        forall k | 0 <= k < |s[1..]| ensures s[1..][k] != c {
          assert s[1..][k] == s[k + 1];
        }
      }
      if s[0] == sep {
        if i > 0 {
          PiecesKeepAbsentChars(s[1..], sep, c, i - 1);
        }
      } else {
        if i == 0 {
          PiecesKeepAbsentChars(s[1..], sep, c, 0);
        } else {
          PiecesKeepAbsentChars(s[1..], sep, c, i);
        }
      }
    }
  }

  /** The namespace a listing is scoped to: every namespace for a multi-value
    filter (the listing is post-filtered), the raw field otherwise. */
  function ListingScope(field: string): (r: string)
    ensures r == NamespaceAll || r == field
    ensures IsMultiFilter(field) ==> r == NamespaceAll
    ensures !IsMultiFilter(field) ==> r == field
    ensures r == NamespaceAll || ExpandFilter(field) == [r]
  {
    if IsMultiFilter(field) then NamespaceAll else field
  }

  /** Worked example of `IsMultiFilter`, `ExpandFilter` and `ListingScope`:
    the empty namespace is not a multi-value filter; it expands to the
    single name "", which no namespaced resource carries. */
  lemma EmptyNamespaceExpandsToItself()
    ensures !IsMultiFilter(NamespaceAll)
    ensures ExpandFilter(NamespaceAll) == [NamespaceAll]
    ensures ListingScope(NamespaceAll) == NamespaceAll
  {
  }

  /** `GetNamespace`: every namespace for a multi-value namespace field, the
    field itself otherwise. */
  function GetNamespace(q: RunnableQuery): (r: string)
    requires q.namespace.Some?
    ensures IsMultiNamespaceFilter(q) ==> r == NamespaceAll
    ensures !IsMultiNamespaceFilter(q) ==> r == q.namespace.value
  {
    ListingScope(q.namespace.value)
  }

  /** `IsMultiNamespaceFilter`: the namespace field holds a comma, which is exactly
    when it stands for several names. */
  function IsMultiNamespaceFilter(q: RunnableQuery): (r: bool)
    requires q.namespace.Some?
    ensures r <==> multiset(q.namespace.value)[','] > 0
    ensures r <==> |ExpandFilter(q.namespace.value)| > 1
  {
    IsMultiFilter(q.namespace.value)
  }

  /** `IsMultiPipelineFilter`: the pipeline field holds a comma, which is exactly
    when it stands for several names. */
  function IsMultiPipelineFilter(q: RunnableQuery): (r: bool)
    requires q.pipeline.Some?
    ensures r <==> multiset(q.pipeline.value)[','] > 0
    ensures r <==> |ExpandFilter(q.pipeline.value)| > 1
  {
    IsMultiFilter(q.pipeline.value)
  }

  /** `GetFilterNamespaces`: the namespace names the query accepts. */
  function GetFilterNamespaces(q: RunnableQuery): (r: seq<string>)
    requires q.namespace.Some?
    ensures !IsMultiNamespaceFilter(q) ==> r == [q.namespace.value]
    ensures IsMultiNamespaceFilter(q) ==> |r| == multiset(q.namespace.value)[','] + 1
    ensures IsMultiNamespaceFilter(q) ==> forall i :: 0 <= i < |r| ==> ',' !in r[i] && '{' !in r[i] && '}' !in r[i]
    ensures IsMultiNamespaceFilter(q) ==> Join(r, ',') == StripBraces(q.namespace.value)
  {
    ExpandFilter(q.namespace.value)
  }

  /** `GetFilterPipelines`: the pipeline names the query accepts. */
  function GetFilterPipelines(q: RunnableQuery): (r: seq<string>)
    requires q.pipeline.Some?
    ensures !IsMultiPipelineFilter(q) ==> r == [q.pipeline.value]
    ensures IsMultiPipelineFilter(q) ==> |r| == multiset(q.pipeline.value)[','] + 1
    ensures IsMultiPipelineFilter(q) ==> forall i :: 0 <= i < |r| ==> ',' !in r[i] && '{' !in r[i] && '}' !in r[i]
    ensures IsMultiPipelineFilter(q) ==> Join(r, ',') == StripBraces(q.pipeline.value)
  {
    ExpandFilter(q.pipeline.value)
  }
}
