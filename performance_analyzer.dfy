/** `PerformanceAnalyzer.analyze`: a pass over the document that records
    performance findings, each as an insight and a matching suggestion. */
module PerformanceAnalyzer {
  import opened Wrappers
  import opened Text
  import opened OrderedMap
  import opened OpenApi

  /** What the analyzer can find; each finding yields one insight and one
      suggestion. */
  datatype Finding =
    | NPlusOne(verb: string, path: string)
    | NoPagination(verb: string, path: string)
    | NoCaching(verb: string, path: string)
    | NoBatch
    | LargeSchema(name: string, count: nat)

  function Insight(f: Finding): string {
    match f
    case NPlusOne(v, p) => "Potential N+1 query issue in " + ToUpper(v) + " " + p
    case NoPagination(v, p) => "No pagination parameters found for " + ToUpper(v) + " " + p
    case NoCaching(v, p) => "No caching headers found for " + ToUpper(v) + " " + p
    case NoBatch => "No batch operations found in the API"
    case LargeSchema(name, n) => "Large number of properties (" + NatToString(n) + ") in schema " + name
  }

  function Suggestion(f: Finding): string {
    match f
    case NPlusOne(v, p) => "Consider implementing batch fetching for " + ToUpper(v) + " " + p
    case NoPagination(v, p) => "Implement pagination for " + ToUpper(v) + " " + p + " to improve performance for large datasets"
    case NoCaching(v, p) => "Implement caching mechanisms for " + ToUpper(v) + " " + p + " to reduce server load"
    case NoBatch => "Consider implementing batch operations for frequently used endpoints"
    case LargeSchema(name, _) => "Consider breaking down " + name + " into smaller, more focused schemas"
  }

  function Insights(fs: seq<Finding>): (r: seq<string>)
    ensures |r| == |fs|
  {
    seq(|fs|, i requires 0 <= i < |fs| => Insight(fs[i]))
  }

  function Suggestions(fs: seq<Finding>): (r: seq<string>)
    ensures |r| == |fs|
  {
    seq(|fs|, i requires 0 <= i < |fs| => Suggestion(fs[i]))
  }

  const GeneralRecommendations: seq<string> := [
    "Implement proper database indexing",
    "Use caching mechanisms (e.g., Redis) for frequently accessed data",
    "Optimize database queries",
    "Implement asynchronous processing for time-consuming tasks",
    "Use content delivery networks (CDNs) for static assets",
    "Implement rate limiting to prevent abuse and ensure fair usage"
  ]

  datatype PerformanceReport = PerformanceReport(insights: seq<string>, suggestions: seq<string>, general: seq<string>)

  // ---------------------------------------------------------------- what is found

  /** `"get" in method and "{" in path`: a substring test, so `target` or
      `forget` qualify and `GET` does not. */
  predicate MayBeNPlusOne(verb: string, path: string) {
    Contains(verb, "get") && Contains(path, "{")
  }

  /** Some parameter is named `limit`, `offset` or `page`; absent parameters
      are an empty list. */
  predicate Paginated(parameters: Option<seq<Parameter>>) {
    parameters.Some? && exists p :: p in parameters.value && p.name in ["limit", "offset", "page"]
  }

  predicate LacksCaching(r: Response) {
    var headers := r.headers.GetOr([]);
    "Cache-Control" !in headers && "ETag" !in headers
  }

  /** How many responses lack both caching headers. */
  function UncachedCount(responses: Entries<Response>): nat
    decreases |responses|
  {
    if responses == [] then 0
    else (if LacksCaching(responses[0].1) then 1 else 0) + UncachedCount(responses[1..])
  }

  /** Counting one more response adds one exactly when it is uncached. */
  lemma {:induction false} UncachedCountSnoc(responses: Entries<Response>, r: (string, Response))
    ensures UncachedCount(responses + [r]) == UncachedCount(responses) + if LacksCaching(r.1) then 1 else 0
    decreases |responses|
  {
    if responses != [] {
      UncachedCountSnoc(responses[1..], r);
      assert (responses + [r])[1..] == responses[1..] + [r];
    } else {
      assert ([] + [r])[1..] == [];
    }
  }

  /** One caching finding per response that lacks both headers. */
  function CachingFindings(verb: string, path: string, responses: Entries<Response>): seq<Finding> {
    seq(UncachedCount(responses), _ => NoCaching(verb, path))
  }

  /** The findings checked before the responses of one endpoint. */
  function EndpointHead(e: Endpoint): seq<Finding> {
    (if MayBeNPlusOne(e.verb, e.path) then [NPlusOne(e.verb, e.path)] else [])
    + (if !Paginated(e.op.parameters) then [NoPagination(e.verb, e.path)] else [])
  }

  function EndpointFindings(e: Endpoint): seq<Finding> {
    EndpointHead(e) + CachingFindings(e.verb, e.path, e.op.responses.GetOr([]))
  }

  function EndpointsFindings(es: seq<Endpoint>): seq<Finding>
    decreases |es|
  {
    if es == [] then [] else EndpointsFindings(es[..|es| - 1]) + EndpointFindings(es[|es| - 1])
  }

  /** `any("batch" in path.lower() for path in paths)`. */
  predicate HasBatchPath(paths: Paths) {
    exists i :: 0 <= i < |paths| && Contains(ToLower(paths[i].0), "batch")
  }

  function PropertyCount(s: Schema): nat {
    if s.properties.None? then 0 else |s.properties.value|
  }

  function SchemaFindings(schemas: Entries<Schema>): seq<Finding>
    decreases |schemas|
  {
    if schemas == [] then []
    else
      var n := |schemas|;
      var count := PropertyCount(schemas[n - 1].1);
      SchemaFindings(schemas[..n - 1]) + if count > 20 then [LargeSchema(schemas[n - 1].0, count)] else []
  }

  /** Every finding of the document, in the order the analyzer appends them:
      per endpoint, then the batch check, then per schema. */
  function Findings(doc: Document): seq<Finding> {
    EndpointsFindings(Endpoints(doc.paths))
    + (if HasBatchPath(doc.paths) then [] else [NoBatch])
    + SchemaFindings(doc.components.schemas)
  }

  // ---------------------------------------------------------------- the pass

  lemma ReportAppend(fs: seq<Finding>, more: seq<Finding>)
    ensures Insights(fs + more) == Insights(fs) + Insights(more)
    ensures Suggestions(fs + more) == Suggestions(fs) + Suggestions(more)
  {
  }

  lemma NextPath(paths: Paths, i: nat)
    requires i < |paths|
    ensures Endpoints(paths[..i + 1]) == Endpoints(paths[..i]) + PathEndpoints(paths[i].0, paths[i].1)
  {
    assert paths[..i + 1][..i] == paths[..i];
  }

  lemma NextMethod(path: string, methods: Entries<Operation>, j: nat)
    requires j < |methods|
    ensures PathEndpoints(path, methods[..j + 1]) == PathEndpoints(path, methods[..j]) + [Endpoint(path, methods[j].0, methods[j].1)]
  {
  }

  lemma NextEndpoint(es: seq<Endpoint>, e: Endpoint)
    ensures EndpointsFindings(es + [e]) == EndpointsFindings(es) + EndpointFindings(e)
  {
    assert (es + [e])[..|es|] == es;
  }

  /** The N+1 and pagination checks of one endpoint. */
  method CheckQueries(path: string, verb: string, op: Operation) returns (insights: seq<string>, suggestions: seq<string>)
    ensures insights == Insights(EndpointHead(Endpoint(path, verb, op)))
    ensures suggestions == Suggestions(EndpointHead(Endpoint(path, verb, op)))
  {
    insights, suggestions := [], [];
    if Contains(verb, "get") && Contains(path, "{") {
      var f := NPlusOne(verb, path);
      insights, suggestions := [Insight(f)], [Suggestion(f)];
    }
    if !Paginated(op.parameters) {
      var f := NoPagination(verb, path);
      insights, suggestions := insights + [Insight(f)], suggestions + [Suggestion(f)];
    }
  }

  /** The checks on one endpoint (the body of the inner `for method` loop):
      N+1, pagination, then one caching check per response. */
  method CheckEndpoint(path: string, verb: string, op: Operation) returns (insights: seq<string>, suggestions: seq<string>)
    ensures insights == Insights(EndpointFindings(Endpoint(path, verb, op)))
    ensures suggestions == Suggestions(EndpointFindings(Endpoint(path, verb, op)))
  {
    ghost var head := EndpointHead(Endpoint(path, verb, op));
    insights, suggestions := CheckQueries(path, verb, op);
    ghost var found: seq<Finding> := head;
    var responses := op.responses.GetOr([]);
    var k := 0;
    while k < |responses|
      invariant 0 <= k <= |responses|
      invariant found == head + CachingFindings(verb, path, responses[..k])
      invariant insights == Insights(found) && suggestions == Suggestions(found)
    {
      assert responses[..k + 1] == responses[..k] + [responses[k]];
      UncachedCountSnoc(responses[..k], responses[k]);
      var headers := responses[k].1.headers.GetOr([]);
      if "Cache-Control" !in headers && "ETag" !in headers {
        var f := NoCaching(verb, path);
        ReportAppend(found, [f]);
        found, insights, suggestions := found + [f], insights + [Insight(f)], suggestions + [Suggestion(f)];
      }
      k := k + 1;
    }
    assert responses[..k] == responses;
  }

  /** The schema loop: one finding per schema with more than 20 properties. */
  method CheckSchemas(schemas: Entries<Schema>) returns (insights: seq<string>, suggestions: seq<string>)
    ensures insights == Insights(SchemaFindings(schemas))
    ensures suggestions == Suggestions(SchemaFindings(schemas))
  {
    ghost var found: seq<Finding> := [];
    insights, suggestions := [], [];
    var s := 0;
    while s < |schemas|
      invariant 0 <= s <= |schemas|
      invariant found == SchemaFindings(schemas[..s])
      invariant insights == Insights(found) && suggestions == Suggestions(found)
    {
      assert schemas[..s + 1][..s] == schemas[..s];
      var count := PropertyCount(schemas[s].1);
      if count > 20 {
        var f := LargeSchema(schemas[s].0, count);
        ReportAppend(found, [f]);
        found, insights, suggestions := found + [f], insights + [Insight(f)], suggestions + [Suggestion(f)];
      }
      s := s + 1;
    }
    assert schemas[..s] == schemas;
  }

  /** The findings of consecutive runs of endpoints are those of each run in turn. */
  lemma {:induction false} EndpointsFindingsAppend(a: seq<Endpoint>, b: seq<Endpoint>)
    ensures EndpointsFindings(a + b) == EndpointsFindings(a) + EndpointsFindings(b)
    decreases |b|
  {
    if b == [] {
      assert a + b == a;
    } else {
      var n := |b|;
      EndpointsFindingsAppend(a, b[..n - 1]);
      assert (a + b)[..|a + b| - 1] == a + b[..n - 1];
      assert (a + b)[|a + b| - 1] == b[n - 1];
      assert EndpointsFindings(a + b) == EndpointsFindings(a + b[..n - 1]) + EndpointFindings(b[n - 1]);
      assert EndpointsFindings(b) == EndpointsFindings(b[..n - 1]) + EndpointFindings(b[n - 1]);
    }
  }

  /** The `for method` loop over one path. */
  method CheckPath(path: string, methods: Entries<Operation>) returns (insights: seq<string>, suggestions: seq<string>)
    ensures insights == Insights(EndpointsFindings(PathEndpoints(path, methods)))
    ensures suggestions == Suggestions(EndpointsFindings(PathEndpoints(path, methods)))
  {
    insights, suggestions := [], [];
    ghost var found: seq<Finding> := [];
    var j := 0;
    while j < |methods|
      invariant 0 <= j <= |methods|
      invariant found == EndpointsFindings(PathEndpoints(path, methods[..j]))
      invariant insights == Insights(found) && suggestions == Suggestions(found)
    {
      ghost var e := Endpoint(path, methods[j].0, methods[j].1);
      var moreInsights, moreSuggestions := CheckEndpoint(path, methods[j].0, methods[j].1);
      ReportAppend(found, EndpointFindings(e));
      NextMethod(path, methods, j);
      NextEndpoint(PathEndpoints(path, methods[..j]), e);
      found, insights, suggestions := found + EndpointFindings(e), insights + moreInsights, suggestions + moreSuggestions;
      j := j + 1;
    }
    assert methods[..j] == methods;
  }

  /** Walking one more path appends that path's findings. */
  lemma WalkStep(paths: Paths, i: nat)
    requires i < |paths|
    ensures EndpointsFindings(Endpoints(paths[..i + 1])) ==
      EndpointsFindings(Endpoints(paths[..i])) + EndpointsFindings(PathEndpoints(paths[i].0, paths[i].1))
  {
    NextPath(paths, i);
    EndpointsFindingsAppend(Endpoints(paths[..i]), PathEndpoints(paths[i].0, paths[i].1));
  }

  /** The `for path, methods in paths.items()` loop of `analyze`. */
  method CheckPaths(paths: Paths) returns (insights: seq<string>, suggestions: seq<string>)
    ensures insights == Insights(EndpointsFindings(Endpoints(paths)))
    ensures suggestions == Suggestions(EndpointsFindings(Endpoints(paths)))
  {
    insights, suggestions := [], [];
    ghost var found: seq<Finding> := [];
    var i := 0;
    while i < |paths|
      invariant 0 <= i <= |paths|
      invariant found == EndpointsFindings(Endpoints(paths[..i]))
      invariant insights == Insights(found) && suggestions == Suggestions(found)
    {
      var moreInsights, moreSuggestions := CheckPath(paths[i].0, paths[i].1);
      ghost var more := EndpointsFindings(PathEndpoints(paths[i].0, paths[i].1));
      ReportAppend(found, more);
      WalkStep(paths, i);
      found, insights, suggestions := found + more, insights + moreInsights, suggestions + moreSuggestions;
      i := i + 1;
    }
    assert paths[..i] == paths;
  }

  /** Appending the batch finding appends its insight and its suggestion. */
  lemma BatchAppend(found: seq<Finding>)
    ensures Insights(found + [NoBatch]) == Insights(found) + [Insight(NoBatch)]
    ensures Suggestions(found + [NoBatch]) == Suggestions(found) + [Suggestion(NoBatch)]
  {
    ReportAppend(found, [NoBatch]);
  }

  /** `analyze`: walks paths and methods, then the batch check, then the
      schemas, appending an insight and a suggestion per finding. */
  method Analyze(doc: Document) returns (report: PerformanceReport)
    ensures report.insights == Insights(Findings(doc))
    ensures report.suggestions == Suggestions(Findings(doc))
    ensures report.general == GeneralRecommendations
  {
    var insights, suggestions := CheckPaths(doc.paths);
    ghost var found := EndpointsFindings(Endpoints(doc.paths));
    if !HasBatchPath(doc.paths) {
      BatchAppend(found);
      found, insights, suggestions := found + [NoBatch], insights + [Insight(NoBatch)], suggestions + [Suggestion(NoBatch)];
    }
    var schemaInsights, schemaSuggestions := CheckSchemas(doc.components.schemas);
    ghost var schemas := SchemaFindings(doc.components.schemas);
    ReportAppend(found, schemas);
    assert Findings(doc) == found + schemas;
    report := PerformanceReport(insights + schemaInsights, suggestions + schemaSuggestions, GeneralRecommendations);
  }

  // ---------------------------------------------------------------- properties

  /** There is one caching finding per response lacking both `Cache-Control`
      and `ETag`: the loop has no early exit. */
  lemma {:induction false} CachingPerResponse(responses: Entries<Response>)
    ensures UncachedCount(responses) == |set k | 0 <= k < |responses| && LacksCaching(responses[k].1)|
    decreases |responses|
  {
    if responses != [] {
      var n := |responses|;
      var front := responses[..n - 1];
      CachingPerResponse(front);
      assert responses == front + [responses[n - 1]];
      UncachedCountSnoc(front, responses[n - 1]);
      var before := set k | 0 <= k < |front| && LacksCaching(front[k].1);
      var all := set k | 0 <= k < n && LacksCaching(responses[k].1);
      assert forall k :: 0 <= k < |front| ==> front[k] == responses[k];
      if LacksCaching(responses[n - 1].1) {
        assert all == before + {n - 1};
      } else {
        assert all == before;
      }
    }
  }

  /** The checks on one endpoint: the N+1 finding iff `get` occurs in the
      method and `{` in the path; the pagination finding iff no parameter is
      named limit, offset or page; one caching finding per uncached response;
      and nothing else. */
  lemma EndpointChecks(e: Endpoint)
    ensures NPlusOne(e.verb, e.path) in EndpointFindings(e) <==> Contains(e.verb, "get") && Contains(e.path, "{")
    ensures NoPagination(e.verb, e.path) in EndpointFindings(e) <==> !Paginated(e.op.parameters)
    ensures var rs := e.op.responses.GetOr([]);
      multiset(EndpointFindings(e))[NoCaching(e.verb, e.path)] == |set k | 0 <= k < |rs| && LacksCaching(rs[k].1)|
    ensures forall f :: f in EndpointFindings(e) ==> f in {NPlusOne(e.verb, e.path), NoPagination(e.verb, e.path), NoCaching(e.verb, e.path)}
  {
    EndpointOnlyChecks(e);
    EndpointCaching(e);
  }

  /** The caching findings of an endpoint are all the same finding. */
  lemma EndpointOnlyChecks(e: Endpoint)
    ensures forall f :: f in EndpointFindings(e) ==> f in {NPlusOne(e.verb, e.path), NoPagination(e.verb, e.path), NoCaching(e.verb, e.path)}
  {
    var caching := CachingFindings(e.verb, e.path, e.op.responses.GetOr([]));
    assert forall f :: f in caching ==> f == NoCaching(e.verb, e.path);
  }

  lemma EndpointCaching(e: Endpoint)
    ensures var rs := e.op.responses.GetOr([]);
      multiset(EndpointFindings(e))[NoCaching(e.verb, e.path)] == |set k | 0 <= k < |rs| && LacksCaching(rs[k].1)|
  {
    var rs := e.op.responses.GetOr([]);
    var caching := CachingFindings(e.verb, e.path, rs);
    CachingPerResponse(rs);
    SameCount(caching, NoCaching(e.verb, e.path));
    assert multiset(EndpointHead(e))[NoCaching(e.verb, e.path)] == 0;
  }

  lemma {:induction false} SameCount(fs: seq<Finding>, f: Finding)
    requires forall i :: 0 <= i < |fs| ==> fs[i] == f
    ensures multiset(fs)[f] == |fs|
    decreases |fs|
  {
    if fs != [] {
      SameCount(fs[1..], f);
      assert fs == [fs[0]] + fs[1..];
    }
  }

  /** A finding of a run of endpoints is a finding of one of them. */
  lemma {:induction false} EndpointsFindingsMember(es: seq<Endpoint>, f: Finding)
    ensures f in EndpointsFindings(es) <==> exists i :: 0 <= i < |es| && f in EndpointFindings(es[i])
    decreases |es|
  {
    if es != [] {
      var n := |es|;
      var prefix := es[..n - 1];
      EndpointsFindingsMember(prefix, f);
      if f in EndpointsFindings(prefix) {
        var i :| 0 <= i < n - 1 && f in EndpointFindings(prefix[i]);
        assert prefix[i] == es[i];
      }
      if exists i :: 0 <= i < n && f in EndpointFindings(es[i]) {
        var i :| 0 <= i < n && f in EndpointFindings(es[i]);
        if i < n - 1 {
          assert prefix[i] == es[i];
        }
      }
    }
  }

  /** Schema findings are exactly the schemas with more than 20 properties. */
  lemma {:induction false} SchemaFindingsMember(schemas: Entries<Schema>, f: Finding)
    ensures f in SchemaFindings(schemas) <==>
      exists i :: 0 <= i < |schemas| && PropertyCount(schemas[i].1) > 20 && f == LargeSchema(schemas[i].0, PropertyCount(schemas[i].1))
    decreases |schemas|
  {
    if schemas != [] {
      var n := |schemas|;
      SchemaFindingsMember(schemas[..n - 1], f);
      if exists i :: 0 <= i < n && PropertyCount(schemas[i].1) > 20 && f == LargeSchema(schemas[i].0, PropertyCount(schemas[i].1)) {
        var i :| 0 <= i < n && PropertyCount(schemas[i].1) > 20 && f == LargeSchema(schemas[i].0, PropertyCount(schemas[i].1));
        if i < n - 1 {
          assert schemas[..n - 1][i] == schemas[i];
        }
      }
      if f in SchemaFindings(schemas[..n - 1]) {
        var i :| 0 <= i < n - 1 && PropertyCount(schemas[..n - 1][i].1) > 20
          && f == LargeSchema(schemas[..n - 1][i].0, PropertyCount(schemas[..n - 1][i].1));
        assert schemas[..n - 1][i] == schemas[i];
      }
    }
  }

  /** The batch finding is reported exactly once when no path mentions
      `batch` in any case, and never otherwise. */
  lemma BatchOnce(doc: Document)
    ensures multiset(Findings(doc))[NoBatch] == if HasBatchPath(doc.paths) then 0 else 1
  {
    var walk := EndpointsFindings(Endpoints(doc.paths));
    var schemas := SchemaFindings(doc.components.schemas);
    NoBatchInWalk(Endpoints(doc.paths));
    SchemaFindingsMember(doc.components.schemas, NoBatch);
    assert Findings(doc) == walk + (if HasBatchPath(doc.paths) then [] else [NoBatch]) + schemas;
  }

  /** The walk over the endpoints never reports the batch finding. */
  lemma NoBatchInWalk(es: seq<Endpoint>)
    ensures NoBatch !in EndpointsFindings(es)
  {
    WalkFindingKinds(es);
  }

  /** The endpoint walk reports only the three per-endpoint kinds. */
  lemma {:induction false} WalkFindingKinds(es: seq<Endpoint>)
    ensures forall f :: f in EndpointsFindings(es) ==> f.NPlusOne? || f.NoPagination? || f.NoCaching?
    decreases |es|
  {
    if es != [] {
      WalkFindingKinds(es[..|es| - 1]);
      EndpointChecks(es[|es| - 1]);
    }
  }

  /** A schema is reported, with its property count, iff it has more than 20
      properties. */
  lemma LargeSchemas(doc: Document, name: string, count: nat)
    ensures LargeSchema(name, count) in Findings(doc) <==>
      exists i :: 0 <= i < |doc.components.schemas| && doc.components.schemas[i].0 == name &&
        PropertyCount(doc.components.schemas[i].1) == count && count > 20
  {
    WalkFindingKinds(Endpoints(doc.paths));
    SchemaFindingsMember(doc.components.schemas, LargeSchema(name, count));
  }

  /** Outside the endpoint walk, only the batch and schema findings are added. */
  lemma EndpointFindingInDoc(doc: Document, f: Finding)
    requires f.NPlusOne? || f.NoPagination? || f.NoCaching?
    ensures f in Findings(doc) <==> f in EndpointsFindings(Endpoints(doc.paths))
  {
    SchemaFindingsMember(doc.components.schemas, f);
  }

  /** An N+1 finding names an endpoint of the document whose method contains
      `get` and whose path contains `{`, and every such endpoint gets one. */
  lemma NPlusOneFindings(doc: Document, verb: string, path: string)
    ensures NPlusOne(verb, path) in Findings(doc) <==>
      (exists i :: 0 <= i < |Endpoints(doc.paths)| && Endpoints(doc.paths)[i].verb == verb && Endpoints(doc.paths)[i].path == path) &&
      MayBeNPlusOne(verb, path)
  {
    var es := Endpoints(doc.paths);
    var f := NPlusOne(verb, path);
    EndpointFindingInDoc(doc, f);
    EndpointsFindingsMember(es, f);
    if f in EndpointsFindings(es) {
      var i :| 0 <= i < |es| && f in EndpointFindings(es[i]);
      EndpointChecks(es[i]);
      assert es[i].verb == verb && es[i].path == path;
    }
    if exists i :: 0 <= i < |es| && es[i].verb == verb && es[i].path == path {
      var i :| 0 <= i < |es| && es[i].verb == verb && es[i].path == path;
      EndpointChecks(es[i]);
    }
  }

  /** Likewise a pagination finding names an endpoint of the document none of
      whose parameters is named limit, offset or page. */
  lemma PaginationFindings(doc: Document, verb: string, path: string)
    ensures NoPagination(verb, path) in Findings(doc) <==>
      exists i :: 0 <= i < |Endpoints(doc.paths)| && Endpoints(doc.paths)[i].verb == verb &&
        Endpoints(doc.paths)[i].path == path && !Paginated(Endpoints(doc.paths)[i].op.parameters)
  {
    var es := Endpoints(doc.paths);
    var f := NoPagination(verb, path);
    EndpointFindingInDoc(doc, f);
    EndpointsFindingsMember(es, f);
    if f in EndpointsFindings(es) {
      var i :| 0 <= i < |es| && f in EndpointFindings(es[i]);
      EndpointChecks(es[i]);
      assert es[i].verb == verb && es[i].path == path;
    }
    if exists i :: 0 <= i < |es| && es[i].verb == verb && es[i].path == path && !Paginated(es[i].op.parameters) {
      var i :| 0 <= i < |es| && es[i].verb == verb && es[i].path == path && !Paginated(es[i].op.parameters);
      EndpointChecks(es[i]);
    }
  }
}
