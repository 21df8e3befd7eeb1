/** `SecurityAnalyzer.analyze`: a pass over the document that lists security
    issues, and a fixed list of recommendations. */
module SecurityAnalyzer {
  import opened Wrappers
  import opened Text
  import opened OrderedMap
  import opened OpenApi

  datatype Issue =
    | NoGlobalSchemes
    | NoSecurity(verb: string, path: string)
    | NoParameterSchema(name: string, verb: string, path: string)
    | NoRateLimit(verb: string, path: string)
    | NoHttps

  function Message(issue: Issue): string {
    match issue
    case NoGlobalSchemes => "No global security schemes defined"
    case NoSecurity(v, p) => "No security defined for " + ToUpper(v) + " " + p
    case NoParameterSchema(n, v, p) => "No schema defined for parameter " + n + " in " + ToUpper(v) + " " + p
    case NoRateLimit(v, p) => "No rate limiting headers for " + ToUpper(v) + " " + p
    case NoHttps => "API does not enforce HTTPS"
  }

  function Messages(issues: seq<Issue>): (r: seq<string>)
    ensures |r| == |issues|
  {
    seq(|issues|, i requires 0 <= i < |issues| => Message(issues[i]))
  }

  const Recommendations: seq<string> := [
    "Implement proper authentication and authorization mechanisms",
    "Use HTTPS for all endpoints",
    "Implement rate limiting to prevent abuse",
    "Validate and sanitize all input data",
    "Use parameterized queries to prevent SQL injection",
    "Implement proper error handling to avoid information leakage"
  ]

  datatype SecurityReport = SecurityReport(issues: seq<string>, recommendations: seq<string>)

  // ---------------------------------------------------------------- what is found

  /** `not security_schemes`: missing or empty. */
  predicate NoSchemes(schemes: Option<Entries<SecurityScheme>>) {
    schemes.None? || schemes.value == []
  }

  /** `not details.get("security", [])`: missing or empty. */
  predicate Unsecured(security: Option<seq<SecurityRequirement>>) {
    security.None? || security.value == []
  }

  predicate LacksRateLimit(r: Response) {
    "X-RateLimit-Limit" !in r.headers.GetOr([])
  }

  /** Some response lacks the rate-limit header. */
  predicate MissesRateLimit(responses: Entries<Response>) {
    exists k :: 0 <= k < |responses| && LacksRateLimit(responses[k].1)
  }

  /** One issue per parameter without a schema, in parameter order. */
  function ParameterIssues(verb: string, path: string, ps: seq<Parameter>): seq<Issue>
    decreases |ps|
  {
    if ps == [] then []
    else (if ps[0].schema.None? then [NoParameterSchema(ps[0].name, verb, path)] else []) + ParameterIssues(verb, path, ps[1..])
  }

  lemma {:induction false} ParameterIssuesSnoc(verb: string, path: string, ps: seq<Parameter>, p: Parameter)
    ensures ParameterIssues(verb, path, ps + [p])
         == ParameterIssues(verb, path, ps) + if p.schema.None? then [NoParameterSchema(p.name, verb, path)] else []
    decreases |ps|
  {
    if ps == [] {
      assert ([] + [p])[1..] == [];
    } else {
      ParameterIssuesSnoc(verb, path, ps[1..], p);
      assert (ps + [p])[1..] == ps[1..] + [p];
    }
  }

  function EndpointIssues(e: Endpoint): seq<Issue> {
    (if Unsecured(e.op.security) then [NoSecurity(e.verb, e.path)] else [])
    + ParameterIssues(e.verb, e.path, e.op.parameters.GetOr([]))
    + (if MissesRateLimit(e.op.responses.GetOr([])) then [NoRateLimit(e.verb, e.path)] else [])
  }

  function EndpointsIssues(es: seq<Endpoint>): seq<Issue>
    decreases |es|
  {
    if es == [] then [] else EndpointsIssues(es[..|es| - 1]) + EndpointIssues(es[|es| - 1])
  }

  /** `any(server["url"].startswith("https://") for server in servers)`. */
  predicate EnforcesHttps(servers: seq<Server>) {
    exists i :: 0 <= i < |servers| && StartsWith(servers[i].url, "https://")
  }

  /** Every issue of the document, in the order the analyzer appends them. */
  function Issues(doc: Document): seq<Issue> {
    (if NoSchemes(doc.components.securitySchemes) then [NoGlobalSchemes] else [])
    + EndpointsIssues(Endpoints(doc.paths))
    + (if EnforcesHttps(doc.servers.GetOr([])) then [] else [NoHttps])
  }

  // ---------------------------------------------------------------- the pass

  lemma MessagesAppend(a: seq<Issue>, b: seq<Issue>)
    ensures Messages(a + b) == Messages(a) + Messages(b)
  {
  }

  /** The parameter loop of one endpoint. */
  method CheckParameters(verb: string, path: string, ps: seq<Parameter>) returns (issues: seq<string>)
    ensures issues == Messages(ParameterIssues(verb, path, ps))
  {
    issues := [];
    var k := 0;
    while k < |ps|
      invariant 0 <= k <= |ps|
      invariant issues == Messages(ParameterIssues(verb, path, ps[..k]))
    {
      assert ps[..k + 1] == ps[..k] + [ps[k]];
      ParameterIssuesSnoc(verb, path, ps[..k], ps[k]);
      if ps[k].schema.None? {
        var issue := NoParameterSchema(ps[k].name, verb, path);
        MessagesAppend(ParameterIssues(verb, path, ps[..k]), [issue]);
        issues := issues + [Message(issue)];
      }
      k := k + 1;
    }
    assert ps[..k] == ps;
  }

  /** The response loop of one endpoint: the first response without
      `X-RateLimit-Limit` adds the issue and ends the loop. */
  method CheckRateLimit(verb: string, path: string, responses: Entries<Response>) returns (issues: seq<string>)
    ensures issues == if MissesRateLimit(responses) then [Message(NoRateLimit(verb, path))] else []
  {
    issues := [];
    var k := 0;
    while k < |responses|
      invariant 0 <= k <= |responses|
      invariant issues == []
      invariant forall j :: 0 <= j < k ==> !LacksRateLimit(responses[j].1)
    {
      if "X-RateLimit-Limit" !in responses[k].1.headers.GetOr([]) {
        issues := issues + [Message(NoRateLimit(verb, path))];
        break;
      }
      k := k + 1;
    }
  }

  /** The checks on one endpoint. */
  method CheckEndpoint(path: string, verb: string, op: Operation) returns (issues: seq<string>)
    ensures issues == Messages(EndpointIssues(Endpoint(path, verb, op)))
  {
    ghost var e := Endpoint(path, verb, op);
    issues := [];
    var security := op.security.GetOr([]);
    if security == [] {
      issues := [Message(NoSecurity(verb, path))];
    }
    ghost var first := if Unsecured(op.security) then [NoSecurity(verb, path)] else [];
    assert issues == Messages(first);
    var parameterIssues := CheckParameters(verb, path, op.parameters.GetOr([]));
    var rateIssues := CheckRateLimit(verb, path, op.responses.GetOr([]));
    ghost var params := ParameterIssues(verb, path, op.parameters.GetOr([]));
    ghost var rate := if MissesRateLimit(op.responses.GetOr([])) then [NoRateLimit(verb, path)] else [];
    MessagesAppend(first, params);
    MessagesAppend(first + params, rate);
    issues := issues + parameterIssues + rateIssues;
  }

  lemma {:induction false} EndpointsIssuesAppend(a: seq<Endpoint>, b: seq<Endpoint>)
    ensures EndpointsIssues(a + b) == EndpointsIssues(a) + EndpointsIssues(b)
    decreases |b|
  {
    if b == [] {
      assert a + b == a;
    } else {
      var n := |b|;
      EndpointsIssuesAppend(a, b[..n - 1]);
      assert (a + b)[..|a + b| - 1] == a + b[..n - 1];
      assert (a + b)[|a + b| - 1] == b[n - 1];
      assert EndpointsIssues(a + b) == EndpointsIssues(a + b[..n - 1]) + EndpointIssues(b[n - 1]);
      assert EndpointsIssues(b) == EndpointsIssues(b[..n - 1]) + EndpointIssues(b[n - 1]);
    }
  }

  /** The `for method` loop over one path. */
  method CheckPath(path: string, methods: Entries<Operation>) returns (issues: seq<string>)
    ensures issues == Messages(EndpointsIssues(PathEndpoints(path, methods)))
  {
    issues := [];
    var j := 0;
    while j < |methods|
      invariant 0 <= j <= |methods|
      invariant issues == Messages(EndpointsIssues(PathEndpoints(path, methods[..j])))
    {
      ghost var e := Endpoint(path, methods[j].0, methods[j].1);
      var more := CheckEndpoint(path, methods[j].0, methods[j].1);
      ghost var done := PathEndpoints(path, methods[..j]);
      assert PathEndpoints(path, methods[..j + 1]) == done + [e];
      assert (done + [e])[..|done|] == done;
      assert EndpointsIssues(done + [e]) == EndpointsIssues(done) + EndpointIssues(e);
      MessagesAppend(EndpointsIssues(done), EndpointIssues(e));
      issues := issues + more;
      j := j + 1;
    }
    assert methods[..j] == methods;
  }

  /** The `for path, methods in paths.items()` loop. */
  method CheckPaths(paths: Paths) returns (issues: seq<string>)
    ensures issues == Messages(EndpointsIssues(Endpoints(paths)))
  {
    issues := [];
    var i := 0;
    while i < |paths|
      invariant 0 <= i <= |paths|
      invariant issues == Messages(EndpointsIssues(Endpoints(paths[..i])))
    {
      var more := CheckPath(paths[i].0, paths[i].1);
      ghost var done := Endpoints(paths[..i]);
      ghost var pathEndpoints := PathEndpoints(paths[i].0, paths[i].1);
      assert paths[..i + 1][..i] == paths[..i];
      assert Endpoints(paths[..i + 1]) == done + pathEndpoints;
      EndpointsIssuesAppend(done, pathEndpoints);
      MessagesAppend(EndpointsIssues(done), EndpointsIssues(pathEndpoints));
      issues := issues + more;
      i := i + 1;
    }
    assert paths[..i] == paths;
  }

  /** The `any(...)` over the servers. */
  method CheckHttps(servers: seq<Server>) returns (https: bool)
    ensures https == EnforcesHttps(servers)
  {
    https := false;
    var s := 0;
    while s < |servers| && !https
      invariant 0 <= s <= |servers|
      invariant https <==> exists j :: 0 <= j < s && StartsWith(servers[j].url, "https://")
    {
      https := StartsWith(servers[s].url, "https://");
      s := s + 1;
    }
  }

  /** `analyze`. */
  method Analyze(doc: Document) returns (report: SecurityReport)
    ensures report.issues == Messages(Issues(doc))
    ensures report.recommendations == Recommendations
  {
    var issues: seq<string> := [];
    var schemes := doc.components.securitySchemes.GetOr([]);
    if schemes == [] {
      issues := [Message(NoGlobalSchemes)];
    }
    ghost var first := if NoSchemes(doc.components.securitySchemes) then [NoGlobalSchemes] else [];
    assert issues == Messages(first);
    var endpointIssues := CheckPaths(doc.paths);
    var https := CheckHttps(doc.servers.GetOr([]));
    ghost var middle := EndpointsIssues(Endpoints(doc.paths));
    ghost var last := if https then [] else [NoHttps];
    issues := issues + endpointIssues;
    if !https {
      issues := issues + [Message(NoHttps)];
    }
    MessagesAppend(first, middle);
    MessagesAppend(first + middle, last);
    assert Issues(doc) == first + middle + last;
    report := SecurityReport(issues, Recommendations);
  }

  // ---------------------------------------------------------------- properties

  /** A parameter issue names a parameter of the endpoint that has no schema,
      and every such parameter gets one. */
  lemma {:induction false} ParameterIssuesMember(verb: string, path: string, ps: seq<Parameter>, x: Issue)
    ensures x in ParameterIssues(verb, path, ps) <==>
      exists k :: 0 <= k < |ps| && ps[k].schema.None? && x == NoParameterSchema(ps[k].name, verb, path)
    decreases |ps|
  {
    if ps != [] {
      ParameterIssuesMember(verb, path, ps[1..], x);
      assert forall k :: 1 <= k < |ps| ==> ps[1..][k - 1] == ps[k];
      if exists k :: 0 <= k < |ps| && ps[k].schema.None? && x == NoParameterSchema(ps[k].name, verb, path) {
        var k :| 0 <= k < |ps| && ps[k].schema.None? && x == NoParameterSchema(ps[k].name, verb, path);
        if k > 0 {
          assert ps[1..][k - 1] == ps[k];
        }
      }
    }
  }

  /** The positions of the parameters without a schema. */
  function Unschemed(ps: seq<Parameter>): set<nat> {
    set k | 0 <= k < |ps| && ps[k].schema.None?
  }

  lemma UnschemedSnoc(ps: seq<Parameter>, p: Parameter)
    ensures Unschemed(ps + [p]) == Unschemed(ps) + if p.schema.None? then {|ps|} else {}
  {
    var qs := ps + [p];
    assert forall k :: 0 <= k < |ps| ==> qs[k] == ps[k];
    assert qs[|ps|] == p;
  }

  /** Exactly one issue per parameter without a schema. */
  lemma {:induction false} ParameterIssuesCount(verb: string, path: string, ps: seq<Parameter>)
    ensures |ParameterIssues(verb, path, ps)| == |Unschemed(ps)|
    decreases |ps|
  {
    if ps == [] {
      assert Unschemed(ps) == {};
    } else {
      var n := |ps|;
      var front := ps[..n - 1];
      ParameterIssuesCount(verb, path, front);
      assert ps == front + [ps[n - 1]];
      ParameterIssuesSnoc(verb, path, front, ps[n - 1]);
      UnschemedSnoc(front, ps[n - 1]);
      assert n - 1 !in Unschemed(front);
    }
  }

  /** Every issue of an endpoint names that endpoint, and is one of its three
      kinds. */
  lemma EndpointIssueKinds(e: Endpoint, x: Issue)
    requires x in EndpointIssues(e)
    ensures x.NoSecurity? || x.NoParameterSchema? || x.NoRateLimit?
    ensures x.verb == e.verb && x.path == e.path
  {
    ParameterIssuesMember(e.verb, e.path, e.op.parameters.GetOr([]), x);
  }

  /** Per endpoint: the security issue exactly when it declares none, the
      rate-limit issue at most once (however many responses lack the header),
      and one parameter issue per parameter without a schema. */
  lemma EndpointChecks(e: Endpoint)
    ensures multiset(EndpointIssues(e))[NoSecurity(e.verb, e.path)] == if Unsecured(e.op.security) then 1 else 0
    ensures multiset(EndpointIssues(e))[NoRateLimit(e.verb, e.path)] ==
      if MissesRateLimit(e.op.responses.GetOr([])) then 1 else 0
    ensures var ps := e.op.parameters.GetOr([]);
      |EndpointIssues(e)| ==
        (if Unsecured(e.op.security) then 1 else 0) + |Unschemed(ps)| +
        (if MissesRateLimit(e.op.responses.GetOr([])) then 1 else 0)
  {
    var ps := e.op.parameters.GetOr([]);
    var params := ParameterIssues(e.verb, e.path, ps);
    ParameterIssuesCount(e.verb, e.path, ps);
    ParameterIssuesMember(e.verb, e.path, ps, NoSecurity(e.verb, e.path));
    ParameterIssuesMember(e.verb, e.path, ps, NoRateLimit(e.verb, e.path));
    assert multiset(params)[NoSecurity(e.verb, e.path)] == 0;
    assert multiset(params)[NoRateLimit(e.verb, e.path)] == 0;
  }

  /** An issue of a run of endpoints is an issue of one of them. */
  lemma {:induction false} EndpointsIssuesMember(es: seq<Endpoint>, x: Issue)
    ensures x in EndpointsIssues(es) <==> exists i :: 0 <= i < |es| && x in EndpointIssues(es[i])
    decreases |es|
  {
    if es != [] {
      var n := |es|;
      var front := es[..n - 1];
      EndpointsIssuesMember(front, x);
      assert EndpointsIssues(es) == EndpointsIssues(front) + EndpointIssues(es[n - 1]);
      if x in EndpointsIssues(front) {
        var i :| 0 <= i < |front| && x in EndpointIssues(front[i]);
        assert front[i] == es[i];
      }
      if exists i :: 0 <= i < n && x in EndpointIssues(es[i]) {
        var i :| 0 <= i < n && x in EndpointIssues(es[i]);
        if i < n - 1 {
          assert front[i] == es[i];
        }
      }
    }
  }

  /** The endpoint walk reports neither document-wide issue. */
  lemma NoDocumentIssueInWalk(es: seq<Endpoint>)
    ensures NoGlobalSchemes !in EndpointsIssues(es)
    ensures NoHttps !in EndpointsIssues(es)
  {
    WalkIssueKinds(es);
  }

  /** The endpoint walk reports only the three per-endpoint kinds. */
  lemma {:induction false} WalkIssueKinds(es: seq<Endpoint>)
    ensures forall x :: x in EndpointsIssues(es) ==> x.NoSecurity? || x.NoParameterSchema? || x.NoRateLimit?
    decreases |es|
  {
    if es != [] {
      WalkIssueKinds(es[..|es| - 1]);
      var last := es[|es| - 1];
      forall x | x in EndpointIssues(last)
        ensures x.NoSecurity? || x.NoParameterSchema? || x.NoRateLimit?
      {
        EndpointIssueKinds(last, x);
      }
    }
  }

  /** The missing-schemes issue is reported, once and first, exactly when the
      components declare no security scheme. */
  lemma GlobalSchemesFirst(doc: Document)
    ensures NoGlobalSchemes in Issues(doc) <==> NoSchemes(doc.components.securitySchemes)
    ensures multiset(Issues(doc))[NoGlobalSchemes] <= 1
    ensures NoSchemes(doc.components.securitySchemes) ==> Issues(doc)[0] == NoGlobalSchemes
  {
    NoDocumentIssueInWalk(Endpoints(doc.paths));
  }

  /** The HTTPS issue is reported, once and last, exactly when no server URL
      starts with `https://`; a document without servers gets it. */
  lemma HttpsLast(doc: Document)
    ensures NoHttps in Issues(doc) <==> !EnforcesHttps(doc.servers.GetOr([]))
    ensures multiset(Issues(doc))[NoHttps] <= 1
    ensures !EnforcesHttps(doc.servers.GetOr([])) ==> Issues(doc)[|Issues(doc)| - 1] == NoHttps
    ensures doc.servers.None? ==> NoHttps in Issues(doc)
  {
    NoDocumentIssueInWalk(Endpoints(doc.paths));
  }

  /** An endpoint issue of the document is an issue of one of its endpoints. */
  lemma EndpointIssueInDoc(doc: Document, x: Issue)
    requires x.NoSecurity? || x.NoParameterSchema? || x.NoRateLimit?
    ensures x in Issues(doc) <==>
      exists i :: 0 <= i < |Endpoints(doc.paths)| && x in EndpointIssues(Endpoints(doc.paths)[i])
  {
    EndpointsIssuesMember(Endpoints(doc.paths), x);
  }

  /** `No security defined` names exactly the endpoints without a security
      requirement. */
  lemma UnsecuredEndpoints(doc: Document, verb: string, path: string)
    ensures NoSecurity(verb, path) in Issues(doc) <==>
      exists i :: 0 <= i < |Endpoints(doc.paths)| && Endpoints(doc.paths)[i].verb == verb &&
        Endpoints(doc.paths)[i].path == path && Unsecured(Endpoints(doc.paths)[i].op.security)
  {
    var es := Endpoints(doc.paths);
    var x := NoSecurity(verb, path);
    EndpointIssueInDoc(doc, x);
    if x in Issues(doc) {
      var i :| 0 <= i < |es| && x in EndpointIssues(es[i]);
      EndpointIssueKinds(es[i], x);
      EndpointChecks(es[i]);
    }
    if exists i :: 0 <= i < |es| && es[i].verb == verb && es[i].path == path && Unsecured(es[i].op.security) {
      var i :| 0 <= i < |es| && es[i].verb == verb && es[i].path == path && Unsecured(es[i].op.security);
      assert x in EndpointIssues(es[i]);
    }
  }

  /** `No rate limiting headers` names exactly the endpoints with a response
      that lacks `X-RateLimit-Limit`. */
  lemma RateLimitIssues(doc: Document, verb: string, path: string)
    ensures NoRateLimit(verb, path) in Issues(doc) <==>
      exists i :: 0 <= i < |Endpoints(doc.paths)| && Endpoints(doc.paths)[i].verb == verb &&
        Endpoints(doc.paths)[i].path == path && MissesRateLimit(Endpoints(doc.paths)[i].op.responses.GetOr([]))
  {
    var es := Endpoints(doc.paths);
    var x := NoRateLimit(verb, path);
    EndpointIssueInDoc(doc, x);
    if x in Issues(doc) {
      var i :| 0 <= i < |es| && x in EndpointIssues(es[i]);
      EndpointIssueKinds(es[i], x);
      EndpointChecks(es[i]);
    }
    if exists i :: 0 <= i < |es| && es[i].verb == verb && es[i].path == path && MissesRateLimit(es[i].op.responses.GetOr([])) {
      var i :| 0 <= i < |es| && es[i].verb == verb && es[i].path == path && MissesRateLimit(es[i].op.responses.GetOr([]));
      assert x in EndpointIssues(es[i]);
    }
  }

  /** A parameter of some endpoint is reported exactly when it has no schema. */
  lemma ParameterSchemaIssues(doc: Document, name: string, verb: string, path: string)
    ensures NoParameterSchema(name, verb, path) in Issues(doc) <==>
      exists i :: 0 <= i < |Endpoints(doc.paths)| && Endpoints(doc.paths)[i].verb == verb &&
        Endpoints(doc.paths)[i].path == path && UnschemedParameter(Endpoints(doc.paths)[i].op, name)
  {
    var es := Endpoints(doc.paths);
    var x := NoParameterSchema(name, verb, path);
    EndpointIssueInDoc(doc, x);
    if x in Issues(doc) {
      var i :| 0 <= i < |es| && x in EndpointIssues(es[i]);
      EndpointIssueKinds(es[i], x);
      ParameterIssuesMember(verb, path, es[i].op.parameters.GetOr([]), x);
    }
    if exists i :: 0 <= i < |es| && es[i].verb == verb && es[i].path == path && UnschemedParameter(es[i].op, name) {
      var i :| 0 <= i < |es| && es[i].verb == verb && es[i].path == path && UnschemedParameter(es[i].op, name);
      ParameterIssuesMember(verb, path, es[i].op.parameters.GetOr([]), x);
    }
  }

  /** The operation has a parameter with this name and no schema. */
  predicate UnschemedParameter(op: Operation, name: string) {
    var ps := op.parameters.GetOr([]);
    exists k :: 0 <= k < |ps| && ps[k].name == name && ps[k].schema.None?
  }
}
