/** The OpenAPI-style document that every part of the system reads or builds,
    with each field the code may find missing modelled as an `Option`. */
module OpenApi {
  import opened Wrappers
  import opened Text
  import opened OrderedMap

  /** A JSON scalar, as found in a schema's `default` and `enum`. */
  datatype Value = Str(s: string) | Int(i: int) | Bool(b: bool) | Null

  /** Truthiness, which JavaScript and Python agree on for these scalars:
      `""`, `0`, `false` and `null` are falsy. */
  predicate Truthy(v: Value) {
    match v
    case Str(s) => s != ""
    case Int(i) => i != 0
    case Bool(b) => b
    case Null => false
  }

  /** How a template literal (`${v}`) shows a scalar. */
  function Display(v: Value): string {
    match v
    case Str(s) => s
    case Int(i) => IntToString(i)
    case Bool(b) => if b then "true" else "false"
    case Null => "null"
  }

  /** How `Array.prototype.join` shows an element: `null` becomes empty. */
  function JoinDisplay(v: Value): string {
    if v.Null? then "" else Display(v)
  }

  /** Schema Object. Only the names of `properties` are read by the core, so
      the property schemas themselves are not kept. */
  datatype Schema = Schema(
    schemaType: Option<string>,
    properties: Option<seq<string>>,
    enumValues: Option<seq<Value>>,
    defaultValue: Option<Value>)

  /** Parameter Object; `location` is its `in` field. */
  datatype Parameter = Parameter(
    name: string,
    location: string,
    required: Option<bool>,
    description: Option<string>,
    schema: Option<Schema>)

  /** Request Body Object. `schemaRef` is `content['application/json'].schema.$ref`,
      absent when any step of that chain is missing. */
  datatype RequestBody = RequestBody(schemaRef: Option<string>)

  /** Response Object; only the names of its `headers` are read. */
  datatype Response = Response(description: Option<string>, headers: Option<seq<string>>)

  /** One Security Requirement Object: scheme name to scopes. */
  type SecurityRequirement = Entries<seq<string>>

  /** Operation Object. */
  datatype Operation = Operation(
    summary: Option<string>,
    description: Option<string>,
    parameters: Option<seq<Parameter>>,
    requestBody: Option<RequestBody>,
    security: Option<seq<SecurityRequirement>>,
    responses: Option<Entries<Response>>)

  /** Security Scheme Object; `location` is its `in` field. */
  datatype SecurityScheme = SecurityScheme(schemeType: string, name: Option<string>, location: Option<string>)

  datatype Server = Server(url: string)

  datatype Info = Info(title: string, version: string, description: Option<string>)

  datatype Components = Components(schemas: Entries<Schema>, securitySchemes: Option<Entries<SecurityScheme>>)

  /** Path to Path Item (method to Operation), both in document order. */
  type Paths = Entries<Entries<Operation>>

  datatype Document = Document(
    openapi: string,
    info: Info,
    servers: Option<seq<Server>>,
    paths: Paths,
    components: Components)

  /** One (path, method) pair of the document with its operation. */
  datatype Endpoint = Endpoint(path: string, verb: string, op: Operation)

  /** The endpoints of one path, in method order. */
  function PathEndpoints(path: string, methods: Entries<Operation>): (es: seq<Endpoint>)
    ensures |es| == |methods|
  {
    seq(|methods|, i requires 0 <= i < |methods| => Endpoint(path, methods[i].0, methods[i].1))
  }

  /** Every endpoint in the nested `Object.entries(paths)` / `paths.items()`
      walk: paths in document order, then methods in order within each path. */
  function Endpoints(paths: Paths): seq<Endpoint>
    decreases |paths|
  {
    if paths == [] then []
    else
      var last := paths[|paths| - 1];
      Endpoints(paths[..|paths| - 1]) + PathEndpoints(last.0, last.1)
  }

  /** The walk over a document is the walk over any split of its paths, first
      part first. */
  lemma {:induction false} EndpointsSplit(paths: Paths, k: nat)
    requires k <= |paths|
    ensures Endpoints(paths) == Endpoints(paths[..k]) + Endpoints(paths[k..])
    decreases |paths| - k
  {
    if k < |paths| {
      var n := |paths|;
      EndpointsSplit(paths[..n - 1], k);
      assert paths[..n - 1][..k] == paths[..k];
      assert paths[k..][..n - 1 - k] == paths[..n - 1][k..];
      assert paths[k..][n - 1 - k] == paths[n - 1];
    } else {
      assert paths[..k] == paths;
    }
  }

  /** The walk visits each path's methods as one consecutive block, and the
      endpoint at position j of that block is the j-th method of the path. */
  lemma EndpointsOfPath(paths: Paths, i: nat, j: nat)
    requires i < |paths| && j < |paths[i].1|
    ensures var base := |Endpoints(paths[..i])|;
      base + j < |Endpoints(paths)| &&
      Endpoints(paths)[base + j] == Endpoint(paths[i].0, paths[i].1[j].0, paths[i].1[j].1)
  {
    EndpointsSplit(paths, i);
    var rest := paths[i..];
    EndpointsSplit(rest, 1);
    assert rest[..1] == [paths[i]];
    assert Endpoints([paths[i]]) == PathEndpoints(paths[i].0, paths[i].1) by {
      assert [paths[i]][..0] == [];
    }
  }

  /** The number of endpoints is the total number of methods. */
  function MethodCount(paths: Paths): nat
    decreases |paths|
  {
    if paths == [] then 0 else MethodCount(paths[..|paths| - 1]) + |paths[|paths| - 1].1|
  }

  lemma {:induction false} EndpointsCount(paths: Paths)
    ensures |Endpoints(paths)| == MethodCount(paths)
    decreases |paths|
  {
    if paths != [] {
      EndpointsCount(paths[..|paths| - 1]);
    }
  }

  /** The endpoint id `${method}-${path}`: the React key of every rendered
      endpoint and the value the sidebar reports when one is clicked. */
  function EndpointId(verb: string, path: string): string {
    verb + "-" + path
  }

  /** For methods without a hyphen (every HTTP method), the id determines the
      method and the path. */
  lemma EndpointIdInjective(m1: string, p1: string, m2: string, p2: string)
    requires '-' !in m1 && '-' !in m2
    requires EndpointId(m1, p1) == EndpointId(m2, p2)
    ensures m1 == m2 && p1 == p2
  {
    var id := EndpointId(m1, p1);
    assert forall i :: 0 <= i < |m1| ==> id[i] == m1[i] && id[i] != '-';
    assert forall i :: 0 <= i < |m2| ==> id[i] == m2[i] && id[i] != '-';
    assert id[|m1|] == '-' && id[|m2|] == '-';
    assert m1 == id[..|m1|] == m2;
    assert p1 == id[|m1| + 1..] == p2;
  }

  /** `paths[path][method]`, when both levels are present. */
  function OperationAt(paths: Paths, path: string, verb: string): Option<Operation> {
    match Lookup(paths, path)
    case None => None
    case Some(methods) => Lookup(methods, verb)
  }

  /** `paths.setdefault(path, {})[method] = op`. */
  function PutOperation(paths: Paths, path: string, verb: string, op: Operation): Paths {
    Put(paths, path, Put(Lookup(paths, path).GetOr([]), verb, op))
  }

  /** Writing one operation makes it the one at (path, method), overwriting any
      earlier one, and leaves every other (path, method) pair as it was. */
  lemma PutOperationAt(paths: Paths, path: string, verb: string, op: Operation, path': string, verb': string)
    ensures OperationAt(PutOperation(paths, path, verb, op), path', verb') ==
      if path' == path && verb' == verb then Some(op) else OperationAt(paths, path', verb')
  {
    var inner := Put(Lookup(paths, path).GetOr([]), verb, op);
    PutLookup(paths, path, inner, path');
    PutLookup(Lookup(paths, path).GetOr([]), verb, op, verb');
  }

  /** Writing one operation keeps the path order, appending the path only when
      it is new, and keeps keys unique. */
  lemma PutOperationKeys(paths: Paths, path: string, verb: string, op: Operation)
    ensures Keys(PutOperation(paths, path, verb, op)) ==
      if path in Keys(paths) then Keys(paths) else Keys(paths) + [path]
    ensures UniqueKeys(paths) ==> UniqueKeys(PutOperation(paths, path, verb, op))
  {
    var inner := Put(Lookup(paths, path).GetOr([]), verb, op);
    PutKeys(paths, path, inner);
    if UniqueKeys(paths) {
      PutUnique(paths, path, inner);
    }
  }
}
