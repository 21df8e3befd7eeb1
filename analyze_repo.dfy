/** `backend/app/analyze_repo.py`: `CodebaseAnalyzer`, which starts from an
    empty OpenAPI document and writes an operation into it for every route it
    detects in a repository's Python files, and for every method of a Django
    class-based view. */
module AnalyzeRepo {
  import opened Wrappers
  import opened Text
  import opened OrderedMap
  import opened OpenApi
  import IdentifyApis
  import SecurityAnalyzer

  const GithubPrefix: string := "https://github.com/"

  /** The document a new analyzer starts from: OpenAPI 3.0.0, titled
      "Generated API" at version 1.0.0, with no paths and no schemas. */
  const InitialSpec: Document :=
    Document("3.0.0", Info("Generated API", "1.0.0", None), None, [], Components([], None))

  /** `repo_path.startswith("https://github.com/")`. */
  predicate IsGithubUrl(repoPath: string) {
    StartsWith(repoPath, GithubPrefix)
  }

  /** A new analyzer's document has no endpoint, so the security pass reports
      exactly the missing global schemes and the missing HTTPS server. */
  lemma InitialSpecIssues()
    ensures Endpoints(InitialSpec.paths) == []
    ensures SecurityAnalyzer.Issues(InitialSpec) ==
      [SecurityAnalyzer.NoGlobalSchemes, SecurityAnalyzer.NoHttps]
  {
    assert !SecurityAnalyzer.EnforcesHttps([]);
  }

  // ---------------------------------------------------------------- the repository name

  /** `parts[-2:]`: the last two parts, or all of them when there are fewer. */
  function LastTwo(parts: seq<string>): (r: seq<string>)
    ensures |r| == if |parts| < 2 then |parts| else 2
    ensures r == parts[|parts| - |r|..]
  {
    if |parts| <= 2 then parts else parts[|parts| - 2..]
  }

  /** `"/".join(repo_path.split("/")[-2:])`, the name `_clone_repo` asks
      GitHub for. */
  function RepoName(repoPath: string): string {
    Join(LastTwo(Split(repoPath, '/')), "/")
  }

  /** Whatever comes before them, the last two `/`-separated segments are the
      name. */
  lemma RepoNameOfPath(prefix: string, owner: string, name: string)
    requires '/' !in owner && '/' !in name
    ensures RepoName(prefix + "/" + owner + "/" + name) == owner + "/" + name
  {
    SplitAround(prefix + "/" + owner, '/', name);
    SplitAround(prefix, '/', owner);
    SplitWithoutSeparator(owner, '/');
    SplitWithoutSeparator(name, '/');
    var parts := Split(prefix, '/') + [owner] + [name];
    assert LastTwo(parts) == [owner, name];
    assert Join([owner, name], "/") == owner + "/" + Join([name], "/");
  }

  /** A GitHub URL `https://github.com/<owner>/<name>` is recognised as one,
      and its repository name is `<owner>/<name>`. */
  lemma GithubRepoName(owner: string, name: string)
    requires '/' !in owner && '/' !in name
    ensures IsGithubUrl(GithubPrefix + owner + "/" + name)
    ensures RepoName(GithubPrefix + owner + "/" + name) == owner + "/" + name
  {
    var url := GithubPrefix + owner + "/" + name;
    assert url[..|GithubPrefix|] == GithubPrefix;
    assert url == "https://github.com" + "/" + owner + "/" + name;
    RepoNameOfPath("https://github.com", owner, name);
  }

  // ---------------------------------------------------------------- detected routes

  /** `method, path = route` for a tuple, `"get", route` for a string. */
  function RouteMethodPath(route: IdentifyApis.Route): (string, string) {
    match route
    case VerbRoute(verb, path) => (verb, path)
    case PathRoute(path) => ("get", path)
  }

  /** The key `paths[path][method.lower()]` a route is written under. */
  function RouteKey(route: IdentifyApis.Route): (string, string) {
    (ToLower(RouteMethodPath(route).0), RouteMethodPath(route).1)
  }

  /** A string with no upper-case ASCII letter is its own lower case. */
  lemma LowerOfLower(s: string)
    requires forall i :: 0 <= i < |s| ==> !('A' <= s[i] <= 'Z')
    ensures ToLower(s) == s
  {
  }

  /** Flask and Django routes are written under GET; FastAPI and Express
      routes under their own lower-case method; the routes found in a
      front-end file under the key "axios" or "fetch", the name of the call. */
  lemma RouteKeys(content: string, framework: string)
    ensures framework == "flask" || framework == "django" ==>
      forall r :: r in IdentifyApis.ExtractRoutes(content, framework) ==> RouteKey(r).0 == "get"
    ensures framework == "fastapi" || framework == "express" ==>
      forall r :: r in IdentifyApis.ExtractRoutes(content, framework) ==>
        RouteKey(r).0 in IdentifyApis.HttpVerbs
    ensures framework == "react" || framework == "angular" || framework == "vue" ==>
      forall r :: r in IdentifyApis.ExtractRoutes(content, framework) ==>
        RouteKey(r).0 in IdentifyApis.CallNames
  {
    IdentifyApis.ExtractRoutesShape(content, framework);
    LowerOfLower("get");
    forall v | v in IdentifyApis.HttpVerbs + IdentifyApis.CallNames
      ensures ToLower(v) == v
    {
      LowerOfLower(v);
    }
  }

  /** `s.capitalize()`: the first character upper-cased, the rest lower-cased. */
  function Capitalize(s: string): string {
    if s == [] then [] else [UpperChar(s[0])] + ToLower(s[1..])
  }

  /** Capitalizing changes only case: the same length, the same text once
      lower-cased, a first character that is not a lower-case letter, and
      the rest lower-cased. */
  lemma CapitalizeSpec(s: string)
    ensures |Capitalize(s)| == |s|
    ensures ToLower(Capitalize(s)) == ToLower(s)
    ensures s != [] ==> !('a' <= Capitalize(s)[0] <= 'z')
    ensures s != [] ==> Capitalize(s)[1..] == ToLower(s[1..])
  {
    if s != [] {
      var c := Capitalize(s);
      assert forall i :: 1 <= i < |s| ==> c[i] == LowerChar(s[i]);
      assert ToLower(c)[0] == LowerChar(UpperChar(s[0])) == LowerChar(s[0]);
    }
  }

  const OkResponses: Entries<Response> := [("200", Response(Some("Successful Response"), None))]

  /** The operation `_add_to_api_spec` writes for every route of a file. */
  function DetectedOperation(framework: string, relPath: string): Operation {
    Operation(
      Some(Capitalize(framework) + " route in " + relPath),
      Some("Automatically detected " + framework + " route"),
      None, None, None,
      Some(OkResponses))
  }

  /** The paths after `op` has been written under each route's key in turn. */
  function AddRoutes(paths: Paths, op: Operation, routes: seq<IdentifyApis.Route>): Paths
    decreases |routes|
  {
    if routes == [] then paths
    else
      var key := RouteKey(routes[|routes| - 1]);
      PutOperation(AddRoutes(paths, op, routes[..|routes| - 1]), key.1, key.0, op)
  }

  /** After the routes are added, (path, method) holds `op` exactly when some
      route has that key, creating the path when it is new and overwriting
      any earlier operation; every other pair is as it was. */
  lemma {:induction false} AddRoutesAt(paths: Paths, op: Operation, routes: seq<IdentifyApis.Route>, path: string, verb: string)
    ensures OperationAt(AddRoutes(paths, op, routes), path, verb) ==
      if exists i :: 0 <= i < |routes| && RouteKey(routes[i]) == (verb, path) then Some(op)
      else OperationAt(paths, path, verb)
    decreases |routes|
  {
    if routes != [] {
      var n := |routes|;
      var key := RouteKey(routes[n - 1]);
      AddRoutesAt(paths, op, routes[..n - 1], path, verb);
      PutOperationAt(AddRoutes(paths, op, routes[..n - 1]), key.1, key.0, op, path, verb);
      var prefix := routes[..n - 1];
      if exists i :: 0 <= i < n - 1 && RouteKey(prefix[i]) == (verb, path) {
        var i :| 0 <= i < n - 1 && RouteKey(prefix[i]) == (verb, path);
        assert RouteKey(routes[i]) == (verb, path);
      }
      if exists i :: 0 <= i < n && RouteKey(routes[i]) == (verb, path) {
        var i :| 0 <= i < n && RouteKey(routes[i]) == (verb, path);
        if i < n - 1 {
          assert RouteKey(prefix[i]) == (verb, path);
        }
      }
    }
  }

  /** Adding routes keeps the paths already there, in their order, adds only
      the paths of routes, and never duplicates a path. */
  lemma {:induction false} AddRoutesKeys(paths: Paths, op: Operation, routes: seq<IdentifyApis.Route>)
    ensures Keys(paths) <= Keys(AddRoutes(paths, op, routes))
    ensures forall k :: k in Keys(AddRoutes(paths, op, routes)) ==>
      k in Keys(paths) || exists i :: 0 <= i < |routes| && RouteKey(routes[i]).1 == k
    ensures UniqueKeys(paths) ==> UniqueKeys(AddRoutes(paths, op, routes))
    decreases |routes|
  {
    if routes != [] {
      var n := |routes|;
      var key := RouteKey(routes[n - 1]);
      var before := AddRoutes(paths, op, routes[..n - 1]);
      AddRoutesKeys(paths, op, routes[..n - 1]);
      PutOperationKeys(before, key.1, key.0, op);
      forall k | k in Keys(AddRoutes(paths, op, routes))
        ensures k in Keys(paths) || exists i :: 0 <= i < n && RouteKey(routes[i]).1 == k
      {
        if k != key.1 && k !in Keys(paths) {
          assert k in Keys(before);
          var i :| 0 <= i < n - 1 && RouteKey(routes[..n - 1][i]).1 == k;
          assert RouteKey(routes[i]).1 == k;
        }
      }
    }
  }

  /** The document after `_process_file` has handled one file, given its
      path relative to the root and its text: the routes are added when the
      framework is known or there are routes. */
  function FileSpec(doc: Document, relPath: string, content: string): Document {
    var file := IdentifyApis.AnalyzeFile(content);
    if IdentifyApis.Worth(file) then
      doc.(paths := AddRoutes(doc.paths, DetectedOperation(file.framework, relPath), file.routes))
    else doc
  }

  /** Only the paths change, and only when routes were found; since a file
      with an unknown framework has no routes, those files change nothing. */
  lemma FileSpecChanges(doc: Document, relPath: string, content: string)
    ensures FileSpec(doc, relPath, content).(paths := doc.paths) == doc
    ensures FileSpec(doc, relPath, content) != doc ==>
      IdentifyApis.IdentifyFramework(content) != IdentifyApis.Unknown &&
      IdentifyApis.AnalyzeFile(content).routes != []
  {
    IdentifyApis.WorthIffKnown(content);
  }

  // ---------------------------------------------------------------- Django views

  /** One parameter of a Python signature: its name and whether it has a
      default. */
  datatype SignatureParameter = SignatureParameter(name: string, hasDefault: bool)

  /** A handler method of a view: its docstring and its signature. */
  datatype Handler = Handler(doc: Option<string>, signature: seq<SignatureParameter>)

  /** A class-based view: its class name and the attributes of an instance
      that are handler methods. */
  datatype ViewClass = ViewClass(name: string, attributes: Entries<Handler>)

  const SkippedNames: seq<string> := ["self", "request"]

  /** The signature's parameters other than `self` and `request`, in order. */
  function KeptParameters(signature: seq<SignatureParameter>): seq<SignatureParameter>
    decreases |signature|
  {
    if signature == [] then []
    else
      var last := signature[|signature| - 1];
      KeptParameters(signature[..|signature| - 1]) + if last.name in SkippedNames then [] else [last]
  }

  /** The parameter description `_get_parameters` builds: a query parameter
      of type string, required exactly when it has no default. */
  function QueryParameter(p: SignatureParameter): Parameter {
    Parameter(p.name, "query", Some(!p.hasDefault), None, Some(Schema(Some("string"), None, None, None)))
  }

  function QueryParameters(signature: seq<SignatureParameter>): (params: seq<Parameter>)
    ensures |params| == |KeptParameters(signature)|
  {
    var kept := KeptParameters(signature);
    seq(|kept|, i requires 0 <= i < |kept| => QueryParameter(kept[i]))
  }

  /** Filtering keeps signature order: it distributes over concatenation. */
  lemma {:induction false} KeptParametersAppend(a: seq<SignatureParameter>, b: seq<SignatureParameter>)
    ensures KeptParameters(a + b) == KeptParameters(a) + KeptParameters(b)
    decreases |b|
  {
    if b == [] {
      assert a + b == a;
    } else {
      var n := |b|;
      assert (a + b)[..|a + b| - 1] == a + b[..n - 1];
      KeptParametersAppend(a, b[..n - 1]);
    }
  }

  /** A parameter is kept exactly when it is in the signature and is neither
      `self` nor `request`. */
  lemma {:induction false} KeptParametersMember(signature: seq<SignatureParameter>, p: SignatureParameter)
    ensures p in KeptParameters(signature) <==> p in signature && p.name !in SkippedNames
    decreases |signature|
  {
    if signature != [] {
      var n := |signature|;
      KeptParametersMember(signature[..n - 1], p);
      assert signature == signature[..n - 1] + [signature[n - 1]];
    }
  }

  /** Every description is a query parameter of type string named after a
      kept parameter and required exactly when that one has no default; and
      every kept parameter has its description. */
  lemma QueryParametersSpec(signature: seq<SignatureParameter>)
    ensures forall q :: q in QueryParameters(signature) ==>
      q.location == "query" && q.schema == Some(Schema(Some("string"), None, None, None)) &&
      exists p :: p in signature && p.name !in SkippedNames && q.name == p.name && q.required == Some(!p.hasDefault)
    ensures forall p :: p in signature && p.name !in SkippedNames ==> QueryParameter(p) in QueryParameters(signature)
  {
    var kept := KeptParameters(signature);
    var params := QueryParameters(signature);
    forall q | q in params
      ensures exists p :: p in signature && p.name !in SkippedNames && q.name == p.name && q.required == Some(!p.hasDefault)
    {
      var i :| 0 <= i < |params| && params[i] == q;
      KeptParametersMember(signature, kept[i]);
    }
    forall p | p in signature && p.name !in SkippedNames
      ensures QueryParameter(p) in params
    {
      KeptParametersMember(signature, p);
      var i :| 0 <= i < |kept| && kept[i] == p;
      assert params[i] == QueryParameter(p);
    }
  }

  const DjangoMethods: seq<string> := ["get", "post", "put", "delete", "patch"]

  /** `f"/{view_class.__name__.lower()}"`. */
  function ViewPath(view: ViewClass): string {
    "/" + ToLower(view.name)
  }

  /** The operation written for one handler of a view. */
  function ViewOperation(view: ViewClass, handler: Handler): Operation {
    Operation(
      Some(view.name),
      Some(handler.doc.GetOr("")),
      Some(QueryParameters(handler.signature)),
      None, None,
      Some(OkResponses))
  }

  /** The paths after the handlers for `methods`, in order, have been written. */
  function ViewPaths(paths: Paths, view: ViewClass, methods: seq<string>): Paths
    decreases |methods|
  {
    if methods == [] then paths
    else
      var verb := methods[|methods| - 1];
      var before := ViewPaths(paths, view, methods[..|methods| - 1]);
      match Lookup(view.attributes, verb)
      case None => before
      case Some(handler) => PutOperation(before, ViewPath(view), verb, ViewOperation(view, handler))
  }

  /** The view's methods that an instance has, in the order checked. */
  function PresentMethods(view: ViewClass, methods: seq<string>): (present: seq<string>)
    ensures forall m :: m in present ==> m in methods && Lookup(view.attributes, m).Some?
    decreases |methods|
  {
    if methods == [] then []
    else
      var verb := methods[|methods| - 1];
      PresentMethods(view, methods[..|methods| - 1]) +
        if Lookup(view.attributes, verb).Some? then [verb] else []
  }

  /** The view's path holds, for each listed method the instance has, the
      operation of that handler; every other (path, method) is as it was. */
  lemma {:induction false} ViewPathsAt(paths: Paths, view: ViewClass, methods: seq<string>, path: string, verb: string)
    ensures OperationAt(ViewPaths(paths, view, methods), path, verb) ==
      if path == ViewPath(view) && verb in methods && Lookup(view.attributes, verb).Some? then
        Some(ViewOperation(view, Lookup(view.attributes, verb).value))
      else OperationAt(paths, path, verb)
    decreases |methods|
  {
    if methods != [] {
      var n := |methods|;
      var last := methods[n - 1];
      ViewPathsAt(paths, view, methods[..n - 1], path, verb);
      assert methods == methods[..n - 1] + [last];
      match Lookup(view.attributes, last)
      case None =>
      case Some(handler) =>
        PutOperationAt(ViewPaths(paths, view, methods[..n - 1]), ViewPath(view), last, ViewOperation(view, handler), path, verb);
    }
  }

  /** For a view whose path is new and distinct methods, the path is added
      exactly when the instance has one of them, and its methods are those
      present, in the order checked. */
  lemma {:induction false} ViewPathsOrder(paths: Paths, view: ViewClass, methods: seq<string>)
    requires ViewPath(view) !in Keys(paths)
    requires forall i, j :: 0 <= i < j < |methods| ==> methods[i] != methods[j]
    ensures ViewPath(view) in Keys(ViewPaths(paths, view, methods)) <==> PresentMethods(view, methods) != []
    ensures Keys(Lookup(ViewPaths(paths, view, methods), ViewPath(view)).GetOr([])) == PresentMethods(view, methods)
    decreases |methods|
  {
    var path := ViewPath(view);
    var after := ViewPaths(paths, view, methods);
    if methods == [] {
      LookupPresent(paths, path);
    } else {
      var n := |methods|;
      var last := methods[n - 1];
      var before := ViewPaths(paths, view, methods[..n - 1]);
      ViewPathsOrder(paths, view, methods[..n - 1]);
      match Lookup(view.attributes, last)
      case None =>
      case Some(handler) =>
        var op := ViewOperation(view, handler);
        var inner := Lookup(before, path).GetOr([]);
        assert last !in PresentMethods(view, methods[..n - 1]);
        PutKeys(inner, last, op);
        PutLookup(before, path, Put(inner, last, op), path);
        PutOperationKeys(before, path, last, op);
        LookupPresent(after, path);
    }
  }

  /** A Django view gets the path `/` + its lower-cased class name, and that
      path lists the view's methods among get, post, put, delete and patch,
      in that order. */
  lemma DjangoViewSpec(paths: Paths, view: ViewClass, path: string, verb: string)
    ensures OperationAt(ViewPaths(paths, view, DjangoMethods), path, verb) ==
      if path == ViewPath(view) && verb in DjangoMethods && Lookup(view.attributes, verb).Some? then
        Some(ViewOperation(view, Lookup(view.attributes, verb).value))
      else OperationAt(paths, path, verb)
    ensures ViewPath(view) !in Keys(paths) ==>
      Keys(Lookup(ViewPaths(paths, view, DjangoMethods), ViewPath(view)).GetOr([])) == PresentMethods(view, DjangoMethods)
  {
    ViewPathsAt(paths, view, DjangoMethods, path, verb);
    if ViewPath(view) !in Keys(paths) {
      ViewPathsOrder(paths, view, DjangoMethods);
    }
  }

  // ---------------------------------------------------------------- module paths

  /** `relpath.replace("/", ".").replace(".py", "")`, as written: the second
      replace removes every `.py`, including one that starts a directory or
      file name after a `/`. */
  function ModulePathAsWritten(relPath: string): string {
    ReplaceAll(ReplaceAll(relPath, "/", "."), ".py", "")
  }

  /** The dotted module name of a source file: the `.py` extension dropped,
      then each `/` made a `.`. */
  function ModulePath(relPath: string): string {
    var stem := if EndsWith(relPath, ".py") then relPath[..|relPath| - 3] else relPath;
    ReplaceAll(stem, "/", ".")
  }

  /** The module of `<d1>/…/<dn>/<name>.py` is `<d1>.….<dn>.<name>`. */
  lemma ModulePathOfFile(parts: seq<string>)
    requires forall i :: 0 <= i < |parts| ==> '/' !in parts[i]
    ensures ModulePath(Join(parts, "/") + ".py") == Join(parts, ".")
  {
    var stem := Join(parts, "/");
    var rel := stem + ".py";
    assert EndsWith(rel, ".py") by {
      ConcatEnds(stem, ".py");
    }
    assert rel[..|rel| - 3] == stem;
    ReplaceJoinSeparator(parts, '/', ".");
  }

  /** For a file `<dir>/py<rest>.py`, such as `app/pyutils.py`, the code as
      written gives `<dir><rest>` (`apputils`): the `.py` that starts the
      file name is removed as well as the extension. */
  lemma ModulePathAsWrittenInnerPy(dir: string, rest: string)
    requires '/' !in dir && '.' !in dir && '/' !in rest && '.' !in rest
    ensures ModulePathAsWritten(dir + "/py" + rest + ".py") == dir + rest
  {
    var file := "py" + rest + ".py";
    var dotted := dir + (".py" + (rest + ".py"));
    assert ReplaceAll(dir + "/py" + rest + ".py", "/", ".") == dotted by {
      assert dir + "/py" + rest + ".py" == Join([dir, file], "/");
      assert Join([dir, file], ".") == dotted;
      ReplaceJoinSeparator([dir, file], '/', ".");
    }
    assert ReplaceAll(rest + ".py", ".py", "") == rest by {
      ReplaceSkip(rest, ".py", ".py", "");
      ReplaceFront([], ".py", "");
      assert ".py" + [] == ".py";
      assert rest + [] == rest;
    }
    ReplaceSkip(dir, ".py" + (rest + ".py"), ".py", "");
    ReplaceFront(rest + ".py", ".py", "");
  }

  /** For the same file the module is `<dir>.py<rest>` (`app.pyutils`). */
  lemma ModulePathInnerPy(dir: string, rest: string)
    requires '/' !in dir && '.' !in dir && '/' !in rest && '.' !in rest
    ensures ModulePath(dir + "/py" + rest + ".py") == dir + ".py" + rest
  {
    assert dir + "/py" + rest + ".py" == Join([dir, "py" + rest], "/") + ".py";
    assert Join([dir, "py" + rest], ".") == dir + ".py" + rest;
    ModulePathOfFile([dir, "py" + rest]);
  }

  // ---------------------------------------------------------------- the analyzer

  class CodebaseAnalyzer {
    const repoPath: string
    const rootDir: string
    const githubToken: Option<string>
    const isGithubUrl: bool
    var apiSpec: Document

    constructor(repoPath: string, githubToken: Option<string>)
      ensures this.repoPath == repoPath && rootDir == repoPath && this.githubToken == githubToken
      ensures isGithubUrl == IsGithubUrl(repoPath)
      ensures apiSpec == InitialSpec
    {
      this.repoPath := repoPath;
      rootDir := repoPath;
      this.githubToken := githubToken;
      apiSpec := InitialSpec;
      isGithubUrl := StartsWith(repoPath, GithubPrefix);
    }

    /** `_identify_framework`: the patterns in order, returning at the first
        that occurs; the same patterns as `identify_framework`. */
    method IdentifyFramework(content: string) returns (framework: string)
      ensures framework == IdentifyApis.IdentifyFramework(content)
    {
      var frameworks := IdentifyApis.Frameworks;
      var i := 0;
      while i < |frameworks|
        invariant 0 <= i <= |frameworks|
        invariant IdentifyApis.FirstMatch(content, frameworks[i..]) == IdentifyApis.IdentifyFramework(content)
      {
        if IdentifyApis.Search(content, frameworks[i].1) {
          return frameworks[i].0;
        }
        assert frameworks[i..][1..] == frameworks[i + 1..];
        i := i + 1;
      }
      return IdentifyApis.Unknown;
    }

    /** `_add_to_api_spec`, given the file's path relative to the root. */
    method AddToApiSpec(relPath: string, framework: string, routes: seq<IdentifyApis.Route>)
      modifies this
      ensures apiSpec == old(apiSpec).(paths := AddRoutes(old(apiSpec.paths), DetectedOperation(framework, relPath), routes))
    {
      var op := DetectedOperation(framework, relPath);
      var i := 0;
      while i < |routes|
        invariant 0 <= i <= |routes|
        invariant apiSpec == old(apiSpec).(paths := AddRoutes(old(apiSpec.paths), op, routes[..i]))
      {
        var (verb, path) := RouteMethodPath(routes[i]);
        apiSpec := apiSpec.(paths := PutOperation(apiSpec.paths, path, ToLower(verb), op));
        assert routes[..i + 1][..i] == routes[..i];
        i := i + 1;
      }
      assert routes[..i] == routes;
    }

    /** `_process_file` on a file's relative path and text, up to the walk
        over its classes. */
    method ProcessFile(relPath: string, content: string)
      modifies this
      ensures apiSpec == FileSpec(old(apiSpec), relPath, content)
    {
      var framework := IdentifyFramework(content);
      var routes := IdentifyApis.ExtractRoutes(content, framework);
      if framework != IdentifyApis.Unknown || routes != [] {
        AddToApiSpec(relPath, framework, routes);
      }
    }

    /** `_get_parameters`, over the handler's signature. */
    method GetParameters(signature: seq<SignatureParameter>) returns (params: seq<Parameter>)
      ensures params == QueryParameters(signature)
    {
      params := [];
      var i := 0;
      while i < |signature|
        invariant 0 <= i <= |signature|
        invariant params == QueryParameters(signature[..i])
      {
        var p := signature[i];
        assert signature[..i + 1][..i] == signature[..i];
        if p.name != "self" && p.name != "request" {
          params := params + [QueryParameter(p)];
        }
        i := i + 1;
      }
      assert signature[..i] == signature;
    }

    /** `_process_django_view`. */
    method ProcessDjangoView(view: ViewClass)
      modifies this
      ensures apiSpec == old(apiSpec).(paths := ViewPaths(old(apiSpec.paths), view, DjangoMethods))
    {
      var methods := DjangoMethods;
      var i := 0;
      while i < |methods|
        invariant 0 <= i <= |methods|
        invariant apiSpec == old(apiSpec).(paths := ViewPaths(old(apiSpec.paths), view, methods[..i]))
      {
        var verb := methods[i];
        assert methods[..i + 1][..i] == methods[..i];
        match Lookup(view.attributes, verb) {
          case None =>
          case Some(handler) =>
            var path := "/" + ToLower(view.name);
            var parameters := GetParameters(handler.signature);
            var op := Operation(Some(view.name), Some(handler.doc.GetOr("")), Some(parameters), None, None, Some(OkResponses));
            apiSpec := apiSpec.(paths := PutOperation(apiSpec.paths, path, verb, op));
        }
        i := i + 1;
      }
      assert methods[..i] == methods;
    }
  }
}
