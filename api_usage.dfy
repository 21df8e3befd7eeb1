/** The API Usage pane: example client code for every endpoint in three
    dialects (JavaScript `fetch`, Python `requests`, `curl`). */
module ApiUsage {
  import opened Wrappers
  import opened Text
  import opened OrderedMap
  import opened OpenApi

  /** The fixed server prefix of every generated URL; the document's
      `servers` are never consulted. */
  const BaseUrl := "http://api.example.com/v1"

  /** The request URL without query: the prefix, then the path verbatim (no
      slash is added or removed). */
  function Url(path: string): string {
    BaseUrl + path
  }

  /** `parameters.filter(p => p.in === 'query')`. */
  function QueryParameters(ps: seq<Parameter>): (qs: seq<Parameter>)
    ensures forall p :: p in qs ==> p in ps && p.location == "query"
    ensures forall p :: p in ps && p.location == "query" ==> p in qs
    decreases |ps|
  {
    if ps == [] then []
    else (if ps[0].location == "query" then [ps[0]] else []) + QueryParameters(ps[1..])
  }

  /** The filter keeps declaration order: filtering a concatenation filters
      each part in turn. */
  lemma {:induction false} QueryParametersAppend(a: seq<Parameter>, b: seq<Parameter>)
    ensures QueryParameters(a + b) == QueryParameters(a) + QueryParameters(b)
    decreases |a|
  {
    if a != [] {
      QueryParametersAppend(a[1..], b);
      assert (a + b)[1..] == a[1..] + b;
    } else {
      assert a + b == b;
    }
  }

  /** The generators read `p.schema.default` for every query parameter
      without checking that `p.schema` exists. */
  predicate SchemasPresent(parameters: Option<seq<Parameter>>) {
    parameters.Some? ==> forall p :: p in parameters.value && p.location == "query" ==> p.schema.Some?
  }

  /** `p.schema.default || placeholder`: the default when it is truthy. */
  function QueryValue(p: Parameter, placeholder: string): string
    requires p.schema.Some?
  {
    var d := p.schema.value.defaultValue;
    if d.Some? && Truthy(d.value) then Display(d.value) else placeholder
  }

  /** A falsy or missing default gives the placeholder; a truthy one is shown. */
  lemma QueryValuePlaceholder(p: Parameter, placeholder: string)
    requires p.schema.Some?
    ensures var d := p.schema.value.defaultValue;
      (d.None? || !Truthy(d.value) ==> QueryValue(p, placeholder) == placeholder) &&
      (d.Some? && Truthy(d.value) ==> QueryValue(p, placeholder) == Display(d.value))
  {
  }

  /** `${p.name}=${value}`, the JavaScript and curl rendering. */
  function UrlPair(p: Parameter): string
    requires p.schema.Some?
  {
    p.name + "=" + QueryValue(p, "{value}")
  }

  /** `'${p.name}': ${value}`, the Python rendering. */
  function PythonPair(p: Parameter): string
    requires p.schema.Some?
  {
    "'" + p.name + "': " + QueryValue(p, "'{value}'")
  }

  predicate AllHaveSchemas(qs: seq<Parameter>) {
    forall i :: 0 <= i < |qs| ==> qs[i].schema.Some?
  }

  lemma QueryParametersHaveSchemas(parameters: Option<seq<Parameter>>)
    requires SchemasPresent(parameters) && parameters.Some?
    ensures AllHaveSchemas(QueryParameters(parameters.value))
  {
    var qs := QueryParameters(parameters.value);
    forall i | 0 <= i < |qs| ensures qs[i].schema.Some? {
      assert qs[i] in qs;
    }
  }

  function UrlPairs(qs: seq<Parameter>): (r: seq<string>)
    requires AllHaveSchemas(qs)
    ensures |r| == |qs|
  {
    seq(|qs|, i requires 0 <= i < |qs| => UrlPair(qs[i]))
  }

  function PythonPairs(qs: seq<Parameter>): (r: seq<string>)
    requires AllHaveSchemas(qs)
    ensures |r| == |qs|
  {
    seq(|qs|, i requires 0 <= i < |qs| => PythonPair(qs[i]))
  }

  /** The JavaScript and curl query string: the query parameters' pairs joined
      by `&`; empty when `parameters` is absent (`parameters?.…`). */
  function QueryString(parameters: Option<seq<Parameter>>): string
    requires SchemasPresent(parameters)
  {
    if parameters.None? then ""
    else
      QueryParametersHaveSchemas(parameters);
      Join(UrlPairs(QueryParameters(parameters.value)), "&")
  }

  /** The Python query dictionary body: the pairs joined by `, `. */
  function PythonQuery(parameters: Option<seq<Parameter>>): string
    requires SchemasPresent(parameters)
  {
    if parameters.None? then ""
    else
      QueryParametersHaveSchemas(parameters);
      Join(PythonPairs(QueryParameters(parameters.value)), ", ")
  }

  /** Both query renderings are empty exactly when there is no query
      parameter, so no other parameter and no absent list produces a query. */
  lemma QueryEmpty(parameters: Option<seq<Parameter>>)
    requires SchemasPresent(parameters)
    ensures QueryString(parameters) == "" <==> parameters.None? || QueryParameters(parameters.value) == []
    ensures PythonQuery(parameters) == "" <==> parameters.None? || QueryParameters(parameters.value) == []
  {
    if parameters.Some? {
      var qs := QueryParameters(parameters.value);
      QueryParametersHaveSchemas(parameters);
      JoinEmpty(UrlPairs(qs), "&");
      JoinEmpty(PythonPairs(qs), ", ");
      if |qs| == 1 {
        assert UrlPairs(qs)[0] == qs[0].name + "=" + QueryValue(qs[0], "{value}");
        assert PythonPairs(qs)[0][0] == '\'';
      }
    }
  }

  /** Declaration order: appending a query parameter appends its pair after
      an `&` (after nothing if it is the first); appending any other
      parameter changes nothing. */
  lemma QueryStringAppend(ps: seq<Parameter>, p: Parameter)
    requires SchemasPresent(Some(ps + [p]))
    ensures SchemasPresent(Some(ps))
    ensures p.location == "query" ==>
      p.schema.Some? &&
      QueryString(Some(ps + [p])) ==
        (if QueryString(Some(ps)) == "" then UrlPair(p) else QueryString(Some(ps)) + "&" + UrlPair(p))
    ensures p.location != "query" ==> QueryString(Some(ps + [p])) == QueryString(Some(ps))
  {
    assert forall q :: q in ps ==> q in ps + [p];
    QueryParametersAppend(ps, [p]);
    assert QueryParameters([p]) == (if p.location == "query" then [p] else []) + QueryParameters([]);
    if p.location == "query" {
      QueryStringAppendQuery(ps, p);
    } else {
      assert QueryParameters(ps + [p]) == QueryParameters(ps);
    }
  }

  /** The query case of `QueryStringAppend`. */
  lemma QueryStringAppendQuery(ps: seq<Parameter>, p: Parameter)
    requires SchemasPresent(Some(ps + [p])) && SchemasPresent(Some(ps))
    requires p.location == "query"
    requires QueryParameters(ps + [p]) == QueryParameters(ps) + [p]
    ensures p.schema.Some? &&
      QueryString(Some(ps + [p])) ==
        (if QueryString(Some(ps)) == "" then UrlPair(p) else QueryString(Some(ps)) + "&" + UrlPair(p))
  {
    var qs := QueryParameters(ps);
    assert p in ps + [p];
    QueryParametersHaveSchemas(Some(ps));
    var pairs := UrlPairs(qs);
    assert QueryString(Some(ps)) == Join(pairs, "&");
    assert QueryString(Some(ps + [p])) == Join(pairs + [UrlPair(p)], "&") by {
      QueryParametersHaveSchemas(Some(ps + [p]));
      UrlPairsSnoc(qs, p);
    }
    assert QueryString(Some(ps)) == "" <==> pairs == [] by {
      QueryEmpty(Some(ps));
    }
    JoinAppend(pairs, UrlPair(p), "&");
  }

  /** One more query parameter adds its pair at the end. */
  lemma UrlPairsSnoc(qs: seq<Parameter>, p: Parameter)
    requires AllHaveSchemas(qs + [p])
    ensures AllHaveSchemas(qs) && p.schema.Some?
    ensures UrlPairs(qs + [p]) == UrlPairs(qs) + [UrlPair(p)]
  {
    assert forall i :: 0 <= i < |qs| ==> (qs + [p])[i] == qs[i];
    assert (qs + [p])[|qs|] == p;
  }

  /** `queryParams ? `${url}?${queryParams}` : url`. */
  function FullUrl(path: string, query: string): string {
    if query == "" then Url(path) else Url(path) + "?" + query
  }

  /** The full URL extends the plain one, by `?` and the query exactly when
      the query is non-empty. */
  lemma FullUrlShape(path: string, query: string)
    ensures StartsWith(FullUrl(path, query), Url(path))
    ensures FullUrl(path, query) == Url(path) <==> query == ""
    ensures query != "" ==> FullUrl(path, query)[|Url(path)|..] == "?" + query
  {
  }

  // ---------------------------------------------------------------- JavaScript

  const ThenChain := ")\n  .then(response => response.json())\n  .then(data => console.log(data))\n  .catch(error => console.error('Error:', error));"
  const ContentTypeHeader := "'Content-Type': 'application/json'"
  const ApiKeyHeader := ",\n    'X-API-Key': 'YOUR_API_KEY'"
  const BodyField := ",\n  body: JSON.stringify({\n    // Add request body here\n  })"

  /** The opening of the options object of a non-GET `fetch`. */
  function FetchOptionsHead(verb: string): string {
    ", {\n  method: '" + ToUpper(verb) + "',\n  headers: {\n    " + ContentTypeHeader
  }

  /** The options object of a non-GET `fetch`; the API key header and the body
      placeholder depend on a request body. */
  function FetchOptions(verb: string, hasBody: bool): string {
    FetchOptionsHead(verb) + (if hasBody then ApiKeyHeader else "") + "\n  }" + (if hasBody then BodyField else "") + "\n}"
  }

  /** `generateJavaScriptCode`. The method is compared with `'get'` exactly,
      so only a lower-case `get` omits the options object. */
  function JavaScriptCode(verb: string, path: string, parameters: Option<seq<Parameter>>, requestBody: Option<RequestBody>): string
    requires SchemasPresent(parameters)
  {
    "fetch('" + FullUrl(path, QueryString(parameters)) + "'"
    + (if verb != "get" then FetchOptions(verb, requestBody.Some?) else "")
    + ThenChain
  }

  /** A GET is the bare call plus the promise chain, whatever the request body. */
  lemma JavaScriptGet(path: string, parameters: Option<seq<Parameter>>, b1: Option<RequestBody>, b2: Option<RequestBody>)
    requires SchemasPresent(parameters)
    ensures JavaScriptCode("get", path, parameters, b1) == "fetch('" + FullUrl(path, QueryString(parameters)) + "'" + ThenChain
    ensures JavaScriptCode("get", path, parameters, b1) == JavaScriptCode("get", path, parameters, b2)
  {
    var call := "fetch('" + FullUrl(path, QueryString(parameters)) + "'";
    assert call + "" == call;
  }

  /** Any other method opens an options object with the upper-cased method and
      a Content-Type header; the API key header follows that header, and the
      body placeholder closes the object, exactly when there is a request body. */
  lemma FetchOptionsShape(verb: string, hasBody: bool)
    ensures var options := FetchOptions(verb, hasBody);
      var head := FetchOptionsHead(verb);
      StartsWith(options, head) &&
      (StartsWith(options[|head|..], ApiKeyHeader) <==> hasBody) &&
      (EndsWith(options, BodyField + "\n}") <==> hasBody)
  {
    var head := FetchOptionsHead(verb);
    var key := if hasBody then ApiKeyHeader else "";
    var body := if hasBody then BodyField else "";
    var options := FetchOptions(verb, hasBody);
    var front := head + key + "\n  }";
    StartsWithGrow(head + key, head + key, "\n  }");
    StartsWithGrow(front, head + key, body);
    StartsWithGrow(front + body, head + key, "\n}");
    StartsWithTrans(options, head + key, head);
    EndsWithLastParts(front, body, "", "\n}");
    if hasBody {
      StartsWithDrop(options, head, ApiKeyHeader);
    } else {
      StartsWithGrow(head, head, "");
      StartsWithGrow(head, head, "\n  }");
      StartsWithTrans(options, head + key + "\n  }", head + "\n");
      assert options[|head|..][0] == '\n';
      CharFromEnd(head + key, "\n  }", 1);
      assert options[|options| - 3] == '}';
      if EndsWith(options, BodyField + "\n}") {
        EndsWithCharBefore(options, BodyField, "\n}");
        assert false;
      }
    }
  }

  /** Without a request body the options object closes right after the
      Content-Type header, and it is still longer than the body placeholder. */
  lemma FetchOptionsNoBody(verb: string)
    ensures FetchOptions(verb, false) == FetchOptionsHead(verb) + "\n  }\n}"
    ensures |FetchOptions(verb, false)| >= |BodyField + "\n}"|
  {
    var head := FetchOptionsHead(verb);
    assert FetchOptions(verb, false) == head + "" + "\n  }" + "" + "\n}";
  }

  /** Text put after a string keeps its prefixes, decides whether a key
      follows the prefix, and moves its suffixes to the new end. */
  lemma AppendKeepsShape(s: string, t: string, head: string, key: string, suffix: string)
    requires StartsWith(s, head) && |s| > |head| && key != []
    ensures StartsWith(s + t, head) && EndsWith(s + t, t)
    ensures StartsWith(s[|head|..], key) ==> StartsWith((s + t)[|head|..], key)
    ensures s[|head|] != key[0] ==> !StartsWith((s + t)[|head|..], key)
    ensures EndsWith(s + t, suffix + t) <==> EndsWith(s, suffix)
  {
    StartsWithGrow(s, head, t);
    ConcatEnds(s, t);
    EndsWithAppend(s, suffix, t);
    assert (s + t)[|head|..] == s[|head|..] + t;
    if StartsWith(s[|head|..], key) {
      StartsWithGrow(s[|head|..], key, t);
    }
  }

  /** The options object followed by the promise chain keeps the shape the
      options object alone has, and is longer than the body placeholder and
      the chain together. */
  lemma FetchTailShape(verb: string, hasBody: bool)
    ensures var rest := FetchOptions(verb, hasBody) + ThenChain;
      var head := FetchOptionsHead(verb);
      StartsWith(rest, head) && EndsWith(rest, ThenChain) &&
      (StartsWith(rest[|head|..], ApiKeyHeader) <==> hasBody) &&
      (EndsWith(rest, BodyField + "\n}" + ThenChain) <==> hasBody) &&
      |BodyField + "\n}" + ThenChain| <= |rest|
  {
    var options := FetchOptions(verb, hasBody);
    var head := FetchOptionsHead(verb);
    FetchOptionsShape(verb, hasBody);
    if !hasBody {
      FetchOptionsNoBody(verb);
      assert options[|head|] == '\n';
    }
    assert ApiKeyHeader[0] == ',';
    AppendKeepsShape(options, ThenChain, head, ApiKeyHeader, BodyField + "\n}");
  }

  /** Text put in front keeps a prefix in front, and a suffix no longer than
      what follows it at the end. */
  lemma PrependKeepsShape(call: string, rest: string, head: string, key: string, suffix: string)
    requires StartsWith(rest, head) && |suffix| <= |rest|
    ensures StartsWith(call + rest, call + head)
    ensures StartsWith((call + rest)[|call + head|..], key) <==> StartsWith(rest[|head|..], key)
    ensures EndsWith(call + rest, suffix) <==> EndsWith(rest, suffix)
  {
    StartsWithPrepend(call, rest, head);
    EndsWithPrepend(call, rest, suffix);
    assert (call + rest)[|call + head|..] == rest[|head|..];
  }

  /** A `fetch` of any URL with the options object of a method keeps the shape
      of that options object. */
  lemma FetchCallShape(url: string, verb: string, hasBody: bool)
    ensures var code := "fetch('" + url + "'" + FetchOptions(verb, hasBody) + ThenChain;
      var head := "fetch('" + url + "'" + FetchOptionsHead(verb);
      StartsWith(code, head) && EndsWith(code, ThenChain) &&
      (StartsWith(code[|head|..], ApiKeyHeader) <==> hasBody) &&
      (EndsWith(code, BodyField + "\n}" + ThenChain) <==> hasBody)
  {
    var call := "fetch('" + url + "'";
    var rest := FetchOptions(verb, hasBody) + ThenChain;
    assert call + FetchOptions(verb, hasBody) + ThenChain == call + rest;
    FetchTailShape(verb, hasBody);
    EndsWithPrepend(call, rest, ThenChain);
    PrependKeepsShape(call, rest, FetchOptionsHead(verb), ApiKeyHeader, BodyField + "\n}" + ThenChain);
  }

  /** For a method other than `get`, the sample is `fetch(url` with the options
      object, then the promise chain: it opens the options with the
      upper-cased method and the Content-Type header, and it carries the API
      key header right after them, and the body placeholder right before the
      chain, exactly when the operation has a request body. */
  lemma JavaScriptOptions(verb: string, path: string, parameters: Option<seq<Parameter>>, requestBody: Option<RequestBody>)
    requires SchemasPresent(parameters) && verb != "get"
    ensures JavaScriptCode(verb, path, parameters, requestBody) ==
      "fetch('" + FullUrl(path, QueryString(parameters)) + "'" + FetchOptions(verb, requestBody.Some?) + ThenChain
    ensures var code := JavaScriptCode(verb, path, parameters, requestBody);
      var head := "fetch('" + FullUrl(path, QueryString(parameters)) + "'" + FetchOptionsHead(verb);
      StartsWith(code, head) && EndsWith(code, ThenChain) &&
      (StartsWith(code[|head|..], ApiKeyHeader) <==> requestBody.Some?) &&
      (EndsWith(code, BodyField + "\n}" + ThenChain) <==> requestBody.Some?)
  {
    FetchCallShape(FullUrl(path, QueryString(parameters)), verb, requestBody.Some?);
  }

  // ---------------------------------------------------------------- Python

  const PrintTail := ")\nprint(response.json())"
  const ParamsArgument := ", params=params"
  const BodyArguments := ", headers=headers, json=data"

  /** The lines of the Python sample before the call: the import, the URL
      (never carrying the query, which is passed as `params`), and the
      optional `params`, `headers` and `data` lines, each slot a line even when
      empty. */
  function PythonPrelude(path: string, query: string, hasBody: bool): string {
    "import requests\n\nurl = '" + Url(path) + "'\n"
    + (if query != "" then "params = {" + query + "}" else "") + "\n"
    + (if hasBody then "headers = {'X-API-Key': 'YOUR_API_KEY'}" else "") + "\n"
    + (if hasBody then "\ndata = {\n    # Add request body here\n}" else "") + "\n\n"
  }

  /** The `requests` call, with the method as given (not upper-cased). */
  function PythonCallLine(verb: string, hasQuery: bool, hasBody: bool): string {
    "response = requests." + verb + "(url"
    + (if hasQuery then ParamsArgument else "")
    + (if hasBody then BodyArguments else "")
    + PrintTail
  }

  /** `generatePythonCode`. */
  function PythonCode(verb: string, path: string, parameters: Option<seq<Parameter>>, requestBody: Option<RequestBody>): string
    requires SchemasPresent(parameters)
  {
    var query := PythonQuery(parameters);
    PythonPrelude(path, query, requestBody.Some?) + PythonCallLine(verb, query != "", requestBody.Some?)
  }

  /** The call passes `params=params` exactly when there is a query, and
      `headers=headers, json=data` exactly when there is a request body. */
  lemma PythonCallArguments(verb: string, hasQuery: bool, hasBody: bool)
    ensures var line := PythonCallLine(verb, hasQuery, hasBody);
      (EndsWith(line, BodyArguments + PrintTail) <==> hasBody) &&
      (EndsWith(line, ParamsArgument + (if hasBody then BodyArguments else "") + PrintTail) <==> hasQuery)
  {
    var c := "response = requests." + verb + "(url";
    var a1 := if hasQuery then ParamsArgument else "";
    var a2 := if hasBody then BodyArguments else "";
    var line := PythonCallLine(verb, hasQuery, hasBody);
    EndsWithLastParts(c + a1, a2, "", PrintTail);
    EndsWithLastParts(c, a1, a2, PrintTail);
    CharFromEnd("response = requests." + verb, "(url", 1);
    if hasQuery {
      CharFromEnd(c, ParamsArgument, 1);
    }
    if !hasBody {
      assert line[|line| - |PrintTail| - 1] == (if hasQuery then 's' else 'l');
      if EndsWith(line, BodyArguments + PrintTail) {
        EndsWithCharBefore(line, BodyArguments, PrintTail);
        assert false;
      }
    }
    if !hasQuery {
      var t := a2 + PrintTail;
      assert line[|line| - |t| - 1] == 'l';
      if EndsWith(line, ParamsArgument + t) {
        EndsWithCharBefore(line, ParamsArgument, t);
        assert false;
      }
    }
  }

  /** The sample opens with the import and the URL line and ends with its
      call line. */
  lemma PythonCodeShape(verb: string, path: string, parameters: Option<seq<Parameter>>, requestBody: Option<RequestBody>)
    requires SchemasPresent(parameters)
    ensures var query := PythonQuery(parameters);
      var code := PythonCode(verb, path, parameters, requestBody);
      EndsWith(code, PythonCallLine(verb, query != "", requestBody.Some?)) &&
      StartsWith(code, "import requests\n\nurl = '" + Url(path) + "'\n")
  {
    var query := PythonQuery(parameters);
    var hasBody := requestBody.Some?;
    var pre := PythonPrelude(path, query, hasBody);
    var line := PythonCallLine(verb, query != "", hasBody);
    ConcatEnds(pre, line);
    var first := "import requests\n\nurl = '" + Url(path) + "'\n";
    var p1 := if query != "" then "params = {" + query + "}" else "";
    var p2 := if hasBody then "headers = {'X-API-Key': 'YOUR_API_KEY'}" else "";
    var p3 := if hasBody then "\ndata = {\n    # Add request body here\n}" else "";
    StartsWithGrow(first, first, p1);
    StartsWithGrow(first + p1, first, "\n");
    StartsWithGrow(first + p1 + "\n", first, p2);
    StartsWithGrow(first + p1 + "\n" + p2, first, "\n");
    StartsWithGrow(first + p1 + "\n" + p2 + "\n", first, p3);
    StartsWithGrow(first + p1 + "\n" + p2 + "\n" + p3, first, "\n\n");
    StartsWithGrow(pre, first, line);
  }

  // ---------------------------------------------------------------- curl

  const CurlBodyFlags := " \\\n  -H 'Content-Type: application/json' \\\n  -H 'X-API-Key: YOUR_API_KEY' \\\n  -d '{\n    // Add request body here\n  }'"

  /** `generateCurlCode`. */
  function CurlCode(verb: string, path: string, parameters: Option<seq<Parameter>>, requestBody: Option<RequestBody>): string
    requires SchemasPresent(parameters)
  {
    "curl -X " + ToUpper(verb) + " '" + FullUrl(path, QueryString(parameters)) + "'"
    + (if requestBody.Some? then CurlBodyFlags else "")
  }

  /** Without a body the command is the one `curl -X` line; a body appends the
      two headers and the `-d` placeholder to that same line. */
  lemma CurlBody(verb: string, path: string, parameters: Option<seq<Parameter>>, b: RequestBody)
    requires SchemasPresent(parameters)
    ensures CurlCode(verb, path, parameters, None) == "curl -X " + ToUpper(verb) + " '" + FullUrl(path, QueryString(parameters)) + "'"
    ensures CurlCode(verb, path, parameters, Some(b)) == CurlCode(verb, path, parameters, None) + CurlBodyFlags
  {
  }

  /** Without a body the command is a single line whenever its parts are. */
  lemma CurlSingleLine(verb: string, path: string, parameters: Option<seq<Parameter>>)
    requires SchemasPresent(parameters)
    requires '\n' !in verb && '\n' !in path && '\n' !in QueryString(parameters)
    ensures '\n' !in CurlCode(verb, path, parameters, None)
  {
    var url := FullUrl(path, QueryString(parameters));
    UpperSingleLine(verb);
    UrlSingleLine(path, QueryString(parameters));
    LineSingle("curl -X " + ToUpper(verb) + " '", url + "'");
    assert CurlCode(verb, path, parameters, None) == "curl -X " + ToUpper(verb) + " '" + (url + "'") + "";
  }

  lemma UpperSingleLine(verb: string)
    requires '\n' !in verb
    ensures '\n' !in "curl -X " + ToUpper(verb) + " '"
  {
    var upper := ToUpper(verb);
    assert forall i :: 0 <= i < |upper| ==> upper[i] == UpperChar(verb[i]);
    assert '\n' !in "curl -X " && '\n' !in " '";
  }

  lemma UrlSingleLine(path: string, query: string)
    requires '\n' !in path && '\n' !in query
    ensures '\n' !in FullUrl(path, query) + "'"
  {
    assert '\n' !in BaseUrl;
    assert '\n' !in "?" && '\n' !in "'";
  }

  lemma LineSingle(a: string, b: string)
    requires '\n' !in a && '\n' !in b
    ensures '\n' !in a + b + ""
  {
    assert a + b + "" == a + b;
  }

  /** The JavaScript sample starts its request at `fetch('` and the path. */
  lemma JavaScriptUrlLead(verb: string, path: string, parameters: Option<seq<Parameter>>, requestBody: Option<RequestBody>)
    requires SchemasPresent(parameters)
    ensures StartsWith(JavaScriptCode(verb, path, parameters, requestBody), "fetch('" + Url(path))
  {
    var full := FullUrl(path, QueryString(parameters));
    FullUrlShape(path, QueryString(parameters));
    var js := "fetch('" + full;
    var options := if verb != "get" then FetchOptions(verb, requestBody.Some?) else "";
    StartsWithPrepend("fetch('", full, Url(path));
    StartsWithGrow(js, "fetch('" + Url(path), "'");
    StartsWithGrow(js + "'", "fetch('" + Url(path), options);
    StartsWithGrow(js + "'" + options, "fetch('" + Url(path), ThenChain);
  }

  /** The Python sample sets `url` to the fixed prefix and the path. */
  lemma PythonUrlLead(verb: string, path: string, parameters: Option<seq<Parameter>>, requestBody: Option<RequestBody>)
    requires SchemasPresent(parameters)
    ensures StartsWith(PythonCode(verb, path, parameters, requestBody), "import requests\n\nurl = '" + Url(path))
  {
    PythonCodeShape(verb, path, parameters, requestBody);
    var pyHead := "import requests\n\nurl = '" + Url(path);
    StartsWithGrow(pyHead, pyHead, "'\n");
    StartsWithTrans(PythonCode(verb, path, parameters, requestBody), pyHead + "'\n", pyHead);
  }

  /** The curl sample names the upper-cased method, then the fixed prefix and
      the path. */
  lemma CurlUrlLead(verb: string, path: string, parameters: Option<seq<Parameter>>, requestBody: Option<RequestBody>)
    requires SchemasPresent(parameters)
    ensures StartsWith(CurlCode(verb, path, parameters, requestBody), "curl -X " + ToUpper(verb) + " '" + Url(path))
  {
    var full := FullUrl(path, QueryString(parameters));
    FullUrlShape(path, QueryString(parameters));
    var curlHead := "curl -X " + ToUpper(verb) + " '";
    var flags := if requestBody.Some? then CurlBodyFlags else "";
    StartsWithPrepend(curlHead, full, Url(path));
    StartsWithGrow(curlHead + full, curlHead + Url(path), "'");
    StartsWithGrow(curlHead + full + "'", curlHead + Url(path), flags);
  }

  // ---------------------------------------------------------------- the pane

  /** What the pane shows for one endpoint. */
  datatype UsageSample = UsageSample(
    key: string,
    heading: string,
    signature: string,
    javaScript: string,
    python: string,
    curl: string)

  /** The pane stops rendering at the first endpoint whose query parameter has
      no schema (the unguarded `p.schema.default`). */
  datatype UsageError = MissingQuerySchema(key: string)

  function Sample(e: Endpoint): UsageSample
    requires SchemasPresent(e.op.parameters)
  {
    var op := e.op;
    UsageSample(
      EndpointId(e.verb, e.path),
      op.summary.GetOr(""),
      ToUpper(e.verb) + " " + e.path,
      JavaScriptCode(e.verb, e.path, op.parameters, op.requestBody),
      PythonCode(e.verb, e.path, op.parameters, op.requestBody),
      CurlCode(e.verb, e.path, op.parameters, op.requestBody))
  }

  function Samples(es: seq<Endpoint>): Result<seq<UsageSample>, UsageError>
    decreases |es|
  {
    if es == [] then Success([])
    else if !SchemasPresent(es[0].op.parameters) then Failure(MissingQuerySchema(EndpointId(es[0].verb, es[0].path)))
    else
      match Samples(es[1..])
      case Failure(e) => Failure(e)
      case Success(rest) => Success([Sample(es[0])] + rest)
  }

  /** `ApiUsage`: one sample per endpoint, in document order. */
  function ApiUsagePane(doc: Document): Result<seq<UsageSample>, UsageError> {
    Samples(Endpoints(doc.paths))
  }

  /** The pane renders iff every endpoint's query parameters have schemas, and
      then shows exactly one sample per endpoint, in the endpoints' order,
      keyed by the endpoint id. */
  lemma SamplesFollowEndpoints(es: seq<Endpoint>)
    ensures Samples(es).Success? <==> forall i :: 0 <= i < |es| ==> SchemasPresent(es[i].op.parameters)
    ensures Samples(es).Success? ==>
      |Samples(es).value| == |es| &&
      forall i :: 0 <= i < |es| ==>
        SchemasPresent(es[i].op.parameters) &&
        Samples(es).value[i] == Sample(es[i]) &&
        Samples(es).value[i].key == EndpointId(es[i].verb, es[i].path)
  {
    SamplesInOrder(es);
  }

  /** The samples succeed exactly when every endpoint's query parameters have
      schemas. */
  lemma {:induction false} SamplesSucceed(es: seq<Endpoint>)
    ensures Samples(es).Success? <==> forall i :: 0 <= i < |es| ==> SchemasPresent(es[i].op.parameters)
    decreases |es|
  {
    if es != [] {
      var tail := es[1..];
      SamplesSucceed(tail);
      assert forall i :: 0 <= i < |tail| ==> tail[i] == es[i + 1];
      if SchemasPresent(es[0].op.parameters) && !Samples(tail).Success? {
        var j :| 0 <= j < |tail| && !SchemasPresent(tail[j].op.parameters);
        assert !SchemasPresent(es[j + 1].op.parameters);
      }
    }
  }

  /** The induction behind `SamplesFollowEndpoints`, without the keys. */
  lemma {:induction false} SamplesInOrder(es: seq<Endpoint>)
    ensures Samples(es).Success? <==> forall i :: 0 <= i < |es| ==> SchemasPresent(es[i].op.parameters)
    ensures Samples(es).Success? ==>
      |Samples(es).value| == |es| &&
      forall i :: 0 <= i < |es| ==> SchemasPresent(es[i].op.parameters) && Samples(es).value[i] == Sample(es[i])
    decreases |es|
  {
    SamplesSucceed(es);
    if es != [] && Samples(es).Success? {
      var tail := es[1..];
      SamplesInOrder(tail);
      var rest := Samples(tail).value;
      var head := Sample(es[0]);
      assert Samples(es).value == [head] + rest;
      forall i | 0 <= i < |es|
        ensures Samples(es).value[i] == Sample(es[i])
      {
        if i > 0 {
          assert es[i] == tail[i - 1];
          assert Samples(es).value[i] == rest[i - 1];
        }
      }
    }
  }

  /** The curl scenario of a plain GET: one line, no header or body flags. */
  lemma CurlPlanetsExample()
    ensures CurlCode("get", "/planets", Some([]), None) == "curl -X GET '" + Url("/planets") + "'"
  {
    var upper := ToUpper("get");
    assert upper == "GET" by {
      assert upper[0] == 'G' && upper[1] == 'E' && upper[2] == 'T';
    }
    assert QueryString(Some([])) == "" by {
      assert QueryParameters([]) == [];
      assert UrlPairs([]) == [];
    }
    CurlBody("get", "/planets", Some([]), RequestBody(None));
    assert "curl -X " + upper + " '" == "curl -X GET '";
  }

  /** The query parameter `limit` with default 10. */
  const Limit := Parameter("limit", "query", None, None, Some(Schema(None, None, None, Some(Int(10)))))

  lemma LimitShown()
    ensures QueryParameters([Limit]) == [Limit]
    ensures Display(Int(10)) == "10"
  {
    assert QueryParameters([Limit]) == [Limit] + QueryParameters([]);
    assert NatToString(10) == "10" by {
      assert NatToString(1) == "1";
      assert NatToString(0) == "0";
    }
  }

  /** `limit` with default 10 becomes the query string `limit=10`. */
  lemma LimitQueryExample()
    ensures QueryString(Some([Limit])) == "limit=10"
  {
    LimitShown();
    assert UrlPair(Limit) == "limit=10";
    assert UrlPairs([Limit]) == ["limit=10"];
  }

  /** ... and so `?limit=10` at the end of the URL. */
  lemma LimitUrlExample()
    ensures FullUrl("/planets", QueryString(Some([Limit]))) == "http://api.example.com/v1/planets?limit=10"
  {
    LimitQueryExample();
    assert Url("/planets") == "http://api.example.com/v1/planets";
  }

  /** `limit` with default 10 becomes `'limit': 10` in the Python dictionary. */
  lemma LimitPythonExample()
    ensures PythonQuery(Some([Limit])) == "'limit': 10"
  {
    LimitShown();
    assert PythonPair(Limit) == "'limit': 10";
    assert PythonPairs([Limit]) == ["'limit': 10"];
  }
}
