# apidocs, modelled in Dafny

apidocs turns a code repository into API documentation. The backend scans a
repository's source files, recognises the web framework of each file by a
signature pattern, and extracts its routes with per-framework regular
expressions. It writes each route into an OpenAPI 3.0-style document as
`paths[path][method]`, and runs two analyzers over that document: a
performance pass and a security pass. Each pass appends findings in loops. The
frontend renders a document in three ways:

- the Documentation pane: one section per endpoint, plus an Authentication
  section;
- the API Usage pane: fetch, Python `requests` and curl samples per endpoint;
- the Sidebar: a per-path expand/collapse list of endpoints.

The project models this core:

| module | file | models |
|---|---|---|
| `Wrappers` | `wrappers.dfy` | `Option` and `Result` |
| `Text` | `text.dfy` | the string operations the core uses: split and join, the last path segment, `replace`, ASCII case mapping, decimal rendering, prefix and suffix |
| `OrderedMap` | `ordered_map.dfy` | Python dicts and JavaScript objects as sequences of (key, value) pairs in insertion order (for JavaScript, see the line on integer-like keys under "Left out") |
| `OpenApi` | `openapi.dfy` | the document, the `paths` × methods walk every pass shares, endpoint ids, and writing one operation |
| `ApiUsage` | `api_usage.dfy` | `apiUsage.jsx` |
| `Documentation` | `documentation.dfy` | `documentation.jsx` |
| `Sidebar` | `sidebar.dfy` | `sidebar.jsx` |
| `PerformanceAnalyzer` | `performance_analyzer.dfy` | `performance_analyzer.py` |
| `SecurityAnalyzer` | `security_analyzer.dfy` | `security_analyzer.py` |
| `IdentifyApis` | `identify_apis.dfy` | `identify_apis.py`, with a small matcher for the seven framework patterns and the five route expressions |
| `AnalyzeRepo` | `analyze_repo.dfy` | `analyze_repo.py`'s `CodebaseAnalyzer`, as a class whose `apiSpec` field its methods update |

The two analyzers are written as loops, as in the source:

- each is a `method` whose `ensures` ties its output to a specification
  function over the endpoint walk (`Findings`, `Issues`);
- the lemmas beside those functions state what the source promises (counts,
  iff-conditions, order).

The frontend files are pure:

- each is modelled by functions;
- a crash of the component (a property read on `undefined`) becomes the
  `Failure` case of a `Result`;
- optional JSON fields are `Option`s, so "missing counts as empty" is proved
  rather than assumed.

Three behaviours of the code are easy to misread; the model follows the code:

- The route for a Flask file is read with `@app.route\(['"](.+?)['"]\)`. A
  decorator with `methods=[...]` after the path therefore yields no route, and
  the model does the same.
- `getMethodColor` and `toUpperCase` are modelled on ASCII letters only.
  `\s` is Python's whitespace for `str` patterns, which includes the
  separators `\x1c`-`\x1f`, `\x85`, `\xa0` and the Unicode spaces.
- In `documentation.jsx` the default is written `param.schema.default && <span>`.
  For a default of `0` this renders the text `0`, not nothing (`DefaultText`).
  The other falsy defaults render nothing.

## Model

| member | source | states |
|---|---|---|
| OpenApi.EndpointsSplit | frontend/src/pages/DocsPage/apiUsage.jsx:70-71 | The walk over the paths (paths in order, methods in order within each path) splits at any path index into the walk over the first part followed by the walk over the rest |
| OpenApi.EndpointsOfPath | frontend/src/pages/DocsPage/apiUsage.jsx:70-71 | Each path's methods appear in the walk as one consecutive block, and position j of the block is the path's j-th method |
| OpenApi.EndpointsCount | backend/app/performance_analyzer.py:8-9 | The walk visits exactly as many endpoints as there are methods over all paths |
| OpenApi.EndpointIdInjective | frontend/src/pages/DocsPage/sidebar.jsx:7 | For methods without a hyphen, the id `method-path` determines both the method and the path |
| OpenApi.PutOperationAt | backend/app/analyze_repo.py:168 | `paths.setdefault(path, {})[method] = op` makes `op` the operation at (path, method), overwriting an earlier one, and leaves every other pair as it was |
| OpenApi.PutOperationKeys | backend/app/analyze_repo.py:168 | The path is appended to the key order only when it is new, and keys stay unique |
| ApiUsage.QueryParameters | frontend/src/pages/DocsPage/apiUsage.jsx:6 | The filtered list holds exactly the parameters with `in == "query"` |
| ApiUsage.QueryParametersAppend | frontend/src/pages/DocsPage/apiUsage.jsx:6 | Filtering keeps declaration order: it distributes over concatenation |
| ApiUsage.QueryValuePlaceholder | frontend/src/pages/DocsPage/apiUsage.jsx:6 | A query value is the schema default when it is truthy; otherwise it is the placeholder, so 0, "", false and null become the placeholder |
| ApiUsage.QueryParametersHaveSchemas | frontend/src/pages/DocsPage/apiUsage.jsx:6 | When every query parameter carries a schema, the filtered list does too, so `p.schema.default` is defined for each |
| ApiUsage.UrlPairs | frontend/src/pages/DocsPage/apiUsage.jsx:6 | One `name=value` pair per query parameter |
| ApiUsage.PythonPairs | frontend/src/pages/DocsPage/apiUsage.jsx:31 | One `'name': value` pair per query parameter |
| ApiUsage.QueryEmpty | frontend/src/pages/DocsPage/apiUsage.jsx:6-7 | The JS/curl query string and the Python params text are empty iff parameters are absent or none is in the query |
| ApiUsage.QueryStringAppend | frontend/src/pages/DocsPage/apiUsage.jsx:6 | One more parameter adds `&name=value` (just `name=value` when the string was empty) if it is in the query, and nothing otherwise |
| ApiUsage.QueryStringAppendQuery | frontend/src/pages/DocsPage/apiUsage.jsx:6 | For a query parameter appended last, the query string grows by its pair after `&`, or becomes that pair when it was empty |
| ApiUsage.UrlPairsSnoc | frontend/src/pages/DocsPage/apiUsage.jsx:6 | The pairs of a list with one more parameter are the old pairs plus its pair |
| ApiUsage.FullUrlShape | frontend/src/pages/DocsPage/apiUsage.jsx:5-7 | The full URL starts with `http://api.example.com/v1` + path; it equals that URL iff the query is empty, and otherwise continues with `?` + query |
| ApiUsage.JavaScriptGet | frontend/src/pages/DocsPage/apiUsage.jsx:9-24 | For `get`: `fetch('<fullUrl>'` then the then/then/catch chain, with no options object, whatever the request body |
| ApiUsage.FetchOptionsShape | frontend/src/pages/DocsPage/apiUsage.jsx:10-19 | The options start with the upper-cased method and the Content-Type header; the X-API-Key header follows, and the body placeholder ends the object, iff a body exists |
| ApiUsage.FetchOptionsNoBody | frontend/src/pages/DocsPage/apiUsage.jsx:10-19 | Without a request body the options object closes right after the Content-Type header |
| ApiUsage.JavaScriptOptions | frontend/src/pages/DocsPage/apiUsage.jsx:9-24 | For any method other than `get` the whole sample starts with `fetch('<fullUrl>'` and the options head (upper-cased method, Content-Type header) and ends with the then/then/catch chain; the X-API-Key header comes right after the head, and the body placeholder right before the chain, iff the operation has a request body |
| ApiUsage.PythonCallArguments | frontend/src/pages/DocsPage/apiUsage.jsx:43 | The call line ends with `, headers=headers, json=data` iff a body exists, and has `, params=params` before it iff the query is non-empty |
| ApiUsage.PythonCodeShape | frontend/src/pages/DocsPage/apiUsage.jsx:33-44 | The Python sample begins with the import and `url = '<url>'`, and ends with `requests.<method>(url…)` with the method unchanged |
| ApiUsage.CurlBody | frontend/src/pages/DocsPage/apiUsage.jsx:54-59 | Without a body, curl is exactly `curl -X <UPPER(method)> '<fullUrl>'`; with a body, the header and `-d` lines are appended to it |
| ApiUsage.CurlSingleLine | frontend/src/pages/DocsPage/apiUsage.jsx:54 | Without a body the curl command is a single line, given a method, path and query without line breaks |
| ApiUsage.JavaScriptUrlLead | frontend/src/pages/DocsPage/apiUsage.jsx:5-9 | The fetch sample opens with the fixed prefix and the path verbatim |
| ApiUsage.PythonUrlLead | frontend/src/pages/DocsPage/apiUsage.jsx:30-35 | The Python sample's URL is the fixed prefix and the path verbatim |
| ApiUsage.CurlUrlLead | frontend/src/pages/DocsPage/apiUsage.jsx:50-54 | The curl sample's URL is the fixed prefix and the path verbatim |
| ApiUsage.SamplesFollowEndpoints | frontend/src/pages/DocsPage/apiUsage.jsx:70-102 | The pane renders iff every endpoint's query parameters have schemas; it then shows one sample per endpoint in walk order, keyed `method-path` |
| ApiUsage.SamplesSucceed | frontend/src/pages/DocsPage/apiUsage.jsx:70-72 | The pane renders iff no endpoint has a query parameter without a schema |
| ApiUsage.SamplesInOrder | frontend/src/pages/DocsPage/apiUsage.jsx:70-72 | The samples follow the endpoints index by index |
| ApiUsage.CurlPlanetsExample | frontend/src/pages/DocsPage/apiUsage.jsx:54 | `GET /planets` with no parameters gives `curl -X GET 'http://api.example.com/v1/planets'` |
| ApiUsage.LimitShown | frontend/src/pages/DocsPage/apiUsage.jsx:6 | A `limit` query parameter with default 10 is kept and its default shows as `10` |
| ApiUsage.LimitQueryExample | frontend/src/pages/DocsPage/apiUsage.jsx:6 | Its query string is `limit=10` |
| ApiUsage.LimitUrlExample | frontend/src/pages/DocsPage/apiUsage.jsx:7 | `/planets` with it gives `http://api.example.com/v1/planets?limit=10` |
| ApiUsage.LimitPythonExample | frontend/src/pages/DocsPage/apiUsage.jsx:31 | Its Python params text is `'limit': 10` |
| Documentation.ResolveIgnoresPrefix | frontend/src/pages/DocsPage/documentation.jsx:63 | Only the text after the last `/` of `$ref` matters; resolution succeeds iff that name is a schema with properties |
| Documentation.ResolveDeclared | frontend/src/pages/DocsPage/documentation.jsx:37-63 | A reference to a declared schema resolves to exactly its property names, in order |
| Documentation.ParameterLineParts | frontend/src/pages/DocsPage/documentation.jsx:20-27 | A parameter item begins with `name (in, required/optional):` and the description, where "required" appears iff `required` is true; the enum part is present iff the schema has `enum`; the default part is empty iff the default is absent, or falsy and not 0 |
| Documentation.SectionLength | frontend/src/pages/DocsPage/documentation.jsx:6-39 | A section has the summary heading, `METHOD path` and the description first, and is 3 + note + (1 + n parameters if any) + (2 if a body) blocks long |
| Documentation.SectionNote | frontend/src/pages/DocsPage/documentation.jsx:10-12 | The authentication note appears iff `security` is present and non-empty |
| Documentation.SectionParameters | frontend/src/pages/DocsPage/documentation.jsx:14-21 | With parameters, the Parameters heading is followed by one item per parameter in declaration order |
| Documentation.SectionRequestBody | frontend/src/pages/DocsPage/documentation.jsx:34-39 | The Request Body heading appears iff a body is shown; the body line lists its property names joined by `, ` |
| Documentation.Sections | frontend/src/pages/DocsPage/documentation.jsx:52-70 | The sections render iff every request body resolves, and then there is one section per endpoint, in walk order |
| Documentation.SchemeBlocks | frontend/src/pages/DocsPage/documentation.jsx:75-80 | Two paragraphs per security scheme, in order, with its type, name and location |
| Documentation.Authentication | frontend/src/pages/DocsPage/documentation.jsx:72-82 | The Authentication section appears iff `securitySchemes` is present, and then is its heading followed by two paragraphs per scheme |
| Documentation.FormattedDocsSections | frontend/src/pages/DocsPage/documentation.jsx:47-70 | The view renders iff every body resolves; the title is `<title> Documentation`, and there is one section per endpoint in walk order, showing `METHOD path` and its resolved body |
| Sidebar.MethodColor | frontend/src/pages/DocsPage/sidebar.jsx:16-25 | The colour is always one of the six classes |
| Sidebar.MethodColorCaseInsensitive | frontend/src/pages/DocsPage/sidebar.jsx:16-25 | The colour ignores case, and it is gray iff the lower-cased method is none of get, post, put, patch, delete |
| Sidebar.MethodColorExamples | frontend/src/pages/DocsPage/sidebar.jsx:17-23 | `GET` is green, `Delete` is red, `options` is gray |
| Sidebar.ToggleOnlyThisPath | frontend/src/pages/DocsPage/sidebar.jsx:30-32 | Toggling negates the flag of the given path (an absent one counts as collapsed) and leaves every other key unchanged |
| Sidebar.ToggleTwice | frontend/src/pages/DocsPage/sidebar.jsx:31-48 | Toggling the same path twice restores every path's visible state |
| Sidebar.PathRows | frontend/src/pages/DocsPage/sidebar.jsx:36-47 | Each path's rows begin with its header row, showing whether it is expanded |
| Sidebar.ShownAppend | frontend/src/pages/DocsPage/sidebar.jsx:35 | The listed paths and the endpoint ids of consecutive rows concatenate |
| Sidebar.ShownInPath | frontend/src/pages/DocsPage/sidebar.jsx:48-57 | A path's rows list that path once, and its methods' ids in method order only when it is expanded |
| Sidebar.ItemsShown | frontend/src/pages/DocsPage/sidebar.jsx:50-57 | The endpoint items of a path report the ids `method-path` of its methods, in order |
| Sidebar.RowsShowPaths | frontend/src/pages/DocsPage/sidebar.jsx:35 | The sidebar lists the paths in the document's order |
| Sidebar.RowsShowEndpoints | frontend/src/pages/DocsPage/sidebar.jsx:34-62 | The endpoint ids shown are those of the expanded paths, in walk order |
| Sidebar.ExpandedOnlyAll | frontend/src/pages/DocsPage/sidebar.jsx:48 | With every path expanded, every endpoint is shown |
| Sidebar.NothingExpanded | frontend/src/pages/DocsPage/sidebar.jsx:28-48 | Initially (no flags) only the path rows are shown, and no endpoint |
| PerformanceAnalyzer.Insights | backend/app/performance_analyzer.py:11-60 | One insight per finding |
| PerformanceAnalyzer.Suggestions | backend/app/performance_analyzer.py:11-60 | One suggestion per finding, so insights and suggestions pair up index by index |
| PerformanceAnalyzer.UncachedCountSnoc | backend/app/performance_analyzer.py:33-35 | One more response adds one caching finding iff it lacks both Cache-Control and ETag |
| PerformanceAnalyzer.CheckQueries | backend/app/performance_analyzer.py:11-29 | The N+1 and pagination checks of one endpoint report its head findings |
| PerformanceAnalyzer.CheckEndpoint | backend/app/performance_analyzer.py:11-41 | The loop over an endpoint's responses reports exactly that endpoint's findings |
| PerformanceAnalyzer.CheckSchemas | backend/app/performance_analyzer.py:51-60 | The schema loop reports exactly the large-schema findings |
| PerformanceAnalyzer.EndpointsFindingsAppend | backend/app/performance_analyzer.py:8-9 | The findings of a walk distribute over concatenation of the endpoints |
| PerformanceAnalyzer.CheckPath | backend/app/performance_analyzer.py:9-41 | The method loop of one path reports the findings of its endpoints in order |
| PerformanceAnalyzer.CheckPaths | backend/app/performance_analyzer.py:8-41 | The nested path and method loops report the findings of the whole walk |
| PerformanceAnalyzer.Analyze | backend/app/performance_analyzer.py:2-73 | The report's insights and suggestions are those of `Findings(doc)`: the walk's findings, then the batch finding, then the schema findings; the general recommendations are the six fixed strings |
| PerformanceAnalyzer.CachingPerResponse | backend/app/performance_analyzer.py:32-41 | There is one caching finding per response that lacks both headers, with no early exit |
| PerformanceAnalyzer.EndpointChecks | backend/app/performance_analyzer.py:11-41 | N+1 iff `get` is in the method and `{` in the path; pagination iff no parameter is named limit, offset or page (missing parameters count as none); one caching finding per uncached response; nothing else |
| PerformanceAnalyzer.EndpointOnlyChecks | backend/app/performance_analyzer.py:11-41 | An endpoint yields only N+1, pagination and caching findings for itself |
| PerformanceAnalyzer.EndpointCaching | backend/app/performance_analyzer.py:32-41 | The number of caching findings is the number of responses lacking both headers |
| PerformanceAnalyzer.SameCount | backend/app/performance_analyzer.py:32-41 | A run of one repeated finding counts its length |
| PerformanceAnalyzer.EndpointsFindingsMember | backend/app/performance_analyzer.py:8-41 | A finding is in the walk's findings iff some endpoint of the walk produces it |
| PerformanceAnalyzer.SchemaFindingsMember | backend/app/performance_analyzer.py:52-60 | A schema finding is present iff some schema has more than 20 properties, and it names that schema and the count |
| PerformanceAnalyzer.BatchOnce | backend/app/performance_analyzer.py:44-48 | The batch finding occurs exactly once iff no path contains "batch" case-insensitively, and otherwise never |
| PerformanceAnalyzer.NoBatchInWalk | backend/app/performance_analyzer.py:8-41 | The endpoint walk never produces the batch finding |
| PerformanceAnalyzer.WalkFindingKinds | backend/app/performance_analyzer.py:8-41 | The endpoint walk produces only N+1, pagination and caching findings |
| PerformanceAnalyzer.LargeSchemas | backend/app/performance_analyzer.py:52-60 | The report names a schema with a count iff that schema has that many properties and the count exceeds 20 |
| PerformanceAnalyzer.EndpointFindingInDoc | backend/app/performance_analyzer.py:8-60 | Endpoint-kind findings of the report are exactly those of the walk |
| PerformanceAnalyzer.NPlusOneFindings | backend/app/performance_analyzer.py:11-17 | An N+1 finding for (method, path) is reported iff that endpoint exists, `get` is in the method and `{` is in the path |
| PerformanceAnalyzer.PaginationFindings | backend/app/performance_analyzer.py:20-29 | A pagination finding for (method, path) is reported iff that endpoint exists and has no limit, offset or page parameter |
| SecurityAnalyzer.Messages | backend/app/security_analyzer.py:8-35 | One message per issue |
| SecurityAnalyzer.ParameterIssuesSnoc | backend/app/security_analyzer.py:20-22 | One more parameter adds one issue naming it iff it has no schema |
| SecurityAnalyzer.CheckParameters | backend/app/security_analyzer.py:19-22 | The parameter loop reports exactly the schema-less parameters' issues |
| SecurityAnalyzer.CheckRateLimit | backend/app/security_analyzer.py:25-30 | The response loop reports one rate-limit issue iff some response lacks `X-RateLimit-Limit`, and stops there |
| SecurityAnalyzer.CheckEndpoint | backend/app/security_analyzer.py:14-30 | One endpoint's checks report exactly its issues |
| SecurityAnalyzer.EndpointsIssuesAppend | backend/app/security_analyzer.py:12-13 | The issues of a walk distribute over concatenation of the endpoints |
| SecurityAnalyzer.CheckPath | backend/app/security_analyzer.py:13-30 | The method loop of one path reports its endpoints' issues in order |
| SecurityAnalyzer.CheckPaths | backend/app/security_analyzer.py:11-30 | The nested loops report the issues of the whole walk |
| SecurityAnalyzer.CheckHttps | backend/app/security_analyzer.py:33-34 | The server loop answers whether some server URL starts with `https://` |
| SecurityAnalyzer.Analyze | backend/app/security_analyzer.py:2-47 | The issues are those of `Issues(doc)`: the global-schemes issue, the walk's issues, then the HTTPS issue; the recommendations are the six fixed strings |
| SecurityAnalyzer.ParameterIssuesMember | backend/app/security_analyzer.py:20-22 | A parameter issue is reported iff some parameter of that name has no schema |
| SecurityAnalyzer.UnschemedSnoc | backend/app/security_analyzer.py:21 | The schema-less positions grow by the new position iff the new parameter has no schema |
| SecurityAnalyzer.ParameterIssuesCount | backend/app/security_analyzer.py:20-22 | There is exactly one issue per schema-less parameter |
| SecurityAnalyzer.EndpointIssueKinds | backend/app/security_analyzer.py:14-30 | An endpoint yields only security, parameter-schema and rate-limit issues, each naming that endpoint |
| SecurityAnalyzer.EndpointChecks | backend/app/security_analyzer.py:14-30 | Exactly one security issue iff `security` is missing or empty; exactly one rate-limit issue iff a response lacks the header; the count is those plus one per schema-less parameter |
| SecurityAnalyzer.EndpointsIssuesMember | backend/app/security_analyzer.py:11-30 | An issue is in the walk's issues iff some endpoint produces it |
| SecurityAnalyzer.NoDocumentIssueInWalk | backend/app/security_analyzer.py:11-30 | The walk never produces the global-schemes or HTTPS issue |
| SecurityAnalyzer.WalkIssueKinds | backend/app/security_analyzer.py:11-30 | The walk produces only endpoint-kind issues |
| SecurityAnalyzer.GlobalSchemesFirst | backend/app/security_analyzer.py:6-8 | "No global security schemes defined" is present iff `securitySchemes` is missing or empty; it occurs at most once, and first |
| SecurityAnalyzer.HttpsLast | backend/app/security_analyzer.py:33-35 | "API does not enforce HTTPS" is present iff no server URL starts with `https://` (so always with no servers); it occurs at most once, and last |
| SecurityAnalyzer.EndpointIssueInDoc | backend/app/security_analyzer.py:11-30 | Endpoint-kind issues of the report are exactly those of some endpoint |
| SecurityAnalyzer.UnsecuredEndpoints | backend/app/security_analyzer.py:14-16 | `No security defined` names exactly the endpoints whose `security` is missing or empty |
| SecurityAnalyzer.RateLimitIssues | backend/app/security_analyzer.py:25-30 | `No rate limiting headers` names exactly the endpoints with a response lacking `X-RateLimit-Limit` |
| SecurityAnalyzer.ParameterSchemaIssues | backend/app/security_analyzer.py:19-22 | A parameter issue names exactly a schema-less parameter of an existing endpoint |
| IdentifyApis.SearchSomewhere | backend/helpers/identify_apis.py:17 | `re.search` succeeds iff the pattern matches at some position of the text |
| IdentifyApis.FirstMatch | backend/helpers/identify_apis.py:16-19 | The answer is `Unknown` or one of the candidate names |
| IdentifyApis.FirstMatchSpec | backend/helpers/identify_apis.py:16-19 | The answer is the first candidate whose pattern occurs, and `Unknown` iff none does |
| IdentifyApis.IdentifyFrameworkSpec | backend/helpers/identify_apis.py:5-19 | The framework is the first of flask, django, fastapi, express, react, angular, vue whose pattern occurs, and `Unknown` iff none does |
| IdentifyApis.VerbAt | backend/helpers/identify_apis.py:30-38 | The alternation group matches a listed word at the start of the text, or none of them starts it |
| IdentifyApis.LeadingSpaces | backend/helpers/identify_apis.py:27-34 | `\s*` consumes exactly the maximal run of whitespace |
| IdentifyApis.LazyCloseShortest | backend/helpers/identify_apis.py:25-38 | The lazy `(.+?)` stops at the first closing quote followed by the tail, and crosses no line break |
| IdentifyApis.RouteAtShape | backend/helpers/identify_apis.py:24-38 | A match yields the tuple shape of its pattern |
| IdentifyApis.FindAllShape | backend/helpers/identify_apis.py:24-38 | Every route `findall` returns has its pattern's shape |
| IdentifyApis.FoundShift | backend/helpers/identify_apis.py:24-38 | A match inside a suffix is a match in the whole text |
| IdentifyApis.FindAllMatches | backend/helpers/identify_apis.py:24-38 | Every route `findall` returns is matched at some position of the text |
| IdentifyApis.ExtractRoutesShape | backend/helpers/identify_apis.py:22-39 | flask and django give paths; fastapi and express give (get/post/put/delete, path); react, angular and vue give (axios/fetch, url); anything else gives no route |
| IdentifyApis.RouteVerbsPrefixFree | backend/helpers/identify_apis.py:30-38 | No alternative of either group is a prefix of another, so the group's choice is unambiguous |
| IdentifyApis.VerbAtFinds | backend/helpers/identify_apis.py:30-38 | A text starting with one alternative selects that alternative |
| IdentifyApis.LazyCloseFinds | backend/helpers/identify_apis.py:25-38 | Given a quote-free, single-line capture followed by a quote and the tail, the lazy group ends exactly there |
| IdentifyApis.RouteTextMatches | backend/helpers/identify_apis.py:24-38 | Round trip: the text of a route declaration (lead, method, quote, path, quote, tail) matches with exactly that method and path |
| IdentifyApis.ExpressSampleFramework | sample_repos/express_app/express.js:2 | `const app = express();` holds the Express pattern |
| IdentifyApis.ExpressSampleRoute | sample_repos/express_app/express.js:7 | A declaration `app.<verb>('<path>', (req, res) => {`, as on lines 7, 11 and 27, yields (verb, path) |
| IdentifyApis.WorthIffKnown | backend/helpers/identify_apis.py:57 | A file is recorded iff its framework is known, since an unknown framework has no routes |
| IdentifyApis.DirectoryResultsLookup | backend/helpers/identify_apis.py:50-59 | A path is recorded iff some file with that path has a source extension and is worth recording; it then holds the last such file's framework and routes |
| IdentifyApis.DirectoryStep | backend/helpers/identify_apis.py:53-58 | One more file writes its result iff it is kept |
| IdentifyApis.AnalyzeDirectory | backend/helpers/identify_apis.py:50-59 | The loop over the files produces exactly those results |
| AnalyzeRepo.InitialSpecIssues | backend/app/analyze_repo.py:28-33 | The initial document has no endpoint, and the security pass reports exactly the missing schemes and the missing HTTPS |
| AnalyzeRepo.LastTwo | backend/app/analyze_repo.py:96 | `[-2:]` is the suffix of the parts of length two, or all the parts when there are fewer |
| AnalyzeRepo.RepoNameOfPath | backend/app/analyze_repo.py:96-97 | The repository name is the last two `/`-separated segments joined by `/` |
| AnalyzeRepo.GithubRepoName | backend/app/analyze_repo.py:34-97 | `https://github.com/<owner>/<name>` is a GitHub URL, and its repository name is `<owner>/<name>` |
| AnalyzeRepo.RouteKeys | backend/app/analyze_repo.py:163-168 | A flask or django route lands under `get`; a fastapi or express route under its own method; a front-end route under `axios` or `fetch` |
| AnalyzeRepo.CapitalizeSpec | backend/app/analyze_repo.py:169 | `capitalize` keeps the length and the letters ignoring case, leaves no lower-case first letter, and lower-cases everything after the first character |
| AnalyzeRepo.AddRoutesAt | backend/app/analyze_repo.py:162-172 | After the routes are added, (path, method) holds the detected operation iff some route has that key; every other pair is unchanged |
| AnalyzeRepo.AddRoutesKeys | backend/app/analyze_repo.py:168 | Existing paths stay, only route paths are added, and keys stay unique |
| AnalyzeRepo.FileSpecChanges | backend/app/analyze_repo.py:116-120 | A file changes only the paths, and changes the document only when its framework is known and it has routes |
| AnalyzeRepo.QueryParameters | backend/app/analyze_repo.py:223-231 | One description per kept parameter |
| AnalyzeRepo.KeptParametersAppend | backend/app/analyze_repo.py:223-224 | Kept parameters keep signature order |
| AnalyzeRepo.KeptParametersMember | backend/app/analyze_repo.py:224 | A parameter is kept iff it is in the signature and not named `self` or `request` |
| AnalyzeRepo.QueryParametersSpec | backend/app/analyze_repo.py:220-232 | Every description is `in: query` with schema type string, named after a kept parameter, and required iff that parameter has no default; every kept parameter is described |
| AnalyzeRepo.PresentMethods | backend/app/analyze_repo.py:209-210 | Only the listed methods that the instance has |
| AnalyzeRepo.ViewPathsAt | backend/app/analyze_repo.py:209-218 | The view's path holds each present method's handler operation; every other pair is unchanged |
| AnalyzeRepo.ViewPathsOrder | backend/app/analyze_repo.py:209-213 | For a new path, the path is created iff some method is present, and its methods follow the checked order |
| AnalyzeRepo.DjangoViewSpec | backend/app/analyze_repo.py:207-218 | The path is `/` + the lower-cased class name, with methods checked in the order get, post, put, delete, patch |
| AnalyzeRepo.ModulePathOfFile | backend/app/analyze_repo.py:176-180 | The module of `d1/…/dn/name.py` is `d1.….dn.name` |
| AnalyzeRepo.ModulePathAsWrittenInnerPy | backend/app/analyze_repo.py:176-180 | As written, a file whose name starts with `py` loses that `py` together with the `/` before it: `dir/pyX.py` gives `dirX` |
| AnalyzeRepo.ModulePathInnerPy | backend/app/analyze_repo.py:176-180 | With only the extension dropped, `dir/pyX.py` gives `dir.pyX` |
| AnalyzeRepo.CodebaseAnalyzer.constructor | backend/app/analyze_repo.py:24-34 | A new analyzer holds the initial document (3.0.0, "Generated API" 1.0.0, no paths, no schemas) and `is_github_url` iff the path starts with `https://github.com/` |
| AnalyzeRepo.CodebaseAnalyzer.IdentifyFramework | backend/app/analyze_repo.py:126-140 | The loop over the patterns returns the same framework as `identify_framework` |
| AnalyzeRepo.CodebaseAnalyzer.AddToApiSpec | backend/app/analyze_repo.py:160-172 | Only the paths of the document change: each route's operation is written in turn |
| AnalyzeRepo.CodebaseAnalyzer.ProcessFile | backend/app/analyze_repo.py:111-120 | The document becomes the one the file's routes give, under the add-guard |
| AnalyzeRepo.CodebaseAnalyzer.GetParameters | backend/app/analyze_repo.py:220-232 | The loop returns the descriptions of the kept parameters, in order |
| AnalyzeRepo.CodebaseAnalyzer.ProcessDjangoView | backend/app/analyze_repo.py:207-218 | Only the paths change: each present Django method of the view is written in turn |

## Left out

- File walking and reading (`os.walk`, `open`, `os.path.join`, `_process_directory`) are not modelled. `analyze_directory` and `_process_file` take the files as (path, content) pairs. `os.path.relpath` is a parameter.
- `ast.parse` and the `ast.walk` over classes in `_process_file` are not modelled; a file that does not parse is not a case of the model.
- `parse_repository` is left out because of its thread pool and its call into `chunk_code`, which is not part of this model.
- `main()` in `identify_apis.py` only prints; it is left out.
- Git, GitHub and LLM calls are left out: `_clone_repo`'s GitHub lookup and `git clone`, `analyze`, and `_generate_documentation`.
- `_enrich_api_spec_with_context` is left out. It also refers to an attribute, `self.repo_analyzer`, that the class never sets.
- `_process_class`'s dynamic import and `inspect` reflection are left out. Only its `module_path` string is modelled.
- `_process_fastapi_router` is left out: it reads runtime router objects.
- A Django view is given as its class name and the handler methods an instance has. `inspect.signature` is given as a list of (name, has default) pairs. `inspect.getdoc`'s docstring cleaning is not modelled.
- `_identify_framework` and `_extract_routes` of `analyze_repo.py` are identical to `identify_framework` and `extract_routes`; both are modelled once, by `IdentifyApis`.
- IdentifyApis.ExpressSampleRoute: proves each Express declaration line on its own. It does not prove that a `findall` over the whole `express.js` sample returns those three routes in order, nor that the whole file identifies as Express.
- Regular expressions are not modelled in general. The matcher covers exactly the seven framework patterns and the five route expressions: literals, `\s`, `\s+`, `\s*`, the alternation groups, the quote class and the lazy `.+?`. `.` never crosses a line break.
- `lower()`, `upper()`, `toUpperCase`, `toLowerCase` and `capitalize` are modelled on ASCII letters only; other characters keep their case.
- Documentation.ResolveDeclared, Documentation.SchemeBlocks, OpenApi.Endpoints: every object is walked in insertion order. JavaScript's `Object.keys` and `Object.entries` list integer-like keys (`"0"`, `"42"`) first, in ascending numeric order, so for schema property names (documentation.jsx:37) and security scheme names (documentation.jsx:75) that look like array indices the browser's order differs from the model's. Python dicts keep insertion order for every key.
- Numbers in the document are integers. Floating-point defaults and enum values are not modelled.
- Only the names of schema properties and response headers are kept, because the core reads nothing else from them.
- ApiUsage.SamplesFollowEndpoints: a pane whose endpoint has a query parameter without a schema is a `Failure`. This models the `TypeError` the component raises, not the React error boundary that follows.
- Documentation.Sections: a request body whose `$ref` does not resolve is a `Failure`. This models the `TypeError` of the component, not what React shows then.
- The Documentation pane's raw view (`JSON.stringify`), its tab state and the Tabs widgets are left out. So are the specification upload, the header, the routing and the composition of the pages.
- Markup and CSS classes are not modelled. Each element is kept as its text, except the sidebar's colour class.
- The performance analyzer's `async` and the security analyzer's `async` are left out: neither awaits anything.
- The document is modelled with `components.schemas` always present. The backend always emits it, and the frontend reads it unguarded.

## Findings

| source | as written | input that shows it | evidently intended | confidence | as-written member | corrected member |
|---|---|---|---|---|---|---|
| backend/app/analyze_repo.py:176-180 | `.replace(".py", "")` removes every `.py` in the dotted path, not only the extension | `app/pyutils.py` gives `apputils` | drop the extension only, giving `app.pyutils` | not executed | AnalyzeRepo.ModulePathAsWrittenInnerPy | AnalyzeRepo.ModulePathInnerPy |
