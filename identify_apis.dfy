/** `helpers/identify_apis.py`: which web framework a source file uses (the
    first of seven patterns that occurs in it), which routes it declares (one
    route pattern per framework), and the directory scan that keeps the source
    files where either is found. `CodebaseAnalyzer` carries copies of the first
    two, so the analyzer module uses these. */
module IdentifyApis {
  import opened Wrappers
  import opened Text
  import opened OrderedMap

  const Unknown: string := "Unknown"

  // ---------------------------------------------------------------- framework patterns

  /** `\s` on a `str` pattern: the characters Python's `str.isspace` accepts,
      the ASCII blanks and separators `\x1c`-`\x1f` among them. */
  predicate IsSpace(c: char) {
    ('\t' <= c <= '\r') || ('\U{1C}' <= c <= ' ') || c == '\U{85}' || c == '\U{A0}' || c == '\U{1680}'
    || ('\U{2000}' <= c <= '\U{200A}') || c == '\U{2028}' || c == '\U{2029}' || c == '\U{202F}'
    || c == '\U{205F}' || c == '\U{3000}'
  }

  /** A piece of a framework pattern: literal text, `\s+` or `\s*`. Each of the
      seven patterns is a sequence of these. */
  datatype Token = Lit(text: string) | Spaces(atLeastOne: bool)

  /** The pattern matches a prefix of `s`. */
  predicate MatchesAt(s: string, p: seq<Token>)
    decreases |s|, |p|
  {
    if p == [] then true
    else match p[0]
      case Lit(t) => StartsWith(s, t) && MatchesAt(s[|t|..], p[1..])
      case Spaces(atLeastOne) =>
        if atLeastOne then |s| > 0 && IsSpace(s[0]) && MatchesAt(s[1..], [Spaces(false)] + p[1..])
        else MatchesAt(s, p[1..]) || (|s| > 0 && IsSpace(s[0]) && MatchesAt(s[1..], p))
  }

  /** `re.search`: the pattern matches at some position of `s`. */
  predicate Search(s: string, p: seq<Token>)
    decreases |s|
  {
    MatchesAt(s, p) || (s != [] && Search(s[1..], p))
  }

  /** `re.search` finds a pattern exactly when it matches at some position. */
  lemma {:induction false} SearchSomewhere(s: string, p: seq<Token>)
    ensures Search(s, p) <==> exists i :: 0 <= i <= |s| && MatchesAt(s[i..], p)
    decreases |s|
  {
    if s != [] {
      SearchSomewhere(s[1..], p);
      assert forall i :: 1 <= i <= |s| ==> s[1..][i - 1..] == s[i..];
      if exists i :: 0 <= i <= |s| && MatchesAt(s[i..], p) {
        var i :| 0 <= i <= |s| && MatchesAt(s[i..], p);
        if i > 0 {
          assert s[1..][i - 1..] == s[i..];
        } else {
          assert s[0..] == s;
        }
      }
      if MatchesAt(s, p) {
        assert s[0..] == s;
      }
    } else {
      assert s[0..] == s;
    }
  }

  /** The seven patterns, in the order they are tried. */
  const Frameworks: seq<(string, seq<Token>)> := [
    ("flask", [Lit("from"), Spaces(true), Lit("flask"), Spaces(true), Lit("import")]),
    ("django", [Lit("from"), Spaces(true), Lit("django"), Spaces(true), Lit("import")]),
    ("fastapi", [Lit("from"), Spaces(true), Lit("fastapi"), Spaces(true), Lit("import")]),
    ("express", [Lit("express("), Spaces(false), Lit(")")]),
    ("react", [Lit("import"), Spaces(true), Lit("React")]),
    ("angular", [Lit("@angular/core")]),
    ("vue", [Lit("new"), Spaces(true), Lit("Vue(")])
  ]

  /** The first candidate whose pattern occurs in `content`. */
  function FirstMatch(content: string, candidates: seq<(string, seq<Token>)>): (name: string)
    ensures name == Unknown || exists i :: 0 <= i < |candidates| && candidates[i].0 == name
  {
    if candidates == [] then Unknown
    else if Search(content, candidates[0].1) then candidates[0].0
    else FirstMatch(content, candidates[1..])
  }

  /** With distinct names, none of them `Unknown`, the first match names the
      candidate whose pattern occurs and no earlier one does, and is `Unknown`
      exactly when no pattern occurs. */
  lemma {:induction false} FirstMatchSpec(content: string, candidates: seq<(string, seq<Token>)>)
    requires forall i :: 0 <= i < |candidates| ==> candidates[i].0 != Unknown
    requires forall i, j :: 0 <= i < j < |candidates| ==> candidates[i].0 != candidates[j].0
    ensures FirstMatch(content, candidates) == Unknown <==>
      forall i :: 0 <= i < |candidates| ==> !Search(content, candidates[i].1)
    ensures forall i :: 0 <= i < |candidates| ==>
      (FirstMatch(content, candidates) == candidates[i].0 <==>
        Search(content, candidates[i].1) && forall j :: 0 <= j < i ==> !Search(content, candidates[j].1))
    decreases |candidates|
  {
    if candidates != [] {
      var rest := candidates[1..];
      FirstMatchSpec(content, rest);
      assert forall i :: 1 <= i < |candidates| ==> rest[i - 1] == candidates[i];
    }
  }

  /** `identify_framework`. */
  function IdentifyFramework(content: string): string {
    FirstMatch(content, Frameworks)
  }

  /** The framework reported is the first, in the order flask, django, fastapi,
      express, react, angular, vue, whose pattern occurs; `Unknown` when none
      does. */
  lemma IdentifyFrameworkSpec(content: string)
    ensures IdentifyFramework(content) == Unknown <==>
      forall i :: 0 <= i < |Frameworks| ==> !Search(content, Frameworks[i].1)
    ensures forall i :: 0 <= i < |Frameworks| ==>
      (IdentifyFramework(content) == Frameworks[i].0 <==>
        Search(content, Frameworks[i].1) && forall j :: 0 <= j < i ==> !Search(content, Frameworks[j].1))
  {
    FirstMatchSpec(content, Frameworks);
  }

  // ---------------------------------------------------------------- route patterns

  /** One position of a route pattern's fixed lead: a character, or `.`. */
  datatype Atom = Char(c: char) | AnyChar

  predicate AtomMatches(c: char, a: Atom) {
    match a
    case Char(x) => c == x
    case AnyChar => c != '\n'
  }

  function Chars(s: string): (atoms: seq<Atom>)
    ensures |atoms| == |s|
  {
    seq(|s|, i requires 0 <= i < |s| => Char(s[i]))
  }

  /** What follows the closing quote: `\)` or `\s*,`. */
  datatype Tail = CloseParen | SpacesComma

  /** `lead (verb|...)? after [\'"](.+?)[\'"] tail`; an empty `verbs` means the
      pattern has no method group. */
  datatype RoutePattern = RoutePattern(lead: seq<Atom>, verbs: seq<string>, after: string, tail: Tail)

  /** A `findall` result: a path, or a (method, path) tuple. */
  datatype Route = PathRoute(path: string) | VerbRoute(verb: string, path: string)

  const HttpVerbs: seq<string> := ["get", "post", "put", "delete"]
  const CallNames: seq<string> := ["axios", "fetch"]

  /** `@app.route\([\'"](.+?)[\'"]\)`; the unescaped `.` is any character. */
  const FlaskRoutes: RoutePattern := RoutePattern(Chars("@app") + [AnyChar] + Chars("route("), [], "", CloseParen)
  /** `path\([\'"](.+?)[\'"]\s*,` */
  const DjangoRoutes: RoutePattern := RoutePattern(Chars("path("), [], "", SpacesComma)
  /** `@app\.(get|post|put|delete)\([\'"](.+?)[\'"]\)` */
  const FastapiRoutes: RoutePattern := RoutePattern(Chars("@app."), HttpVerbs, "(", CloseParen)
  /** `app\.(get|post|put|delete)\([\'"](.+?)[\'"]\s*,` */
  const ExpressRoutes: RoutePattern := RoutePattern(Chars("app."), HttpVerbs, "(", SpacesComma)
  /** `(axios|fetch)\([\'"](.+?)[\'"]\)` */
  const FrontendRoutes: RoutePattern := RoutePattern([], CallNames, "(", CloseParen)

  predicate IsQuote(c: char) {
    c == '\'' || c == '"'
  }

  predicate LeadMatches(t: string, lead: seq<Atom>) {
    |lead| <= |t| && forall k :: 0 <= k < |lead| ==> AtomMatches(t[k], lead[k])
  }

  /** The first alternative of the method group that starts `t`. */
  function VerbAt(t: string, verbs: seq<string>): (r: Option<string>)
    ensures r.Some? ==> r.value in verbs && StartsWith(t, r.value)
    ensures r.None? ==> forall i :: 0 <= i < |verbs| ==> !StartsWith(t, verbs[i])
  {
    if verbs == [] then None
    else if StartsWith(t, verbs[0]) then Some(verbs[0])
    else VerbAt(t, verbs[1..])
  }

  function LeadingSpaces(v: string): (n: nat)
    ensures n <= |v|
    ensures forall j :: 0 <= j < n ==> IsSpace(v[j])
    ensures n < |v| ==> !IsSpace(v[n])
    decreases |v|
  {
    if v != [] && IsSpace(v[0]) then 1 + LeadingSpaces(v[1..]) else 0
  }

  /** The length of the tail at the start of `v`, when it is there. Spaces are
      never commas, so `\s*,` has at most one way to match. */
  function TailLength(v: string, tail: Tail): (r: Option<nat>)
    ensures r.Some? ==> 0 < r.value <= |v|
  {
    match tail
    case CloseParen => if v != [] && v[0] == ')' then Some(1) else None
    case SpacesComma =>
      var n := LeadingSpaces(v);
      if n < |v| && v[n] == ',' then Some(n + 1) else None
  }

  /** A quote at `u[k]` followed by the tail. */
  predicate ClosesAt(u: string, tail: Tail, k: nat)
    requires k < |u|
  {
    IsQuote(u[k]) && TailLength(u[k + 1..], tail).Some?
  }

  /** The lazy group `(.+?)` over the text `u` after the opening quote, tried
      from length `k` up: the group length and the length consumed through the
      tail. */
  function LazyClose(u: string, tail: Tail, k: nat): (r: Option<(nat, nat)>)
    requires 1 <= k <= |u| + 1
    requires forall j :: 0 <= j < k - 1 ==> u[j] != '\n'
    ensures r.Some? ==> k <= r.value.0 < r.value.1 <= |u|
    decreases |u| - k
  {
    if k >= |u| || u[k - 1] == '\n' then None
    else if ClosesAt(u, tail, k) then Some((k, k + 1 + TailLength(u[k + 1..], tail).value))
    else LazyClose(u, tail, k + 1)
  }

  /** The group after the opening quote, with the length consumed through
      the tail. */
  function GroupAt(u: string, tail: Tail): (r: Option<(string, nat)>)
    ensures r.Some? ==> 0 < r.value.1 <= |u|
  {
    match LazyClose(u, tail, 1)
    case None => None
    case Some((g, used)) => Some((u[..g], used))
  }

  /** What follows the method group: `after`, the opening quote and the
      group. */
  function AfterVerb(t2: string, pat: RoutePattern): (r: Option<(string, nat)>)
    ensures r.Some? ==> 0 < r.value.1 <= |t2|
  {
    var open := |pat.after|;
    if !(StartsWith(t2, pat.after) && open < |t2| && IsQuote(t2[open])) then None
    else match GroupAt(t2[open + 1..], pat.tail)
      case None => None
      case Some((path, used)) => Some((path, open + 1 + used))
  }

  /** The route a pattern matches at the start of `t`, with the length of the
      match. */
  function RouteAt(t: string, pat: RoutePattern): (r: Option<(Route, nat)>)
    ensures r.Some? ==> 0 < r.value.1 <= |t|
  {
    if !LeadMatches(t, pat.lead) then None
    else
      var t1 := t[|pat.lead|..];
      var verb := if pat.verbs == [] then Some("") else VerbAt(t1, pat.verbs);
      if verb.None? then None
      else match AfterVerb(t1[|verb.value|..], pat)
        case None => None
        case Some((path, n)) => Some((RouteOf(pat, verb.value, path), |pat.lead| + |verb.value| + n))
  }

  /** A path for a pattern without a method group, a tuple for one with. */
  function RouteOf(pat: RoutePattern, verb: string, path: string): Route {
    if pat.verbs == [] then PathRoute(path) else VerbRoute(verb, path)
  }

  /** A route of a pattern without a method group is a path; one with a group
      is a tuple whose method is one of the alternatives; the path is one line
      of at least one character. */
  predicate RouteShape(r: Route, pat: RoutePattern) {
    (if pat.verbs == [] then r.PathRoute? else r.VerbRoute? && r.verb in pat.verbs) &&
    r.path != [] && '\n' !in r.path
  }

  /** `re.findall`: matches left to right, each search resuming after the
      previous match. */
  function FindAll(s: string, pat: RoutePattern): seq<Route>
    decreases |s|
  {
    if s == [] then []
    else match RouteAt(s, pat)
      case Some((route, n)) => [route] + FindAll(s[n..], pat)
      case None => FindAll(s[1..], pat)
  }

  /** The group the lazy scan settles on is the shortest one: one line, closed
      by a quote and the tail, with no earlier place to close. */
  lemma {:induction false} LazyCloseShortest(u: string, tail: Tail, k: nat)
    requires 1 <= k <= |u| + 1
    requires forall j :: 0 <= j < k - 1 ==> u[j] != '\n'
    ensures var r := LazyClose(u, tail, k);
      r.Some? ==>
        ClosesAt(u, tail, r.value.0) && r.value.1 == r.value.0 + 1 + TailLength(u[r.value.0 + 1..], tail).value &&
        (forall j :: 0 <= j < r.value.0 ==> u[j] != '\n') &&
        forall j :: k <= j < r.value.0 ==> !ClosesAt(u, tail, j)
    decreases |u| - k
  {
    if k >= |u| || u[k - 1] == '\n' {
    } else if ClosesAt(u, tail, k) {
      assert LazyClose(u, tail, k) == Some((k, k + 1 + TailLength(u[k + 1..], tail).value));
    } else {
      LazyCloseShortest(u, tail, k + 1);
      assert LazyClose(u, tail, k) == LazyClose(u, tail, k + 1);
    }
  }

  /** A route found is one line of at least one character, of the shape the
      pattern's group decides. */
  lemma RouteAtShape(t: string, pat: RoutePattern)
    ensures RouteAt(t, pat).Some? ==> RouteShape(RouteAt(t, pat).value.0, pat)
  {
    if RouteAt(t, pat).Some? {
      var t1 := t[|pat.lead|..];
      var verb := if pat.verbs == [] then Some("") else VerbAt(t1, pat.verbs);
      var t2 := t1[|verb.value|..];
      var u := t2[|pat.after| + 1..];
      LazyCloseShortest(u, pat.tail, 1);
      var g := LazyClose(u, pat.tail, 1).value.0;
      assert forall j :: 0 <= j < g ==> u[..g][j] == u[j];
    }
  }

  lemma {:induction false} FindAllShape(s: string, pat: RoutePattern)
    ensures forall r :: r in FindAll(s, pat) ==> RouteShape(r, pat)
    decreases |s|
  {
    if s != [] {
      RouteAtShape(s, pat);
      match RouteAt(s, pat)
      case Some((route, n)) =>
        FindAllShape(s[n..], pat);
      case None =>
        FindAllShape(s[1..], pat);
    }
  }

  /** The pattern, tried at position `i` of `s`, matches and yields `r`. */
  predicate FoundAt(s: string, pat: RoutePattern, i: int, r: Route) {
    0 <= i < |s| && RouteAt(s[i..], pat).Some? && RouteAt(s[i..], pat).value.0 == r
  }

  lemma FoundShift(s: string, m: nat, i: int, pat: RoutePattern, r: Route)
    requires m <= |s| && FoundAt(s[m..], pat, i, r)
    ensures FoundAt(s, pat, m + i, r)
  {
    assert s[m..][i..] == s[m + i..];
  }

  /** Every route found is the match of the pattern at some position. */
  lemma {:induction false} FindAllMatches(s: string, pat: RoutePattern, r: Route)
    requires r in FindAll(s, pat)
    ensures exists i :: FoundAt(s, pat, i, r)
    decreases |s|
  {
    assert s != [];
    match RouteAt(s, pat)
    case Some((route, n)) =>
      if r == route {
        assert s[0..] == s;
        assert FoundAt(s, pat, 0, r);
      } else {
        FindAllMatches(s[n..], pat, r);
        var i :| FoundAt(s[n..], pat, i, r);
        FoundShift(s, n, i, pat, r);
      }
    case None =>
      FindAllMatches(s[1..], pat, r);
      var i :| FoundAt(s[1..], pat, i, r);
      FoundShift(s, 1, i, pat, r);
  }

  /** The route pattern `extract_routes` uses for a framework, if any. */
  function PatternFor(framework: string): Option<RoutePattern> {
    if framework == "flask" then Some(FlaskRoutes)
    else if framework == "django" then Some(DjangoRoutes)
    else if framework == "fastapi" then Some(FastapiRoutes)
    else if framework == "express" then Some(ExpressRoutes)
    else if framework in ["react", "angular", "vue"] then Some(FrontendRoutes)
    else None
  }

  /** `extract_routes`. */
  function ExtractRoutes(content: string, framework: string): seq<Route> {
    match PatternFor(framework)
    case None => []
    case Some(pat) => FindAll(content, pat)
  }

  /** Flask and Django give paths; FastAPI and Express give (method, path) with
      an HTTP method; React, Angular and Vue give (`axios` or `fetch`, url);
      any other framework, `Unknown` included, gives nothing. */
  lemma ExtractRoutesShape(content: string, framework: string)
    ensures framework == "flask" || framework == "django" ==>
      forall r :: r in ExtractRoutes(content, framework) ==> r.PathRoute?
    ensures framework == "fastapi" || framework == "express" ==>
      forall r :: r in ExtractRoutes(content, framework) ==> r.VerbRoute? && r.verb in HttpVerbs
    ensures framework == "react" || framework == "angular" || framework == "vue" ==>
      forall r :: r in ExtractRoutes(content, framework) ==> r.VerbRoute? && r.verb in CallNames
    ensures framework !in ["flask", "django", "fastapi", "express", "react", "angular", "vue"] ==>
      ExtractRoutes(content, framework) == []
  {
    match PatternFor(framework)
    case None =>
    case Some(pat) =>
      FindAllShape(content, pat);
  }

  // ---------------------------------------------------------------- route lines

  /** The text a lead matches when each `.` stands for itself. */
  function LeadText(lead: seq<Atom>): (s: string)
    ensures |s| == |lead|
  {
    seq(|lead|, k requires 0 <= k < |lead| => match lead[k] case Char(c) => c case AnyChar => '.')
  }

  function TailText(tail: Tail): string {
    match tail
    case CloseParen => ")"
    case SpacesComma => ","
  }

  /** The declaration a route pattern is written to find, followed by `rest`:
      for Express, `app.get('/users',` and whatever comes after. */
  function RouteText(pat: RoutePattern, verb: string, path: string, quote: char, rest: string): string {
    LeadText(pat.lead) + (verb + (pat.after + ([quote] + (path + ([quote] + (TailText(pat.tail) + rest))))))
  }

  /** No alternative of the method group is a prefix of another. */
  predicate PrefixFree(verbs: seq<string>) {
    forall i, j :: 0 <= i < |verbs| && 0 <= j < |verbs| && i != j ==> !StartsWith(verbs[i], verbs[j])
  }

  lemma DiffersAt(a: string, b: string, d: nat)
    requires d < |a| && d < |b| && a[d] != b[d]
    ensures !StartsWith(a, b) && !StartsWith(b, a)
  {
  }

  /** `get`, `post`, `put`, `delete` and `axios`, `fetch`: the alternation
      never has two ways to match. */
  lemma RouteVerbsPrefixFree()
    ensures PrefixFree(HttpVerbs) && PrefixFree(CallNames)
  {
    forall i, j | 0 <= i < |HttpVerbs| && 0 <= j < |HttpVerbs| && i != j
      ensures !StartsWith(HttpVerbs[i], HttpVerbs[j])
    {
      DiffersAt(HttpVerbs[i], HttpVerbs[j], if (i == 1 && j == 2) || (i == 2 && j == 1) then 1 else 0);
    }
    DiffersAt(CallNames[0], CallNames[1], 0);
  }

  /** With a prefix-free group, the alternative a text starts with is found,
      whatever follows it. */
  lemma {:induction false} VerbAtFinds(verbs: seq<string>, k: nat, rest: string)
    requires k < |verbs| && PrefixFree(verbs)
    ensures VerbAt(verbs[k] + rest, verbs) == Some(verbs[k])
    decreases |verbs|
  {
    var t := verbs[k] + rest;
    ConcatEnds(verbs[k], rest);
    if k > 0 {
      var tail := verbs[1..];
      assert tail[k - 1] == verbs[k];
      assert forall i, j :: 0 <= i < |tail| && 0 <= j < |tail| && i != j ==> !StartsWith(tail[i], tail[j]) by {
        forall i, j | 0 <= i < |tail| && 0 <= j < |tail| && i != j
          ensures !StartsWith(tail[i], tail[j])
        {
          assert tail[i] == verbs[i + 1] && tail[j] == verbs[j + 1];
        }
      }
      VerbAtFinds(tail, k - 1, rest);
    }
  }

  /** Scanning a lazy group whose text holds no newline and no quote ends at
      the first quote followed by the tail. */
  lemma {:induction false} LazyCloseFinds(u: string, tail: Tail, k: nat, m: nat)
    requires 1 <= k <= m < |u|
    requires forall j :: 0 <= j < m ==> u[j] != '\n'
    requires forall j :: k <= j < m ==> !IsQuote(u[j])
    requires ClosesAt(u, tail, m)
    ensures LazyClose(u, tail, k) == Some((m, m + 1 + TailLength(u[m + 1..], tail).value))
    decreases m - k
  {
    if k < m {
      LazyCloseFinds(u, tail, k + 1, m);
    }
  }

  /** A lead matches the text it stands for. */
  lemma LeadTextMatches(lead: seq<Atom>, rest: string)
    ensures LeadMatches(LeadText(lead) + rest, lead)
  {
    var t := LeadText(lead) + rest;
    forall j | 0 <= j < |lead|
      ensures AtomMatches(t[j], lead[j])
    {
      assert t[j] == LeadText(lead)[j];
    }
  }

  lemma LeadTextChars(s: string)
    ensures LeadText(Chars(s)) == s
  {
  }

  lemma TailTextMatches(tail: Tail, rest: string)
    ensures TailLength(TailText(tail) + rest, tail) == Some(|TailText(tail)|)
  {
    if tail == SpacesComma {
      assert (TailText(tail) + rest)[0] == ',';
      assert LeadingSpaces(TailText(tail) + rest) == 0;
    }
  }

  /** The lazy group closes at the first quote of a quote-free path. */
  lemma ClosingPart(tail: Tail, path: string, quote: char, rest: string)
    requires IsQuote(quote)
    requires path != [] && forall j :: 0 <= j < |path| ==> path[j] != '\n' && !IsQuote(path[j])
    ensures GroupAt(path + ([quote] + (TailText(tail) + rest)), tail) == Some((path, |path| + 1 + |TailText(tail)|))
  {
    var tailStr := TailText(tail) + rest;
    TailTextMatches(tail, rest);
    var closing := [quote] + tailStr;
    var u := path + closing;
    ConcatEnds(path, closing);
    ConcatEnds([quote], tailStr);
    var m := |path|;
    assert u[m] == quote;
    assert u[m + 1..] == tailStr;
    LazyCloseFinds(u, tail, 1, m);
    assert u[..m] == path;
  }

  /** `after`, the opening quote and a quote-free path. */
  lemma AfterVerbPart(pat: RoutePattern, path: string, quote: char, rest: string)
    requires IsQuote(quote)
    requires path != [] && forall j :: 0 <= j < |path| ==> path[j] != '\n' && !IsQuote(path[j])
    ensures AfterVerb(pat.after + ([quote] + (path + ([quote] + (TailText(pat.tail) + rest)))), pat) ==
      Some((path, |pat.after| + 1 + |path| + 1 + |TailText(pat.tail)|))
  {
    var u := path + ([quote] + (TailText(pat.tail) + rest));
    var t2 := pat.after + ([quote] + u);
    var open := |pat.after|;
    assert StartsWith(t2, pat.after) && open < |t2| && IsQuote(t2[open]) && t2[open + 1..] == u by {
      ConcatEnds(pat.after, [quote] + u);
      ConcatEnds([quote], u);
    }
    assert GroupAt(u, pat.tail) == Some((path, |path| + 1 + |TailText(pat.tail)|)) by {
      ClosingPart(pat.tail, path, quote, rest);
    }
  }

  /** The lead and the method group. */
  lemma RouteAtOfParts(pat: RoutePattern, k: nat, t2: string, path: string, n: nat)
    requires pat.verbs == [] || (k < |pat.verbs| && PrefixFree(pat.verbs))
    requires AfterVerb(t2, pat) == Some((path, n))
    ensures var verb := if pat.verbs == [] then "" else pat.verbs[k];
      RouteAt(LeadText(pat.lead) + (verb + t2), pat) == Some((RouteOf(pat, verb, path), |pat.lead| + |verb| + n))
  {
    var verb := if pat.verbs == [] then "" else pat.verbs[k];
    var t1 := verb + t2;
    var t := LeadText(pat.lead) + t1;
    assert LeadMatches(t, pat.lead) && t[|pat.lead|..] == t1 by {
      ConcatEnds(LeadText(pat.lead), t1);
      LeadTextMatches(pat.lead, t1);
    }
    VerbPart(pat, k, t2);
  }

  /** The method group finds the alternative written first, or the empty
      method when the pattern has no group. */
  lemma VerbPart(pat: RoutePattern, k: nat, t2: string)
    requires pat.verbs == [] || (k < |pat.verbs| && PrefixFree(pat.verbs))
    ensures var verb := if pat.verbs == [] then "" else pat.verbs[k];
      (verb + t2)[|verb|..] == t2 &&
      (if pat.verbs == [] then Some("") else VerbAt(verb + t2, pat.verbs)) == Some(verb)
  {
    var verb := if pat.verbs == [] then "" else pat.verbs[k];
    ConcatEnds(verb, t2);
    if pat.verbs != [] {
      VerbAtFinds(pat.verbs, k, t2);
    }
  }

  /** Round trip: the route written as its declaration, with a path of one
      line and no quotes, is the route the pattern finds there, whatever
      follows, and the match ends with the declaration. */
  lemma RouteTextMatches(pat: RoutePattern, k: nat, verb: string, path: string, quote: char, rest: string)
    requires pat.verbs == [] || (k < |pat.verbs| && PrefixFree(pat.verbs))
    requires verb == if pat.verbs == [] then "" else pat.verbs[k]
    requires IsQuote(quote)
    requires path != [] && forall j :: 0 <= j < |path| ==> path[j] != '\n' && !IsQuote(path[j])
    ensures RouteAt(RouteText(pat, verb, path, quote, rest), pat) ==
      Some((RouteOf(pat, verb, path), |RouteText(pat, verb, path, quote, rest)| - |rest|))
  {
    var t2 := pat.after + ([quote] + (path + ([quote] + (TailText(pat.tail) + rest))));
    AfterVerbPart(pat, path, quote, rest);
    RouteAtOfParts(pat, k, t2, path, |pat.after| + 1 + |path| + 1 + |TailText(pat.tail)|);
  }

  /** Line 2 of the Express sample app, `const app = express();`, holds the
      Express pattern. */
  lemma ExpressSampleFramework()
    ensures Search("const app = " + "express();", Frameworks[3].1)
  {
    var p := Frameworks[3].1;
    assert p == [Lit("express("), Spaces(false), Lit(")")];
    var call := "express(" + ");";
    ConcatEnds("express(", ");");
    assert MatchesAt(");", p[2..]);
    assert MatchesAt(call, p);
    assert call == "express();";
    var line := "const app = " + call;
    ConcatEnds("const app = ", call);
    SearchSomewhere(line, p);
    assert MatchesAt(line[12..], p);
  }

  /** The Express declaration `app.<verb>('<path>', (req, res) => {`, as on
      lines 7, 11 and 27 of the Express sample app, gives the route
      (verb, path). */
  lemma ExpressSampleRoute(k: nat, path: string)
    requires k < |HttpVerbs|
    requires path != [] && forall j :: 0 <= j < |path| ==> path[j] != '\n' && !IsQuote(path[j])
    ensures FoundAt(RouteText(ExpressRoutes, HttpVerbs[k], path, '\'', " (req, res) => {"),
      ExpressRoutes, 0, VerbRoute(HttpVerbs[k], path))
  {
    var t := RouteText(ExpressRoutes, HttpVerbs[k], path, '\'', " (req, res) => {");
    RouteVerbsPrefixFree();
    RouteTextMatches(ExpressRoutes, k, HttpVerbs[k], path, '\'', " (req, res) => {");
    assert t[0..] == t;
  }

  // ---------------------------------------------------------------- the directory scan

  datatype FileResult = FileResult(framework: string, routes: seq<Route>)

  const SourceExtensions: seq<string> := [".py", ".js", ".ts", ".jsx", ".tsx"]

  /** `file.endswith(('.py', '.js', '.ts', '.jsx', '.tsx'))`. */
  predicate IsSourceFile(path: string) {
    exists i :: 0 <= i < |SourceExtensions| && EndsWith(path, SourceExtensions[i])
  }

  /** `analyze_file`, on the file's text. */
  function AnalyzeFile(content: string): FileResult {
    var framework := IdentifyFramework(content);
    FileResult(framework, ExtractRoutes(content, framework))
  }

  /** `framework != "Unknown" or routes`. */
  predicate Worth(r: FileResult) {
    r.framework != Unknown || r.routes != []
  }

  /** Since an unknown framework has no routes, the `or routes` half of the
      guard never decides: a file is kept exactly when its framework is known. */
  lemma WorthIffKnown(content: string)
    ensures Worth(AnalyzeFile(content)) <==> IdentifyFramework(content) != Unknown
  {
  }

  predicate Kept(file: (string, string)) {
    IsSourceFile(file.0) && Worth(AnalyzeFile(file.1))
  }

  /** What scanning one file (path, text) writes: its result when kept. */
  function Scanned(file: (string, string)): Option<FileResult> {
    if Kept(file) then Some(AnalyzeFile(file.1)) else None
  }

  /** The writes of a scan over the files, in walk order. */
  function Writes(files: seq<(string, string)>): (ws: seq<(string, Option<FileResult>)>)
    ensures |ws| == |files|
  {
    seq(|files|, i requires 0 <= i < |files| => (files[i].0, Scanned(files[i])))
  }

  /** The results after the files, (path, text) in walk order, have been
      scanned. */
  function DirectoryResults(files: seq<(string, string)>): Entries<FileResult> {
    PutPresent(Writes(files))
  }

  /** A path has a result exactly when some file at that path was kept; the
      result is that of the last such file, since a later write to the same
      key replaces an earlier one; and no path appears twice. */
  lemma DirectoryResultsLookup(files: seq<(string, string)>, path: string)
    ensures Lookup(DirectoryResults(files), path).None? <==>
      forall i :: 0 <= i < |files| && files[i].0 == path ==> !Kept(files[i])
    ensures forall i :: (0 <= i < |files| && files[i].0 == path && Kept(files[i]) &&
      forall j :: i < j < |files| && files[j].0 == path ==> !Kept(files[j])) ==>
      Lookup(DirectoryResults(files), path) == Some(AnalyzeFile(files[i].1))
    ensures UniqueKeys(DirectoryResults(files))
  {
    var ws := Writes(files);
    PutPresentLookup(ws, path);
    PutPresentUnique(ws);
    assert forall i :: 0 <= i < |files| ==> ws[i] == (files[i].0, Scanned(files[i]));
  }

  /** One more file extends the scan by its write. */
  lemma DirectoryStep(files: seq<(string, string)>, i: nat)
    requires i < |files|
    ensures DirectoryResults(files[..i + 1]) ==
      if Kept(files[i]) then Put(DirectoryResults(files[..i]), files[i].0, AnalyzeFile(files[i].1))
      else DirectoryResults(files[..i])
  {
    assert Writes(files[..i + 1])[..i] == Writes(files[..i]);
  }

  /** `analyze_directory`, over the files a walk yields. */
  method AnalyzeDirectory(files: seq<(string, string)>) returns (results: Entries<FileResult>)
    ensures results == DirectoryResults(files)
  {
    results := [];
    var i := 0;
    while i < |files|
      invariant 0 <= i <= |files|
      invariant results == DirectoryResults(files[..i])
    {
      var (path, content) := files[i];
      DirectoryStep(files, i);
      var isSource := IsSourceFile(path);
      if isSource {
        var framework := IdentifyFramework(content);
        var routes := ExtractRoutes(content, framework);
        if framework != Unknown || routes != [] {
          results := Put(results, path, FileResult(framework, routes));
        }
      }
      i := i + 1;
    }
    assert files[..i] == files;
  }
}
