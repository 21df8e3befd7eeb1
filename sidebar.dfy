/** The navigation sidebar: one row per path, which expands to one row per
    method; clicking a method row reports its endpoint id. */
module Sidebar {
  import opened Text
  import opened OrderedMap
  import opened OpenApi

  /** `getMethodColor`: a switch on the lower-cased method. */
  function MethodColor(verb: string): (colour: string)
    ensures colour in {"text-green-600", "text-blue-600", "text-yellow-600", "text-orange-600", "text-red-600", "text-gray-600"}
  {
    match ToLower(verb)
    case "get" => "text-green-600"
    case "post" => "text-blue-600"
    case "put" => "text-yellow-600"
    case "patch" => "text-orange-600"
    case "delete" => "text-red-600"
    case _ => "text-gray-600"
  }

  /** The colour ignores the method's case, and only the five known methods
      get a colour other than gray. */
  lemma MethodColorCaseInsensitive(verb: string)
    ensures MethodColor(ToUpper(verb)) == MethodColor(verb)
    ensures MethodColor(ToLower(verb)) == MethodColor(verb)
    ensures MethodColor(verb) == "text-gray-600" <==> ToLower(verb) !in {"get", "post", "put", "patch", "delete"}
  {
    LowerForgetsCase(verb);
  }

  /** A mixed-case spelling gets its method's colour. */
  lemma MethodColorExamples()
    ensures MethodColor("GET") == "text-green-600"
    ensures MethodColor("Delete") == "text-red-600"
    ensures MethodColor("options") == "text-gray-600"
  {
    assert ToLower("GET") == "get";
    assert ToLower("Delete") == "delete";
    assert ToLower("options") == "options";
  }

  /** The `expandedPaths` state: path to flag; a missing path is collapsed. */
  type ExpandedPaths = map<string, bool>

  predicate IsExpanded(expanded: ExpandedPaths, path: string) {
    path in expanded && expanded[path]
  }

  /** `togglePath`: `{...prev, [path]: !prev[path]}`, where `!undefined` is true. */
  function TogglePath(expanded: ExpandedPaths, path: string): ExpandedPaths {
    expanded[path := !IsExpanded(expanded, path)]
  }

  /** Toggling flips the given path and leaves every other key, present or
      not, exactly as it was. */
  lemma ToggleOnlyThisPath(expanded: ExpandedPaths, path: string)
    ensures var t := TogglePath(expanded, path);
      IsExpanded(t, path) == !IsExpanded(expanded, path) &&
      t.Keys == expanded.Keys + {path} &&
      forall q :: q != path ==> (q in t <==> q in expanded) && (q in t ==> t[q] == expanded[q])
  {
  }

  /** Toggling a path twice restores what every path shows. */
  lemma ToggleTwice(expanded: ExpandedPaths, path: string)
    ensures forall q :: IsExpanded(TogglePath(TogglePath(expanded, path), path), q) == IsExpanded(expanded, q)
  {
    ToggleOnlyThisPath(expanded, path);
    ToggleOnlyThisPath(TogglePath(expanded, path), path);
  }

  /** A rendered list item: a path header, or a method row with its caption (the upper-cased method),
      colour and the id it reports when clicked. */
  datatype Row =
    | PathRow(path: string, expanded: bool)
    | EndpointRow(caption: string, colour: string, path: string, id: string)

  function EndpointItem(verb: string, path: string): Row {
    EndpointRow(ToUpper(verb), MethodColor(verb), path, EndpointId(verb, path))
  }

  /** The rows of one path: its header, then its methods in order when expanded. */
  function PathRows(path: string, methods: Entries<Operation>, expanded: ExpandedPaths): (rows: seq<Row>)
    ensures |rows| >= 1 && rows[0] == PathRow(path, IsExpanded(expanded, path))
  {
    [PathRow(path, IsExpanded(expanded, path))]
    + if IsExpanded(expanded, path) then seq(|methods|, i requires 0 <= i < |methods| => EndpointItem(methods[i].0, path)) else []
  }

  /** `renderEndpoints`, paths in document order. */
  function Rows(paths: Paths, expanded: ExpandedPaths): seq<Row>
    decreases |paths|
  {
    if paths == [] then []
    else
      var last := paths[|paths| - 1];
      Rows(paths[..|paths| - 1], expanded) + PathRows(last.0, last.1, expanded)
  }

  /** The paths the header rows show, in order. */
  function ShownPaths(rows: seq<Row>): seq<string>
    decreases |rows|
  {
    if rows == [] then []
    else ShownPaths(rows[..|rows| - 1]) + (if rows[|rows| - 1].PathRow? then [rows[|rows| - 1].path] else [])
  }

  /** The ids the method rows report, in order. */
  function ShownIds(rows: seq<Row>): seq<string>
    decreases |rows|
  {
    if rows == [] then []
    else ShownIds(rows[..|rows| - 1]) + (if rows[|rows| - 1].EndpointRow? then [rows[|rows| - 1].id] else [])
  }

  lemma {:induction false} ShownPathsAppend(a: seq<Row>, b: seq<Row>)
    ensures ShownPaths(a + b) == ShownPaths(a) + ShownPaths(b)
    decreases |b|
  {
    if b == [] {
      assert a + b == a;
    } else {
      var n := |b|;
      ShownPathsAppend(a, b[..n - 1]);
      assert (a + b)[..|a + b| - 1] == a + b[..n - 1];
      assert (a + b)[|a + b| - 1] == b[n - 1];
    }
  }

  lemma {:induction false} ShownIdsAppend(a: seq<Row>, b: seq<Row>)
    ensures ShownIds(a + b) == ShownIds(a) + ShownIds(b)
    decreases |b|
  {
    if b == [] {
      assert a + b == a;
    } else {
      var n := |b|;
      ShownIdsAppend(a, b[..n - 1]);
      assert (a + b)[..|a + b| - 1] == a + b[..n - 1];
      assert (a + b)[|a + b| - 1] == b[n - 1];
    }
  }

  /** What the rows show is what each part of them shows, in order. */
  lemma ShownAppend(a: seq<Row>, b: seq<Row>)
    ensures ShownPaths(a + b) == ShownPaths(a) + ShownPaths(b)
    ensures ShownIds(a + b) == ShownIds(a) + ShownIds(b)
  {
    ShownPathsAppend(a, b);
    ShownIdsAppend(a, b);
  }

  /** The paths that are expanded, in document order. */
  function ExpandedOnly(paths: Paths, expanded: ExpandedPaths): Paths
    decreases |paths|
  {
    if paths == [] then []
    else
      var last := paths[|paths| - 1];
      ExpandedOnly(paths[..|paths| - 1], expanded) + (if IsExpanded(expanded, last.0) then [last] else [])
  }

  function Ids(es: seq<Endpoint>): (ids: seq<string>)
    ensures |ids| == |es|
  {
    seq(|es|, i requires 0 <= i < |es| => EndpointId(es[i].verb, es[i].path))
  }

  /** A path's rows show that path once. */
  lemma ShownPathsInPath(path: string, methods: Entries<Operation>, expanded: ExpandedPaths)
    ensures ShownPaths(PathRows(path, methods, expanded)) == [path]
  {
    ShownInPath(path, methods, expanded);
  }

  lemma ShownInPath(path: string, methods: Entries<Operation>, expanded: ExpandedPaths)
    ensures ShownPaths(PathRows(path, methods, expanded)) == [path]
    ensures ShownIds(PathRows(path, methods, expanded))
         == if IsExpanded(expanded, path) then Ids(PathEndpoints(path, methods)) else []
  {
    var items := if IsExpanded(expanded, path) then seq(|methods|, i requires 0 <= i < |methods| => EndpointItem(methods[i].0, path)) else [];
    ShownAppend([PathRow(path, IsExpanded(expanded, path))], items);
    assert ShownPaths([PathRow(path, IsExpanded(expanded, path))]) == [path] by {
      assert [PathRow(path, IsExpanded(expanded, path))][..0] == [];
    }
    assert ShownIds([PathRow(path, IsExpanded(expanded, path))]) == [] by {
      assert [PathRow(path, IsExpanded(expanded, path))][..0] == [];
    }
    ItemsShown(path, methods, |methods|);
    assert methods[..|methods|] == methods;
  }

  lemma {:induction false} ItemsShown(path: string, methods: Entries<Operation>, k: nat)
    requires k <= |methods|
    ensures var items := seq(k, i requires 0 <= i < k => EndpointItem(methods[i].0, path));
      ShownPaths(items) == [] && ShownIds(items) == Ids(PathEndpoints(path, methods[..k]))
    decreases k
  {
    var items := seq(k, i requires 0 <= i < k => EndpointItem(methods[i].0, path));
    if k > 0 {
      ItemsShown(path, methods, k - 1);
      var prev := seq(k - 1, i requires 0 <= i < k - 1 => EndpointItem(methods[i].0, path));
      assert items[..k - 1] == prev;
      assert methods[..k][..k - 1] == methods[..k - 1];
    }
  }

  lemma IdsAppend(a: seq<Endpoint>, b: seq<Endpoint>)
    ensures Ids(a + b) == Ids(a) + Ids(b)
  {
  }

  /** The header rows show every path of the document once, in document order. */
  lemma {:induction false} RowsShowPaths(paths: Paths, expanded: ExpandedPaths)
    ensures ShownPaths(Rows(paths, expanded)) == Keys(paths)
    decreases |paths|
  {
    if paths != [] {
      var n := |paths|;
      var last := paths[n - 1];
      RowsShowPaths(paths[..n - 1], expanded);
      ShownPathsAppend(Rows(paths[..n - 1], expanded), PathRows(last.0, last.1, expanded));
      ShownPathsInPath(last.0, last.1, expanded);
      KeysSnoc(paths);
    }
  }

  /** The method rows are exactly the endpoints of the expanded paths, in the
      endpoints' order, each reporting `method-path`. */
  lemma {:induction false} RowsShowEndpoints(paths: Paths, expanded: ExpandedPaths)
    ensures ShownIds(Rows(paths, expanded)) == Ids(Endpoints(ExpandedOnly(paths, expanded)))
    decreases |paths|
  {
    if paths != [] {
      var n := |paths|;
      var last := paths[n - 1];
      RowsShowEndpoints(paths[..n - 1], expanded);
      ShownIdsAppend(Rows(paths[..n - 1], expanded), PathRows(last.0, last.1, expanded));
      ShownInPath(last.0, last.1, expanded);
      var front := ExpandedOnly(paths[..n - 1], expanded);
      if IsExpanded(expanded, last.0) {
        var all := front + [last];
        assert all[..|all| - 1] == front;
        assert Endpoints(all) == Endpoints(front) + PathEndpoints(last.0, last.1);
        IdsAppend(Endpoints(front), PathEndpoints(last.0, last.1));
      } else {
        assert ExpandedOnly(paths, expanded) == front + [];
        assert ShownIds(PathRows(last.0, last.1, expanded)) == [];
        var before := ShownIds(Rows(paths[..n - 1], expanded));
        assert ShownIds(Rows(paths, expanded)) == before + [];
        assert before + [] == before;
        assert front + [] == front;
        assert ExpandedOnly(paths, expanded) == front;
      }
    }
  }

  /** With every path expanded, the sidebar lists every endpoint of the
      document, in the order the documentation and the usage pane use. */
  lemma {:induction false} ExpandedOnlyAll(paths: Paths, expanded: ExpandedPaths)
    requires forall i :: 0 <= i < |paths| ==> IsExpanded(expanded, paths[i].0)
    ensures ExpandedOnly(paths, expanded) == paths
    decreases |paths|
  {
    if paths != [] {
      var n := |paths|;
      ExpandedOnlyAll(paths[..n - 1], expanded);
      assert paths[..n - 1] + [paths[n - 1]] == paths;
    }
  }

  /** With no path expanded, only the path headers are listed. */
  lemma {:induction false} NothingExpanded(paths: Paths)
    ensures ShownIds(Rows(paths, map[])) == []
    ensures |Rows(paths, map[])| == |paths|
    decreases |paths|
  {
    if paths != [] {
      NothingExpanded(paths[..|paths| - 1]);
      var last := paths[|paths| - 1];
      ShownAppend(Rows(paths[..|paths| - 1], map[]), PathRows(last.0, last.1, map[]));
      ShownInPath(last.0, last.1, map[]);
    }
  }
}
