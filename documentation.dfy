/** The Documentation pane's formatted view: a heading and description for the
    API, one section per endpoint, and an Authentication section. The text of
    each rendered element is modelled as a `Block`. */
module Documentation {
  import opened Wrappers
  import opened Text
  import opened OrderedMap
  import opened OpenApi

  /** One rendered element: `h2`/`h3`/`h4` headings, paragraphs and list items. */
  datatype Block = Heading(level: nat, text: string) | Paragraph(text: string) | Item(text: string)

  /** Why the request body schema of an operation could not be shown. Each
      case is a property read on `undefined` in the component. */
  datatype RefError =
    | NoSchemaRef
    | UnknownSchema(name: string)
    | NoProperties(name: string)

  datatype DocError = RequestBodyError(endpoint: string, reason: RefError)

  /** The formatted view: title heading, description paragraph, the endpoint
      sections in document order, then the Authentication blocks. */
  datatype Docs = Docs(title: Block, description: Block, sections: seq<seq<Block>>, authentication: seq<Block>)

  /** How React renders a value placed in markup: booleans and `null` render
      nothing, strings and numbers render as text. */
  function Rendered(v: Value): string {
    match v
    case Str(s) => s
    case Int(i) => IntToString(i)
    case Bool(_) => ""
    case Null => ""
  }

  /** `$ref.split('/').pop()`: the schema name is the last `/`-separated segment. */
  function SchemaName(ref: string): string {
    LastSegment(ref, '/')
  }

  /** The property names of the request body schema, looked up by the last
      segment of its `$ref` in `components.schemas`. */
  function ResolveRequestBody(schemas: Entries<Schema>, body: RequestBody): Result<seq<string>, RefError> {
    match body.schemaRef
    case None => Failure(NoSchemaRef)
    case Some(ref) =>
      var name := SchemaName(ref);
      match Lookup(schemas, name)
      case None => Failure(UnknownSchema(name))
      case Some(schema) =>
        match schema.properties
        case None => Failure(NoProperties(name))
        case Some(props) => Success(props)
  }

  /** Only the last segment of a reference matters: any prefix before the last
      `/` resolves like the canonical `#/components/schemas/` one; and a
      reference to a declared schema with properties resolves to exactly those
      property names. */
  lemma ResolveIgnoresPrefix(schemas: Entries<Schema>, prefix: string, name: string)
    requires '/' !in name
    ensures ResolveRequestBody(schemas, RequestBody(Some(prefix + "/" + name)))
         == ResolveRequestBody(schemas, RequestBody(Some("#/components/schemas/" + name)))
    ensures ResolveRequestBody(schemas, RequestBody(Some(prefix + "/" + name))).Success?
        <==> Lookup(schemas, name).Some? && Lookup(schemas, name).value.properties.Some?
  {
    LastSegmentIgnoresPrefix(prefix, '/', name);
    LastSegmentIgnoresPrefix("#/components/schemas", '/', name);
    assert "#/components/schemas/" + name == "#/components/schemas" + ['/'] + name;
    assert prefix + "/" + name == prefix + ['/'] + name;
    LookupPresent(schemas, name);
  }

  /** With unique schema names, a reference to the schema declared at position
      `i` shows that schema's property names. */
  lemma ResolveDeclared(schemas: Entries<Schema>, i: nat, prefix: string, props: seq<string>)
    requires UniqueKeys(schemas) && i < |schemas|
    requires '/' !in schemas[i].0 && schemas[i].1.properties == Some(props)
    ensures ResolveRequestBody(schemas, RequestBody(Some(prefix + "/" + schemas[i].0))) == Success(props)
  {
    var name := schemas[i].0;
    LastSegmentIgnoresPrefix(prefix, '/', name);
    assert prefix + "/" + name == prefix + ['/'] + name;
    assert name in Keys(schemas) by {
      assert Keys(schemas)[i] == name;
    }
    LookupPresent(schemas, name);
  }

  // ---------------------------------------------------------------- one endpoint

  const AuthNote := "Note: Requires authentication"

  /** `param.required ? 'required' : 'optional'`. */
  function RequiredWord(required: Option<bool>): string {
    if required == Some(true) then "required" else "optional"
  }

  /** ` (a, b, c)` when the schema has an `enum` (an empty one included). */
  function EnumText(schema: Option<Schema>): string {
    if schema.Some? && schema.value.enumValues.Some? then
      var vs := schema.value.enumValues.value;
      " (" + Join(seq(|vs|, i requires 0 <= i < |vs| => JoinDisplay(vs[i])), ", ") + ")"
    else ""
  }

  /** `param.schema.default && <span> (default: …)</span>`: the span for a truthy
      default; a falsy `0` is itself rendered, other falsy values render nothing. */
  function DefaultText(schema: Option<Schema>): string {
    if schema.None? || schema.value.defaultValue.None? then ""
    else
      var d := schema.value.defaultValue.value;
      if Truthy(d) then " (default: " + Rendered(d) + ")"
      else if d == Int(0) then "0"
      else ""
  }

  /** The list item of one parameter. */
  function ParameterLine(p: Parameter): string {
    p.name + " (" + p.location + ", " + RequiredWord(p.required) + "):"
    + p.description.GetOr("") + EnumText(p.schema) + DefaultText(p.schema)
  }

  /** The item names the parameter, its location and whether it is required,
      then its description; the enum part is present exactly when the schema
      has an `enum`; the default part is the span for a truthy default, `0`
      for a zero default, and nothing otherwise. */
  lemma ParameterLineParts(p: Parameter)
    ensures StartsWith(ParameterLine(p), p.name + " (" + p.location + ", " + RequiredWord(p.required) + "):" + p.description.GetOr(""))
    ensures RequiredWord(p.required) == "required" <==> p.required == Some(true)
    ensures EnumText(p.schema) != "" <==> p.schema.Some? && p.schema.value.enumValues.Some?
    ensures EndsWith(ParameterLine(p), DefaultText(p.schema))
    ensures DefaultText(p.schema) == ""
        <==> p.schema.None? || p.schema.value.defaultValue.None? ||
             (!Truthy(p.schema.value.defaultValue.value) && p.schema.value.defaultValue.value != Int(0))
  {
    var head := p.name + " (" + p.location + ", " + RequiredWord(p.required) + "):" + p.description.GetOr("");
    ConcatEnds(head + EnumText(p.schema), DefaultText(p.schema));
    ConcatEnds(head, EnumText(p.schema));
    StartsWithTrans(ParameterLine(p), head + EnumText(p.schema), head);
    assert "required" != "optional" by {
      assert "required"[0] != "optional"[0];
    }
  }

  function ParameterBlocks(parameters: Option<seq<Parameter>>): seq<Block> {
    if parameters.None? || parameters.value == [] then []
    else
      var ps := parameters.value;
      [Heading(4, "Parameters:")] + seq(|ps|, i requires 0 <= i < |ps| => Item(ParameterLine(ps[i])))
  }

  function SecurityBlocks(security: Option<seq<SecurityRequirement>>): seq<Block> {
    if security.Some? && |security.value| > 0 then [Paragraph(AuthNote)] else []
  }

  function RequestBodyBlocks(properties: Option<seq<string>>): seq<Block> {
    if properties.None? then []
    else [Heading(4, "Request Body:"), Paragraph("JSON object containing: " + Join(properties.value, ", "))]
  }

  /** `EndpointSection`, given the resolved property names of its request body. */
  function SectionBlocks(e: Endpoint, properties: Option<seq<string>>): seq<Block> {
    [Heading(3, e.op.summary.GetOr("")), Paragraph(ToUpper(e.verb) + " " + e.path), Paragraph(e.op.description.GetOr(""))]
    + SecurityBlocks(e.op.security)
    + ParameterBlocks(e.op.parameters)
    + RequestBodyBlocks(properties)
  }

  function ParameterCount(parameters: Option<seq<Parameter>>): nat {
    if parameters.None? then 0 else |parameters.value|
  }

  function NoteCount(security: Option<seq<SecurityRequirement>>): nat {
    if security.Some? && |security.value| > 0 then 1 else 0
  }

  /** The section of an endpoint opens with its summary, its `METHOD path` line
      and its description, and has one block per part that is shown. */
  lemma SectionLength(e: Endpoint, properties: Option<seq<string>>)
    ensures var blocks := SectionBlocks(e, properties);
      var n := ParameterCount(e.op.parameters);
      |blocks| == 3 + NoteCount(e.op.security) + (if n > 0 then 1 + n else 0) + (if properties.Some? then 2 else 0) &&
      blocks[0] == Heading(3, e.op.summary.GetOr("")) &&
      blocks[1] == Paragraph(ToUpper(e.verb) + " " + e.path) &&
      blocks[2] == Paragraph(e.op.description.GetOr(""))
  {
  }

  /** The authentication note stands at position 3 exactly when the operation
      lists a security requirement. */
  lemma SectionNote(e: Endpoint, properties: Option<seq<string>>)
    ensures var blocks := SectionBlocks(e, properties);
      (|blocks| > 3 && blocks[3] == Paragraph(AuthNote)) <==> NoteCount(e.op.security) == 1
  {
    var top := [Heading(3, e.op.summary.GetOr("")), Paragraph(ToUpper(e.verb) + " " + e.path), Paragraph(e.op.description.GetOr(""))];
    var p := ParameterBlocks(e.op.parameters);
    var b := RequestBodyBlocks(properties);
    var blocks := SectionBlocks(e, properties);
    if NoteCount(e.op.security) == 0 && |blocks| > 3 {
      assert blocks == top + (p + b);
      assert blocks[3] == (p + b)[0];
      assert (p + b)[0].Heading?;
    }
  }

  /** With parameters, the Parameters heading follows the note (if any) and
      one item per parameter follows it, in declaration order. */
  lemma SectionParameters(e: Endpoint, properties: Option<seq<string>>)
    requires ParameterCount(e.op.parameters) > 0
    ensures var blocks := SectionBlocks(e, properties);
      var k := 3 + NoteCount(e.op.security);
      |blocks| > k + |e.op.parameters.value| &&
      blocks[k] == Heading(4, "Parameters:") &&
      forall i :: 0 <= i < |e.op.parameters.value| ==> blocks[k + 1 + i] == Item(ParameterLine(e.op.parameters.value[i]))
  {
    var top := [Heading(3, e.op.summary.GetOr("")), Paragraph(ToUpper(e.verb) + " " + e.path), Paragraph(e.op.description.GetOr(""))];
    var front := top + SecurityBlocks(e.op.security);
    var ps := e.op.parameters.value;
    var p := ParameterBlocks(e.op.parameters);
    var b := RequestBodyBlocks(properties);
    var blocks := SectionBlocks(e, properties);
    assert blocks == front + p + b;
    assert |front| == 3 + NoteCount(e.op.security);
    assert blocks[|front|] == p[0];
    forall i | 0 <= i < |ps|
      ensures blocks[|front| + 1 + i] == Item(ParameterLine(ps[i]))
    {
      assert blocks[|front| + (1 + i)] == p[1 + i];
    }
  }

  /** The Request Body heading is second to last exactly when a body is shown,
      and the last block then lists its property names. */
  lemma SectionRequestBody(e: Endpoint, properties: Option<seq<string>>)
    ensures var blocks := SectionBlocks(e, properties);
      (blocks[|blocks| - 2] == Heading(4, "Request Body:") <==> properties.Some?) &&
      (properties.Some? ==> blocks[|blocks| - 1] == Paragraph("JSON object containing: " + Join(properties.value, ", ")))
  {
    var top := [Heading(3, e.op.summary.GetOr("")), Paragraph(ToUpper(e.verb) + " " + e.path), Paragraph(e.op.description.GetOr(""))];
    var front := top + SecurityBlocks(e.op.security);
    var p := ParameterBlocks(e.op.parameters);
    var b := RequestBodyBlocks(properties);
    var blocks := SectionBlocks(e, properties);
    if properties.None? {
      assert blocks == front + p;
      if |p| == 0 {
        assert blocks[|blocks| - 2] == front[|front| - 2];
        assert front[|front| - 2].Paragraph?;
      } else if |p| == 2 {
        assert blocks[|blocks| - 2] == Heading(4, "Parameters:");
        assert "Parameters:"[0] != "Request Body:"[0];
      } else {
        assert blocks[|blocks| - 2] == p[|p| - 2];
        assert p[|p| - 2].Item?;
      }
    } else {
      assert blocks == (front + p) + b;
    }
  }

  // ---------------------------------------------------------------- the document

  /** The section of one endpoint, failing when its request body schema cannot
      be resolved. */
  function EndpointSection(schemas: Entries<Schema>, e: Endpoint): Result<seq<Block>, DocError> {
    if e.op.requestBody.None? then Success(SectionBlocks(e, None))
    else
      match ResolveRequestBody(schemas, e.op.requestBody.value)
      case Failure(reason) => Failure(RequestBodyError(EndpointId(e.verb, e.path), reason))
      case Success(props) => Success(SectionBlocks(e, Some(props)))
  }

  predicate BodyResolves(schemas: Entries<Schema>, e: Endpoint) {
    e.op.requestBody.None? || ResolveRequestBody(schemas, e.op.requestBody.value).Success?
  }

  /** The sections of a run of endpoints; the first failing endpoint fails the
      whole view. */
  function Sections(schemas: Entries<Schema>, es: seq<Endpoint>): (r: Result<seq<seq<Block>>, DocError>)
    ensures r.Success? <==> forall i :: 0 <= i < |es| ==> BodyResolves(schemas, es[i])
    ensures r.Success? ==>
      |r.value| == |es| &&
      forall i :: 0 <= i < |es| ==> EndpointSection(schemas, es[i]) == Success(r.value[i])
    decreases |es|
  {
    if es == [] then Success([])
    else
      match EndpointSection(schemas, es[0])
      case Failure(err) => Failure(err)
      case Success(first) =>
        match Sections(schemas, es[1..])
        case Failure(err) =>
          assert exists i :: 0 <= i < |es| - 1 && !BodyResolves(schemas, es[1..][i]);
          Failure(err)
        case Success(rest) =>
          assert forall i :: 1 <= i < |es| ==> es[i] == es[1..][i - 1];
          Success([first] + rest)
  }

  /** One pair of paragraphs per security scheme, in declaration order. */
  function SchemeBlocks(schemes: Entries<SecurityScheme>): (r: seq<Block>)
    ensures |r| == 2 * |schemes|
    ensures forall i :: 0 <= i < |schemes| ==>
      r[2 * i] == Paragraph("Some endpoints require authentication using " + schemes[i].1.schemeType + ".") &&
      r[2 * i + 1] == Paragraph("Include the " + schemes[i].1.schemeType + " in the " + schemes[i].1.name.GetOr("")
        + " " + schemes[i].1.location.GetOr("") + " of your requests.")
    decreases |schemes|
  {
    if schemes == [] then []
    else
      var s := schemes[0].1;
      var rest := SchemeBlocks(schemes[1..]);
      assert forall i :: 1 <= i < |schemes| ==> schemes[i] == schemes[1..][i - 1];
      [Paragraph("Some endpoints require authentication using " + s.schemeType + "."),
       Paragraph("Include the " + s.schemeType + " in the " + s.name.GetOr("") + " " + s.location.GetOr("") + " of your requests.")]
      + rest
  }

  /** The Authentication section: present whenever `securitySchemes` is, even
      when it declares no scheme. */
  function Authentication(schemes: Option<Entries<SecurityScheme>>): (r: seq<Block>)
    ensures r == [] <==> schemes.None?
    ensures schemes.Some? ==> |r| == 1 + 2 * |schemes.value| && r[0] == Heading(3, "Authentication")
  {
    if schemes.None? then [] else [Heading(3, "Authentication")] + SchemeBlocks(schemes.value)
  }

  /** `FormattedDocs`. */
  function FormattedDocs(doc: Document): Result<Docs, DocError> {
    match Sections(doc.components.schemas, Endpoints(doc.paths))
    case Failure(err) => Failure(err)
    case Success(sections) =>
      Success(Docs(
        Heading(2, doc.info.title + " Documentation"),
        Paragraph(doc.info.description.GetOr("")),
        sections,
        Authentication(doc.components.securitySchemes)))
  }

  /** The view renders iff every request body of the document resolves; it
      then has one section per endpoint in document order, each opening with
      that endpoint's `METHOD path` line and showing its resolved properties. */
  lemma FormattedDocsSections(doc: Document)
    ensures var es := Endpoints(doc.paths);
      var schemas := doc.components.schemas;
      FormattedDocs(doc).Success? <==> forall i :: 0 <= i < |es| ==> BodyResolves(schemas, es[i])
    ensures var es := Endpoints(doc.paths);
      var schemas := doc.components.schemas;
      FormattedDocs(doc).Success? ==>
        var docs := FormattedDocs(doc).value;
        docs.title == Heading(2, doc.info.title + " Documentation") &&
        |docs.sections| == |es| &&
        forall i :: 0 <= i < |es| ==>
          |docs.sections[i]| >= 3 &&
          docs.sections[i][1] == Paragraph(ToUpper(es[i].verb) + " " + es[i].path) &&
          (es[i].op.requestBody.Some? ==>
            docs.sections[i] == SectionBlocks(es[i], Some(ResolveRequestBody(schemas, es[i].op.requestBody.value).value)))
  {
    var es := Endpoints(doc.paths);
    var schemas := doc.components.schemas;
    var r := Sections(schemas, es);
    assert FormattedDocs(doc).Success? <==> r.Success?;
    if r.Success? {
      var docs := Docs(
        Heading(2, doc.info.title + " Documentation"),
        Paragraph(doc.info.description.GetOr("")),
        r.value,
        Authentication(doc.components.securitySchemes));
      assert FormattedDocs(doc) == Success(docs);
      forall i | 0 <= i < |es|
        ensures |docs.sections[i]| >= 3
        ensures docs.sections[i][1] == Paragraph(ToUpper(es[i].verb) + " " + es[i].path)
        ensures es[i].op.requestBody.Some? ==>
          docs.sections[i] == SectionBlocks(es[i], Some(ResolveRequestBody(schemas, es[i].op.requestBody.value).value))
      {
        assert EndpointSection(schemas, es[i]) == Success(r.value[i]);
        var props := if es[i].op.requestBody.None? then None
          else Some(ResolveRequestBody(schemas, es[i].op.requestBody.value).value);
        assert docs.sections[i] == SectionBlocks(es[i], props);
        SectionLength(es[i], props);
      }
    }
  }
}
