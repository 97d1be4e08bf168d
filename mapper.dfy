/**
 * The reference conversion (OpenApiMapper.convert, OpenApiMapper.java:51-192):
 * one tool per operation, paths in document order and operations in method
 * order, every failure aborting the whole conversion.
 */
module Mapper {
  import opened Wrappers
  import opened Json
  import opened OpenApi
  import opened Slug
  import opened Endpoint
  import opened Resolver
  import opened Operations
  import opened Parameters
  import opened Body
  import opened Assembly
  import opened Traversal

  /** The tool's text (:76-77): the summary, else the description, else "<METHOD> <path>". */
  function Summary(pathKey: string, m: HttpMethod, op: Operation): string
  {
    op.summary.GetOr(op.description.GetOr(MethodName(m) + " " + pathKey))
  }

  /** bodyRequired (:142-143): a present request body's null required flag is unboxed and throws. */
  function BodyRequired(body: Option<RequestBody>): Result<bool, Error>
  {
    match body
    case None => Ok(false)
    case Some(rb) =>
      match rb.required
      case None => Err(NullPointer(OpenApi.BodyRequired))
      case Some(req) => Ok(req)
  }

  /** The body node (:148-153): built only for JSON content, from the preferred schema resolved once here and again inside. */
  function BodyNode(v: Variant, comps: Option<Components>, body: Option<RequestBody>): Result<Option<Json>, Error>
  {
    if HasJsonBody(body) then
      var node :- BodyObject(v, comps, Resolve(comps, PreferJsonSchema(body.value.content)));
      Ok(Some(node))
    else
      Ok(None)
  }

  /** One tool (:76-189); parameters fail first, then the body's required flag, then the body. */
  function ToolFor(comps: Option<Components>, baseUrl: string, pathKey: string, item: PathItem, m: HttpMethod, op: Operation)
    : Result<Tool, Error>
  {
    var text := Summary(pathKey, m, op);
    var buckets :- ClassifyAll(NoBuckets, MergedParameters(item, op));
    var bodyRequired :- BodyRequired(op.requestBody);
    var body :- BodyNode(Reference, comps, op.requestBody);
    Ok(Tool(ToSnakeCase(Some(text)), text, MethodName(m), Concat(Some(baseUrl), Some(pathKey)),
            InputSchema(buckets, body, bodyRequired)))
  }

  /** The body of the operation loop of :70-190. */
  method BuildTool(comps: Option<Components>, baseUrl: string, pathKey: string, item: PathItem, m: HttpMethod, op: Operation)
    returns (r: Result<Tool, Error>)
    ensures r == ToolFor(comps, baseUrl, pathKey, item, m, op)
  {
    var text := Summary(pathKey, m, op);
    var buckets :- ClassifyParameters(MergedParameters(item, op));
    var bodyRequired :- BodyRequired(op.requestBody);
    var body: Option<Json> := None;
    if HasJsonBody(op.requestBody) {
      var schema: Option<Schema>;
      ghost var hops: nat;
      schema, hops := ResolveSchema(comps, PreferJsonSchema(op.requestBody.value.content));
      var node :- SchemaToBodyObject(Reference, comps, schema);
      body := Some(node);
    }
    r := Ok(Tool(ToSnakeCase(Some(text)), text, MethodName(m), Concat(Some(baseUrl), Some(pathKey)),
                 InputSchema(buckets, body, bodyRequired)));
  }

  /** The reference tool builder, for the walk over paths and operations. */
  function Build(comps: Option<Components>, baseUrl: string): Builder
  {
    (pathKey: string, item: PathItem, m: HttpMethod, op: Operation) => ToolFor(comps, baseUrl, pathKey, item, m, op)
  }

  /** The tool set name (:57): the slug of the title, or of "toolset". */
  function ToolSetName(doc: Document): string
  {
    ToSnakeCase(Some(if doc.info.Some? then doc.info.value.title.GetOr("toolset") else "toolset"))
  }

  /** The conversion; a document the parser could not produce is a failure (:45-49). */
  function ConvertDocument(doc: Option<Document>): Result<ToolSet, Error>
  {
    match doc
    case None => Err(ParseFailed)
    case Some(api) =>
      var description := ToSnakeCase(Some(if api.info.Some? then api.info.value.description.GetOr("") else ""));
      var tools :- AllTools(Build(api.components, BaseUrl(api)), false, api.paths.GetOr([]));
      Ok(ToolSet(ToolSetName(api), description, tools))
  }

  /** The operation loop of :70-190 for one path item. */
  method PathItemTools(comps: Option<Components>, baseUrl: string, pathKey: string, item: PathItem)
    returns (r: Result<seq<Tool>, Error>)
    ensures r == PathTools(Build(comps, baseUrl), pathKey, item, OperationsIn(item, MethodOrder))
  {
    var build := Build(comps, baseUrl);
    var ops := OperationsOf(item);
    var tools: seq<Tool> := [];
    JoinEmpty(PathTools(build, pathKey, item, ops));
    for j := 0 to |ops|
      invariant PathTools(build, pathKey, item, ops) == Join(Ok(tools), PathTools(build, pathKey, item, ops[j..]))
    {
      assert ops[j..][1..] == ops[j + 1..];
      var tool :- BuildTool(comps, baseUrl, pathKey, item, ops[j].0, ops[j].1);
      assert build(pathKey, item, ops[j].0, ops[j].1) == Ok(tool);
      PathToolsStep(build, pathKey, item, ops, j, tools, tool);
      tools := tools + [tool];
    }
    assert tools + [] == tools;
    r := Ok(tools);
  }

  /** convert: the loop over paths appending each path item's tools to the tools array. */
  method Convert(doc: Option<Document>) returns (r: Result<ToolSet, Error>)
    ensures r == ConvertDocument(doc)
  {
    if doc.None? {
      return Err(ParseFailed);
    }
    var api := doc.value;
    var baseUrl := BaseUrl(api);
    var build := Build(api.components, baseUrl);
    var name := ToolSetName(api);
    var description := ToSnakeCase(Some(if api.info.Some? then api.info.value.description.GetOr("") else ""));
    var tools: seq<Tool> := [];
    var paths := api.paths.GetOr([]);
    JoinEmpty(AllTools(build, false, paths));
    for i := 0 to |paths|
      invariant AllTools(build, false, paths) == Join(Ok(tools), AllTools(build, false, paths[i..]))
    {
      assert paths[i..][1..] == paths[i + 1..];
      if paths[i].1.None? {
        return Err(MissingPathItem(paths[i].0));
      }
      var item := paths[i].1.value;
      var more :- PathItemTools(api.components, baseUrl, paths[i].0, item);
      JoinAssoc(Ok(tools), Ok(more), AllTools(build, false, paths[i + 1..]));
      tools := tools + more;
    }
    assert tools + [] == tools;
    r := Ok(ToolSet(name, description, tools));
  }

  // ---------------------------------------------------------------------------
  // What a conversion promises

  /**
   * A parsed document converts exactly when no path item is null and every
   * operation's tool builds; the tools are then one per operation, in path
   * order and method order; the name is the slug of the title (or "toolset")
   * and the description the slug of the description (or of ""), both
   * well-formed slugs. No document, no tool set.
   */
  lemma ConvertSpec(api: Document)
    ensures ConvertDocument(None) == Err(ParseFailed)
    ensures var paths := api.paths.GetOr([]);
      ConvertDocument(Some(api)).Ok? <==>
        NoNullItems(paths) && AllBuild(Build(api.components, BaseUrl(api)), Slots(paths))
    ensures var r := ConvertDocument(Some(api));
      r.Ok? ==>
        && BuiltFrom(Build(api.components, BaseUrl(api)), Slots(api.paths.GetOr([])), r.value.tools)
        && r.value.name == ToSnakeCase(Some(if api.info.Some? then api.info.value.title.GetOr("toolset") else "toolset"))
        && r.value.description == ToSnakeCase(Some(if api.info.Some? then api.info.value.description.GetOr("") else ""))
        && IsSlug(r.value.name) && IsSlug(r.value.description)
  {
    var info := api.info;
    AllToolsSpec(Build(api.components, BaseUrl(api)), false, api.paths.GetOr([]));
    SlugIsWellFormed(Some(if info.Some? then info.value.title.GetOr("toolset") else "toolset"));
    SlugIsWellFormed(Some(if info.Some? then info.value.description.GetOr("") else ""));
  }

  /** A null path item aborts the whole conversion (:64-67). */
  lemma NullPathItemAborts(api: Document, i: nat)
    requires api.paths.Some? && i < |api.paths.value| && api.paths.value[i].1.None?
    ensures ConvertDocument(Some(api)).Err?
  {
    NullItemFails(Build(api.components, BaseUrl(api)), api.paths.value, i);
  }

  /** A document without paths converts to an empty tool set. */
  lemma NoPathsNoTools(api: Document)
    requires api.paths.None? || api.paths.value == []
    ensures ConvertDocument(Some(api)).Ok? && ConvertDocument(Some(api)).value.tools == []
  {
    assert api.paths.GetOr([]) == [];
  }

  /** Without info the tool set is named "toolset" (:57). */
  lemma DefaultToolSetName(api: Document)
    requires api.info.None?
    ensures ToolSetName(api) == "toolset"
  {
    var w := "toolset";
    assert AllSlugChars(w) by {
      assert forall i :: 0 <= i < |w| ==> IsWordChar(w[i]);
    }
    assert NoDoubleUnderscore(w) by {
      assert forall i :: 0 <= i < |w| ==> w[i] != '_';
    }
    SlugIdempotent(w);
  }

  /** Without info (or its description) the tool set's description is the slug of "", that is "tool" (:58). */
  lemma DefaultToolSetDescription(api: Document)
    requires api.info.None? || api.info.value.description.None?
    ensures ConvertDocument(Some(api)).Ok? ==> ConvertDocument(Some(api)).value.description == "tool"
  {
    EmptySlug();
  }

  /**
   * A tool's identity (:76-86): its description is the summary, else the
   * operation's description, else "<METHOD> <path>"; its name is that text as a
   * slug; its request method is the method's name; its endpoint joins the base
   * URL and the path key.
   */
  lemma ToolIdentity(comps: Option<Components>, baseUrl: string, pathKey: string, item: PathItem, m: HttpMethod, op: Operation)
    requires ToolFor(comps, baseUrl, pathKey, item, m, op).Ok?
    ensures var t := ToolFor(comps, baseUrl, pathKey, item, m, op).value;
      && (op.summary.Some? ==> t.description == op.summary.value)
      && (op.summary.None? && op.description.Some? ==> t.description == op.description.value)
      && (op.summary.None? && op.description.None? ==> t.description == MethodName(m) + " " + pathKey)
      && t.name == ToSnakeCase(Some(t.description)) && IsSlug(t.name)
      && t.requestMethod == MethodName(m)
      && t.endpoint == Concat(Some(baseUrl), Some(pathKey))
  {
    ToolForFields(comps, baseUrl, pathKey, item, m, op);
    SlugIsWellFormed(Some(Summary(pathKey, m, op)));
  }

  lemma ToolForFields(comps: Option<Components>, baseUrl: string, pathKey: string, item: PathItem, m: HttpMethod, op: Operation)
    requires ToolFor(comps, baseUrl, pathKey, item, m, op).Ok?
    ensures var t := ToolFor(comps, baseUrl, pathKey, item, m, op).value;
      && t.description == Summary(pathKey, m, op)
      && t.name == ToSnakeCase(Some(Summary(pathKey, m, op)))
      && t.requestMethod == MethodName(m)
      && t.endpoint == Concat(Some(baseUrl), Some(pathKey))
  {
    var text := Summary(pathKey, m, op);
    var buckets := ClassifyAll(NoBuckets, MergedParameters(item, op));
    var bodyRequired := BodyRequired(op.requestBody);
    var body := BodyNode(Reference, comps, op.requestBody);
    assert buckets.Ok? && bodyRequired.Ok? && body.Ok?;
    assert ToolFor(comps, baseUrl, pathKey, item, m, op)
      == Ok(Tool(ToSnakeCase(Some(text)), text, MethodName(m), Concat(Some(baseUrl), Some(pathKey)),
                 InputSchema(buckets.value, body.value, bodyRequired.value)));
  }

  /**
   * How a tool fails, in the order the source checks: an unacceptable
   * parameter first (with that parameter's error), then a request body whose
   * required flag is null, whatever its content, then a JSON body one of whose
   * properties has null types.
   */
  lemma ToolFailures(comps: Option<Components>, baseUrl: string, pathKey: string, item: PathItem, m: HttpMethod, op: Operation)
    ensures var ps := MergedParameters(item, op);
      var r := ToolFor(comps, baseUrl, pathKey, item, m, op);
      && (ClassifyAll(NoBuckets, ps).Err? ==> r == Err(ClassifyAll(NoBuckets, ps).error))
      && ((forall i :: 0 <= i < |ps| ==> Acceptable(ps[i])) && op.requestBody.Some? && op.requestBody.value.required.None? ==>
            r == Err(NullPointer(OpenApi.BodyRequired)))
      && (r.Err? ==> r.error.NullPointer? || r.error.MissingParameterSchema? || r.error.EmptyTypes?)
      && (r.Ok? <==>
            && (forall i :: 0 <= i < |ps| ==> Acceptable(ps[i]))
            && (op.requestBody.Some? ==> op.requestBody.value.required.Some?)
            && (HasJsonBody(op.requestBody) ==>
                  BodyObject(Reference, comps, Resolve(comps, PreferJsonSchema(op.requestBody.value.content))).Ok?))
  {
    var ps := MergedParameters(item, op);
    ClassifyAllOk(NoBuckets, ps);
    ClassifyAllErrors(NoBuckets, ps);
    if HasJsonBody(op.requestBody) {
      BodyFails(Reference, comps, Resolve(comps, PreferJsonSchema(op.requestBody.value.content)));
    }
  }

  /** Some parameter is located at `loc`. */
  predicate Located(ps: seq<Option<Parameter>>, loc: string) {
    exists i :: 0 <= i < |ps| && ps[i].Some? && ps[i].value.location == Some(loc)
  }

  /** Some path parameter's required flag is true. */
  predicate RequiredPathParameter(ps: seq<Option<Parameter>>) {
    exists i :: 0 <= i < |ps| && ps[i].Some? && ps[i].value.location == Some("path") && ps[i].value.required == Some(true)
  }

  /** A bucket has entries exactly when some parameter is located there. */
  lemma BucketFilled(ps: seq<Option<Parameter>>, loc: string)
    requires IsLocation(loc) && ClassifyAll(NoBuckets, ps).Ok?
    ensures |Bucket(ClassifyAll(NoBuckets, ps).value, loc)| > 0 <==> Located(ps, loc)
  {
    var f := Bucket(ClassifyAll(NoBuckets, ps).value, loc);
    if |f| > 0 {
      assert Keys(f)[0] == f[0].0;
      ClassifyAllKeys(NoBuckets, ps, loc, f[0].0);
    }
    if Located(ps, loc) {
      var i :| 0 <= i < |ps| && ps[i].Some? && ps[i].value.location == Some(loc);
      ClassifyAllKeys(NoBuckets, ps, loc, ps[i].value.name);
      assert Parameters.Names(ps[i], loc, ps[i].value.name);
    }
  }

  /** Some path name is required exactly when a path parameter's required flag is true. */
  lemma PathRequired(ps: seq<Option<Parameter>>)
    requires ClassifyAll(NoBuckets, ps).Ok?
    ensures |ClassifyAll(NoBuckets, ps).value.pathReq| > 0 <==> RequiredPathParameter(ps)
  {
    var req := ClassifyAll(NoBuckets, ps).value.pathReq;
    if |req| > 0 {
      assert req[0] in req;
      ClassifyAllKeys(NoBuckets, ps, "path", req[0]);
    }
    if RequiredPathParameter(ps) {
      var i :| 0 <= i < |ps| && ps[i].Some? && ps[i].value.location == Some("path") && ps[i].value.required == Some(true);
      ClassifyAllKeys(NoBuckets, ps, "path", ps[i].value.name);
      assert RequiresPath(ps[i], ps[i].value.name);
    }
  }

  /**
   * The body section is present exactly when the preferred JSON schema exists
   * and, followed through up to twice ten $ref hops (it is resolved before the
   * body builder and again inside it), is an array schema, is typed "array", or
   * is an object with properties.
   */
  lemma BodySection(comps: Option<Components>, body: Option<RequestBody>)
    requires HasJsonBody(body) && BodyNode(Reference, comps, body).Ok?
    ensures var s := PreferJsonSchema(body.value.content);
      HasBodySection(BodyNode(Reference, comps, body).value) <==>
        s.Some? && Includable(ResolveN(comps, s.value, 2 * MaxHops))
  {
    var s := PreferJsonSchema(body.value.content);
    match s
    case None =>
      NullBodyExcluded(Reference, comps);
    case Some(schema) =>
      var once := ResolveN(comps, schema, MaxHops);
      BodyIncluded(Reference, comps, once);
      ResolveTwice(comps, schema, MaxHops, MaxHops);
  }

  /** The sections and the root "required" list, in terms of the parameters. */
  lemma SectionsOfParameters(ps: seq<Option<Parameter>>, body: Option<Json>, bodyRequired: bool)
    requires ClassifyAll(NoBuckets, ps).Ok?
    ensures var b := ClassifyAll(NoBuckets, ps).value;
      var names := SectionNames(b, body);
      && ("path" in names <==> Located(ps, "path"))
      && ("query" in names <==> Located(ps, "query"))
      && ("headers" in names <==> Located(ps, "header"))
      && ("body" in names <==> HasBodySection(body))
      && RootRequired(b, body, bodyRequired) ==
           (if RequiredPathParameter(ps) then ["path"] else [])
           + (if HasBodySection(body) && bodyRequired then ["body"] else [])
  {
    var b := ClassifyAll(NoBuckets, ps).value;
    ClassifyAllWellShaped(NoBuckets, ps);
    SectionNamesSpec(b, body);
    PathSectionLocated(ps);
    BucketFilled(ps, "query");
    BucketFilled(ps, "header");
    PathRequired(ps);
  }

  /** The "path" section is there exactly when some parameter is in the path. */
  lemma PathSectionLocated(ps: seq<Option<Parameter>>)
    requires ClassifyAll(NoBuckets, ps).Ok?
    ensures HasPathSection(ClassifyAll(NoBuckets, ps).value) <==> Located(ps, "path")
  {
    ClassifyAllWellShaped(NoBuckets, ps);
    BucketFilled(ps, "path");
    PathRequired(ps);
    if RequiredPathParameter(ps) {
      var i :| 0 <= i < |ps| && ps[i].Some? && ps[i].value.location == Some("path") && ps[i].value.required == Some(true);
      assert ps[i].Some? && ps[i].value.location == Some("path");
    }
  }

  /**
   * The sections of a tool's inputSchema (:155-185): "path", "query" and
   * "headers" exactly when some parameter is in the path, the query or a
   * header; "body" only for a JSON request body. The root "required" list names
   * "path" exactly when some path parameter is required and "body" exactly
   * when the body section is there and the body is required.
   */
  lemma ToolSections(comps: Option<Components>, baseUrl: string, pathKey: string, item: PathItem, m: HttpMethod, op: Operation)
    requires ToolFor(comps, baseUrl, pathKey, item, m, op).Ok?
    ensures var f := ToolFor(comps, baseUrl, pathKey, item, m, op).value.inputSchema.fields;
      var ps := MergedParameters(item, op);
      && Get(f, "type") == Some(JString("object"))
      && Get(f, "properties").Some? && Get(f, "properties").value.JObject?
      && var names := Keys(Get(f, "properties").value.fields);
         && ("path" in names <==> Located(ps, "path"))
         && ("query" in names <==> Located(ps, "query"))
         && ("headers" in names <==> Located(ps, "header"))
         && ("body" in names ==> HasJsonBody(op.requestBody))
         && var rr := (if RequiredPathParameter(ps) then ["path"] else [])
                      + (if "body" in names && op.requestBody.value.required == Some(true) then ["body"] else []);
            Get(f, "required") == if |rr| > 0 then Some(Strings(rr)) else None
  {
    var ps := MergedParameters(item, op);
    var b := ClassifyAll(NoBuckets, ps).value;
    var bodyRequired := BodyRequired(op.requestBody).value;
    var body := BodyNode(Reference, comps, op.requestBody).value;
    assert ToolFor(comps, baseUrl, pathKey, item, m, op).value.inputSchema == InputSchema(b, body, bodyRequired);
    SectionsOfParameters(ps, body, bodyRequired);
    SectionKeys(b, body);
    RootRequiredSpec(b, body, bodyRequired);
    assert HasBodySection(body) ==> bodyRequired == (op.requestBody.value.required == Some(true));
  }
}
