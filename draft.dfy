/**
 * The earlier command-line mapper (src/main/java/mapper/OpenApiMapper.java,
 * main at :26-171). It walks the same paths and operations with the same
 * helpers, but never throws once the document is parsed: null path items and
 * null or unlocated parameters are passed over, missing schemas and types fall
 * back to "string" or "object", and a null required flag means "not required".
 * A JSON request body also adds a Content-Type header entry, and the tool
 * set's description is a fixed sentence.
 */
module Draft {
  import opened Wrappers
  import opened Json
  import opened OpenApi
  import opened Slug
  import opened Endpoint
  import opened Resolver
  import opened Operations
  import opened Parameters
  import opened Body
  import opened Assembly
  import opened Traversal
  import Mapper

  /** The tool set's description (:43). */
  const Description := "4-in-1 conversion of the OpenAPI spec."

  /** The implicit header of a JSON body (:127-130): {"enum": ["application/json"]}, no type. */
  const ContentTypeHeader := JObject([("enum", JArray([JString(JsonMediaType)]))])

  /** One iteration of the loop over parameters (:84-111); it cannot fail. */
  function DraftClassify(b: Buckets, param: Option<Parameter>): Buckets
  {
    match param
    case None => b
    case Some(p) =>
      if p.location.None? then b
      else
        var desc := p.description.GetOr("string");
        var ty := TypeOr(p.schema, "string");
        var loc := p.location.value;
        if loc == "path" then
          b.(pathProps := Put(b.pathProps, p.name, ParamField(ty, PathDescription(desc))),
             pathReq := if p.required == Some(true) then b.pathReq + [p.name] else b.pathReq)
        else if loc == "query" then
          b.(queryProps := Put(b.queryProps, p.name, ParamField(ty, desc)))
        else if loc == "header" then
          b.(headerProps := Put(b.headerProps, p.name, HeaderField(desc)))
        else
          b
  }

  function DraftClassifyAll(b: Buckets, ps: seq<Option<Parameter>>): Buckets
    decreases |ps|
  {
    if ps == [] then b else DraftClassifyAll(DraftClassify(b, ps[0]), ps[1..])
  }

  /** The loop of :84-111 over local buckets. */
  method DraftClassifyParameters(params: seq<Option<Parameter>>) returns (b: Buckets)
    ensures b == DraftClassifyAll(NoBuckets, params)
  {
    var pathProps: Fields, queryProps: Fields, headerProps: Fields, pathReq: seq<string> := [], [], [], [];
    for i := 0 to |params|
      invariant DraftClassifyAll(NoBuckets, params)
        == DraftClassifyAll(Buckets(pathProps, queryProps, headerProps, pathReq), params[i..])
    {
      assert params[i..][1..] == params[i + 1..];
      var parameter := params[i];
      if parameter.None? || parameter.value.location.None? {
        continue;
      }
      var p := parameter.value;
      var desc := p.description.GetOr("string");
      var ty := if p.schema.Some? && p.schema.value.typ.Some? then p.schema.value.typ.value else "string";
      var loc := p.location.value;
      if loc == "path" {
        pathProps := Put(pathProps, p.name, ParamField(ty, PathDescription(desc)));
        if p.required == Some(true) {
          pathReq := pathReq + [p.name];
        }
      } else if loc == "query" {
        queryProps := Put(queryProps, p.name, ParamField(ty, desc));
      } else if loc == "header" {
        headerProps := Put(headerProps, p.name, HeaderField(desc));
      }
    }
    assert params[|params|..] == [];
    b := Buckets(pathProps, queryProps, headerProps, pathReq);
  }

  /** The body node (:120-125), for JSON content only; the draft's body builder cannot fail. */
  function DraftBodyNode(comps: Option<Components>, body: Option<RequestBody>): Option<Json>
  {
    if HasJsonBody(body) then
      var schema := Resolve(comps, PreferJsonSchema(body.value.content));
      BodyFails(Draft, comps, schema);
      Some(BodyObject(Draft, comps, schema).value)
    else
      None
  }

  /** The header bucket after the body step: a JSON body sets "Content-Type" (:126-130). */
  function WithContentType(b: Buckets, body: Option<RequestBody>): Buckets
  {
    if HasJsonBody(body) then b.(headerProps := Put(b.headerProps, "Content-Type", ContentTypeHeader)) else b
  }

  /** One tool (:57-161). */
  function DraftToolFor(comps: Option<Components>, baseUrl: string, pathKey: string, item: PathItem, m: HttpMethod, op: Operation)
    : Tool
  {
    var text := Mapper.Summary(pathKey, m, op);
    var b := WithContentType(DraftClassifyAll(NoBuckets, MergedParameters(item, op)), op.requestBody);
    var bodyRequired := op.requestBody.Some? && op.requestBody.value.required == Some(true);
    Tool(ToSnakeCase(Some(text)), text, MethodName(m), Concat(Some(baseUrl), Some(pathKey)),
         InputSchema(b, DraftBodyNode(comps, op.requestBody), bodyRequired))
  }

  /** The body of the operation loop of :53-165. */
  method DraftBuildTool(comps: Option<Components>, baseUrl: string, pathKey: string, item: PathItem, m: HttpMethod, op: Operation)
    returns (t: Tool)
    ensures t == DraftToolFor(comps, baseUrl, pathKey, item, m, op)
  {
    var text := Mapper.Summary(pathKey, m, op);
    var b := DraftClassifyParameters(MergedParameters(item, op));
    var bodyRequired := op.requestBody.Some? && op.requestBody.value.required == Some(true);
    var body: Option<Json> := None;
    if HasJsonBody(op.requestBody) {
      var schema: Option<Schema>;
      ghost var hops: nat;
      schema, hops := ResolveSchema(comps, PreferJsonSchema(op.requestBody.value.content));
      BodyFails(Draft, comps, schema);
      var node := SchemaToBodyObject(Draft, comps, schema);
      body := Some(node.value);
      b := b.(headerProps := Put(b.headerProps, "Content-Type", ContentTypeHeader));
    }
    t := Tool(ToSnakeCase(Some(text)), text, MethodName(m), Concat(Some(baseUrl), Some(pathKey)),
              InputSchema(b, body, bodyRequired));
  }

  /** The draft tool builder, for the walk over paths and operations. */
  function DraftBuild(comps: Option<Components>, baseUrl: string): Builder
  {
    (pathKey: string, item: PathItem, m: HttpMethod, op: Operation) => Ok(DraftToolFor(comps, baseUrl, pathKey, item, m, op))
  }

  /** The conversion of :33-167: null path items are passed over; only an unparsed document fails. */
  function DraftConvertDocument(doc: Option<Document>): Result<ToolSet, Error>
  {
    match doc
    case None => Err(ParseFailed)
    case Some(api) =>
      var tools :- AllTools(DraftBuild(api.components, BaseUrl(api)), true, api.paths.GetOr([]));
      Ok(ToolSet(Mapper.ToolSetName(api), Description, tools))
  }

  /** The operation loop of :53-165 for one path item. */
  method DraftPathItemTools(comps: Option<Components>, baseUrl: string, pathKey: string, item: PathItem)
    returns (tools: seq<Tool>)
    ensures PathTools(DraftBuild(comps, baseUrl), pathKey, item, OperationsIn(item, MethodOrder)) == Ok(tools)
  {
    var build := DraftBuild(comps, baseUrl);
    var ops := OperationsOf(item);
    tools := [];
    JoinEmpty(PathTools(build, pathKey, item, ops));
    for j := 0 to |ops|
      invariant PathTools(build, pathKey, item, ops) == Join(Ok(tools), PathTools(build, pathKey, item, ops[j..]))
    {
      var tool := DraftBuildTool(comps, baseUrl, pathKey, item, ops[j].0, ops[j].1);
      assert build(pathKey, item, ops[j].0, ops[j].1) == Ok(tool);
      PathToolsStep(build, pathKey, item, ops, j, tools, tool);
      tools := tools + [tool];
    }
    assert tools + [] == tools;
  }

  /** main's walk (:48-167): the loop over paths, passing over null path items. */
  method DraftConvert(doc: Option<Document>) returns (r: Result<ToolSet, Error>)
    ensures r == DraftConvertDocument(doc)
  {
    if doc.None? {
      return Err(ParseFailed);
    }
    var api := doc.value;
    var baseUrl := BaseUrl(api);
    var build := DraftBuild(api.components, baseUrl);
    var tools: seq<Tool> := [];
    var paths := api.paths.GetOr([]);
    JoinEmpty(AllTools(build, true, paths));
    for i := 0 to |paths|
      invariant AllTools(build, true, paths) == Join(Ok(tools), AllTools(build, true, paths[i..]))
    {
      assert paths[i..][1..] == paths[i + 1..];
      if paths[i].1.None? {
        continue;
      }
      var more := DraftPathItemTools(api.components, baseUrl, paths[i].0, paths[i].1.value);
      JoinAssoc(Ok(tools), Ok(more), AllTools(build, true, paths[i + 1..]));
      tools := tools + more;
    }
    assert tools + [] == tools;
    r := Ok(ToolSet(Mapper.ToolSetName(api), Description, tools));
  }

  // ---------------------------------------------------------------------------
  // What the draft promises

  /**
   * Every parsed document converts: one tool per operation of every non-null
   * path item, in path order and method order, under the slug of the title and
   * the fixed description.
   */
  lemma DraftConvertSpec(api: Document)
    ensures DraftConvertDocument(None) == Err(ParseFailed)
    ensures var r := DraftConvertDocument(Some(api));
      && r.Ok?
      && BuiltFrom(DraftBuild(api.components, BaseUrl(api)), Slots(api.paths.GetOr([])), r.value.tools)
      && r.value.name == ToSnakeCase(Some(if api.info.Some? then api.info.value.title.GetOr("toolset") else "toolset"))
      && IsSlug(r.value.name)
      && r.value.description == Description
  {
    var build := DraftBuild(api.components, BaseUrl(api));
    var slots := Slots(api.paths.GetOr([]));
    assert AllBuild(build, slots) by {
      forall i | 0 <= i < |slots| ensures build(slots[i].0, slots[i].1, slots[i].2, slots[i].3).Ok? {
      }
    }
    AllToolsSpec(build, true, api.paths.GetOr([]));
    SlugIsWellFormed(Some(if api.info.Some? then api.info.value.title.GetOr("toolset") else "toolset"));
  }

  /** One iteration adds at most the parameter's name to the bucket of its location, and to pathReq only for a required path parameter. */
  lemma DraftClassifyKeys(b: Buckets, param: Option<Parameter>, loc: string, k: string)
    requires IsLocation(loc)
    ensures k in Keys(Bucket(DraftClassify(b, param), loc)) <==> k in Keys(Bucket(b, loc)) || Parameters.Names(param, loc, k)
    ensures k in DraftClassify(b, param).pathReq <==> k in b.pathReq || RequiresPath(param, k)
  {
    if param.Some? && param.value.location.Some? {
      var p := param.value;
      var desc := p.description.GetOr("string");
      var ty := TypeOr(p.schema, "string");
      var where := p.location.value;
      if where == "path" {
        PutKeys(b.pathProps, p.name, ParamField(ty, PathDescription(desc)));
      } else if where == "query" {
        PutKeys(b.queryProps, p.name, ParamField(ty, desc));
      } else if where == "header" {
        PutKeys(b.headerProps, p.name, HeaderField(desc));
      }
    }
  }

  /**
   * After the whole loop, a bucket holds exactly the names of the parameters at
   * its location, and pathReq exactly the names of the path parameters whose
   * required flag is true (Boolean.TRUE.equals: null counts as false).
   */
  lemma {:induction false} DraftClassifyAllKeys(b: Buckets, ps: seq<Option<Parameter>>, loc: string, k: string)
    requires IsLocation(loc)
    ensures k in Keys(Bucket(DraftClassifyAll(b, ps), loc))
      <==> k in Keys(Bucket(b, loc)) || exists i :: 0 <= i < |ps| && Parameters.Names(ps[i], loc, k)
    ensures k in DraftClassifyAll(b, ps).pathReq
      <==> k in b.pathReq || exists i :: 0 <= i < |ps| && RequiresPath(ps[i], k)
    decreases |ps|
  {
    if ps != [] {
      var b' := DraftClassify(b, ps[0]);
      DraftClassifyKeys(b, ps[0], loc, k);
      DraftClassifyAllKeys(b', ps[1..], loc, k);
      assert forall i :: 1 <= i < |ps| ==> ps[i] == ps[1..][i - 1];
      assert forall i :: 0 <= i < |ps[1..]| ==> ps[1..][i] == ps[i + 1];
    }
  }

  /**
   * The entry the draft loop files for a parameter at `loc` (:92-109): a header
   * entry holds the description (or "string"); a path or query entry holds the
   * schema's type, or "string" when there is no schema or no type, and that
   * description, marked " (path)" in the path bucket.
   */
  function DraftEntryFor(p: Parameter, loc: string): Json
  {
    var desc := p.description.GetOr("string");
    if loc == "header" then HeaderField(desc)
    else ParamField(TypeOr(p.schema, "string"), if loc == "path" then PathDescription(desc) else desc)
  }

  /** One iteration sets the parameter's own entry and leaves every other entry of every bucket as it was. */
  lemma DraftClassifyEntry(b: Buckets, param: Option<Parameter>, loc: string, k: string)
    requires IsLocation(loc)
    ensures Parameters.Names(param, loc, k) ==> Get(Bucket(DraftClassify(b, param), loc), k) == Some(DraftEntryFor(param.value, loc))
    ensures !Parameters.Names(param, loc, k) ==> Get(Bucket(DraftClassify(b, param), loc), k) == Get(Bucket(b, loc), k)
  {
    if param.Some? && param.value.location.Some? {
      var p := param.value;
      var desc := p.description.GetOr("string");
      var ty := TypeOr(p.schema, "string");
      var where := p.location.value;
      if k != p.name {
        if where == "path" {
          PutOther(b.pathProps, p.name, ParamField(ty, PathDescription(desc)), k);
        } else if where == "query" {
          PutOther(b.queryProps, p.name, ParamField(ty, desc), k);
        } else if where == "header" {
          PutOther(b.headerProps, p.name, HeaderField(desc), k);
        }
      }
    }
  }

  /**
   * After the whole loop, the entry under a name is the one filed for the last
   * parameter of that name at that location; a name no parameter uses keeps
   * the entry it had.
   */
  lemma {:induction false} DraftClassifyAllEntries(b: Buckets, ps: seq<Option<Parameter>>, loc: string, k: string)
    requires IsLocation(loc)
    ensures (forall i :: 0 <= i < |ps| ==> !Parameters.Names(ps[i], loc, k)) ==>
      Get(Bucket(DraftClassifyAll(b, ps), loc), k) == Get(Bucket(b, loc), k)
    ensures forall i :: LastNamed(ps, loc, k, i) ==>
      Get(Bucket(DraftClassifyAll(b, ps), loc), k) == Some(DraftEntryFor(ps[i].value, loc))
    decreases |ps|
  {
    if ps != [] {
      var b' := DraftClassify(b, ps[0]);
      DraftClassifyEntry(b, ps[0], loc, k);
      DraftClassifyAllEntries(b', ps[1..], loc, k);
      assert forall i :: 0 <= i < |ps| - 1 ==> ps[1..][i] == ps[i + 1];
      forall i | LastNamed(ps, loc, k, i)
        ensures Get(Bucket(DraftClassifyAll(b, ps), loc), k) == Some(DraftEntryFor(ps[i].value, loc))
      {
        if i > 0 {
          assert LastNamed(ps[1..], loc, k, i - 1);
        } else {
          assert forall j :: 0 <= j < |ps[1..]| ==> !Parameters.Names(ps[1..][j], loc, k);
        }
      }
    }
  }

  /**
   * Where the reference classification succeeds, the draft files the same
   * names under the same locations and requires the same path names: the two
   * mappers differ in where the entries' types come from (EntryFor and
   * DraftEntryFor) and in what makes the reference fail.
   */
  lemma SameBucketNames(ps: seq<Option<Parameter>>, loc: string, k: string)
    requires IsLocation(loc)
    requires ClassifyAll(NoBuckets, ps).Ok?
    ensures k in Keys(Bucket(DraftClassifyAll(NoBuckets, ps), loc)) <==> k in Keys(Bucket(ClassifyAll(NoBuckets, ps).value, loc))
    ensures k in DraftClassifyAll(NoBuckets, ps).pathReq <==> k in ClassifyAll(NoBuckets, ps).value.pathReq
  {
    DraftClassifyAllKeys(NoBuckets, ps, loc, k);
    ClassifyAllKeys(NoBuckets, ps, loc, k);
  }

  /** A bucket has entries exactly when some parameter is located there. */
  lemma DraftBucketFilled(ps: seq<Option<Parameter>>, loc: string)
    requires IsLocation(loc)
    ensures |Bucket(DraftClassifyAll(NoBuckets, ps), loc)| > 0 <==> Mapper.Located(ps, loc)
  {
    var f := Bucket(DraftClassifyAll(NoBuckets, ps), loc);
    if |f| > 0 {
      assert Keys(f)[0] == f[0].0;
      DraftClassifyAllKeys(NoBuckets, ps, loc, f[0].0);
    }
    if Mapper.Located(ps, loc) {
      var i :| 0 <= i < |ps| && ps[i].Some? && ps[i].value.location == Some(loc);
      DraftClassifyAllKeys(NoBuckets, ps, loc, ps[i].value.name);
      assert Parameters.Names(ps[i], loc, ps[i].value.name);
    }
  }

  /** Some path name is required exactly when a path parameter's required flag is true. */
  lemma DraftPathRequired(ps: seq<Option<Parameter>>)
    ensures |DraftClassifyAll(NoBuckets, ps).pathReq| > 0 <==> Mapper.RequiredPathParameter(ps)
    ensures Mapper.RequiredPathParameter(ps) ==> Mapper.Located(ps, "path")
  {
    var req := DraftClassifyAll(NoBuckets, ps).pathReq;
    if |req| > 0 {
      assert req[0] in req;
      DraftClassifyAllKeys(NoBuckets, ps, "path", req[0]);
    }
    if Mapper.RequiredPathParameter(ps) {
      var i :| 0 <= i < |ps| && ps[i].Some? && ps[i].value.location == Some("path") && ps[i].value.required == Some(true);
      DraftClassifyAllKeys(NoBuckets, ps, "path", ps[i].value.name);
      assert RequiresPath(ps[i], ps[i].value.name);
    }
  }

  /** The sections and the root "required" list, in terms of the parameters and the request body. */
  lemma DraftSectionsOfParameters(ps: seq<Option<Parameter>>, rb: Option<RequestBody>, body: Option<Json>, bodyRequired: bool)
    ensures var b := WithContentType(DraftClassifyAll(NoBuckets, ps), rb);
      var names := SectionNames(b, body);
      && ("path" in names <==> Mapper.Located(ps, "path"))
      && ("query" in names <==> Mapper.Located(ps, "query"))
      && ("headers" in names <==> Mapper.Located(ps, "header") || HasJsonBody(rb))
      && ("body" in names <==> HasBodySection(body))
      && RootRequired(b, body, bodyRequired) ==
           (if Mapper.RequiredPathParameter(ps) then ["path"] else [])
           + (if HasBodySection(body) && bodyRequired then ["body"] else [])
  {
    var b0 := DraftClassifyAll(NoBuckets, ps);
    var b := WithContentType(b0, rb);
    SectionNamesSpec(b, body);
    DraftPathSectionLocated(ps);
    DraftBucketFilled(ps, "query");
    DraftBucketFilled(ps, "header");
    DraftPathRequired(ps);
    assert b.pathProps == b0.pathProps && b.queryProps == b0.queryProps && b.pathReq == b0.pathReq;
    assert |b.headerProps| > 0 <==> |b0.headerProps| > 0 || HasJsonBody(rb);
  }

  /** The draft's "path" section is there exactly when some parameter is in the path. */
  lemma DraftPathSectionLocated(ps: seq<Option<Parameter>>)
    ensures HasPathSection(DraftClassifyAll(NoBuckets, ps)) <==> Mapper.Located(ps, "path")
  {
    DraftBucketFilled(ps, "path");
    DraftPathRequired(ps);
    if Mapper.RequiredPathParameter(ps) {
      var i :| 0 <= i < |ps| && ps[i].Some? && ps[i].value.location == Some("path") && ps[i].value.required == Some(true);
      assert ps[i].Some? && ps[i].value.location == Some("path");
    }
  }

  /** With a JSON body the "headers" section holds the JSON "Content-Type" enum, whatever header parameters said. */
  lemma ContentTypeSection(ps: seq<Option<Parameter>>, rb: Option<RequestBody>, body: Option<Json>)
    requires HasJsonBody(rb)
    ensures var headers := Get(Sections(WithContentType(DraftClassifyAll(NoBuckets, ps), rb), body), "headers");
      headers.Some? && headers.value.JObject? && Get(headers.value.fields, "Content-Type") == Some(ContentTypeHeader)
  {
    HeadersSection(WithContentType(DraftClassifyAll(NoBuckets, ps), rb), body);
  }

  /**
   * The sections of a draft tool's inputSchema (:133-160): "path" and "query"
   * exactly when some parameter is there, "headers" exactly when some
   * parameter is a header or the body is JSON, in which case its
   * "Content-Type" entry is the JSON enum, replacing a header parameter of that
   * name. The root "required" list names "path" exactly when some path
   * parameter is required and "body" exactly when the body section is there
   * and its required flag is true; a null flag counts as false.
   */
  lemma DraftToolSections(comps: Option<Components>, baseUrl: string, pathKey: string, item: PathItem, m: HttpMethod, op: Operation)
    ensures var f := DraftToolFor(comps, baseUrl, pathKey, item, m, op).inputSchema.fields;
      var ps := MergedParameters(item, op);
      && Get(f, "properties").Some? && Get(f, "properties").value.JObject?
      && var props := Get(f, "properties").value.fields;
         var names := Keys(props);
         && ("path" in names <==> Mapper.Located(ps, "path"))
         && ("query" in names <==> Mapper.Located(ps, "query"))
         && ("headers" in names <==> Mapper.Located(ps, "header") || HasJsonBody(op.requestBody))
         && ("body" in names ==> HasJsonBody(op.requestBody))
         && (HasJsonBody(op.requestBody) ==>
               Get(props, "headers").Some? && Get(props, "headers").value.JObject? &&
               Get(Get(props, "headers").value.fields, "Content-Type") == Some(ContentTypeHeader))
         && var rr := (if Mapper.RequiredPathParameter(ps) then ["path"] else [])
                      + (if "body" in names && op.requestBody.value.required == Some(true) then ["body"] else []);
            Get(f, "required") == if |rr| > 0 then Some(Strings(rr)) else None
  {
    var ps := MergedParameters(item, op);
    var b := WithContentType(DraftClassifyAll(NoBuckets, ps), op.requestBody);
    var body := DraftBodyNode(comps, op.requestBody);
    var bodyRequired := op.requestBody.Some? && op.requestBody.value.required == Some(true);
    assert DraftToolFor(comps, baseUrl, pathKey, item, m, op).inputSchema == InputSchema(b, body, bodyRequired);
    DraftSectionsOfParameters(ps, op.requestBody, body, bodyRequired);
    SectionKeys(b, body);
    RootRequiredSpec(b, body, bodyRequired);
    if HasJsonBody(op.requestBody) {
      ContentTypeSection(ps, op.requestBody, body);
    }
  }
}
