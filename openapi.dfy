/**
 * The parsed OpenAPI 3 object model the mapper reads (swagger-models' OpenAPI,
 * PathItem, Operation, Parameter, RequestBody, Schema, Components), the tool set
 * it produces (ToolSetDto, ToolDto) and the exceptions that abort a conversion.
 * The references the mapper tests for null, or whose null would abort it, are
 * `Option`s; a parameter's name, a path key, and the values of Content and of
 * a schema's properties are plain values. Ordered Java maps (Paths, Content, a
 * schema's properties) are sequences of key/value pairs.
 */
module OpenApi {
  import opened Wrappers
  import opened Json

  /**
   * A schema. `typ` is getType(), `types` is getTypes() in declaration order,
   * `isArray` says the object is an ArraySchema, whose getItems() is `items`.
   */
  datatype Schema = Schema(
    ref: Option<string>,
    typ: Option<string>,
    types: Option<seq<string>>,
    isArray: bool,
    items: Option<Schema>,
    properties: Option<seq<(string, Schema)>>,
    description: Option<string>)

  /** Components; `schemas` is getSchemas(). */
  datatype Components = Components(schemas: Option<map<string, Schema>>)

  datatype MediaType = MediaType(schema: Option<Schema>)

  /** `content` is the ordered media-type map (Content is a LinkedHashMap). */
  datatype RequestBody = RequestBody(required: Option<bool>, content: Option<seq<(string, MediaType)>>)

  /** A parameter; `location` is getIn(). */
  datatype Parameter = Parameter(
    name: string,
    location: Option<string>,
    description: Option<string>,
    required: Option<bool>,
    schema: Option<Schema>)

  datatype Operation = Operation(
    summary: Option<string>,
    description: Option<string>,
    parameters: Option<seq<Option<Parameter>>>,
    requestBody: Option<RequestBody>)

  /** PathItem.HttpMethod of swagger-models, in its declaration order. */
  datatype HttpMethod = POST | GET | PUT | PATCH | DELETE | HEAD | OPTIONS | TRACE

  datatype PathItem = PathItem(
    get: Option<Operation>,
    put: Option<Operation>,
    post: Option<Operation>,
    delete: Option<Operation>,
    options: Option<Operation>,
    head: Option<Operation>,
    patch: Option<Operation>,
    trace: Option<Operation>,
    parameters: Option<seq<Option<Parameter>>>)

  datatype Info = Info(title: Option<string>, description: Option<string>)

  datatype Server = Server(url: Option<string>)

  /** The parsed document; `paths` keeps the document's path order. */
  datatype Document = Document(
    info: Option<Info>,
    servers: Option<seq<Option<Server>>>,
    paths: Option<seq<(string, Option<PathItem>)>>,
    components: Option<Components>)

  /** ToolDto: the JSON-Schema-shaped `inputSchema` is kept as a JSON tree. */
  datatype Tool = Tool(
    name: string,
    description: string,
    requestMethod: string,
    endpoint: string,
    inputSchema: Json)

  /** ToolSetDto. */
  datatype ToolSet = ToolSet(name: string, description: string, tools: seq<Tool>)

  /** Where a null reference was dereferenced. */
  datatype NullSite =
    | ParameterTypes(param: string)     // getTypes() of a path or query parameter's schema
    | ParameterRequired(param: string)  // unboxing getRequired() of a path parameter
    | BodyRequired                      // unboxing getRequestBody().getRequired()
    | FieldTypes                        // getTypes() of a body property's schema

  /** What aborts a conversion. */
  datatype Error =
    | ParseFailed                              // IllegalArgumentException: no OpenAPI object
    | MissingPathItem(pathKey: string)         // ConversionException
    | MissingParameterSchema(param: string)    // ConversionException
    | NullPointer(site: NullSite)              // NullPointerException
    | EmptyTypes(param: string)                // ArrayIndexOutOfBoundsException on toArray()[0]
    | NotImplemented(format: Option<string>)   // NotImplementedException

  /** The name of an HTTP method constant: PathItem.HttpMethod.name() and toString(). */
  function MethodName(m: HttpMethod): (s: string)
    ensures |s| >= 3 && forall i :: 0 <= i < |s| ==> 'A' <= s[i] <= 'Z'
  {
    match m
    case GET => "GET"
    case PUT => "PUT"
    case POST => "POST"
    case DELETE => "DELETE"
    case OPTIONS => "OPTIONS"
    case HEAD => "HEAD"
    case PATCH => "PATCH"
    case TRACE => "TRACE"
  }

  /** The operation a path item holds for method `m` (getGet() ... getTrace()). */
  function Slot(item: PathItem, m: HttpMethod): Option<Operation>
  {
    match m
    case GET => item.get
    case PUT => item.put
    case POST => item.post
    case DELETE => item.delete
    case OPTIONS => item.options
    case HEAD => item.head
    case PATCH => item.patch
    case TRACE => item.trace
  }

  /** The first server's URL, or "" (Optional chain at OpenApiMapper.java:52-53). */
  function BaseUrl(doc: Document): string
  {
    match doc.servers
    case None => ""
    case Some(ss) =>
      if |ss| == 0 then ""
      else match ss[0]
        case None => ""
        case Some(sv) => sv.url.GetOr("")
  }

  /** The component schema registered under `name`, if components and schemas exist. */
  function LookupSchema(comps: Option<Components>, name: string): Option<Schema>
  {
    match comps
    case None => None
    case Some(c) =>
      match c.schemas
      case None => None
      case Some(m) => if name in m then Some(m[name]) else None
  }
}
