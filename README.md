# Spec2Tool OpenAPI-to-tool mapper, modelled in Dafny

Spec2Tool turns an OpenAPI 3 document into a *tool set*. A tool set has a name, a
description and one tool per HTTP operation. Each tool has a snake_case name, a
description, the request method, the endpoint URL and a JSON-Schema-like
`inputSchema`. That schema has up to four sections, `path`, `query`, `headers`
and `body`, plus a root `required` list.

This project models the conversion core:

- the reference mapper `de.thm.spec2tool.mapper.OpenApiMapper`;
- the earlier command-line draft `mapper.OpenApiMapper`, which follows a
  different failure policy;
- the format dispatch of `ConversionServiceImpl`.

The model starts from the parsed document. The Java references the mapper
tests for null, or dereferences where a null would abort it, are `Option`s: the
document, its info, servers and paths, every path item, operation, parameter
and request body, and a schema's fields. Four nullable references are plain
values; they are listed under "## Left out". Ordered Java maps are sequences of key/value pairs. Jackson
object nodes are ordered field lists, and `Put` replaces a key in place or
appends it, as `ObjectNode.set` does. Every exception that aborts a conversion
becomes an `Err` value of `OpenApi.Error`.

The source's loops are methods with loop invariants. Each is proved equal to a
function that states what it computes:

- `resolveSchema`'s counting loop;
- `operationsOf`'s map filling;
- the parameter bucketing loop;
- the properties `forEach`;
- the per-operation tool builder;
- the nested walk over paths and operations.

The properties are lemmas about those functions. The two mappers share one
generic walk (`Traversal`) over a tool builder and a flag. The reference aborts
on a null path item; the draft passes over it. Their body builders differ in one
place: how a field's type is read. That is the `Body.Variant` parameter.

Files:

- `wrappers.dfy`: `Option` and `Result`.
- `json.dfy`: JSON nodes, `Get` and `Put`.
- `openapi.dfy`: the document, the DTOs and the errors.
- `slug.dfy`: `toSnakeCase`.
- `endpoint.dfy`: `concat`.
- `resolver.dfy`: `resolveSchema`.
- `operations.dfy`: `operationsOf`.
- `parameters.dfy`: parameter bucketing.
- `body.dfy`: `preferJsonSchema`, `fieldNode` and `schemaToBodyObject`.
- `assembly.dfy`: `objWithProps` and the `inputSchema`.
- `traversal.dfy`: the walk.
- `mapper.dfy`: the reference `convert`.
- `draft.dfy`: the draft's `main`.
- `service.dfy`: the dispatch.

The model follows the code as written, including behaviour that looks
accidental:

- **Null `required` on a request body.** The reference unboxes the flag
  (`getRequired()` at :142-143). A request body without a `required` flag
  therefore aborts the conversion with a null dereference, even when its
  content is not JSON.
- **Double resolution of the body root.** The root schema is resolved before
  `schemaToBodyObject` and again inside it, so it follows up to 20 `$ref` hops
  rather than 10.
- **`concat` and slashes.** The helper's comment (:290) says it joins base and
  path without a double slash. The code strips one trailing `/` from the base
  and never inserts one. A base without a trailing `/` and a path without a
  leading `/` therefore meet with no slash, and a base ending in `//` still
  gives a double slash. The model follows the code (`Endpoint.ConcatShape`).
- **Method order.** `operationsOf` lists operations in the order of
  `PathItem.HttpMethod.values()`. swagger-models declares the constants as
  POST, GET, PUT, PATCH, DELETE, HEAD, OPTIONS, TRACE, so tools come in that
  order within a path, not with GET first.

## Model

| member | source | states |
|---|---|---|
| Slug.SlugIsWellFormed | src/main/java/de/thm/spec2tool/mapper/OpenApiMapper.java:281-288 | every slug, that of null included, is non-empty, uses only [a-z0-9_], and has no leading, trailing or doubled "_" |
| Slug.SlugKeepsWordChars | src/main/java/de/thm/spec2tool/mapper/OpenApiMapper.java:281-288 | the slug keeps exactly the lower-cased letters and digits of the input, in order, and is "tool" when there are none |
| Slug.SlugIdempotent | src/main/java/de/thm/spec2tool/mapper/OpenApiMapper.java:281-288 | a well-formed slug is its own slug |
| Slug.SlugTwice | src/main/java/de/thm/spec2tool/mapper/OpenApiMapper.java:281-288 | slugging twice is slugging once |
| Slug.SlugJoinsWords | src/main/java/de/thm/spec2tool/mapper/OpenApiMapper.java:281-288 | the slug is the trimmed, lower-cased text's maximal runs of [a-z0-9] joined by single "_" (each run of other characters between two of them becomes one "_", none at either end), or "tool" when there are none |
| Slug.NormalizeJoinsWords | src/main/java/de/thm/spec2tool/mapper/OpenApiMapper.java:283-287 | for any cut of the trimmed, lower-cased text into separators and words, the regex pipeline yields the words joined by single "_" |
| Slug.CutOfSpec | src/main/java/de/thm/spec2tool/mapper/OpenApiMapper.java:284 | every text is cut into a leading separator and its maximal runs of [a-z0-9], each followed by a separator, the inner ones non-empty |
| Slug.GetPostsSlug | src/main/java/de/thm/spec2tool/mapper/OpenApiMapper.java:281-288 | "GET /posts" becomes "get_posts" |
| Slug.EmptySlug | src/main/java/de/thm/spec2tool/mapper/OpenApiMapper.java:281-288 | the slug of "" is "tool" |
| Slug.NormalizeWellFormed | src/main/java/de/thm/spec2tool/mapper/OpenApiMapper.java:283-287 | the regex pipeline leaves only [a-z0-9_], no "__", and no "_" at either end |
| Slug.TrimStart | src/main/java/de/thm/spec2tool/mapper/OpenApiMapper.java:283 | trim drops exactly the leading characters up to U+0020 and keeps a suffix |
| Slug.TrimEnd | src/main/java/de/thm/spec2tool/mapper/OpenApiMapper.java:283 | trim drops exactly the trailing characters up to U+0020 and keeps a prefix |
| Slug.TrimSlice | src/main/java/de/thm/spec2tool/mapper/OpenApiMapper.java:283 | trim keeps one slice of the input, and everything it drops at either end is at most U+0020 |
| Slug.StripLeading | src/main/java/de/thm/spec2tool/mapper/OpenApiMapper.java:286 | replaceAll("^_+", "") drops exactly the leading underscores |
| Slug.StripTrailing | src/main/java/de/thm/spec2tool/mapper/OpenApiMapper.java:286 | replaceAll("_+$", "") drops exactly the trailing underscores |
| Endpoint.ConcatShape | src/main/java/de/thm/spec2tool/mapper/OpenApiMapper.java:291-296 | null becomes ""; the path is appended unchanged after the base minus one trailing "/"; no "/" is inserted (slash count is additive minus the stripped one) |
| Endpoint.ConcatSingleSlash | src/main/java/de/thm/spec2tool/mapper/OpenApiMapper.java:291-296 | a base ending in a single "/" and a path starting with "/" meet in exactly one "/" |
| Resolver.ResolveSchema | src/main/java/de/thm/spec2tool/mapper/OpenApiMapper.java:215-226 | the counting loop returns the resolution function's result (null for null) and makes at most 10 lookups |
| Resolver.RefNameIsLastSegment | src/main/java/de/thm/spec2tool/mapper/OpenApiMapper.java:219 | the referenced name is the text after the last "/" (all of it when there is none) |
| Resolver.ResolveStopsAtOnce | src/main/java/de/thm/spec2tool/mapper/OpenApiMapper.java:216-222 | a schema without $ref, or whose name is missing, comes back unchanged |
| Resolver.ResolveOutcome | src/main/java/de/thm/spec2tool/mapper/OpenApiMapper.java:218-224 | resolution stops on a schema without $ref, on a missing name (the result keeps its $ref), or after the whole budget of lookups |
| Resolver.ResolveFromComponents | src/main/java/de/thm/spec2tool/mapper/OpenApiMapper.java:218-225 | the result is the input or one of the component schemas |
| Resolver.LookupsBound | src/main/java/de/thm/spec2tool/mapper/OpenApiMapper.java:218 | at most the budget of lookups is made |
| Resolver.ResolveTwice | src/main/java/de/thm/spec2tool/mapper/OpenApiMapper.java:151-237 | resolving twice is resolving once with the two budgets added |
| Resolver.ChainOfThree | src/main/java/de/thm/spec2tool/mapper/OpenApiMapper.java:215-226 | a chain A to B to C of references ends at C's concrete schema |
| Resolver.SelfReference | src/main/java/de/thm/spec2tool/mapper/OpenApiMapper.java:215-226 | a self-reference is followed 10 times and then returned with its $ref |
| Operations.OperationsOf | src/main/java/de/thm/spec2tool/mapper/OpenApiMapper.java:299-315 | the loop over HttpMethod.values() yields the defined operations in method order |
| Operations.OperationsOfSpec | src/main/java/de/thm/spec2tool/mapper/OpenApiMapper.java:299-315 | (m, op) is listed iff the item holds op for m; the list is strictly in POST, GET, PUT, PATCH, DELETE, HEAD, OPTIONS, TRACE order, that of HttpMethod.values(); at most 8 entries |
| Operations.OperationsInSpec | src/main/java/de/thm/spec2tool/mapper/OpenApiMapper.java:301-312 | the same, for any list of methods, with order inherited from that list |
| Parameters.PathDescription | src/main/java/de/thm/spec2tool/mapper/OpenApiMapper.java:123 | a path description always ends in "(path)"; it is the text itself when it already did, else the text plus " (path)" |
| Parameters.UnmarkedDescription | src/main/java/de/thm/spec2tool/mapper/OpenApiMapper.java:123 | a description not ending in ")" gets " (path)" appended |
| Parameters.ClassifyParameters | src/main/java/de/thm/spec2tool/mapper/OpenApiMapper.java:101-139 | the bucketing loop over path-level then operation-level parameters computes the classification function, failing where it fails |
| Parameters.ClassifyOk | src/main/java/de/thm/spec2tool/mapper/OpenApiMapper.java:107-139 | one parameter passes iff it is null, has no location, or has a schema with a type for path/query and a required flag for path |
| Parameters.ClassifyAllOk | src/main/java/de/thm/spec2tool/mapper/OpenApiMapper.java:107-139 | the loop succeeds iff every parameter passes |
| Parameters.ClassifyAllErrors | src/main/java/de/thm/spec2tool/mapper/OpenApiMapper.java:116-129 | it fails only with a missing schema, a null dereference or an empty type list |
| Parameters.MissingSchemaAborts | src/main/java/de/thm/spec2tool/mapper/OpenApiMapper.java:116 | the first located parameter without a schema aborts with ConversionException naming it |
| Parameters.ClassifyAllWellShaped | src/main/java/de/thm/spec2tool/mapper/OpenApiMapper.java:118-137 | buckets keep unique names; path entries are {type, description ending "(path)"}, query entries {type, description}, header entries {description} only; every required name has a path entry |
| Parameters.ClassifyWellShaped | src/main/java/de/thm/spec2tool/mapper/OpenApiMapper.java:118-137 | one iteration keeps the buckets well shaped |
| Parameters.ClassifyAllKeys | src/main/java/de/thm/spec2tool/mapper/OpenApiMapper.java:119-137 | a bucket holds exactly the names of the parameters at its location (unknown locations ignored); pathReq holds exactly the path names whose required flag is true, never a query or header name |
| Parameters.ClassifyKeys | src/main/java/de/thm/spec2tool/mapper/OpenApiMapper.java:119-137 | one iteration adds at most its own name to its own bucket |
| Parameters.ClassifyEntry | src/main/java/de/thm/spec2tool/mapper/OpenApiMapper.java:119-137 | one iteration files the parameter's own entry under its name and leaves every other entry of every bucket unchanged |
| Parameters.ClassifyAllEntries | src/main/java/de/thm/spec2tool/mapper/OpenApiMapper.java:107-139 | after the loop, the entry under a name is the one for the last parameter of that name at that location; a name no parameter uses keeps its entry |
| Parameters.AcceptedEntryType | src/main/java/de/thm/spec2tool/mapper/OpenApiMapper.java:120-132 | a path or query entry is {type: the first declared type, description: the description or "string", plus " (path)" in the path bucket}; a header entry is {description} |
| Parameters.OperationParameterOverrides | src/main/java/de/thm/spec2tool/mapper/OpenApiMapper.java:101-125 | a path-level and an operation-level "id" give one entry, the later description, and "id" twice in pathReq |
| Body.MediaLookupFinds | src/main/java/de/thm/spec2tool/mapper/OpenApiMapper.java:208-211 | a media type is found iff its key is present, and the first such entry is returned |
| Body.PreferJsonSchema | src/main/java/de/thm/spec2tool/mapper/OpenApiMapper.java:208-212 | null or empty content gives null; else the application/json schema if present, else the first media type's schema |
| Body.FieldNodeSpec | src/main/java/de/thm/spec2tool/mapper/OpenApiMapper.java:265-278 | a field node fails only in the reference, for a non-array schema with a null type set; otherwise it has a description (or "string"), arrays get type "array" and an items stub, others exactly type and description, the type being the first of the schema's types, or "object" for no schema or an empty type set (the draft: the schema's type, or "object") |
| Body.BuildProperties | src/main/java/de/thm/spec2tool/mapper/OpenApiMapper.java:256-259 | the forEach over properties computes the property-filling function |
| Body.PutNodesAppends | src/main/java/de/thm/spec2tool/mapper/OpenApiMapper.java:256-259 | with distinct property names the properties object is the schema's properties, in order, each mapped by fieldNode of its resolved schema |
| Body.FieldsForSpec | src/main/java/de/thm/spec2tool/mapper/OpenApiMapper.java:256-259 | the body's property keys equal the schema's property names, and each value is the field node of that property |
| Body.FieldsForFails | src/main/java/de/thm/spec2tool/mapper/OpenApiMapper.java:258 | filling fails iff some property's field node fails, and then with the type-set null dereference |
| Body.SchemaToBodyObject | src/main/java/de/thm/spec2tool/mapper/OpenApiMapper.java:229-262 | the body builder with its resolution and property loops computes the body function |
| Body.NullBodyExcluded | src/main/java/de/thm/spec2tool/mapper/OpenApiMapper.java:231-235 | a null schema gives {type:"object", properties:{}}, which is never included |
| Body.BodyIncluded | src/main/java/de/thm/spec2tool/mapper/OpenApiMapper.java:172-176 | the body is included iff its resolved schema is an array schema, is typed "array", or is an object with at least one property |
| Body.ObjectBodyProperties | src/main/java/de/thm/spec2tool/mapper/OpenApiMapper.java:254-261 | a non-array body's type is the schema's type or "object", and its properties are the schema's properties mapped by fieldNode |
| Body.ArrayBodyItems | src/main/java/de/thm/spec2tool/mapper/OpenApiMapper.java:240-251 | an array body is typed "array"; its items' type is the resolved items' type or "object"; items get properties only when typed "object" with properties, and those are the items schema's properties, in order, each the field node of its resolved schema |
| Body.BodyFails | src/main/java/de/thm/spec2tool/mapper/OpenApiMapper.java:229-278 | building a body fails only in the reference, with the null type-set dereference; the draft's never fails |
| Body.PutNodesFails | src/main/java/de/thm/spec2tool/mapper/OpenApiMapper.java:258 | the same for one properties object |
| Assembly.ObjWithPropsSpec | src/main/java/de/thm/spec2tool/mapper/OpenApiMapper.java:199-205 | objWithProps is typed "object", holds the properties, has "required" iff the list is non-null and non-empty, and has unique keys |
| Assembly.SectionsSpec | src/main/java/de/thm/spec2tool/mapper/OpenApiMapper.java:155-181 | the sections come in the order path, query, headers, body, each exactly when its rule holds, headers without a wrapper |
| Assembly.SectionKeys | src/main/java/de/thm/spec2tool/mapper/OpenApiMapper.java:155-181 | the section keys are exactly the names whose rule holds, in that order |
| Assembly.SectionNamesSpec | src/main/java/de/thm/spec2tool/mapper/OpenApiMapper.java:155-181 | "path", "query", "headers" and "body" are sections exactly when their rules hold |
| Assembly.RootRequiredSpec | src/main/java/de/thm/spec2tool/mapper/OpenApiMapper.java:158-185 | root "required" is absent when empty; it names "path" iff a path name is required, "body" iff the body is included and required, path before body; type is "object" |
| Assembly.RequiredAreSections | src/main/java/de/thm/spec2tool/mapper/OpenApiMapper.java:155-185 | every name in root "required" is a section |
| Assembly.HeadersSection | src/main/java/de/thm/spec2tool/mapper/OpenApiMapper.java:166-169 | the headers section is the header bucket itself |
| Traversal.PathToolsSpec | src/main/java/de/thm/spec2tool/mapper/OpenApiMapper.java:70-190 | a path item's tools are produced iff every operation's tool builds, one per operation in order |
| Traversal.AllToolsSpec | src/main/java/de/thm/spec2tool/mapper/OpenApiMapper.java:62-192 | the walk succeeds iff no path item is null (unless nulls are passed over) and every tool builds; the tools are then one per operation, paths in order, methods in order |
| Traversal.NullItemFails | src/main/java/de/thm/spec2tool/mapper/OpenApiMapper.java:64-67 | a null path item makes the aborting walk fail |
| Traversal.JoinAssoc | src/main/java/de/thm/spec2tool/mapper/OpenApiMapper.java:189 | appending tool lists is associative with the first failure winning |
| Mapper.BuildTool | src/main/java/de/thm/spec2tool/mapper/OpenApiMapper.java:76-189 | the loop body computes the tool function |
| Mapper.PathItemTools | src/main/java/de/thm/spec2tool/mapper/OpenApiMapper.java:70-190 | the operation loop computes the path item's tool list |
| Mapper.Convert | src/main/java/de/thm/spec2tool/mapper/OpenApiMapper.java:39-196 | convert with its nested loops computes the conversion function |
| Mapper.ConvertSpec | src/main/java/de/thm/spec2tool/mapper/OpenApiMapper.java:45-66 | no document gives the parse failure; a document converts iff no path item is null and every tool builds; the tools are then one per operation in path order and method order; the tool set's name is the slug of the title (or of "toolset"), its description the slug of the info description (or of ""), both well-formed slugs |
| Mapper.NullPathItemAborts | src/main/java/de/thm/spec2tool/mapper/OpenApiMapper.java:64-67 | a null path item anywhere means no tool set |
| Mapper.NoPathsNoTools | src/main/java/de/thm/spec2tool/mapper/OpenApiMapper.java:62 | a document without paths converts to an empty tool list |
| Mapper.DefaultToolSetName | src/main/java/de/thm/spec2tool/mapper/OpenApiMapper.java:57 | without info the tool set is named "toolset" |
| Mapper.DefaultToolSetDescription | src/main/java/de/thm/spec2tool/mapper/OpenApiMapper.java:58 | without an info description the tool set's description is "tool" |
| Mapper.ToolIdentity | src/main/java/de/thm/spec2tool/mapper/OpenApiMapper.java:76-86 | description is summary, else description, else "METHOD path"; name is its slug; requestMethod is the method's name; endpoint joins base URL and path key |
| Mapper.ToolFailures | src/main/java/de/thm/spec2tool/mapper/OpenApiMapper.java:107-153 | a tool builds iff every parameter passes, a present body has a required flag, and a JSON body builds; a parameter error comes first; a flagless body fails even without JSON content |
| Mapper.BucketFilled | src/main/java/de/thm/spec2tool/mapper/OpenApiMapper.java:119-137 | a bucket is non-empty iff some parameter has that location |
| Mapper.PathRequired | src/main/java/de/thm/spec2tool/mapper/OpenApiMapper.java:125 | some path name is required iff some path parameter's flag is true |
| Mapper.BodySection | src/main/java/de/thm/spec2tool/mapper/OpenApiMapper.java:149-176 | the body section is there iff the preferred schema exists and, after up to 20 hops, is an array schema, typed "array", or an object with properties |
| Mapper.SectionsOfParameters | src/main/java/de/thm/spec2tool/mapper/OpenApiMapper.java:155-185 | section presence and root "required" in terms of the parameters |
| Mapper.PathSectionLocated | src/main/java/de/thm/spec2tool/mapper/OpenApiMapper.java:155-159 | the "path" section is there exactly when some parameter is in the path |
| Mapper.ToolSections | src/main/java/de/thm/spec2tool/mapper/OpenApiMapper.java:155-185 | a tool's path, query and headers sections are present iff some parameter is at that location; body only for JSON content; root "required" is ["path"]? + ["body"]? by the required path parameters and the body's flag, absent when empty |
| Draft.DraftClassifyParameters | src/main/java/mapper/OpenApiMapper.java:84-111 | the draft's bucketing loop computes its total classification function |
| Draft.DraftClassifyAllKeys | src/main/java/mapper/OpenApiMapper.java:84-111 | a bucket holds exactly the names at its location; pathReq exactly the path names whose flag is Boolean.TRUE (null counts as false) |
| Draft.DraftClassifyKeys | src/main/java/mapper/OpenApiMapper.java:91-110 | one iteration adds at most its own name to its own bucket |
| Draft.DraftClassifyEntry | src/main/java/mapper/OpenApiMapper.java:91-110 | one iteration files the parameter's own entry under its name and leaves every other entry unchanged |
| Draft.DraftClassifyAllEntries | src/main/java/mapper/OpenApiMapper.java:84-111 | after the loop, the entry under a name is the draft entry of the last parameter of that name there: {type: the schema's type or "string", description or "string", " (path)" in the path bucket}, or {description} for a header |
| Draft.SameBucketNames | src/main/java/mapper/OpenApiMapper.java:84-111 | where the reference's loop succeeds, the draft files the same names under the same locations and requires the same path names |
| Draft.DraftBuildTool | src/main/java/mapper/OpenApiMapper.java:57-164 | the draft's loop body computes its tool function |
| Draft.DraftPathItemTools | src/main/java/mapper/OpenApiMapper.java:53-165 | the operation loop yields a tool for every operation, never failing |
| Draft.DraftConvert | src/main/java/mapper/OpenApiMapper.java:33-167 | main's walk computes the draft conversion function |
| Draft.DraftConvertSpec | src/main/java/mapper/OpenApiMapper.java:33-50 | every parsed document converts; null path items are skipped; one tool per operation of the others in order; the name is the slug of the title (or of "toolset"), the description the fixed sentence |
| Draft.DraftBucketFilled | src/main/java/mapper/OpenApiMapper.java:84-111 | a bucket is non-empty iff some parameter has that location |
| Draft.DraftPathRequired | src/main/java/mapper/OpenApiMapper.java:97 | some path name is required iff some path parameter's flag is TRUE |
| Draft.DraftSectionsOfParameters | src/main/java/mapper/OpenApiMapper.java:133-156 | path and query sections iff parameters there; headers iff header parameters or a JSON body; root "required" by the required path names and the body's TRUE flag |
| Draft.DraftPathSectionLocated | src/main/java/mapper/OpenApiMapper.java:133-137 | the draft's "path" section is there exactly when some parameter is in the path |
| Draft.ContentTypeSection | src/main/java/mapper/OpenApiMapper.java:126-145 | with a JSON body the headers section's Content-Type is {enum:["application/json"]}, overwriting a declared header |
| Draft.DraftToolSections | src/main/java/mapper/OpenApiMapper.java:114-160 | the draft tool's sections and root "required" as above, with a null body flag meaning not required |
| ConversionService.AcceptsSupported | src/main/java/de/thm/spec2tool/service/ConversionServiceImpl.java:27-37 | a format is accepted iff some supported format equals it ignoring case |
| ConversionService.AcceptedSpellings | src/main/java/de/thm/spec2tool/service/ConversionServiceImpl.java:27 | a format is accepted iff it case-folds to "openapi"; "OpenAPI" and "OPENAPI" are accepted |
| ConversionService.Dispatch | src/main/java/de/thm/spec2tool/service/ConversionServiceImpl.java:26-33 | an accepted format passes the document unchanged to the mapper; any other, null included, gives NotImplemented whatever the document; success implies an accepted format and a parsed document |

## Left out

- Parsing with OpenAPIV3Parser and Jackson serialisation (`writeValueAsString`, `readContents`, `treeToValue`) are foreign libraries. The model starts from the parsed document, and a failed parse is the `None` document.
- The draft's classpath reading and its printing of the result are I/O.
- All logging is left out, including the log-only `toSnakeCase(operation.getSummary())` at :188.
- The HTTP controllers, the DTOs' validation annotations, the stale service draft and the `AMapper` files are not part of this model.
- Exception messages are not modelled, only which exception and where it arises.
- The null-operation checks (:71-74; draft :54) cannot fire, because `operationsOf` only lists non-null operations. They have no counterpart in the model.
- Jackson nodes are modelled as values, not shared objects. The source attaches `headerProps` and `pathReq` to the output and never changes them afterwards, so aliasing is not observable and is not modelled.
- A schema is modelled by the fields the mapper reads: `$ref`, `type`, `types`, array-ness, items, properties and description. `types` (a Java set) is a sequence in its iteration order.
- Slug.ToSnakeCase: lower-casing is ASCII only, and the three regular expressions are written out as functions. Locale and Unicode case mapping are not modelled.
- ConversionService.Fold: `equalsIgnoreCase` is modelled by ASCII folding plus U+0130 and U+0131. Other non-ASCII characters never fold onto a letter of "openapi", so the outcome of the dispatch is unchanged.
- Four nullable references are plain values, so what the code does with a null one is not modelled: a parameter's name, a value of a schema's properties map (the code would resolve it to null and give an "object" field node), a media type in a request body's content, and a path key (`concat` would treat it as "").
- The order of `PathItem.HttpMethod.values()` is swagger-models' declaration order. That library is not part of this model, so the order is written out as it declares it.
- Resolver.ResolveSchema: the lookup count is a ghost out-parameter, used only to state the bound.
