/**
 * Assembly of a tool's inputSchema from the parameter buckets and the body
 * node (OpenApiMapper.java:155-185, objWithProps at :199-205; the draft's
 * :133-161 and :174-180 follow the same rules).
 */
module Assembly {
  import opened Wrappers
  import opened Json
  import opened Parameters
  import opened Body

  /** An ArrayNode of strings. */
  function Strings(ss: seq<string>): Json
  {
    JArray(seq(|ss|, i requires 0 <= i < |ss| => JString(ss[i])))
  }

  /** The optional trailing "required" field: absent for a null or empty list. */
  function RequiredField(required: Option<seq<string>>): Fields
  {
    if required.Some? && |required.value| > 0 then [("required", Strings(required.value))] else []
  }

  /** objWithProps: {type:"object", properties, required?}. */
  function ObjWithProps(props: Fields, required: Option<seq<string>>): Json
  {
    JObject([("type", JString("object")), ("properties", JObject(props))] + RequiredField(required))
  }

  /** objWithProps is typed "object", holds `props`, and has "required" exactly for a non-empty list. */
  lemma ObjWithPropsSpec(props: Fields, required: Option<seq<string>>)
    ensures var f := ObjWithProps(props, required).fields;
      && Get(f, "type") == Some(JString("object"))
      && Get(f, "properties") == Some(JObject(props))
      && Get(f, "required") == (if required.Some? && |required.value| > 0 then Some(Strings(required.value)) else None)
      && UniqueKeys(f)
  {
    var f := ObjWithProps(props, required).fields;
    if required.Some? && |required.value| > 0 {
      var req := Strings(required.value);
      GetOfThree("type", JString("object"), "properties", JObject(props), "required", req, "type");
      GetOfThree("type", JString("object"), "properties", JObject(props), "required", req, "properties");
      GetOfThree("type", JString("object"), "properties", JObject(props), "required", req, "required");
    } else {
      assert f == [("type", JString("object")), ("properties", JObject(props))];
      GetOfTwo("type", JString("object"), "properties", JObject(props), "type");
      GetOfTwo("type", JString("object"), "properties", JObject(props), "properties");
      GetOfTwo("type", JString("object"), "properties", JObject(props), "required");
    }
  }

  predicate HasPathSection(b: Buckets) {
    |b.pathProps| > 0 || |b.pathReq| > 0
  }

  predicate HasBodySection(body: Option<Json>) {
    body.Some? && IncludeBody(body.value)
  }

  /** The "properties" object of the input schema, filled section by section. */
  function Sections(b: Buckets, body: Option<Json>): Fields
  {
    var p1 := if HasPathSection(b) then Put([], "path", ObjWithProps(b.pathProps, Some(b.pathReq))) else [];
    var p2 := if |b.queryProps| > 0 then Put(p1, "query", ObjWithProps(b.queryProps, None)) else p1;
    var p3 := if |b.headerProps| > 0 then Put(p2, "headers", JObject(b.headerProps)) else p2;
    if HasBodySection(body) then Put(p3, "body", body.value) else p3
  }

  /** The root "required" list: "path" when some path parameter is required, then "body" when an included body is required. */
  function RootRequired(b: Buckets, body: Option<Json>, bodyRequired: bool): seq<string>
  {
    (if |b.pathReq| > 0 then ["path"] else []) + (if HasBodySection(body) && bodyRequired then ["body"] else [])
  }

  /** The inputSchema node: {type:"object", properties, required?}. */
  function InputSchema(b: Buckets, body: Option<Json>, bodyRequired: bool): Json
  {
    var rootRequired := RootRequired(b, body, bodyRequired);
    JObject([("type", JString("object")), ("properties", JObject(Sections(b, body)))]
      + (if |rootRequired| > 0 then [("required", Strings(rootRequired))] else []))
  }

  /** A section with its key, present or not. */
  function Section(present: bool, key: string, value: Json): Fields
  {
    if present then [(key, value)] else []
  }

  /**
   * The sections appear in the order path, query, headers, body, each exactly
   * when its rule holds: path when there are path entries or required path
   * names, query and headers when non-empty, body when the body node is an
   * array or a non-empty object.
   */
  lemma SectionsSpec(b: Buckets, body: Option<Json>)
    ensures Sections(b, body) ==
      Section(HasPathSection(b), "path", ObjWithProps(b.pathProps, Some(b.pathReq)))
      + Section(|b.queryProps| > 0, "query", ObjWithProps(b.queryProps, None))
      + Section(|b.headerProps| > 0, "headers", JObject(b.headerProps))
      + Section(HasBodySection(body), "body", if HasBodySection(body) then body.value else JObject([]))
  {
    var s1 := Section(HasPathSection(b), "path", ObjWithProps(b.pathProps, Some(b.pathReq)));
    var s2 := Section(|b.queryProps| > 0, "query", ObjWithProps(b.queryProps, None));
    var s3 := Section(|b.headerProps| > 0, "headers", JObject(b.headerProps));
    PutSection([], HasPathSection(b), "path", ObjWithProps(b.pathProps, Some(b.pathReq)));
    assert [] + s1 == s1;
    PutSection(s1, |b.queryProps| > 0, "query", ObjWithProps(b.queryProps, None));
    PutSection(s1 + s2, |b.headerProps| > 0, "headers", JObject(b.headerProps));
    PutSection(s1 + s2 + s3, HasBodySection(body), "body", if HasBodySection(body) then body.value else JObject([]));
  }

  /** One step of Sections: a section put under a new key is appended. */
  lemma PutSection(f: Fields, present: bool, key: string, value: Json)
    requires key !in Keys(f)
    ensures (if present then Put(f, key, value) else f) == f + Section(present, key, value)
    ensures Keys(f + Section(present, key, value)) == Keys(f) + (if present then [key] else [])
  {
    if present {
      PutFresh(f, key, value);
    } else {
      assert f + [] == f;
    }
  }

  /** The root "required" list names "path" exactly when a path name is required, "body" exactly when the body is included and required, "path" first. */
  lemma RootRequiredNames(b: Buckets, body: Option<Json>, bodyRequired: bool)
    ensures "path" in RootRequired(b, body, bodyRequired) <==> |b.pathReq| > 0
    ensures "body" in RootRequired(b, body, bodyRequired) <==> HasBodySection(body) && bodyRequired
    ensures var rr := RootRequired(b, body, bodyRequired);
      forall i, j :: 0 <= i < j < |rr| ==> rr[i] == "path" && rr[j] == "body"
  {
  }

  /**
   * The root "required" list is present exactly when it is non-empty; it names
   * "path" exactly when some path parameter is required and "body" exactly when
   * the body is included and required, "path" first.
   */
  lemma RootRequiredSpec(b: Buckets, body: Option<Json>, bodyRequired: bool)
    ensures var schema := InputSchema(b, body, bodyRequired).fields;
      Get(schema, "required").Some? <==> |b.pathReq| > 0 || (HasBodySection(body) && bodyRequired)
    ensures var schema := InputSchema(b, body, bodyRequired).fields;
      Get(schema, "required").Some? ==> Get(schema, "required") == Some(Strings(RootRequired(b, body, bodyRequired)))
    ensures "path" in RootRequired(b, body, bodyRequired) <==> |b.pathReq| > 0
    ensures "body" in RootRequired(b, body, bodyRequired) <==> HasBodySection(body) && bodyRequired
    ensures var rr := RootRequired(b, body, bodyRequired);
      forall i, j :: 0 <= i < j < |rr| ==> rr[i] == "path" && rr[j] == "body"
    ensures Get(InputSchema(b, body, bodyRequired).fields, "type") == Some(JString("object"))
    ensures Get(InputSchema(b, body, bodyRequired).fields, "properties") == Some(JObject(Sections(b, body)))
  {
    RootRequiredNames(b, body, bodyRequired);
    var rr := RootRequired(b, body, bodyRequired);
    var props := JObject(Sections(b, body));
    if |rr| > 0 {
      GetOfThree("type", JString("object"), "properties", props, "required", Strings(rr), "type");
      GetOfThree("type", JString("object"), "properties", props, "required", Strings(rr), "properties");
      GetOfThree("type", JString("object"), "properties", props, "required", Strings(rr), "required");
    } else {
      assert InputSchema(b, body, bodyRequired).fields == [("type", JString("object")), ("properties", props)];
      GetOfTwo("type", JString("object"), "properties", props, "type");
      GetOfTwo("type", JString("object"), "properties", props, "properties");
      GetOfTwo("type", JString("object"), "properties", props, "required");
    }
  }

  /** Every name in the root "required" list is a section of the schema. */
  lemma RequiredAreSections(b: Buckets, body: Option<Json>, bodyRequired: bool)
    ensures forall k :: k in RootRequired(b, body, bodyRequired) ==> k in Keys(Sections(b, body))
  {
    SectionKeys(b, body);
    SectionNamesSpec(b, body);
  }

  /** Which names the section list holds. */
  lemma SectionNamesSpec(b: Buckets, body: Option<Json>)
    ensures "path" in SectionNames(b, body) <==> HasPathSection(b)
    ensures "query" in SectionNames(b, body) <==> |b.queryProps| > 0
    ensures "headers" in SectionNames(b, body) <==> |b.headerProps| > 0
    ensures "body" in SectionNames(b, body) <==> HasBodySection(body)
  {
    var n1: seq<string> := if HasPathSection(b) then ["path"] else [];
    var n2: seq<string> := if |b.queryProps| > 0 then ["query"] else [];
    var n3: seq<string> := if |b.headerProps| > 0 then ["headers"] else [];
    var n4: seq<string> := if HasBodySection(body) then ["body"] else [];
    assert SectionNames(b, body) == n1 + n2 + n3 + n4;
    assert forall k :: k in n1 + n2 + n3 + n4 <==> k in n1 || k in n2 || k in n3 || k in n4;
  }

  /** The names of the sections present, in order. */
  function SectionNames(b: Buckets, body: Option<Json>): seq<string>
  {
    (if HasPathSection(b) then ["path"] else [])
    + (if |b.queryProps| > 0 then ["query"] else [])
    + (if |b.headerProps| > 0 then ["headers"] else [])
    + (if HasBodySection(body) then ["body"] else [])
  }

  lemma KeysOfSection(present: bool, key: string, value: Json)
    ensures Keys(Section(present, key, value)) == if present then [key] else []
  {
  }

  /** The sections present are, in order, those whose rule holds. */
  lemma SectionKeys(b: Buckets, body: Option<Json>)
    ensures Keys(Sections(b, body)) == SectionNames(b, body)
  {
    SectionsSpec(b, body);
    var s1 := Section(HasPathSection(b), "path", ObjWithProps(b.pathProps, Some(b.pathReq)));
    var s2 := Section(|b.queryProps| > 0, "query", ObjWithProps(b.queryProps, None));
    var s3 := Section(|b.headerProps| > 0, "headers", JObject(b.headerProps));
    var s4 := Section(HasBodySection(body), "body", if HasBodySection(body) then body.value else JObject([]));
    KeysOfSection(HasPathSection(b), "path", ObjWithProps(b.pathProps, Some(b.pathReq)));
    KeysOfSection(|b.queryProps| > 0, "query", ObjWithProps(b.queryProps, None));
    KeysOfSection(|b.headerProps| > 0, "headers", JObject(b.headerProps));
    KeysOfSection(HasBodySection(body), "body", if HasBodySection(body) then body.value else JObject([]));
    KeysAppend(s1, s2);
    KeysAppend(s1 + s2, s3);
    KeysAppend(s1 + s2 + s3, s4);
  }

  /** The "headers" section, when present, is the header bucket itself, with no object wrapper. */
  lemma HeadersSection(b: Buckets, body: Option<Json>)
    requires |b.headerProps| > 0
    ensures Get(Sections(b, body), "headers") == Some(JObject(b.headerProps))
  {
    SectionsSpec(b, body);
    var s1 := Section(HasPathSection(b), "path", ObjWithProps(b.pathProps, Some(b.pathReq)));
    var s2 := Section(|b.queryProps| > 0, "query", ObjWithProps(b.queryProps, None));
    var s3 := Section(|b.headerProps| > 0, "headers", JObject(b.headerProps));
    var s4 := Section(HasBodySection(body), "body", if HasBodySection(body) then body.value else JObject([]));
    GetAppend(s1, s2, "headers");
    GetAppend(s1 + s2, s3, "headers");
    GetAppend(s1 + s2 + s3, s4, "headers");
  }
}
