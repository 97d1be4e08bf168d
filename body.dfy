/**
 * The request-body node (OpenApiMapper.java:207-278; draft 182-253):
 * preferJsonSchema, schemaToBodyObject and fieldNode, and the test that
 * decides whether the body becomes a section of the input schema (:171-181).
 */
module Body {
  import opened Wrappers
  import opened Json
  import opened OpenApi
  import opened Resolver

  /** The two mappers build bodies alike except for how fieldNode reads a property's type. */
  datatype Variant = Reference | Draft

  const JsonMediaType: string := "application/json"

  /** Content.get: the media type stored under `key`. */
  function MediaLookup(content: seq<(string, MediaType)>, key: string): Option<MediaType>
  {
    if content == [] then None
    else if content[0].0 == key then Some(content[0].1)
    else MediaLookup(content[1..], key)
  }

  /** The lookup finds the first entry under `key`, and finds one whenever there is one. */
  lemma {:induction false} MediaLookupFinds(content: seq<(string, MediaType)>, key: string)
    ensures MediaLookup(content, key).Some? <==> exists i :: 0 <= i < |content| && content[i].0 == key
    ensures MediaLookup(content, key).Some? ==>
      exists i :: 0 <= i < |content| && content[i] == (key, MediaLookup(content, key).value)
        && forall j :: 0 <= j < i ==> content[j].0 != key
    decreases |content|
  {
    if content != [] && content[0].0 != key {
      MediaLookupFinds(content[1..], key);
      if MediaLookup(content, key).Some? {
        var i :| 0 <= i < |content[1..]| && content[1..][i] == (key, MediaLookup(content, key).value)
          && forall j :: 0 <= j < i ==> content[1..][j].0 != key;
        assert content[i + 1] == content[1..][i];
        forall j | 0 <= j < i + 1 ensures content[j].0 != key {
          if j > 0 {
            assert content[j] == content[1..][j - 1];
          }
        }
      } else {
        forall i | 0 <= i < |content| ensures content[i].0 != key {
          if i > 0 {
            assert content[i] == content[1..][i - 1];
          }
        }
      }
    }
  }

  /** hasJsonBody (:144-146): the operation has a request body whose content lists "application/json". */
  predicate HasJsonBody(body: Option<RequestBody>) {
    body.Some? && body.value.content.Some? && MediaLookup(body.value.content.value, JsonMediaType).Some?
  }

  /**
   * preferJsonSchema: the schema of the "application/json" media type if the
   * content has one, otherwise that of the first media type; null for absent
   * or empty content.
   */
  function PreferJsonSchema(content: Option<seq<(string, MediaType)>>): (r: Option<Schema>)
    ensures content.None? || content.value == [] ==> r.None?
    ensures content.Some? && MediaLookup(content.value, JsonMediaType).Some? ==>
      r == MediaLookup(content.value, JsonMediaType).value.schema
    ensures content.Some? && content.value != [] && MediaLookup(content.value, JsonMediaType).None? ==>
      r == content.value[0].1.schema
  {
    match content
    case None => None
    case Some(c) =>
      if c == [] then None
      else match MediaLookup(c, JsonMediaType)
        case Some(mt) => mt.schema
        case None => c[0].1.schema
  }

  /** A type taken from getType(), or `dflt` when the schema or its type is null. */
  function TypeOr(s: Option<Schema>, dflt: string): string
  {
    if s.Some? && s.value.typ.Some? then s.value.typ.value else dflt
  }

  /** The "items" stub of an array field: the unresolved item schema's type, or "object". */
  function ItemsStub(it: Option<Schema>): Json
  {
    JObject([("type", JString(TypeOr(it, "object")))])
  }

  /**
   * The type of a non-array field. The reference mapper reads the first of
   * getTypes() and dereferences a null type set; the draft reads getType().
   */
  function FieldType(v: Variant, s: Option<Schema>): Result<string, Error>
  {
    match v
    case Reference =>
      if s.None? then Ok("object")
      else if s.value.types.None? then Err(NullPointer(FieldTypes))
      else if s.value.types.value == [] then Ok("object")
      else Ok(s.value.types.value[0])
    case Draft => Ok(TypeOr(s, "object"))
  }

  /** fieldNode: {type, items} for an array schema, {type} otherwise, then always a description. */
  function FieldNode(v: Variant, s: Option<Schema>): Result<Json, Error>
  {
    var desc := if s.Some? && s.value.description.Some? then s.value.description.value else "string";
    if s.Some? && s.value.isArray then
      Ok(JObject([("type", JString("array")), ("items", ItemsStub(s.value.items)), ("description", JString(desc))]))
    else
      var t :- FieldType(v, s);
      Ok(JObject([("type", JString(t)), ("description", JString(desc))]))
  }

  /**
   * A field node fails only in the reference mapper, for a non-array schema
   * without a type set; otherwise it carries the schema's description (or
   * "string"), and an array field is typed "array" with an items stub. Any
   * other field is typed by its schema: in the reference mapper the first of
   * the schema's types, or "object" when there is no schema or the type set is
   * empty; in the draft the schema's type, or "object".
   */
  lemma FieldNodeSpec(v: Variant, s: Option<Schema>)
    ensures FieldNode(v, s).Err? <==> v == Reference && s.Some? && !s.value.isArray && s.value.types.None?
    ensures FieldNode(v, s).Ok? ==>
      var j := FieldNode(v, s).value;
      && j.JObject?
      && Get(j.fields, "description") == Some(JString(if s.Some? && s.value.description.Some? then s.value.description.value else "string"))
      && Get(j.fields, "type").Some? && Get(j.fields, "type").value.JString?
      && (s.Some? && s.value.isArray ==>
            Get(j.fields, "type") == Some(JString("array")) && Get(j.fields, "items") == Some(ItemsStub(s.value.items)))
      && (s.None? || !s.value.isArray ==> Keys(j.fields) == ["type", "description"])
      && (s.None? || !s.value.isArray ==>
            Get(j.fields, "type") == Some(JString(
              if v == Draft then TypeOr(s, "object")
              else if s.None? || s.value.types == Some([]) then "object"
              else s.value.types.value[0])))
  {
    var desc := if s.Some? && s.value.description.Some? then s.value.description.value else "string";
    if s.Some? && s.value.isArray {
      var items := ItemsStub(s.value.items);
      GetOfThree("type", JString("array"), "items", items, "description", JString(desc), "description");
      GetOfThree("type", JString("array"), "items", items, "description", JString(desc), "type");
      GetOfThree("type", JString("array"), "items", items, "description", JString(desc), "items");
    } else if FieldType(v, s).Ok? {
      var t := JString(FieldType(v, s).value);
      GetOfTwo("type", t, "description", JString(desc), "description");
      GetOfTwo("type", t, "description", JString(desc), "type");
      assert Keys([("type", t), ("description", JString(desc))]) == ["type", "description"];
    }
  }

  /** The object p filled by the forEach over a schema's properties: each resolved, then turned into a field node. */
  function PutNodes(v: Variant, comps: Option<Components>, acc: Fields, props: seq<(string, Schema)>): Result<Fields, Error>
    decreases |props|
  {
    if props == [] then Ok(acc)
    else
      var node :- FieldNode(v, Resolve(comps, Some(props[0].1)));
      PutNodes(v, comps, Put(acc, props[0].0, node), props[1..])
  }

  /** The forEach of :247 and :258 as a loop. */
  method BuildProperties(v: Variant, comps: Option<Components>, props: seq<(string, Schema)>)
    returns (r: Result<Fields, Error>)
    ensures r == PutNodes(v, comps, [], props)
  {
    var p: Fields := [];
    for i := 0 to |props|
      invariant PutNodes(v, comps, [], props) == PutNodes(v, comps, p, props[i..])
    {
      assert props[i..][1..] == props[i + 1..];
      var resolved: Option<Schema>;
      ghost var hops: nat;
      resolved, hops := ResolveSchema(comps, Some(props[i].1));
      var node :- FieldNode(v, resolved);
      p := Put(p, props[i].0, node);
    }
    r := Ok(p);
  }

  function Names(props: seq<(string, Schema)>): seq<string>
  {
    seq(|props|, i requires 0 <= i < |props| => props[i].0)
  }

  /** Property names are distinct, as the keys of the source's property map are. */
  predicate DistinctNames(props: seq<(string, Schema)>) {
    forall i, j :: 0 <= i < j < |props| ==> props[i].0 != props[j].0
  }

  /** The reference reading of the properties node: one field node per property, in the schema's order. */
  function FieldsFor(v: Variant, comps: Option<Components>, props: seq<(string, Schema)>): Result<Fields, Error>
    decreases |props|
  {
    if props == [] then Ok([])
    else
      var node :- FieldNode(v, Resolve(comps, Some(props[0].1)));
      var rest :- FieldsFor(v, comps, props[1..]);
      Ok([(props[0].0, node)] + rest)
  }

  /** Appending to `acc` the fields of FieldsFor, or its error. */
  function AppendTo(acc: Fields, r: Result<Fields, Error>): Result<Fields, Error>
  {
    match r
    case Ok(fs) => Ok(acc + fs)
    case Err(e) => Err(e)
  }

  lemma DistinctTail(props: seq<(string, Schema)>)
    requires props != [] && DistinctNames(props)
    ensures DistinctNames(props[1..])
    ensures forall i :: 0 <= i < |props[1..]| ==> props[1..][i].0 != props[0].0
  {
    forall i, j | 0 <= i < j < |props[1..]| ensures props[1..][i].0 != props[1..][j].0 {
      assert props[1..][i] == props[i + 1] && props[1..][j] == props[j + 1];
    }
    forall i | 0 <= i < |props[1..]| ensures props[1..][i].0 != props[0].0 {
      assert props[1..][i] == props[i + 1];
    }
  }

  /** After the first name is appended to `acc`, the remaining names are still new. */
  lemma FreshTail(acc: Fields, node: Json, props: seq<(string, Schema)>)
    requires props != [] && DistinctNames(props)
    requires forall i :: 0 <= i < |props| ==> props[i].0 !in Keys(acc)
    ensures Keys(acc + [(props[0].0, node)]) == Keys(acc) + [props[0].0]
    ensures forall i :: 0 <= i < |props[1..]| ==> props[1..][i].0 !in Keys(acc + [(props[0].0, node)])
  {
    DistinctTail(props);
    assert Keys(acc + [(props[0].0, node)]) == Keys(acc) + [props[0].0];
    forall i | 0 <= i < |props[1..]| ensures props[1..][i].0 !in Keys(acc + [(props[0].0, node)]) {
      assert props[1..][i] == props[i + 1];
    }
  }

  /** One step of the loop on a new name appends its field node. */
  lemma PutNodesStep(v: Variant, comps: Option<Components>, acc: Fields, props: seq<(string, Schema)>)
    requires props != [] && props[0].0 !in Keys(acc)
    requires FieldNode(v, Resolve(comps, Some(props[0].1))).Ok?
    ensures var node := FieldNode(v, Resolve(comps, Some(props[0].1))).value;
      PutNodes(v, comps, acc, props) == PutNodes(v, comps, acc + [(props[0].0, node)], props[1..])
  {
    PutFresh(acc, props[0].0, FieldNode(v, Resolve(comps, Some(props[0].1))).value);
  }

  /** One step of FieldsFor moves its first field into the prefix. */
  lemma FieldsForStep(v: Variant, comps: Option<Components>, acc: Fields, props: seq<(string, Schema)>)
    requires props != []
    requires FieldNode(v, Resolve(comps, Some(props[0].1))).Ok?
    ensures var node := FieldNode(v, Resolve(comps, Some(props[0].1))).value;
      AppendTo(acc, FieldsFor(v, comps, props)) == AppendTo(acc + [(props[0].0, node)], FieldsFor(v, comps, props[1..]))
  {
    var node := FieldNode(v, Resolve(comps, Some(props[0].1))).value;
    var rest := FieldsFor(v, comps, props[1..]);
    if rest.Ok? {
      assert (acc + [(props[0].0, node)]) + rest.value == acc + ([(props[0].0, node)] + rest.value);
    }
  }

  /** With distinct property names, filling the object one Put at a time appends the field nodes in order. */
  lemma {:induction false} PutNodesAppends(v: Variant, comps: Option<Components>, acc: Fields, props: seq<(string, Schema)>)
    requires DistinctNames(props)
    requires forall i :: 0 <= i < |props| ==> props[i].0 !in Keys(acc)
    ensures PutNodes(v, comps, acc, props) == AppendTo(acc, FieldsFor(v, comps, props))
    decreases |props|
  {
    if props == [] {
      assert acc + [] == acc;
    } else if FieldNode(v, Resolve(comps, Some(props[0].1))).Ok? {
      var node := FieldNode(v, Resolve(comps, Some(props[0].1))).value;
      PutNodesStep(v, comps, acc, props);
      FieldsForStep(v, comps, acc, props);
      FreshTail(acc, node, props);
      DistinctTail(props);
      PutNodesAppends(v, comps, acc + [(props[0].0, node)], props[1..]);
    }
  }

  /** FieldsFor gives one field per property: same names in the same order, each the field node of the resolved schema. */
  lemma {:induction false} FieldsForSpec(v: Variant, comps: Option<Components>, props: seq<(string, Schema)>)
    requires FieldsFor(v, comps, props).Ok?
    ensures var fs := FieldsFor(v, comps, props).value;
      && Keys(fs) == Names(props)
      && forall i :: 0 <= i < |fs| ==> Ok(fs[i].1) == FieldNode(v, Resolve(comps, Some(props[i].1)))
    decreases |props|
  {
    if props != [] {
      FieldsForSpec(v, comps, props[1..]);
      var fs := FieldsFor(v, comps, props).value;
      var rest := FieldsFor(v, comps, props[1..]).value;
      assert fs == [fs[0]] + rest;
      forall i | 0 <= i < |fs| ensures Ok(fs[i].1) == FieldNode(v, Resolve(comps, Some(props[i].1))) {
        if i > 0 {
          assert fs[i] == rest[i - 1] && props[i] == props[1..][i - 1];
        }
      }
      assert Keys(fs) == Names(props) by {
        forall i | 0 <= i < |fs| ensures Keys(fs)[i] == Names(props)[i] {
          if i > 0 {
            assert fs[i] == rest[i - 1] && props[i] == props[1..][i - 1];
            assert Keys(rest)[i - 1] == Names(props[1..])[i - 1];
          }
        }
      }
    }
  }

  /** The properties node fails exactly when some property's field node fails (the reference's null type set). */
  lemma {:induction false} FieldsForFails(v: Variant, comps: Option<Components>, props: seq<(string, Schema)>)
    ensures FieldsFor(v, comps, props).Err? <==>
      exists i :: 0 <= i < |props| && FieldNode(v, Resolve(comps, Some(props[i].1))).Err?
    ensures FieldsFor(v, comps, props).Err? ==> FieldsFor(v, comps, props).error == NullPointer(FieldTypes)
    decreases |props|
  {
    if props != [] {
      FieldsForFails(v, comps, props[1..]);
      FieldNodeSpec(v, Resolve(comps, Some(props[0].1)));
      if exists i :: 0 <= i < |props| && FieldNode(v, Resolve(comps, Some(props[i].1))).Err? {
        var i :| 0 <= i < |props| && FieldNode(v, Resolve(comps, Some(props[i].1))).Err?;
        if i > 0 {
          assert props[i] == props[1..][i - 1];
        }
      }
      if exists i :: 0 <= i < |props[1..]| && FieldNode(v, Resolve(comps, Some(props[1..][i].1))).Err? {
        var i :| 0 <= i < |props[1..]| && FieldNode(v, Resolve(comps, Some(props[1..][i].1))).Err?;
        assert props[1..][i] == props[i + 1];
      }
    }
  }

  /** A Put never shrinks an object, and the loop over a non-empty property list leaves a non-empty object. */
  lemma {:induction false} PutNodesSize(v: Variant, comps: Option<Components>, acc: Fields, props: seq<(string, Schema)>)
    requires PutNodes(v, comps, acc, props).Ok?
    ensures |PutNodes(v, comps, acc, props).value| >= |acc|
    ensures |props| > 0 ==> |PutNodes(v, comps, acc, props).value| > 0
    decreases |props|
  {
    if props != [] {
      var node := FieldNode(v, Resolve(comps, Some(props[0].1))).value;
      var acc' := Put(acc, props[0].0, node);
      GetFinds(acc', props[0].0);
      PutNodesSize(v, comps, acc', props[1..]);
    }
  }

  /** The body node for a null schema: an object without properties. */
  const EmptyObjectBody: Json := JObject([("type", JString("object")), ("properties", JObject([]))])

  /** The items node of an array body; `items` is already resolved. */
  function ItemsNode(v: Variant, comps: Option<Components>, items: Option<Schema>): Result<Json, Error>
  {
    var ty := JString(TypeOr(items, "object"));
    if items.Some? && items.value.typ == Some("object") && items.value.properties.Some? then
      var p :- PutNodes(v, comps, [], items.value.properties.value);
      Ok(JObject([("type", ty), ("properties", JObject(p))]))
    else
      Ok(JObject([("type", ty)]))
  }

  /** schemaToBodyObject: the schema is resolved (again), then shaped as an array body or an object body. */
  function BodyObject(v: Variant, comps: Option<Components>, schema: Option<Schema>): Result<Json, Error>
  {
    match schema
    case None => Ok(EmptyObjectBody)
    case Some(s) =>
      var r := ResolveN(comps, s, MaxHops);
      if r.isArray then
        var items :- ItemsNode(v, comps, Resolve(comps, r.items));
        Ok(JObject([("type", JString("array")), ("items", items)]))
      else
        var p :- if r.properties.Some? then PutNodes(v, comps, [], r.properties.value) else Ok([]);
        Ok(JObject([("type", JString(TypeOr(Some(r), "object"))), ("properties", JObject(p))]))
  }

  /** schemaToBodyObject with the resolution loop and the properties loop. */
  method SchemaToBodyObject(v: Variant, comps: Option<Components>, schema: Option<Schema>)
    returns (body: Result<Json, Error>)
    ensures body == BodyObject(v, comps, schema)
  {
    if schema.None? {
      return Ok(EmptyObjectBody);
    }
    var resolved: Option<Schema>;
    ghost var hops: nat;
    resolved, hops := ResolveSchema(comps, schema);
    var r := resolved.value;
    if r.isArray {
      var items: Option<Schema>;
      resolved, hops := ResolveSchema(comps, r.items);
      items := resolved;
      var itemsNode := JObject([("type", JString(TypeOr(items, "object")))]);
      if items.Some? && items.value.typ == Some("object") && items.value.properties.Some? {
        var p :- BuildProperties(v, comps, items.value.properties.value);
        itemsNode := JObject([("type", JString(TypeOr(items, "object"))), ("properties", JObject(p))]);
      }
      return Ok(JObject([("type", JString("array")), ("items", itemsNode)]));
    }
    var p: Fields := [];
    if r.properties.Some? {
      p :- BuildProperties(v, comps, r.properties.value);
    }
    body := Ok(JObject([("type", JString(TypeOr(Some(r), "object"))), ("properties", JObject(p))]));
  }

  /** JsonNode.size(): the number of fields or elements; 0 for text. */
  function Size(j: Json): nat
  {
    match j
    case JString(_) => 0
    case JArray(es) => |es|
    case JObject(fs) => |fs|
  }

  /** The body becomes a section when it is typed "array", or typed "object" with at least one property. */
  predicate IncludeBody(body: Json) {
    body.JObject? &&
    (Get(body.fields, "type") == Some(JString("array")) ||
     (Get(body.fields, "type") == Some(JString("object")) &&
      Get(body.fields, "properties").Some? && Size(Get(body.fields, "properties").value) > 0))
  }

  /** A null body schema gives an object body without properties, which is never included. */
  lemma NullBodyExcluded(v: Variant, comps: Option<Components>)
    ensures BodyObject(v, comps, None) == Ok(EmptyObjectBody)
    ensures !IncludeBody(EmptyObjectBody)
  {
  }

  /**
   * A body is included exactly when its resolved schema is an array schema, or
   * has type "array", or is (or defaults to) type "object" and declares at
   * least one property.
   */
  predicate Includable(r: Schema) {
    || r.isArray
    || TypeOr(Some(r), "object") == "array"
    || (TypeOr(Some(r), "object") == "object" && r.properties.Some? && |r.properties.value| > 0)
  }

  lemma BodyIncluded(v: Variant, comps: Option<Components>, s: Schema)
    requires BodyObject(v, comps, Some(s)).Ok?
    ensures IncludeBody(BodyObject(v, comps, Some(s)).value) <==> Includable(ResolveN(comps, s, MaxHops))
  {
    var r := ResolveN(comps, s, MaxHops);
    var j := BodyObject(v, comps, Some(s)).value;
    if r.isArray {
      GetOfTwo("type", JString("array"), "items", j.fields[1].1, "type");
    } else {
      if r.properties.Some? {
        PutNodesSize(v, comps, [], r.properties.value);
      }
      GetOfTwo("type", j.fields[0].1, "properties", j.fields[1].1, "type");
      GetOfTwo("type", j.fields[0].1, "properties", j.fields[1].1, "properties");
    }
  }

  /**
   * An object body lists, under "properties", one field node per property of
   * the resolved schema, with the same names in the same order.
   */
  lemma ObjectBodyProperties(v: Variant, comps: Option<Components>, s: Schema)
    requires var r := ResolveN(comps, s, MaxHops);
      !r.isArray && (r.properties.Some? ==> DistinctNames(r.properties.value))
    requires BodyObject(v, comps, Some(s)).Ok?
    ensures var r := ResolveN(comps, s, MaxHops);
      var props := r.properties.GetOr([]);
      var j := BodyObject(v, comps, Some(s)).value;
      && Get(j.fields, "type") == Some(JString(TypeOr(Some(r), "object")))
      && Get(j.fields, "properties").Some? && Get(j.fields, "properties").value.JObject?
      && var fs := Get(j.fields, "properties").value.fields;
         Keys(fs) == Names(props)
         && forall i :: 0 <= i < |fs| ==> Ok(fs[i].1) == FieldNode(v, Resolve(comps, Some(props[i].1)))
  {
    var r := ResolveN(comps, s, MaxHops);
    if r.properties.Some? {
      PutNodesAppends(v, comps, [], r.properties.value);
      assert [] + FieldsFor(v, comps, r.properties.value).value == FieldsFor(v, comps, r.properties.value).value;
      FieldsForSpec(v, comps, r.properties.value);
    }
  }

  /**
   * An array body is typed "array"; its items node carries the resolved item
   * type (default "object"), and properties exactly when that type is "object"
   * and the item schema declares properties.
   */
  lemma ArrayBodyItems(v: Variant, comps: Option<Components>, s: Schema)
    requires ResolveN(comps, s, MaxHops).isArray
    requires BodyObject(v, comps, Some(s)).Ok?
    ensures var items := Resolve(comps, ResolveN(comps, s, MaxHops).items);
      var j := BodyObject(v, comps, Some(s)).value;
      && Get(j.fields, "type") == Some(JString("array"))
      && Get(j.fields, "items").Some? && Get(j.fields, "items").value.JObject?
      && var itf := Get(j.fields, "items").value.fields;
         Get(itf, "type") == Some(JString(TypeOr(items, "object")))
         && (Get(itf, "properties").Some? <==>
               items.Some? && items.value.typ == Some("object") && items.value.properties.Some?)
         && (items.Some? && items.value.typ == Some("object") && items.value.properties.Some?
             && DistinctNames(items.value.properties.value) ==>
               var props := items.value.properties.value;
               Get(itf, "properties").value.JObject?
               && var fs := Get(itf, "properties").value.fields;
                  Keys(fs) == Names(props)
                  && forall i :: 0 <= i < |fs| ==> Ok(fs[i].1) == FieldNode(v, Resolve(comps, Some(props[i].1))))
  {
    var items := Resolve(comps, ResolveN(comps, s, MaxHops).items);
    if items.Some? && items.value.typ == Some("object") && items.value.properties.Some?
       && DistinctNames(items.value.properties.value) {
      var props := items.value.properties.value;
      PutNodesAppends(v, comps, [], props);
      assert [] + FieldsFor(v, comps, props).value == FieldsFor(v, comps, props).value;
      FieldsForSpec(v, comps, props);
    }
  }

  /** Filling a properties object fails only in the reference mapper, on a null type set; the draft's never fails. */
  lemma {:induction false} PutNodesFails(v: Variant, comps: Option<Components>, acc: Fields, props: seq<(string, Schema)>)
    ensures PutNodes(v, comps, acc, props).Err? ==>
      v == Reference && PutNodes(v, comps, acc, props).error == NullPointer(FieldTypes)
    ensures v == Draft ==> PutNodes(v, comps, acc, props).Ok?
    decreases |props|
  {
    if props != [] {
      var node := FieldNode(v, Resolve(comps, Some(props[0].1)));
      FieldNodeSpec(v, Resolve(comps, Some(props[0].1)));
      if node.Ok? {
        PutNodesFails(v, comps, Put(acc, props[0].0, node.value), props[1..]);
      }
    }
  }

  /** Building a body fails only in the reference mapper, on a property schema without a type set; the draft never fails. */
  lemma BodyFails(v: Variant, comps: Option<Components>, schema: Option<Schema>)
    ensures BodyObject(v, comps, schema).Err? ==>
      v == Reference && BodyObject(v, comps, schema).error == NullPointer(FieldTypes)
    ensures v == Draft ==> BodyObject(v, comps, schema).Ok?
  {
    if schema.Some? {
      var r := ResolveN(comps, schema.value, MaxHops);
      if r.isArray {
        var items := Resolve(comps, r.items);
        if items.Some? && items.value.properties.Some? {
          PutNodesFails(v, comps, [], items.value.properties.value);
        }
      } else if r.properties.Some? {
        PutNodesFails(v, comps, [], r.properties.value);
      }
    }
  }
}
