/**
 * Parameter classification of the reference mapper (OpenApiMapper.java:94-139):
 * path-level then operation-level parameters are sorted into the path, query
 * and header buckets.
 */
module Parameters {
  import opened Wrappers
  import opened Json
  import opened OpenApi

  /** The buckets pathProps, queryProps, headerProps and pathReq of the source. */
  datatype Buckets = Buckets(pathProps: Fields, queryProps: Fields, headerProps: Fields, pathReq: seq<string>)

  const NoBuckets: Buckets := Buckets([], [], [], [])

  /** The bucket a location string selects. */
  function Bucket(b: Buckets, loc: string): Fields
  {
    if loc == "path" then b.pathProps
    else if loc == "query" then b.queryProps
    else if loc == "header" then b.headerProps
    else []
  }

  predicate EndsWith(s: string, suffix: string) {
    |suffix| <= |s| && s[|s| - |suffix|..] == suffix
  }

  /** The description of a path parameter, marked " (path)" unless it already ends in "(path)". */
  function PathDescription(desc: string): (r: string)
    ensures EndsWith(r, "(path)")
    ensures r == desc || r == desc + " (path)"
    ensures EndsWith(desc, "(path)") ==> r == desc
  {
    if EndsWith(desc, "(path)") then desc else desc + " (path)"
  }

  /** A path or query entry: {"type": ty, "description": desc}. */
  function ParamField(ty: string, desc: string): Json
  {
    JObject([("type", JString(ty)), ("description", JString(desc))])
  }

  /** A header entry: {"description": desc}, no type. */
  function HeaderField(desc: string): Json
  {
    JObject([("description", JString(desc))])
  }

  /** getTypes().toArray()[0]: null types dereference null, an empty set has no element 0. */
  function FirstType(schema: Schema, param: string): Result<string, Error>
  {
    match schema.types
    case None => Err(NullPointer(ParameterTypes(param)))
    case Some(ts) => if |ts| == 0 then Err(EmptyTypes(param)) else Ok(ts[0])
  }

  /** The parameters the loop walks: path-level ones first, then the operation's own. */
  function MergedParameters(item: PathItem, op: Operation): seq<Option<Parameter>>
  {
    item.parameters.GetOr([]) + op.parameters.GetOr([])
  }

  /** One iteration of the loop over parameters. */
  function Classify(b: Buckets, param: Option<Parameter>): Result<Buckets, Error>
  {
    match param
    case None => Ok(b)
    case Some(p) =>
      if p.location.None? then Ok(b)
      else
        var desc := p.description.GetOr("string");
        match p.schema
        case None => Err(MissingParameterSchema(p.name))
        case Some(schema) =>
          var loc := p.location.value;
          if loc == "path" then
            var ty :- FirstType(schema, p.name);
            var pathProps := Put(b.pathProps, p.name, ParamField(ty, PathDescription(desc)));
            match p.required
            case None => Err(NullPointer(ParameterRequired(p.name)))
            case Some(req) =>
              Ok(b.(pathProps := pathProps, pathReq := if req then b.pathReq + [p.name] else b.pathReq))
          else if loc == "query" then
            var ty :- FirstType(schema, p.name);
            Ok(b.(queryProps := Put(b.queryProps, p.name, ParamField(ty, desc))))
          else if loc == "header" then
            Ok(b.(headerProps := Put(b.headerProps, p.name, HeaderField(desc))))
          else
            Ok(b)
  }

  /** The whole loop: the first failing parameter aborts it. */
  function ClassifyAll(b: Buckets, ps: seq<Option<Parameter>>): Result<Buckets, Error>
    decreases |ps|
  {
    if ps == [] then Ok(b)
    else
      var b' :- Classify(b, ps[0]);
      ClassifyAll(b', ps[1..])
  }

  /** The loop of OpenApiMapper.java:107-139 over local buckets. */
  method ClassifyParameters(params: seq<Option<Parameter>>) returns (r: Result<Buckets, Error>)
    ensures r == ClassifyAll(NoBuckets, params)
  {
    var pathProps: Fields, queryProps: Fields, headerProps: Fields, pathReq: seq<string> := [], [], [], [];
    for i := 0 to |params|
      invariant ClassifyAll(NoBuckets, params)
        == ClassifyAll(Buckets(pathProps, queryProps, headerProps, pathReq), params[i..])
    {
      assert params[i..][1..] == params[i + 1..];
      var parameter := params[i];
      if parameter.None? || parameter.value.location.None? {
        continue;
      }
      var p := parameter.value;
      var desc := p.description.GetOr("string");
      if p.schema.None? {
        return Err(MissingParameterSchema(p.name));
      }
      var schema := p.schema.value;
      var loc := p.location.value;
      if loc == "path" {
        var ty :- FirstType(schema, p.name);
        pathProps := Put(pathProps, p.name, ParamField(ty, PathDescription(desc)));
        if p.required.None? {
          return Err(NullPointer(ParameterRequired(p.name)));
        }
        if p.required.value {
          pathReq := pathReq + [p.name];
        }
      } else if loc == "query" {
        var ty :- FirstType(schema, p.name);
        queryProps := Put(queryProps, p.name, ParamField(ty, desc));
      } else if loc == "header" {
        headerProps := Put(headerProps, p.name, HeaderField(desc));
      }
    }
    r := Ok(Buckets(pathProps, queryProps, headerProps, pathReq));
  }

  // ---------------------------------------------------------------------------
  // What the classification promises

  /** A parameter the loop gets through: skipped, or with a schema that carries what its location needs. */
  predicate Acceptable(param: Option<Parameter>) {
    match param
    case None => true
    case Some(p) =>
      p.location.None? ||
      (p.schema.Some? &&
       (p.location.value == "path" || p.location.value == "query" ==>
          p.schema.value.types.Some? && |p.schema.value.types.value| > 0) &&
       (p.location.value == "path" ==> p.required.Some?))
  }

  /** The parameter is located at `loc` and named `k`. */
  predicate Names(param: Option<Parameter>, loc: string, k: string) {
    param.Some? && param.value.location == Some(loc) && param.value.name == k
  }

  /** The parameter is a path parameter named `k` whose required flag is true. */
  predicate RequiresPath(param: Option<Parameter>, k: string) {
    Names(param, "path", k) && param.value.required == Some(true)
  }

  predicate IsLocation(loc: string) {
    loc == "path" || loc == "query" || loc == "header"
  }

  /** A path or query entry: {"type": <string>, "description": <string>}. */
  predicate IsParamField(j: Json) {
    && j.JObject? && |j.fields| == 2
    && j.fields[0].0 == "type" && j.fields[0].1.JString?
    && j.fields[1].0 == "description" && j.fields[1].1.JString?
  }

  /** A path entry: a parameter entry whose description ends with "(path)". */
  predicate IsPathField(j: Json) {
    IsParamField(j) && EndsWith(j.fields[1].1.str, "(path)")
  }

  /** A header entry: {"description": <string>} and nothing else. */
  predicate IsHeaderField(j: Json) {
    j.JObject? && |j.fields| == 1 && j.fields[0].0 == "description" && j.fields[0].1.JString?
  }

  /** Unique names per bucket, entries of the bucket's shape, and a path entry for every required name. */
  predicate WellShaped(b: Buckets) {
    && UniqueKeys(b.pathProps) && UniqueKeys(b.queryProps) && UniqueKeys(b.headerProps)
    && (forall i :: 0 <= i < |b.pathProps| ==> IsPathField(b.pathProps[i].1))
    && (forall i :: 0 <= i < |b.queryProps| ==> IsParamField(b.queryProps[i].1))
    && (forall i :: 0 <= i < |b.headerProps| ==> IsHeaderField(b.headerProps[i].1))
    && (forall n :: n in b.pathReq ==> n in Keys(b.pathProps))
  }

  /** A parameter fails the loop exactly when it is not acceptable; the buckets do not matter. */
  lemma ClassifyOk(b: Buckets, param: Option<Parameter>)
    ensures Classify(b, param).Ok? <==> Acceptable(param)
  {
  }

  /** The classification succeeds exactly when every parameter is acceptable. */
  lemma {:induction false} ClassifyAllOk(b: Buckets, ps: seq<Option<Parameter>>)
    ensures ClassifyAll(b, ps).Ok? <==> forall i :: 0 <= i < |ps| ==> Acceptable(ps[i])
    decreases |ps|
  {
    if ps != [] {
      ClassifyOk(b, ps[0]);
      if Classify(b, ps[0]).Ok? {
        ClassifyAllOk(Classify(b, ps[0]).value, ps[1..]);
        assert forall i :: 1 <= i < |ps| ==> ps[i] == ps[1..][i - 1];
      }
    }
  }

  /** The loop fails only with a missing schema, a null dereference or an empty type list. */
  lemma {:induction false} ClassifyAllErrors(b: Buckets, ps: seq<Option<Parameter>>)
    ensures var r := ClassifyAll(b, ps);
      r.Err? ==> r.error.MissingParameterSchema? || r.error.NullPointer? || r.error.EmptyTypes?
    decreases |ps|
  {
    if ps != [] && Classify(b, ps[0]).Ok? {
      ClassifyAllErrors(Classify(b, ps[0]).value, ps[1..]);
    }
  }

  /** A parameter with a location but no schema aborts with MissingParameterSchema. */
  lemma MissingSchemaAborts(b: Buckets, ps: seq<Option<Parameter>>, i: nat)
    requires i < |ps| && forall j :: 0 <= j < i ==> Acceptable(ps[j])
    requires ps[i].Some? && ps[i].value.location.Some? && ps[i].value.schema.None?
    ensures ClassifyAll(b, ps) == Err(MissingParameterSchema(ps[i].value.name))
    decreases i
  {
    ClassifyOk(b, ps[0]);
    if i > 0 {
      MissingSchemaAborts(Classify(b, ps[0]).value, ps[1..], i - 1);
    }
  }

  /** One iteration keeps the buckets well shaped. */
  lemma ClassifyWellShaped(b: Buckets, param: Option<Parameter>)
    requires WellShaped(b)
    requires Classify(b, param).Ok?
    ensures WellShaped(Classify(b, param).value)
  {
    var b' := Classify(b, param).value;
    if param.Some? && param.value.location.Some? {
      var p := param.value;
      var desc := p.description.GetOr("string");
      var loc := p.location.value;
      if loc == "path" {
        var ty := p.schema.value.types.value[0];
        var v := ParamField(ty, PathDescription(desc));
        PutUnique(b.pathProps, p.name, v);
        PutShaped(b.pathProps, p.name, v, IsPathField);
        PutKeys(b.pathProps, p.name, v);
      } else if loc == "query" {
        var v := ParamField(p.schema.value.types.value[0], desc);
        PutUnique(b.queryProps, p.name, v);
        PutShaped(b.queryProps, p.name, v, IsParamField);
      } else if loc == "header" {
        var v := HeaderField(desc);
        PutUnique(b.headerProps, p.name, v);
        PutShaped(b.headerProps, p.name, v, IsHeaderField);
      }
    }
  }

  /** Every value of a Put result satisfies a shape that the old values and the new value satisfy. */
  lemma PutShaped(f: Fields, k: string, v: Json, shape: Json -> bool)
    requires forall i :: 0 <= i < |f| ==> shape(f[i].1)
    requires shape(v)
    ensures forall i :: 0 <= i < |Put(f, k, v)| ==> shape(Put(f, k, v)[i].1)
    decreases |f|
  {
    if f != [] && f[0].0 != k {
      PutShaped(f[1..], k, v, shape);
    }
  }

  /** A Put adds its key and keeps the others. */
  lemma PutKeys(f: Fields, k: string, v: Json)
    ensures forall j :: j in Keys(Put(f, k, v)) <==> j in Keys(f) || j == k
  {
    var r := Put(f, k, v);
    GetFinds(f, k);
    forall j ensures j in Keys(r) <==> j in Keys(f) || j == k {
      GetFinds(r, j);
      GetFinds(f, j);
      if j != k {
        PutOther(f, k, v, j);
      }
    }
  }

  /** The classification, started from empty buckets, ends with well-shaped buckets. */
  lemma {:induction false} ClassifyAllWellShaped(b: Buckets, ps: seq<Option<Parameter>>)
    requires WellShaped(b)
    requires ClassifyAll(b, ps).Ok?
    ensures WellShaped(ClassifyAll(b, ps).value)
    decreases |ps|
  {
    if ps != [] {
      ClassifyWellShaped(b, ps[0]);
      ClassifyAllWellShaped(Classify(b, ps[0]).value, ps[1..]);
    }
  }

  /** One iteration adds at most the parameter's name to the bucket of its location, and to pathReq only for a required path parameter. */
  lemma ClassifyKeys(b: Buckets, param: Option<Parameter>, loc: string, k: string)
    requires IsLocation(loc)
    requires Classify(b, param).Ok?
    ensures k in Keys(Bucket(Classify(b, param).value, loc)) <==> k in Keys(Bucket(b, loc)) || Names(param, loc, k)
    ensures k in Classify(b, param).value.pathReq <==> k in b.pathReq || RequiresPath(param, k)
  {
    if param.Some? && param.value.location.Some? {
      var p := param.value;
      var desc := p.description.GetOr("string");
      var where := p.location.value;
      if where == "path" {
        PutKeys(b.pathProps, p.name, ParamField(p.schema.value.types.value[0], PathDescription(desc)));
      } else if where == "query" {
        PutKeys(b.queryProps, p.name, ParamField(p.schema.value.types.value[0], desc));
      } else if where == "header" {
        PutKeys(b.headerProps, p.name, HeaderField(desc));
      }
    }
  }

  /**
   * After the whole loop, a bucket holds exactly the names of the parameters at
   * its location, and pathReq exactly the names of the path parameters whose
   * required flag is true: query and header parameters never make anything required.
   */
  lemma {:induction false} ClassifyAllKeys(b: Buckets, ps: seq<Option<Parameter>>, loc: string, k: string)
    requires IsLocation(loc)
    requires ClassifyAll(b, ps).Ok?
    ensures k in Keys(Bucket(ClassifyAll(b, ps).value, loc))
      <==> k in Keys(Bucket(b, loc)) || exists i :: 0 <= i < |ps| && Names(ps[i], loc, k)
    ensures k in ClassifyAll(b, ps).value.pathReq
      <==> k in b.pathReq || exists i :: 0 <= i < |ps| && RequiresPath(ps[i], k)
    decreases |ps|
  {
    if ps != [] {
      var b' := Classify(b, ps[0]).value;
      ClassifyKeys(b, ps[0], loc, k);
      ClassifyAllKeys(b', ps[1..], loc, k);
      assert forall i :: 1 <= i < |ps| ==> ps[i] == ps[1..][i - 1];
      assert forall i :: 0 <= i < |ps| - 1 ==> ps[1..][i] == ps[i + 1];
    }
  }

  /**
   * The entry the loop files for a parameter at `loc`: a header entry holds the
   * description (or "string"); a path or query entry holds the first declared
   * type and that description, marked " (path)" in the path bucket. A path or
   * query parameter without a declared type is never filed (the loop fails on
   * it), so the empty type below is never stored.
   */
  function EntryFor(p: Parameter, loc: string): Json
  {
    var desc := p.description.GetOr("string");
    if loc == "header" then HeaderField(desc)
    else
      var ty := if p.schema.Some? && p.schema.value.types.Some? && |p.schema.value.types.value| > 0
        then p.schema.value.types.value[0] else "";
      ParamField(ty, if loc == "path" then PathDescription(desc) else desc)
  }

  /** Parameter i is the last one named `k` at `loc`. */
  predicate LastNamed(ps: seq<Option<Parameter>>, loc: string, k: string, i: int) {
    0 <= i < |ps| && Names(ps[i], loc, k) && forall j :: i < j < |ps| ==> !Names(ps[j], loc, k)
  }

  /** One iteration sets the parameter's own entry and leaves every other entry of every bucket as it was. */
  lemma ClassifyEntry(b: Buckets, param: Option<Parameter>, loc: string, k: string)
    requires IsLocation(loc)
    requires Classify(b, param).Ok?
    ensures Names(param, loc, k) ==> Get(Bucket(Classify(b, param).value, loc), k) == Some(EntryFor(param.value, loc))
    ensures !Names(param, loc, k) ==> Get(Bucket(Classify(b, param).value, loc), k) == Get(Bucket(b, loc), k)
  {
    if param.Some? && param.value.location.Some? {
      var p := param.value;
      var desc := p.description.GetOr("string");
      var where := p.location.value;
      if k != p.name {
        if where == "path" {
          PutOther(b.pathProps, p.name, ParamField(p.schema.value.types.value[0], PathDescription(desc)), k);
        } else if where == "query" {
          PutOther(b.queryProps, p.name, ParamField(p.schema.value.types.value[0], desc), k);
        } else if where == "header" {
          PutOther(b.headerProps, p.name, HeaderField(desc), k);
        }
      }
    }
  }

  /**
   * After the whole loop, the entry under a name is the one filed for the last
   * parameter of that name at that location (a later parameter overwrites an
   * earlier one); a name no parameter uses keeps the entry it had.
   */
  lemma {:induction false} ClassifyAllEntries(b: Buckets, ps: seq<Option<Parameter>>, loc: string, k: string)
    requires IsLocation(loc)
    requires ClassifyAll(b, ps).Ok?
    ensures (forall i :: 0 <= i < |ps| ==> !Names(ps[i], loc, k)) ==>
      Get(Bucket(ClassifyAll(b, ps).value, loc), k) == Get(Bucket(b, loc), k)
    ensures forall i :: LastNamed(ps, loc, k, i) ==>
      Get(Bucket(ClassifyAll(b, ps).value, loc), k) == Some(EntryFor(ps[i].value, loc))
    decreases |ps|
  {
    if ps != [] {
      var b' := Classify(b, ps[0]).value;
      ClassifyEntry(b, ps[0], loc, k);
      ClassifyAllEntries(b', ps[1..], loc, k);
      assert forall i :: 0 <= i < |ps| - 1 ==> ps[1..][i] == ps[i + 1];
      forall i | LastNamed(ps, loc, k, i)
        ensures Get(Bucket(ClassifyAll(b, ps).value, loc), k) == Some(EntryFor(ps[i].value, loc))
      {
        if i > 0 {
          assert LastNamed(ps[1..], loc, k, i - 1);
        } else {
          assert forall j :: 0 <= j < |ps[1..]| ==> !Names(ps[1..][j], loc, k);
        }
      }
    }
  }

  /** An accepted path or query parameter's entry is typed with the first of its declared types. */
  lemma AcceptedEntryType(p: Parameter, loc: string)
    requires Acceptable(Some(p)) && p.location == Some(loc) && (loc == "path" || loc == "query")
    ensures EntryFor(p, loc) == ParamField(p.schema.value.types.value[0],
      if loc == "path" then PathDescription(p.description.GetOr("string")) else p.description.GetOr("string"))
  {
  }

  lemma UnmarkedDescription(d: string)
    requires |d| > 0 && d[|d| - 1] != ')'
    ensures PathDescription(d) == d + " (path)"
  {
  }

  function IdParameter(ty: string, desc: string): Option<Parameter> {
    Some(Parameter("id", Some("path"), Some(desc), Some(true), Some(Schema(None, None, Some([ty]), false, None, None, None))))
  }

  lemma ClassifyIdParameter(b: Buckets, ty: string, desc: string)
    requires |desc| > 0 && desc[|desc| - 1] != ')'
    requires b.pathProps == [] || b.pathProps == [("id", b.pathProps[0].1)]
    ensures Classify(b, IdParameter(ty, desc))
      == Ok(b.(pathProps := [("id", ParamField(ty, desc + " (path)"))], pathReq := b.pathReq + ["id"]))
  {
    UnmarkedDescription(desc);
    var v := ParamField(ty, desc + " (path)");
    assert Put(b.pathProps, "id", v) == [("id", v)] by {
      if b.pathProps != [] {
        assert b.pathProps[1..] == [];
      }
    }
  }

  lemma PathSuffixes()
    ensures "shared id" + " (path)" == "shared id (path)"
    ensures "own id" + " (path)" == "own id (path)"
  {
  }

  /** A path-level and an operation-level parameter with the same name share one entry, which the later one sets. */
  lemma OperationParameterOverrides(ty: string)
    ensures ClassifyAll(NoBuckets, [IdParameter(ty, "shared id"), IdParameter(ty, "own id")])
      == Ok(Buckets([("id", ParamField(ty, "own id (path)"))], [], [], ["id", "id"]))
  {
    var shared, own := IdParameter(ty, "shared id"), IdParameter(ty, "own id");
    var first := Buckets([("id", ParamField(ty, "shared id (path)"))], [], [], ["id"]);
    var second := Buckets([("id", ParamField(ty, "own id (path)"))], [], [], ["id", "id"]);
    PathSuffixes();
    ClassifyIdParameter(NoBuckets, ty, "shared id");
    assert NoBuckets.pathReq + ["id"] == ["id"];
    assert Classify(NoBuckets, shared) == Ok(first);
    ClassifyIdParameter(first, ty, "own id");
    assert first.pathReq + ["id"] == ["id", "id"];
    assert Classify(first, own) == Ok(second);
    assert [shared, own][1..] == [own];
    assert [own][1..] == [];
    assert ClassifyAll(first, [own]) == ClassifyAll(second, []);
  }
}
