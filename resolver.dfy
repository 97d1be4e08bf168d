/**
 * resolveSchema (OpenApiMapper.java:215-226, identical in the draft at 190-201):
 * follow `$ref` through components/schemas, at most MaxHops times.
 */
module Resolver {
  import opened Wrappers
  import opened OpenApi

  const MaxHops: nat := 10

  /** substring(lastIndexOf('/') + 1): the text after the last '/', or all of `ref`. */
  function RefName(ref: string): string
  {
    if ref == [] || ref[|ref| - 1] == '/' then []
    else RefName(ref[..|ref| - 1]) + [ref[|ref| - 1]]
  }

  /**
   * The referenced name is the longest suffix of the reference without '/':
   * the whole reference when it has no '/', else what follows its last '/'.
   */
  lemma {:induction false} RefNameIsLastSegment(ref: string)
    ensures var name := RefName(ref);
      && |name| <= |ref| && name == ref[|ref| - |name|..]
      && '/' !in name
      && (|name| == |ref| || ref[|ref| - |name| - 1] == '/')
    decreases |ref|
  {
    if ref != [] && ref[|ref| - 1] != '/' {
      RefNameIsLastSegment(ref[..|ref| - 1]);
    }
  }

  lemma RefNameExample()
    ensures RefName("#/components/schemas/Pet") == "Pet"
  {
    var r := "#/components/schemas/Pet";
    assert RefName(r[..|r| - 3]) == [] by { assert r[..|r| - 3][|r| - 4] == '/'; }
    assert r[..|r| - 3] == r[..|r| - 2][..|r| - 3];
    assert r[..|r| - 2] == r[..|r| - 1][..|r| - 2];
  }

  /** The schema reached from `s` after at most `n` successful lookups. */
  function ResolveN(comps: Option<Components>, s: Schema, n: nat): Schema
    decreases n
  {
    if n == 0 || s.ref.None? then s
    else match LookupSchema(comps, RefName(s.ref.value))
      case None => s
      case Some(next) => ResolveN(comps, next, n - 1)
  }

  /** How many lookups resolving `s` with budget `n` performs, the failing one included. */
  function Lookups(comps: Option<Components>, s: Schema, n: nat): nat
    decreases n
  {
    if n == 0 || s.ref.None? then 0
    else match LookupSchema(comps, RefName(s.ref.value))
      case None => 1
      case Some(next) => 1 + Lookups(comps, next, n - 1)
  }

  /** resolveSchema as a function: null stays null. */
  function Resolve(comps: Option<Components>, schema: Option<Schema>): Option<Schema>
  {
    match schema
    case None => None
    case Some(s) => Some(ResolveN(comps, s, MaxHops))
  }

  /** resolveSchema: the counting loop of the source. */
  method ResolveSchema(comps: Option<Components>, schema: Option<Schema>)
    returns (r: Option<Schema>, ghost lookups: nat)
    ensures r == Resolve(comps, schema)
    ensures lookups == if schema.None? then 0 else Lookups(comps, schema.value, MaxHops)
    ensures lookups <= MaxHops
  {
    lookups := 0;
    if schema.None? {
      return None, lookups;
    }
    var cur := schema.value;
    var i := 0;
    while i < MaxHops && cur.ref.Some?
      invariant 0 <= i <= MaxHops
      invariant lookups == i
      invariant ResolveN(comps, cur, MaxHops - i) == ResolveN(comps, schema.value, MaxHops)
      invariant Lookups(comps, schema.value, MaxHops) == i + Lookups(comps, cur, MaxHops - i)
    {
      var name := RefName(cur.ref.value);
      var next := LookupSchema(comps, name);
      lookups := lookups + 1;
      if next.None? {
        break;
      }
      cur := next.value;
      i := i + 1;
    }
    LookupsBound(comps, schema.value, MaxHops);
    r := Some(cur);
  }

  lemma {:induction false} LookupsBound(comps: Option<Components>, s: Schema, n: nat)
    ensures Lookups(comps, s, n) <= n
    decreases n
  {
    if n > 0 && s.ref.Some? {
      var next := LookupSchema(comps, RefName(s.ref.value));
      if next.Some? {
        LookupsBound(comps, next.value, n - 1);
      }
    }
  }

  /** A schema without `$ref` comes back unchanged; so does one whose first name is missing. */
  lemma ResolveStopsAtOnce(comps: Option<Components>, s: Schema)
    requires s.ref.None? || LookupSchema(comps, RefName(s.ref.value)).None?
    ensures Resolve(comps, Some(s)) == Some(s)
  {
  }

  /**
   * Resolution stops for one of three reasons: the schema has no `$ref`, its
   * name is not among the components (the result still carries that `$ref`), or
   * the budget of lookups is used up.
   */
  lemma {:induction false} ResolveOutcome(comps: Option<Components>, s: Schema, n: nat)
    ensures var r := ResolveN(comps, s, n);
      || r.ref.None?
      || LookupSchema(comps, RefName(r.ref.value)).None?
      || Lookups(comps, s, n) == n
    decreases n
  {
    if n > 0 && s.ref.Some? {
      var next := LookupSchema(comps, RefName(s.ref.value));
      if next.Some? {
        ResolveOutcome(comps, next.value, n - 1);
      }
    }
  }

  /** The result is the input or one of the component schemas. */
  lemma {:induction false} ResolveFromComponents(comps: Option<Components>, s: Schema, n: nat)
    ensures var r := ResolveN(comps, s, n);
      r == s || (comps.Some? && comps.value.schemas.Some? && r in comps.value.schemas.value.Values)
    decreases n
  {
    if n > 0 && s.ref.Some? {
      var next := LookupSchema(comps, RefName(s.ref.value));
      if next.Some? {
        ResolveFromComponents(comps, next.value, n - 1);
      }
    }
  }

  /**
   * Resolving twice is resolving once with the budgets added: a body root
   * schema, which is resolved before and again inside schemaToBodyObject, can
   * take up to twice MaxHops hops.
   */
  lemma {:induction false} ResolveTwice(comps: Option<Components>, s: Schema, a: nat, b: nat)
    ensures ResolveN(comps, ResolveN(comps, s, a), b) == ResolveN(comps, s, a + b)
    decreases a
  {
    if a > 0 && s.ref.Some? {
      var next := LookupSchema(comps, RefName(s.ref.value));
      if next.Some? {
        ResolveTwice(comps, next.value, a - 1, b);
      }
    }
  }

  function Ref(name: string): Schema {
    Schema(Some("#/components/schemas/" + name), None, None, false, None, None, None)
  }

  const Concrete: Schema := Schema(None, Some("object"), Some(["object"]), false, None, Some([]), None)

  /** A chain of three references ends at the concrete schema. */
  lemma ChainOfThree()
    ensures var comps := Some(Components(Some(map["A" := Ref("B"), "B" := Ref("C"), "C" := Concrete])));
      Resolve(comps, Some(Ref("A"))) == Some(Concrete)
  {
    var comps := Some(Components(Some(map["A" := Ref("B"), "B" := Ref("C"), "C" := Concrete])));
    assert RefName(Ref("A").ref.value) == "A";
    assert RefName(Ref("B").ref.value) == "B";
    assert RefName(Ref("C").ref.value) == "C";
  }

  /** A reference to itself is followed MaxHops times and then emitted as it is, `$ref` included. */
  lemma SelfReference()
    ensures var comps := Some(Components(Some(map["A" := Ref("A")])));
      Resolve(comps, Some(Ref("A"))) == Some(Ref("A"))
      && Lookups(comps, Ref("A"), MaxHops) == MaxHops
  {
    var comps := Some(Components(Some(map["A" := Ref("A")])));
    assert RefName(Ref("A").ref.value) == "A";
    SelfReferenceN(comps, MaxHops);
  }

  lemma {:induction false} SelfReferenceN(comps: Option<Components>, n: nat)
    requires comps == Some(Components(Some(map["A" := Ref("A")])))
    requires RefName(Ref("A").ref.value) == "A"
    ensures ResolveN(comps, Ref("A"), n) == Ref("A") && Lookups(comps, Ref("A"), n) == n
    decreases n
  {
    if n > 0 {
      SelfReferenceN(comps, n - 1);
    }
  }
}
