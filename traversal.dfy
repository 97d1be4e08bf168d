/**
 * The walk shared by both mappers (OpenApiMapper.java:62-192; draft 48-167):
 * paths in document order, each path item's operations in method order, one
 * tool per operation appended to the tools array. The two mappers differ in
 * how they build a tool and in what they do with a null path item.
 */
module Traversal {
  import opened Wrappers
  import opened OpenApi
  import opened Operations

  /** How a tool is built from its path key, path item, method and operation. */
  type Builder = (string, PathItem, HttpMethod, Operation) -> Result<Tool, Error>

  /** One place an operation is found: path key, path item, method, operation. */
  type Slot = (string, PathItem, HttpMethod, Operation)

  /** Two tool lists one after the other; the first failure wins. */
  function Join(a: Result<seq<Tool>, Error>, b: Result<seq<Tool>, Error>): Result<seq<Tool>, Error>
  {
    var xs :- a;
    var ys :- b;
    Ok(xs + ys)
  }

  lemma JoinAssoc(a: Result<seq<Tool>, Error>, b: Result<seq<Tool>, Error>, c: Result<seq<Tool>, Error>)
    ensures Join(Join(a, b), c) == Join(a, Join(b, c))
  {
    if a.Ok? && b.Ok? && c.Ok? {
      assert (a.value + b.value) + c.value == a.value + (b.value + c.value);
    }
  }

  lemma JoinEmpty(b: Result<seq<Tool>, Error>)
    ensures Join(Ok([]), b) == b
  {
    if b.Ok? {
      assert [] + b.value == b.value;
    }
  }

  /** The tools of one path item's operations, in the order given. */
  function PathTools(build: Builder, pathKey: string, item: PathItem, ops: seq<(HttpMethod, Operation)>)
    : Result<seq<Tool>, Error>
    decreases |ops|
  {
    if ops == [] then Ok([])
    else
      var tool :- build(pathKey, item, ops[0].0, ops[0].1);
      Join(Ok([tool]), PathTools(build, pathKey, item, ops[1..]))
  }

  /** One turn of the operation loop: the tool built for the next operation joins the tools so far. */
  lemma PathToolsStep(build: Builder, pathKey: string, item: PathItem, ops: seq<(HttpMethod, Operation)>,
                      j: nat, tools: seq<Tool>, tool: Tool)
    requires j < |ops| && build(pathKey, item, ops[j].0, ops[j].1) == Ok(tool)
    ensures Join(Ok(tools), PathTools(build, pathKey, item, ops[j..]))
         == Join(Ok(tools + [tool]), PathTools(build, pathKey, item, ops[j + 1..]))
  {
    assert ops[j..][1..] == ops[j + 1..];
    JoinAssoc(Ok(tools), Ok([tool]), PathTools(build, pathKey, item, ops[j + 1..]));
  }

  /**
   * The tools of all paths in document order. A null path item aborts the
   * walk (reference, :64-67) or is passed over (draft, :50).
   */
  function AllTools(build: Builder, skipNull: bool, paths: seq<(string, Option<PathItem>)>)
    : Result<seq<Tool>, Error>
    decreases |paths|
  {
    if paths == [] then Ok([])
    else
      match paths[0].1
      case None =>
        if skipNull then AllTools(build, skipNull, paths[1..]) else Err(MissingPathItem(paths[0].0))
      case Some(item) =>
        Join(PathTools(build, paths[0].0, item, OperationsIn(item, MethodOrder)),
             AllTools(build, skipNull, paths[1..]))
  }

  /** The operation loop over one path item. */
  function ItemSlots(pathKey: string, item: PathItem, ops: seq<(HttpMethod, Operation)>): seq<Slot>
  {
    seq(|ops|, i requires 0 <= i < |ops| => (pathKey, item, ops[i].0, ops[i].1))
  }

  /** Every operation of every non-null path item, paths in document order, methods in method order. */
  function Slots(paths: seq<(string, Option<PathItem>)>): seq<Slot>
    decreases |paths|
  {
    if paths == [] then []
    else
      (match paths[0].1
       case None => []
       case Some(item) => ItemSlots(paths[0].0, item, OperationsIn(item, MethodOrder)))
      + Slots(paths[1..])
  }

  /** The tools built for a list of slots, one by one. */
  predicate BuiltFrom(build: Builder, slots: seq<Slot>, tools: seq<Tool>) {
    |tools| == |slots| &&
    forall i :: 0 <= i < |slots| ==> build(slots[i].0, slots[i].1, slots[i].2, slots[i].3) == Ok(tools[i])
  }

  lemma BuiltFromAppend(build: Builder, s1: seq<Slot>, t1: seq<Tool>, s2: seq<Slot>, t2: seq<Tool>)
    requires BuiltFrom(build, s1, t1) && BuiltFrom(build, s2, t2)
    ensures BuiltFrom(build, s1 + s2, t1 + t2)
  {
    forall i | 0 <= i < |s1 + s2|
      ensures build((s1 + s2)[i].0, (s1 + s2)[i].1, (s1 + s2)[i].2, (s1 + s2)[i].3) == Ok((t1 + t2)[i])
    {
      if i >= |s1| {
        assert (s1 + s2)[i] == s2[i - |s1|] && (t1 + t2)[i] == t2[i - |s1|];
      }
    }
  }

  /** A path item's tools are one per operation, in order, and are produced exactly when every one builds. */
  lemma {:induction false} PathToolsSpec(build: Builder, pathKey: string, item: PathItem, ops: seq<(HttpMethod, Operation)>)
    ensures PathTools(build, pathKey, item, ops).Ok? <==>
      forall i :: 0 <= i < |ops| ==> build(pathKey, item, ops[i].0, ops[i].1).Ok?
    ensures PathTools(build, pathKey, item, ops).Ok? ==>
      BuiltFrom(build, ItemSlots(pathKey, item, ops), PathTools(build, pathKey, item, ops).value)
    decreases |ops|
  {
    if ops != [] {
      PathToolsSpec(build, pathKey, item, ops[1..]);
      assert forall i :: 1 <= i < |ops| ==> ops[i] == ops[1..][i - 1];
      assert ItemSlots(pathKey, item, ops) == [(pathKey, item, ops[0].0, ops[0].1)] + ItemSlots(pathKey, item, ops[1..]);
      var first := build(pathKey, item, ops[0].0, ops[0].1);
      var rest := PathTools(build, pathKey, item, ops[1..]);
      if first.Ok? && rest.Ok? {
        BuiltFromAppend(build, [(pathKey, item, ops[0].0, ops[0].1)], [first.value],
                        ItemSlots(pathKey, item, ops[1..]), rest.value);
      }
    }
  }

  /** No path item is null. */
  predicate NoNullItems(paths: seq<(string, Option<PathItem>)>) {
    forall i :: 0 <= i < |paths| ==> paths[i].1.Some?
  }

  /** The tool of every slot builds. */
  predicate AllBuild(build: Builder, slots: seq<Slot>) {
    forall i :: 0 <= i < |slots| ==> build(slots[i].0, slots[i].1, slots[i].2, slots[i].3).Ok?
  }

  lemma AllBuildAppend(build: Builder, s1: seq<Slot>, s2: seq<Slot>)
    ensures AllBuild(build, s1 + s2) <==> AllBuild(build, s1) && AllBuild(build, s2)
  {
    if AllBuild(build, s1 + s2) {
      forall i | 0 <= i < |s1| ensures build(s1[i].0, s1[i].1, s1[i].2, s1[i].3).Ok? {
        assert s1[i] == (s1 + s2)[i];
      }
      forall i | 0 <= i < |s2| ensures build(s2[i].0, s2[i].1, s2[i].2, s2[i].3).Ok? {
        assert s2[i] == (s1 + s2)[i + |s1|];
      }
    }
    if AllBuild(build, s1) && AllBuild(build, s2) {
      forall i | 0 <= i < |s1 + s2| ensures build((s1 + s2)[i].0, (s1 + s2)[i].1, (s1 + s2)[i].2, (s1 + s2)[i].3).Ok? {
        if i >= |s1| {
          assert (s1 + s2)[i] == s2[i - |s1|];
        }
      }
    }
  }

  lemma ItemSlotsBuild(build: Builder, pathKey: string, item: PathItem, ops: seq<(HttpMethod, Operation)>)
    ensures AllBuild(build, ItemSlots(pathKey, item, ops)) <==>
      forall i :: 0 <= i < |ops| ==> build(pathKey, item, ops[i].0, ops[i].1).Ok?
  {
    var slots := ItemSlots(pathKey, item, ops);
    assert forall i :: 0 <= i < |ops| ==> slots[i] == (pathKey, item, ops[i].0, ops[i].1);
  }

  /**
   * The walk succeeds exactly when no path item is null (unless null ones are
   * passed over) and the tool of every slot builds; the tools are then those
   * of the slots, one each, in slot order.
   */
  lemma {:induction false} AllToolsSpec(build: Builder, skipNull: bool, paths: seq<(string, Option<PathItem>)>)
    ensures AllTools(build, skipNull, paths).Ok? <==> (skipNull || NoNullItems(paths)) && AllBuild(build, Slots(paths))
    ensures AllTools(build, skipNull, paths).Ok? ==>
      BuiltFrom(build, Slots(paths), AllTools(build, skipNull, paths).value)
    decreases |paths|
  {
    if paths != [] {
      var tail := paths[1..];
      AllToolsSpec(build, skipNull, tail);
      assert NoNullItems(paths) <==> paths[0].1.Some? && NoNullItems(tail) by {
        assert forall i :: 1 <= i < |paths| ==> paths[i] == tail[i - 1];
        assert forall i :: 0 <= i < |tail| ==> tail[i] == paths[i + 1];
      }
      var here := match paths[0].1 case None => [] case Some(item) => ItemSlots(paths[0].0, item, OperationsIn(item, MethodOrder));
      assert Slots(paths) == here + Slots(tail);
      AllBuildAppend(build, here, Slots(tail));
      match paths[0].1
      case None =>
        assert here == [];
      case Some(item) =>
        var ops := OperationsIn(item, MethodOrder);
        PathToolsSpec(build, paths[0].0, item, ops);
        ItemSlotsBuild(build, paths[0].0, item, ops);
        var first := PathTools(build, paths[0].0, item, ops);
        var rest := AllTools(build, skipNull, tail);
        if first.Ok? && rest.Ok? {
          BuiltFromAppend(build, here, first.value, Slots(tail), rest.value);
        }
    }
  }

  /** With null items not passed over, a null path item makes the whole walk fail. */
  lemma {:induction false} NullItemFails(build: Builder, paths: seq<(string, Option<PathItem>)>, i: nat)
    requires i < |paths| && paths[i].1.None?
    ensures AllTools(build, false, paths).Err?
  {
    AllToolsSpec(build, false, paths);
  }
}
