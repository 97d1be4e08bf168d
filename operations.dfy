/**
 * operationsOf (OpenApiMapper.java:299-315, identical in the draft at 274-290):
 * the non-null operations of a path item, in PathItem.HttpMethod order.
 */
module Operations {
  import opened Wrappers
  import opened OpenApi

  /** PathItem.HttpMethod.values(): the constants in the order swagger-models declares them. */
  const MethodOrder: seq<HttpMethod> := [POST, GET, PUT, PATCH, DELETE, HEAD, OPTIONS, TRACE]

  /** The position of a method in MethodOrder (its ordinal). */
  function Ordinal(m: HttpMethod): nat
  {
    match m
    case POST => 0
    case GET => 1
    case PUT => 2
    case PATCH => 3
    case DELETE => 4
    case HEAD => 5
    case OPTIONS => 6
    case TRACE => 7
  }

  /** The defined operations among the methods `ms`, in the order of `ms`. */
  function OperationsIn(item: PathItem, ms: seq<HttpMethod>): seq<(HttpMethod, Operation)>
  {
    if ms == [] then []
    else
      var here := match Slot(item, ms[0]) case None => [] case Some(op) => [(ms[0], op)];
      here + OperationsIn(item, ms[1..])
  }

  /** operationsOf: a loop over the methods that fills an insertion-ordered map. */
  method OperationsOf(item: PathItem) returns (ops: seq<(HttpMethod, Operation)>)
    ensures ops == OperationsIn(item, MethodOrder)
  {
    ops := [];
    var k := 0;
    while k < |MethodOrder|
      invariant 0 <= k <= |MethodOrder|
      invariant ops + OperationsIn(item, MethodOrder[k..]) == OperationsIn(item, MethodOrder)
    {
      var h := MethodOrder[k];
      var op := Slot(item, h);
      assert MethodOrder[k..][1..] == MethodOrder[k + 1..];
      if op.Some? {
        ops := ops + [(h, op.value)];
      }
      k := k + 1;
    }
  }

  predicate StrictlyOrdered(ms: seq<HttpMethod>) {
    forall i, j :: 0 <= i < j < |ms| ==> Ordinal(ms[i]) < Ordinal(ms[j])
  }

  /**
   * A pair (m, op) is listed exactly when m is among `ms` and the item holds op
   * for m; over strictly ordered methods the list is strictly ordered too.
   */
  lemma {:induction false} OperationsInSpec(item: PathItem, ms: seq<HttpMethod>)
    ensures forall m, op :: (m, op) in OperationsIn(item, ms) <==> m in ms && Slot(item, m) == Some(op)
    ensures StrictlyOrdered(ms) ==>
      forall i, j :: 0 <= i < j < |OperationsIn(item, ms)| ==>
        Ordinal(OperationsIn(item, ms)[i].0) < Ordinal(OperationsIn(item, ms)[j].0)
    decreases |ms|
  {
    if ms != [] {
      var rest := OperationsIn(item, ms[1..]);
      OperationsInSpec(item, ms[1..]);
      var ops := OperationsIn(item, ms);
      if StrictlyOrdered(ms) {
        assert StrictlyOrdered(ms[1..]) by {
          forall i, j | 0 <= i < j < |ms[1..]| ensures Ordinal(ms[1..][i]) < Ordinal(ms[1..][j]) {
            assert ms[1..][i] == ms[i + 1] && ms[1..][j] == ms[j + 1];
          }
        }
        forall i | 0 <= i < |rest| ensures Ordinal(ms[0]) < Ordinal(rest[i].0) {
          assert rest[i] in rest;
          var k :| 1 <= k < |ms| && ms[k] == rest[i].0;
        }
      }
    }
  }

  /**
   * operationsOf lists every defined operation once, never a missing one, in
   * POST, GET, PUT, PATCH, DELETE, HEAD, OPTIONS, TRACE order.
   */
  lemma OperationsOfSpec(item: PathItem)
    ensures var ops := OperationsIn(item, MethodOrder);
      && (forall m, op :: (m, op) in ops <==> Slot(item, m) == Some(op))
      && (forall i, j :: 0 <= i < j < |ops| ==> Ordinal(ops[i].0) < Ordinal(ops[j].0))
      && |ops| <= |MethodOrder|
  {
    forall m: HttpMethod ensures m in MethodOrder {
      assert MethodOrder[Ordinal(m)] == m;
    }
    assert forall i :: 0 <= i < |MethodOrder| ==> Ordinal(MethodOrder[i]) == i by {
      forall i | 0 <= i < |MethodOrder| ensures Ordinal(MethodOrder[i]) == i {
        if i < 4 {
          assert i == 0 || i == 1 || i == 2 || i == 3;
        } else {
          assert i == 4 || i == 5 || i == 6 || i == 7;
        }
      }
    }
    OperationsInSpec(item, MethodOrder);
    OperationsInLength(item, MethodOrder);
  }

  lemma {:induction false} OperationsInLength(item: PathItem, ms: seq<HttpMethod>)
    ensures |OperationsIn(item, ms)| <= |ms|
    decreases |ms|
  {
    if ms != [] {
      OperationsInLength(item, ms[1..]);
    }
  }
}
