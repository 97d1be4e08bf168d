/**
 * The JSON tree the mapper builds with Jackson's ObjectNode and ArrayNode.
 * An object is an ordered list of fields (ObjectNode keeps insertion order);
 * `Put` is ObjectNode.set / ObjectNode.put: a key that is already present keeps
 * its position and gets the new value, a new key is appended.
 */
module Json {
  import opened Wrappers

  datatype Json =
    | JString(str: string)
    | JArray(elems: seq<Json>)
    | JObject(fields: seq<(string, Json)>)

  type Fields = seq<(string, Json)>

  /** The keys of an object, in order. */
  function Keys(f: Fields): seq<string>
  {
    seq(|f|, i requires 0 <= i < |f| => f[i].0)
  }

  /** No key occurs twice: what every ObjectNode guarantees. */
  predicate UniqueKeys(f: Fields) {
    forall i, j :: 0 <= i < j < |f| ==> f[i].0 != f[j].0
  }

  /** ObjectNode.get: the value stored under `k`, if any. */
  function Get(f: Fields, k: string): Option<Json>
  {
    if f == [] then None
    else if f[0].0 == k then Some(f[0].1)
    else Get(f[1..], k)
  }

  /** ObjectNode.set(k, v): replace in place, or append when `k` is new. */
  function Put(f: Fields, k: string, v: Json): (r: Fields)
    ensures Get(f, k).None? ==> r == f + [(k, v)]
    ensures Get(f, k).Some? ==> |r| == |f| && Keys(r) == Keys(f)
    ensures Get(r, k) == Some(v)
  {
    if f == [] then [(k, v)]
    else if f[0].0 == k then [(k, v)] + f[1..]
    else
      var rest := Put(f[1..], k, v);
      assert Keys([f[0]] + rest) == [f[0].0] + Keys(rest);
      assert Keys(f) == [f[0].0] + Keys(f[1..]);
      [f[0]] + rest
  }

  /** `Get` on a two-field object literal. */
  lemma GetOfTwo(k1: string, v1: Json, k2: string, v2: Json, k: string)
    ensures Get([(k1, v1), (k2, v2)], k) ==
      if k == k1 then Some(v1) else if k == k2 then Some(v2) else None
  {
    var f := [(k1, v1), (k2, v2)];
    assert f[1..] == [(k2, v2)] && f[1..][1..] == [];
    assert Get(f[1..], k) == if k == k2 then Some(v2) else None;
  }

  /** `Get` on a three-field object literal. */
  lemma GetOfThree(k1: string, v1: Json, k2: string, v2: Json, k3: string, v3: Json, k: string)
    ensures Get([(k1, v1), (k2, v2), (k3, v3)], k) ==
      if k == k1 then Some(v1) else if k == k2 then Some(v2) else if k == k3 then Some(v3) else None
  {
    var f := [(k1, v1), (k2, v2), (k3, v3)];
    assert f[1..] == [(k2, v2), (k3, v3)];
    GetOfTwo(k2, v2, k3, v3, k);
  }

  /** `Get` on two objects one after the other: the first one's value wins. */
  lemma {:induction false} GetAppend(a: Fields, b: Fields, k: string)
    ensures Get(a + b, k) == if Get(a, k).Some? then Get(a, k) else Get(b, k)
    decreases |a|
  {
    if a == [] {
      assert a + b == b;
    } else {
      assert (a + b)[1..] == a[1..] + b;
      GetAppend(a[1..], b, k);
    }
  }

  lemma KeysAppend(a: Fields, b: Fields)
    ensures Keys(a + b) == Keys(a) + Keys(b)
  {
  }

  /** A Put on a key that is not present appends it. */
  lemma PutFresh(f: Fields, k: string, v: Json)
    requires k !in Keys(f)
    ensures Put(f, k, v) == f + [(k, v)]
    ensures Keys(f + [(k, v)]) == Keys(f) + [k]
  {
    GetFinds(f, k);
  }

  /** `Get` finds a key exactly when it is among the keys. */
  lemma {:induction false} GetFinds(f: Fields, k: string)
    ensures Get(f, k).Some? <==> k in Keys(f)
    ensures Get(f, k).Some? ==> (k, Get(f, k).value) in f
    decreases |f|
  {
    if f != [] {
      GetFinds(f[1..], k);
      assert Keys(f) == [f[0].0] + Keys(f[1..]);
      if f[0].0 != k && Get(f, k).Some? {
        assert (k, Get(f, k).value) in f[1..];
      }
    }
  }

  /** Setting one key leaves the value of every other key as it was. */
  lemma {:induction false} PutOther(f: Fields, k: string, v: Json, j: string)
    requires j != k
    ensures Get(Put(f, k, v), j) == Get(f, j)
    decreases |f|
  {
    if f != [] && f[0].0 != k {
      PutOther(f[1..], k, v, j);
    }
  }

  /** Setting a key on an object without repeated keys keeps it so. */
  lemma PutUnique(f: Fields, k: string, v: Json)
    requires UniqueKeys(f)
    ensures UniqueKeys(Put(f, k, v))
  {
    var r := Put(f, k, v);
    GetFinds(f, k);
    forall i, j | 0 <= i < j < |r| ensures r[i].0 != r[j].0 {
      if Get(f, k).None? {
        assert Keys(f)[i] == f[i].0;
      } else {
        assert Keys(r)[i] == Keys(f)[i] && Keys(r)[j] == Keys(f)[j];
      }
    }
  }

  /** A put on a present key keeps the length and every other position. */
  lemma {:induction false} PutReplaces(f: Fields, k: string, v: Json, i: nat)
    requires i < |f| && f[i].0 == k
    requires forall j :: 0 <= j < i ==> f[j].0 != k
    ensures Put(f, k, v) == f[i := (k, v)]
    decreases i
  {
    if i > 0 {
      PutReplaces(f[1..], k, v, i - 1);
    }
  }

  /** The object written by `Put`ting the pairs of `kvs` in order onto `f`. */
  function PutAll(f: Fields, kvs: seq<(string, Json)>): Fields
    decreases |kvs|
  {
    if kvs == [] then f else PutAll(Put(f, kvs[0].0, kvs[0].1), kvs[1..])
  }

  /**
   * Putting pairs whose keys are distinct and new just appends them: an object
   * filled from a map keeps that map's key order.
   */
  lemma {:induction false} PutAllFresh(f: Fields, kvs: seq<(string, Json)>)
    requires UniqueKeys(kvs)
    requires forall i :: 0 <= i < |kvs| ==> kvs[i].0 !in Keys(f)
    ensures PutAll(f, kvs) == f + kvs
    decreases |kvs|
  {
    if kvs != [] {
      GetFinds(f, kvs[0].0);
      var g, rest := f + [kvs[0]], kvs[1..];
      assert Keys(g) == Keys(f) + [kvs[0].0];
      forall i | 0 <= i < |rest| ensures rest[i].0 !in Keys(g) {
        assert rest[i] == kvs[i + 1];
      }
      assert UniqueKeys(rest) by {
        forall i, j | 0 <= i < j < |rest| ensures rest[i].0 != rest[j].0 {
          assert rest[i] == kvs[i + 1] && rest[j] == kvs[j + 1];
        }
      }
      PutAllFresh(g, rest);
      assert g + rest == f + kvs;
    }
  }
}
