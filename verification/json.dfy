/** Decoded JSON documents, as the upstream services return them, and the
    membership-guarded lookup the Python clients perform on them. */
module Json {

  import opened Optional

  /** A decoded JSON value. Numbers are kept integral: no operation of the
      clients does arithmetic on them. An object's key order is irrelevant to
      every lookup made here, so objects are maps. */
  datatype Json =
    | Null
    | Bool(b: bool)
    | Num(n: int)
    | Str(s: string)
    | Arr(items: seq<Json>)
    | Obj(fields: map<string, Json>)

  /** Every node reached along `path` through a present key is an object, so
      that each Python `key in node` test on the way is dictionary membership
      (on a string it would be a substring test, on None a TypeError). */
  predicate ObjectsAlong(j: Json, path: seq<string>)
    decreases |path|
  {
    |path| == 0 ||
    (j.Obj? && (path[0] in j.fields ==> ObjectsAlong(j.fields[path[0]], path[1..])))
  }

  /** The guard `k1 in d and k2 in d[k1] and ...` followed by `d[k1][k2]...`:
      the value at the end of `path`, or None as soon as one key is missing. */
  function Dig(j: Json, path: seq<string>): Option<Json>
    requires ObjectsAlong(j, path)
    decreases |path|
  {
    if |path| == 0 then Some(j)
    else if path[0] in j.fields then Dig(j.fields[path[0]], path[1..])
    else None
  }

  /** Two-key paths, spelled out: the lookup succeeds exactly when both keys
      are present, and then yields the nested value. */
  lemma Dig2(j: Json, a: string, b: string)
    requires ObjectsAlong(j, [a, b])
    ensures j.Obj?
    ensures a in j.fields ==> j.fields[a].Obj?
    ensures Dig(j, [a, b]).Some? <==> a in j.fields && b in j.fields[a].fields
    ensures Dig(j, [a, b]).Some? ==> Dig(j, [a, b]).value == j.fields[a].fields[b]
  {
    assert [a, b][1..] == [b];
    assert [b][1..] == [];
    if a in j.fields {
      var inner := j.fields[a];
      assert Dig(j, [a, b]) == Dig(inner, [b]);
      if b in inner.fields {
        assert Dig(inner, [b]) == Dig(inner.fields[b], []);
      }
    }
  }

  /** Three-key paths, spelled out as for `Dig2`. */
  lemma Dig3(j: Json, a: string, b: string, c: string)
    requires ObjectsAlong(j, [a, b, c])
    ensures j.Obj?
    ensures a in j.fields ==> j.fields[a].Obj?
    ensures a in j.fields && b in j.fields[a].fields ==> j.fields[a].fields[b].Obj?
    ensures Dig(j, [a, b, c]).Some? <==>
      a in j.fields && b in j.fields[a].fields && c in j.fields[a].fields[b].fields
    ensures Dig(j, [a, b, c]).Some? ==>
      Dig(j, [a, b, c]).value == j.fields[a].fields[b].fields[c]
  {
    assert [a, b, c][1..] == [b, c];
    if a in j.fields {
      Dig2(j.fields[a], b, c);
    }
  }
}
