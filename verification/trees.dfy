/**
 * Reference views of JSON trees that nest through one key (`children` in a
 * layer tree, `subModules` in a viewport): the nodes in pre-order, the bare
 * shape, and the `layerId` values in pre-order. The walkers of the migrators
 * are proved against these views.
 */
module Trees {
  import opened Json

  /** Every node of `ns` lies strictly inside `parent`; the measure the forest functions recurse on. */
  ghost predicate Below(parent: Json, ns: seq<Json>) {
    forall i :: 0 <= i < |ns| ==> (parent decreases to ns[i])
  }

  /** The nodes nested directly under `key`: the elements of that field, none when it is missing. */
  function Kids(n: Json, key: string): (ks: seq<Json>)
    ensures Below(n, ks)
    ensures Get(n, key).Some? ==> ks == Elements(Get(n, key).value)
    ensures Get(n, key).None? ==> ks == []
  {
    match Get(n, key)
    case None => []
    case Some(c) => Elements(c)
  }

  /** The nodes of the tree rooted at `n`, each before the nodes nested in it, siblings in order. */
  function PreOrder(n: Json, key: string): (r: seq<Json>)
    ensures |r| >= 1 && r[0] == n
    decreases n, 1
  {
    [n] + PreOrderAll(n, Kids(n, key), key)
  }

  function PreOrderAll(ghost parent: Json, ns: seq<Json>, key: string): seq<Json>
    requires Below(parent, ns)
    decreases parent, 0, |ns|
  {
    if ns == [] then [] else PreOrder(ns[0], key) + PreOrderAll(parent, ns[1..], key)
  }

  /** The nesting structure of a tree: for each node, whether it has a `children` field and the shapes under it. */
  datatype Shape = Shape(kids: Option<seq<Shape>>)

  function ShapeOf(n: Json): Shape
    decreases n, 1
  {
    match Get(n, "children")
    case None => Shape(None)
    case Some(c) => Shape(Some(ShapesOf(c, Elements(c))))
  }

  function ShapesOf(ghost parent: Json, ns: seq<Json>): (r: seq<Shape>)
    requires Below(parent, ns)
    ensures |r| == |ns|
    decreases parent, 0, |ns|
  {
    if ns == [] then [] else [ShapeOf(ns[0])] + ShapesOf(parent, ns[1..])
  }

  /** The values of `field` across a layer tree (nested through `children`), in pre-order. */
  function FieldValues(n: Json, field: string): seq<Json>
    decreases n, 1
  {
    (match Get(n, field) case None => [] case Some(v) => [v])
    + FieldValuesAll(n, Kids(n, "children"), field)
  }

  function FieldValuesAll(ghost parent: Json, ns: seq<Json>, field: string): seq<Json>
    requires Below(parent, ns)
    decreases parent, 0, |ns|
  {
    if ns == [] then [] else FieldValues(ns[0], field) + FieldValuesAll(parent, ns[1..], field)
  }

  /** `outs` is `ins` taken through `f` element by element. */
  ghost predicate MapsTo(outs: seq<Json>, ins: seq<Json>, f: Json -> Json) {
    |outs| == |ins| && forall i :: 0 <= i < |ins| ==> outs[i] == f(ins[i])
  }

  lemma MapsToAppend(o1: seq<Json>, i1: seq<Json>, o2: seq<Json>, i2: seq<Json>, f: Json -> Json)
    requires MapsTo(o1, i1, f) && MapsTo(o2, i2, f)
    ensures MapsTo(o1 + o2, i1 + i2, f)
  {
    forall i | 0 <= i < |i1 + i2|
      ensures (o1 + o2)[i] == f((i1 + i2)[i])
    {
      if i >= |i1| {
        assert (o1 + o2)[i] == o2[i - |o1|];
      }
    }
  }

  /** `outs` and `ins` have the same length and are related position by position by `rel`. */
  ghost predicate Pairwise(outs: seq<Json>, ins: seq<Json>, rel: (Json, Json) -> bool) {
    |outs| == |ins| && forall i :: 0 <= i < |ins| ==> rel(outs[i], ins[i])
  }

  lemma PairwiseAppend(o1: seq<Json>, i1: seq<Json>, o2: seq<Json>, i2: seq<Json>, rel: (Json, Json) -> bool)
    requires Pairwise(o1, i1, rel) && Pairwise(o2, i2, rel)
    ensures Pairwise(o1 + o2, i1 + i2, rel)
  {
    forall i | 0 <= i < |i1 + i2|
      ensures rel((o1 + o2)[i], (i1 + i2)[i])
    {
      if i >= |i1| {
        assert (o1 + o2)[i] == o2[i - |o1|];
      }
    }
  }

  /** The id a layer reference resolves to: the mapped id, or JSON `null` when the old id is unmapped. */
  function Resolve(idMap: map<int, int>, id: int): (v: Json)
    ensures v == JNull || (id in idMap && v == JNum(Int(idMap[id])))
    ensures id in idMap ==> v == JNum(Int(idMap[id]))
  {
    if id in idMap then JNum(Int(idMap[id])) else JNull
  }

  /** Every value is `null` or one of the new ids of the map: nothing was made up. */
  ghost predicate OnlyMappedIds(vs: seq<Json>, idMap: map<int, int>) {
    forall i :: 0 <= i < |vs| ==> vs[i] == JNull || exists k :: k in idMap && vs[i] == JNum(Int(idMap[k]))
  }

  lemma OnlyMappedIdsAppend(a: seq<Json>, b: seq<Json>, idMap: map<int, int>)
    requires OnlyMappedIds(a, idMap) && OnlyMappedIds(b, idMap)
    ensures OnlyMappedIds(a + b, idMap)
  {
    forall i | 0 <= i < |a + b|
      ensures (a + b)[i] == JNull || exists k :: k in idMap && (a + b)[i] == JNum(Int(idMap[k]))
    {
      if i >= |a| {
        assert (a + b)[i] == b[i - |a|];
      }
    }
  }
}
