/**
 * The layer-tree rewrite of the two legacy migrators. Every node of the old
 * tree becomes a folder with `checked`, `title` (from `text`), a `layerId`
 * when the node references a layer, and `children` when the node has them.
 * The two migrators differ only in how a node may reference its layer.
 */
module LegacyTree {
  import opened Json
  import opened Trees

  /**
   * How a tree node references its layer: the current migrator accepts a
   * layer object with an `id` or a bare id; the older one only the object.
   */
  datatype RefForm = ObjectOrBareId | ObjectOnly

  /** The old layer id a node's `layer` value names; a layer object without `id` is a null dereference. */
  function LayerRefId(form: RefForm, layer: Json): (r: Result<int>)
    ensures layer.JObj? ==> (r.Ok? <==> Has(layer, "id"))
    ensures layer.JObj? && r.Ok? ==> r.value == IntValue(Get(layer, "id").value)
    ensures !layer.JObj? ==> (r.Ok? <==> form == ObjectOrBareId)
    ensures !layer.JObj? && r.Ok? ==> r.value == IntValue(layer)
    ensures r.Ok? ==> IntMin <= r.value <= IntMax
  {
    match form
    case ObjectOrBareId =>
      if layer.JObj? then
        var id :- Required(Get(layer, "id"), "id");
        Ok(IntValue(id))
      else Ok(IntValue(layer))
    case ObjectOnly =>
      var id :- Required(Get(layer, "id"), "id");
      Ok(IntValue(id))
  }

  /** The `layerId` a resolvable layer reference becomes: the new id, or `null` when the old id is unmapped. */
  function ResolvedRef(form: RefForm, idMap: map<int, int>, layer: Json): Json {
    match LayerRefId(form, layer)
    case Ok(id) => Resolve(idMap, id)
    case Fail(_) => JNull
  }

  /** `o` is the folder the rewrite makes of the old node `n`, looking one level deep: its keys in order and their values. */
  predicate Migrated(form: RefForm, idMap: map<int, int>, o: Json, n: Json) {
    && o.JObj?
    && Keys(o) == ["checked", "title"] + (if Has(n, "layer") then ["layerId"] else []) + (if Has(n, "children") then ["children"] else [])
    && (Has(o, "layerId") <==> Has(n, "layer"))
    && (Has(o, "children") <==> Has(n, "children"))
    && Get(o, "checked") == Some(OrNull(Get(n, "checked")))
    && Get(o, "title") == Some(OrNull(Get(n, "text")))
    && (Has(n, "layer") ==> Get(o, "layerId") == Some(ResolvedRef(form, idMap, Get(n, "layer").value)))
  }

  /** Node by node, `outs` are the folders made of `ins`. */
  ghost predicate Corresponds(form: RefForm, idMap: map<int, int>, outs: seq<Json>, ins: seq<Json>) {
    Pairwise(outs, ins, (o, n) => Migrated(form, idMap, o, n))
  }

  /**
   * The folder built for node `n`: `checked` and `title` copied (a missing
   * one stored as `null`), then the resolved `layerId` and the migrated
   * `children` when there are any, each added in that order.
   */
  function Folder(n: Json, layerId: Option<Json>, kids: Option<seq<Json>>): (o: Json)
    ensures o.JObj?
    ensures Keys(o) == ["checked", "title"] + (if layerId.Some? then ["layerId"] else []) + (if kids.Some? then ["children"] else [])
    ensures Get(o, "checked") == Some(OrNull(Get(n, "checked")))
    ensures Get(o, "title") == Some(OrNull(Get(n, "text")))
    ensures Get(o, "layerId") == layerId
    ensures Get(o, "children") == if kids.Some? then Some(JArr(kids.value)) else None
  {
    var head := [Field("checked", OrNull(Get(n, "checked"))), Field("title", OrNull(Get(n, "text")))];
    var layerField := if layerId.Some? then [Field("layerId", layerId.value)] else [];
    var childField := if kids.Some? then [Field("children", JArr(kids.value))] else [];
    var o := JObj(head + layerField + childField);
    LookupAppend(head + layerField, childField, "checked");
    LookupAppend(head, layerField, "checked");
    LookupAppend(head + layerField, childField, "title");
    LookupAppend(head, layerField, "title");
    LookupAppend(head + layerField, childField, "layerId");
    LookupAppend(head, layerField, "layerId");
    LookupAppend(head + layerField, childField, "children");
    LookupAppend(head, layerField, "children");
    LookupAt(head, 1);
    LookupFound(head, "layerId");
    LookupFound(head, "children");
    LookupFound(layerField, "children");
    KeysAppend(head + layerField, childField);
    KeysAppend(head, layerField);
    o
  }

  /**
   * The rewrite of one node and, recursively, its children. The layer
   * reference is resolved before the children are visited, as in the source.
   */
  function MigrateNode(form: RefForm, n: Json, idMap: map<int, int>): (r: Result<Json>)
    ensures r.Fail? ==> r.error == NullPointer("id")
    ensures r.Ok? ==> Migrated(form, idMap, r.value, n)
    decreases n, 1
  {
    var layerId :-
      if Has(n, "layer") then
        var id :- LayerRefId(form, Get(n, "layer").value);
        Ok(Some(Resolve(idMap, id)))
      else Ok(None);
    var kids :-
      if Has(n, "children") then
        var ks :- MigrateNodes(form, n, Kids(n, "children"), idMap);
        Ok(Some(ks))
      else Ok(None);
    Ok(Folder(n, layerId, kids))
  }

  /** The rewrite of a sequence of sibling nodes, in order; the first failure stops it. */
  function MigrateNodes(form: RefForm, ghost parent: Json, ns: seq<Json>, idMap: map<int, int>): (r: Result<seq<Json>>)
    requires Below(parent, ns)
    ensures r.Fail? ==> r.error == NullPointer("id")
    ensures r.Ok? ==> |r.value| == |ns|
    decreases parent, 0, |ns|
  {
    if ns == [] then Ok([])
    else
      var first :- MigrateNode(form, ns[0], idMap);
      var rest :- MigrateNodes(form, parent, ns[1..], idMap);
      Ok([first] + rest)
  }

  /**
   * A migrated node is the folder of the old node, and its children (an
   * array, when the node has children) are the migrated children.
   */
  lemma MigratedFolder(form: RefForm, n: Json, idMap: map<int, int>)
    requires MigrateNode(form, n, idMap).Ok?
    ensures Migrated(form, idMap, MigrateNode(form, n, idMap).value, n)
    ensures Has(n, "children") ==> Get(MigrateNode(form, n, idMap).value, "children").value.JArr?
  {
    var layerId := if Has(n, "layer") then Some(ResolvedRef(form, idMap, Get(n, "layer").value)) else None;
    var kids := if Has(n, "children") then Some(MigrateNodes(form, n, Kids(n, "children"), idMap).value) else None;
    assert MigrateNode(form, n, idMap) == Ok(Folder(n, layerId, kids));
  }

  lemma MigratedKids(form: RefForm, n: Json, idMap: map<int, int>)
    requires MigrateNode(form, n, idMap).Ok?
    ensures MigrateNodes(form, n, Kids(n, "children"), idMap).Ok?
    ensures Kids(MigrateNode(form, n, idMap).value, "children") == MigrateNodes(form, n, Kids(n, "children"), idMap).value
  {
  }

  /**
   * Listed in pre-order, the migrated tree and the old tree correspond node
   * by node: same number of nodes, same nesting order, and each folder made
   * of the node in the same position.
   */
  lemma {:induction false} PreOrderCorresponds(form: RefForm, n: Json, idMap: map<int, int>)
    requires MigrateNode(form, n, idMap).Ok?
    ensures Corresponds(form, idMap, PreOrder(MigrateNode(form, n, idMap).value, "children"), PreOrder(n, "children"))
    decreases n, 1
  {
    var o := MigrateNode(form, n, idMap).value;
    MigratedFolder(form, n, idMap);
    MigratedKids(form, n, idMap);
    var kids := Kids(n, "children");
    PreOrderAllCorresponds(form, n, kids, o, Kids(o, "children"), idMap);
    PairwiseAppend([o], [n], PreOrderAll(o, Kids(o, "children"), "children"), PreOrderAll(n, kids, "children"),
      (o, n) => Migrated(form, idMap, o, n));
  }

  lemma {:induction false} PreOrderAllCorresponds(form: RefForm, parent: Json, ns: seq<Json>, outParent: Json, outs: seq<Json>, idMap: map<int, int>)
    requires Below(parent, ns) && Below(outParent, outs)
    requires MigrateNodes(form, parent, ns, idMap) == Ok(outs)
    ensures Corresponds(form, idMap, PreOrderAll(outParent, outs, "children"), PreOrderAll(parent, ns, "children"))
    decreases parent, 0, |ns|
  {
    if ns != [] {
      assert MigrateNode(form, ns[0], idMap) == Ok(outs[0]);
      assert MigrateNodes(form, parent, ns[1..], idMap) == Ok(outs[1..]);
      PreOrderCorresponds(form, ns[0], idMap);
      PreOrderAllCorresponds(form, parent, ns[1..], outParent, outs[1..], idMap);
      PairwiseAppend(
        PreOrder(outs[0], "children"), PreOrder(ns[0], "children"),
        PreOrderAll(outParent, outs[1..], "children"), PreOrderAll(parent, ns[1..], "children"),
        (o, n) => Migrated(form, idMap, o, n));
    }
  }

  /** The migrated tree has the nesting structure of the old one. */
  lemma {:induction false} ShapePreserved(form: RefForm, n: Json, idMap: map<int, int>)
    requires MigrateNode(form, n, idMap).Ok?
    ensures ShapeOf(MigrateNode(form, n, idMap).value) == ShapeOf(n)
    decreases n, 1
  {
    var o := MigrateNode(form, n, idMap).value;
    MigratedFolder(form, n, idMap);
    MigratedKids(form, n, idMap);
    if Has(n, "children") {
      var c := Get(n, "children").value;
      ShapesPreserved(form, c, n, Elements(c), Get(o, "children").value, Kids(o, "children"), idMap);
    }
  }

  lemma {:induction false} ShapesPreserved(form: RefForm, parent: Json, mparent: Json, ns: seq<Json>, outParent: Json, outs: seq<Json>, idMap: map<int, int>)
    requires Below(parent, ns) && Below(mparent, ns) && Below(outParent, outs)
    requires MigrateNodes(form, mparent, ns, idMap) == Ok(outs)
    ensures ShapesOf(outParent, outs) == ShapesOf(parent, ns)
    decreases parent, 0, |ns|
  {
    if ns != [] {
      ShapePreserved(form, ns[0], idMap);
      assert MigrateNodes(form, mparent, ns[1..], idMap) == Ok(outs[1..]);
      ShapesPreserved(form, parent, mparent, ns[1..], outParent, outs[1..], idMap);
    }
  }

  /**
   * The `layerId` values of the migrated tree, in pre-order, are the `layer`
   * references of the old tree resolved one by one.
   */
  lemma {:induction false} LayerIdsResolved(form: RefForm, n: Json, idMap: map<int, int>)
    requires MigrateNode(form, n, idMap).Ok?
    ensures MapsTo(FieldValues(MigrateNode(form, n, idMap).value, "layerId"), FieldValues(n, "layer"), v => ResolvedRef(form, idMap, v))
    decreases n, 1
  {
    var o := MigrateNode(form, n, idMap).value;
    MigratedFolder(form, n, idMap);
    MigratedKids(form, n, idMap);
    var f := v => ResolvedRef(form, idMap, v);
    var here := match Get(n, "layer") case None => [] case Some(v) => [v];
    var hereOut := match Get(o, "layerId") case None => [] case Some(v) => [v];
    assert MapsTo(hereOut, here, f);
    LayerIdsAllResolved(form, n, Kids(n, "children"), o, Kids(o, "children"), idMap);
    MapsToAppend(hereOut, here, FieldValuesAll(o, Kids(o, "children"), "layerId"), FieldValuesAll(n, Kids(n, "children"), "layer"), f);
  }

  lemma {:induction false} LayerIdsAllResolved(form: RefForm, parent: Json, ns: seq<Json>, outParent: Json, outs: seq<Json>, idMap: map<int, int>)
    requires Below(parent, ns) && Below(outParent, outs)
    requires MigrateNodes(form, parent, ns, idMap) == Ok(outs)
    ensures MapsTo(FieldValuesAll(outParent, outs, "layerId"), FieldValuesAll(parent, ns, "layer"), v => ResolvedRef(form, idMap, v))
    decreases parent, 0, |ns|
  {
    if ns != [] {
      assert MigrateNode(form, ns[0], idMap) == Ok(outs[0]);
      assert MigrateNodes(form, parent, ns[1..], idMap) == Ok(outs[1..]);
      LayerIdsResolved(form, ns[0], idMap);
      LayerIdsAllResolved(form, parent, ns[1..], outParent, outs[1..], idMap);
      ResolvedIdsCons(form, parent, ns, outParent, outs, idMap);
    }
  }

  /** The resolved ids of a first subtree and of its later siblings make those of the whole list. */
  lemma ResolvedIdsCons(form: RefForm, parent: Json, ns: seq<Json>, outParent: Json, outs: seq<Json>, idMap: map<int, int>)
    requires Below(parent, ns) && Below(outParent, outs) && |ns| == |outs| > 0
    requires MapsTo(FieldValues(outs[0], "layerId"), FieldValues(ns[0], "layer"), v => ResolvedRef(form, idMap, v))
    requires MapsTo(FieldValuesAll(outParent, outs[1..], "layerId"), FieldValuesAll(parent, ns[1..], "layer"), v => ResolvedRef(form, idMap, v))
    ensures MapsTo(FieldValuesAll(outParent, outs, "layerId"), FieldValuesAll(parent, ns, "layer"), v => ResolvedRef(form, idMap, v))
  {
    assert FieldValuesAll(outParent, outs, "layerId") == FieldValues(outs[0], "layerId") + FieldValuesAll(outParent, outs[1..], "layerId");
    assert FieldValuesAll(parent, ns, "layer") == FieldValues(ns[0], "layer") + FieldValuesAll(parent, ns[1..], "layer");
    MapsToAppend(FieldValues(outs[0], "layerId"), FieldValues(ns[0], "layer"),
      FieldValuesAll(outParent, outs[1..], "layerId"), FieldValuesAll(parent, ns[1..], "layer"), v => ResolvedRef(form, idMap, v));
  }

  /** No `layerId` of the migrated tree is made up: each is `null` or a new id of the map. */
  lemma NoFabricatedIds(form: RefForm, n: Json, idMap: map<int, int>)
    requires MigrateNode(form, n, idMap).Ok?
    ensures OnlyMappedIds(FieldValues(MigrateNode(form, n, idMap).value, "layerId"), idMap)
  {
    LayerIdsResolved(form, n, idMap);
    var ids := FieldValues(MigrateNode(form, n, idMap).value, "layerId");
    var refs := FieldValues(n, "layer");
    forall i | 0 <= i < |ids|
      ensures ids[i] == JNull || exists k :: k in idMap && ids[i] == JNum(Int(idMap[k]))
    {
      assert ids[i] == ResolvedRef(form, idMap, refs[i]);
    }
  }

  /** Every layer reference of `refs` can be read. */
  predicate RefsReadable(form: RefForm, refs: seq<Json>) {
    forall i :: 0 <= i < |refs| ==> LayerRefId(form, refs[i]).Ok?
  }

  lemma RefsReadableAppend(form: RefForm, a: seq<Json>, b: seq<Json>)
    ensures RefsReadable(form, a + b) <==> RefsReadable(form, a) && RefsReadable(form, b)
  {
    if RefsReadable(form, a) && RefsReadable(form, b) {
      forall i | 0 <= i < |a + b|
        ensures LayerRefId(form, (a + b)[i]).Ok?
      {
        if i >= |a| {
          assert (a + b)[i] == b[i - |a|];
        }
      }
    }
    if RefsReadable(form, a + b) {
      forall i | 0 <= i < |a|
        ensures LayerRefId(form, a[i]).Ok?
      {
        assert (a + b)[i] == a[i];
      }
      forall i | 0 <= i < |b|
        ensures LayerRefId(form, b[i]).Ok?
      {
        assert (a + b)[|a| + i] == b[i];
      }
    }
  }

  /** One step of the rewrite succeeds when the node's own reference and all its children do. */
  lemma MigrateNodeOk(form: RefForm, n: Json, idMap: map<int, int>)
    ensures MigrateNode(form, n, idMap).Ok? <==>
      && (Has(n, "layer") ==> LayerRefId(form, Get(n, "layer").value).Ok?)
      && MigrateNodes(form, n, Kids(n, "children"), idMap).Ok?
  {
  }

  /** The rewrite fails exactly when some `layer` reference in the tree cannot be read. */
  lemma {:induction false} MigrateSucceedsIff(form: RefForm, n: Json, idMap: map<int, int>)
    ensures MigrateNode(form, n, idMap).Ok? <==> RefsReadable(form, FieldValues(n, "layer"))
    decreases n, 1
  {
    var here := match Get(n, "layer") case None => [] case Some(v) => [v];
    var kids := Kids(n, "children");
    MigrateNodeOk(form, n, idMap);
    MigrateAllSucceedsIff(form, n, kids, idMap);
    RefsReadableAppend(form, here, FieldValuesAll(n, kids, "layer"));
    assert FieldValues(n, "layer") == here + FieldValuesAll(n, kids, "layer");
  }

  lemma {:induction false} MigrateAllSucceedsIff(form: RefForm, parent: Json, ns: seq<Json>, idMap: map<int, int>)
    requires Below(parent, ns)
    ensures MigrateNodes(form, parent, ns, idMap).Ok? <==> RefsReadable(form, FieldValuesAll(parent, ns, "layer"))
    decreases parent, 0, |ns|
  {
    if ns != [] {
      MigrateSucceedsIff(form, ns[0], idMap);
      MigrateAllSucceedsIff(form, parent, ns[1..], idMap);
      RefsReadableAppend(form, FieldValues(ns[0], "layer"), FieldValuesAll(parent, ns[1..], "layer"));
      assert MigrateNodes(form, parent, ns, idMap).Ok? <==>
        MigrateNode(form, ns[0], idMap).Ok? && MigrateNodes(form, parent, ns[1..], idMap).Ok?;
    }
  }

  /**
   * `migrateLayerTree` on the `layerTree` of an application: a missing tree
   * is a null dereference, otherwise the rewrite above.
   */
  function MigrateLayerTree(form: RefForm, tree: Option<Json>, idMap: map<int, int>): (r: Result<Json>)
    ensures tree.None? ==> r == Fail(NullPointer("layerTree"))
    ensures tree.Some? && r.Ok? ==>
      && Migrated(form, idMap, r.value, tree.value)
      && Corresponds(form, idMap, PreOrder(r.value, "children"), PreOrder(tree.value, "children"))
      && ShapeOf(r.value) == ShapeOf(tree.value)
      && MapsTo(FieldValues(r.value, "layerId"), FieldValues(tree.value, "layer"), v => ResolvedRef(form, idMap, v))
      && OnlyMappedIds(FieldValues(r.value, "layerId"), idMap)
    ensures tree.Some? ==> (r.Ok? <==> RefsReadable(form, FieldValues(tree.value, "layer")))
  {
    match tree
    case None => Fail(NullPointer("layerTree"))
    case Some(n) =>
      MigrateSucceedsIff(form, n, idMap);
      var r := MigrateNode(form, n, idMap);
      if r.Ok? then
        MigratedFolder(form, n, idMap);
        PreOrderCorresponds(form, n, idMap);
        ShapePreserved(form, n, idMap);
        LayerIdsResolved(form, n, idMap);
        NoFabricatedIds(form, n, idMap);
        r
      else r
  }

  /**
   * The older migrator accepts only a layer object: a node whose `layer` is a
   * bare id fails there, while the current migrator resolves the bare id.
   */
  lemma BareIdOnlyInCurrentForm(n: Json, idMap: map<int, int>)
    requires Has(n, "layer") && !Get(n, "layer").value.JObj?
    ensures MigrateNode(ObjectOnly, n, idMap).Fail?
    ensures MigrateNode(ObjectOrBareId, n, idMap).Ok? ==>
      Get(MigrateNode(ObjectOrBareId, n, idMap).value, "layerId") == Some(Resolve(idMap, IntValue(Get(n, "layer").value)))
  {
  }

  /** Wherever the older migrator's rewrite succeeds, the current one builds the same tree. */
  lemma {:induction false} OlderFormAgrees(n: Json, idMap: map<int, int>)
    requires MigrateNode(ObjectOnly, n, idMap).Ok?
    ensures MigrateNode(ObjectOrBareId, n, idMap) == MigrateNode(ObjectOnly, n, idMap)
    decreases n, 1
  {
    if Has(n, "layer") {
      assert LayerRefId(ObjectOrBareId, Get(n, "layer").value) == LayerRefId(ObjectOnly, Get(n, "layer").value);
    }
    if Has(n, "children") {
      OlderFormsAgree(n, Kids(n, "children"), idMap);
    }
  }

  lemma {:induction false} OlderFormsAgree(parent: Json, ns: seq<Json>, idMap: map<int, int>)
    requires Below(parent, ns)
    requires MigrateNodes(ObjectOnly, parent, ns, idMap).Ok?
    ensures MigrateNodes(ObjectOrBareId, parent, ns, idMap) == MigrateNodes(ObjectOnly, parent, ns, idMap)
    decreases parent, 0, |ns|
  {
    if ns != [] {
      OlderFormAgrees(ns[0], idMap);
      OlderFormsAgree(parent, ns[1..], idMap);
    }
  }
}
