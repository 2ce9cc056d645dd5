/**
 * The Boot-to-Boot migrator (`BootMigrator`): documents already have the
 * target shape, so a layer only loses its `id`, and an application loses
 * its `id` and has its layer references rewritten in place, the
 * `backgroundLayers` of its client config and every `layerId` of its layer
 * tree, through the map from old to new layer ids.
 */
module BootMigrator {
  import opened Json
  import opened Trees
  import JavaText
  import LayerIds

  /** The new id for a layer reference: `intValue()` of it looked up in the map, `null` when unmapped. */
  function NewLayerId(idMap: map<int, int>, ref: Json): Json {
    Resolve(idMap, IntValue(ref))
  }

  /** The node with its `layerId`, when it has one, replaced by the new id; nothing else changes. */
  function WithNewId(n: Json, idMap: map<int, int>): (r: Json)
    requires n.JObj?
    ensures r.JObj? && Keys(r) == Keys(n)
    ensures forall k :: k != "layerId" ==> Get(r, k) == Get(n, k)
    ensures Has(n, "layerId") ==> Get(r, "layerId") == Some(NewLayerId(idMap, Get(n, "layerId").value))
  {
    if Has(n, "layerId") then Put(n, "layerId", NewLayerId(idMap, Get(n, "layerId").value)) else n
  }

  /**
   * `migrateLayerTree` on one node, in place: the `layerId` is replaced by
   * its new id, then every node under `children` is rewritten the same way.
   * A node that is not an object fails the cast to `ObjectNode`.
   */
  function MigrateNode(n: Json, idMap: map<int, int>): (r: Result<Json>)
    ensures !n.JObj? ==> r == Fail(ClassCast("ObjectNode"))
    ensures r.Fail? ==> r.error == ClassCast("ObjectNode")
    ensures r.Ok? ==> r.value.JObj? && Keys(r.value) == Keys(n)
    decreases n, 1
  {
    if !n.JObj? then Fail(ClassCast("ObjectNode"))
    else
      var withId := WithNewId(n, idMap);
      assert Get(withId, "children") == Get(n, "children");
      if Has(n, "children") then
        var kids :- MigrateNodes(n, Kids(n, "children"), idMap);
        Ok(Put(withId, "children", WithElements(Get(n, "children").value, kids)))
      else Ok(withId)
  }

  /** The rewrite of the nodes a `for` loop over `children` visits, in order; the first failure stops it. */
  function MigrateNodes(ghost parent: Json, ns: seq<Json>, idMap: map<int, int>): (r: Result<seq<Json>>)
    requires Below(parent, ns)
    ensures r.Ok? ==> |r.value| == |ns|
    ensures r.Fail? ==> r.error == ClassCast("ObjectNode")
    decreases parent, 0, |ns|
  {
    if ns == [] then Ok([])
    else
      var first :- MigrateNode(ns[0], idMap);
      var rest :- MigrateNodes(parent, ns[1..], idMap);
      Ok([first] + rest)
  }

  /**
   * `o` is `n` rewritten in place, looking one level deep: the same keys in
   * the same order, every field but `layerId` and `children` untouched, the
   * `layerId` replaced by its new id, and `children` the same kind of
   * container with the same keys.
   */
  ghost predicate InPlace(idMap: map<int, int>, o: Json, n: Json) {
    && o.JObj? && n.JObj?
    && Keys(o) == Keys(n)
    && (forall k :: k != "layerId" && k != "children" ==> Get(o, k) == Get(n, k))
    && (Has(n, "layerId") ==> Get(o, "layerId") == Some(NewLayerId(idMap, Get(n, "layerId").value)))
    && (Has(n, "children") ==>
          && Get(o, "children").Some?
          && Get(o, "children").value.JArr? == Get(n, "children").value.JArr?
          && Keys(Get(o, "children").value) == Keys(Get(n, "children").value))
  }

  /** A rewritten node is the old node changed in place, and its children are the rewritten children. */
  lemma RewrittenInPlace(n: Json, idMap: map<int, int>)
    requires MigrateNode(n, idMap).Ok?
    ensures InPlace(idMap, MigrateNode(n, idMap).value, n)
    ensures MigrateNodes(n, Kids(n, "children"), idMap).Ok?
    ensures Kids(MigrateNode(n, idMap).value, "children") == MigrateNodes(n, Kids(n, "children"), idMap).value
  {
    if Has(n, "children") {
      var kids := MigrateNodes(n, Kids(n, "children"), idMap).value;
      assert MigrateNode(n, idMap) == Ok(Put(WithNewId(n, idMap), "children", WithElements(Get(n, "children").value, kids)));
      ChildrenReplacedInPlace(n, idMap, kids);
    } else {
      assert MigrateNode(n, idMap) == Ok(WithNewId(n, idMap));
      IdReplacedInPlace(n, idMap);
    }
  }

  /** A node with children, its `layerId` and its children replaced, is the node changed in place. */
  lemma ChildrenReplacedInPlace(n: Json, idMap: map<int, int>, kids: seq<Json>)
    requires n.JObj? && Has(n, "children") && |kids| == |Elements(Get(n, "children").value)|
    ensures InPlace(idMap, Put(WithNewId(n, idMap), "children", WithElements(Get(n, "children").value, kids)), n)
    ensures Kids(Put(WithNewId(n, idMap), "children", WithElements(Get(n, "children").value, kids)), "children") == kids
  {
    var withId := WithNewId(n, idMap);
    var c := WithElements(Get(n, "children").value, kids);
    var o := Put(withId, "children", c);
    assert Get(withId, "children") == Get(n, "children");
    assert Keys(o) == Keys(n);
    forall k | k != "layerId" && k != "children"
      ensures Get(o, k) == Get(n, k)
    {
      assert Get(o, k) == Get(withId, k);
    }
    assert Get(o, "layerId") == Get(withId, "layerId");
    assert Get(o, "children") == Some(c);
  }

  /** A node without children, its `layerId` replaced, is the node changed in place. */
  lemma IdReplacedInPlace(n: Json, idMap: map<int, int>)
    requires n.JObj? && !Has(n, "children")
    ensures InPlace(idMap, WithNewId(n, idMap), n)
    ensures Kids(WithNewId(n, idMap), "children") == []
  {
    assert Get(WithNewId(n, idMap), "children") == Get(n, "children");
  }

  /**
   * Listed in pre-order, every node of the rewritten tree is the old node at
   * the same position changed in place: the rewrite keeps every field of
   * every node at any depth, except for the new `layerId`.
   */
  lemma {:induction false} PreOrderInPlace(n: Json, idMap: map<int, int>)
    requires MigrateNode(n, idMap).Ok?
    ensures Pairwise(PreOrder(MigrateNode(n, idMap).value, "children"), PreOrder(n, "children"), (o, m) => InPlace(idMap, o, m))
    decreases n, 1
  {
    var o := MigrateNode(n, idMap).value;
    RewrittenInPlace(n, idMap);
    var kids := Kids(n, "children");
    PreOrderAllInPlace(n, kids, o, Kids(o, "children"), idMap);
    PairwiseAppend([o], [n], PreOrderAll(o, Kids(o, "children"), "children"), PreOrderAll(n, kids, "children"),
      (o, m) => InPlace(idMap, o, m));
  }

  /** The same in-place correspondence holds for a list of sibling subtrees. */
  lemma {:induction false} PreOrderAllInPlace(parent: Json, ns: seq<Json>, outParent: Json, outs: seq<Json>, idMap: map<int, int>)
    requires Below(parent, ns) && Below(outParent, outs)
    requires MigrateNodes(parent, ns, idMap) == Ok(outs)
    ensures Pairwise(PreOrderAll(outParent, outs, "children"), PreOrderAll(parent, ns, "children"), (o, m) => InPlace(idMap, o, m))
    decreases parent, 0, |ns|
  {
    if ns != [] {
      assert MigrateNode(ns[0], idMap) == Ok(outs[0]);
      assert MigrateNodes(parent, ns[1..], idMap) == Ok(outs[1..]);
      PreOrderInPlace(ns[0], idMap);
      PreOrderAllInPlace(parent, ns[1..], outParent, outs[1..], idMap);
      PairwiseAppend(
        PreOrder(outs[0], "children"), PreOrder(ns[0], "children"),
        PreOrderAll(outParent, outs[1..], "children"), PreOrderAll(parent, ns[1..], "children"),
        (o, m) => InPlace(idMap, o, m));
    }
  }

  /** Every node of the tree, in pre-order, is an object. */
  ghost predicate AllObjects(n: Json) {
    forall i :: 0 <= i < |PreOrder(n, "children")| ==> PreOrder(n, "children")[i].JObj?
  }

  ghost predicate AllObjectsIn(parent: Json, ns: seq<Json>)
    requires Below(parent, ns)
  {
    forall i :: 0 <= i < |PreOrderAll(parent, ns, "children")| ==> PreOrderAll(parent, ns, "children")[i].JObj?
  }

  /** All objects in a concatenation exactly when all objects in both parts. */
  lemma AllObjectsAppend(a: seq<Json>, b: seq<Json>)
    ensures (forall i :: 0 <= i < |a + b| ==> (a + b)[i].JObj?) <==>
      (forall i :: 0 <= i < |a| ==> a[i].JObj?) && (forall i :: 0 <= i < |b| ==> b[i].JObj?)
  {
    if forall i :: 0 <= i < |a + b| ==> (a + b)[i].JObj? {
      forall i | 0 <= i < |a|
        ensures a[i].JObj?
      {
        assert (a + b)[i] == a[i];
      }
      forall i | 0 <= i < |b|
        ensures b[i].JObj?
      {
        assert (a + b)[|a| + i] == b[i];
      }
    }
    if (forall i :: 0 <= i < |a| ==> a[i].JObj?) && (forall i :: 0 <= i < |b| ==> b[i].JObj?) {
      forall i | 0 <= i < |a + b|
        ensures (a + b)[i].JObj?
      {
        if i >= |a| {
          assert (a + b)[i] == b[i - |a|];
        }
      }
    }
  }

  /** The rewrite succeeds exactly when every node of the tree is an object: the casts are the only way it fails. */
  lemma {:induction false} MigrateSucceedsIff(n: Json, idMap: map<int, int>)
    ensures MigrateNode(n, idMap).Ok? <==> AllObjects(n)
    decreases n, 1
  {
    var kids := Kids(n, "children");
    MigrateAllSucceedsIff(n, kids, idMap);
    AllObjectsAppend([n], PreOrderAll(n, kids, "children"));
    assert MigrateNode(n, idMap).Ok? <==> n.JObj? && MigrateNodes(n, kids, idMap).Ok?;
    assert PreOrder(n, "children") == [n] + PreOrderAll(n, kids, "children");
  }

  lemma {:induction false} MigrateAllSucceedsIff(parent: Json, ns: seq<Json>, idMap: map<int, int>)
    requires Below(parent, ns)
    ensures MigrateNodes(parent, ns, idMap).Ok? <==> AllObjectsIn(parent, ns)
    decreases parent, 0, |ns|
  {
    if ns != [] {
      MigrateSucceedsIff(ns[0], idMap);
      MigrateAllSucceedsIff(parent, ns[1..], idMap);
      AllObjectsAppend(PreOrder(ns[0], "children"), PreOrderAll(parent, ns[1..], "children"));
      assert PreOrderAll(parent, ns, "children") == PreOrder(ns[0], "children") + PreOrderAll(parent, ns[1..], "children");
      assert MigrateNodes(parent, ns, idMap).Ok? <==> MigrateNode(ns[0], idMap).Ok? && MigrateNodes(parent, ns[1..], idMap).Ok?;
    }
  }

  /** The rewritten tree has the nesting structure of the old one. */
  lemma {:induction false} ShapeKept(n: Json, idMap: map<int, int>)
    requires MigrateNode(n, idMap).Ok?
    ensures ShapeOf(MigrateNode(n, idMap).value) == ShapeOf(n)
    decreases n, 1
  {
    var o := MigrateNode(n, idMap).value;
    RewrittenInPlace(n, idMap);
    if Has(n, "children") {
      var c := Get(n, "children").value;
      ShapesKept(c, n, Elements(c), Get(o, "children").value, Kids(o, "children"), idMap);
    }
  }

  lemma {:induction false} ShapesKept(parent: Json, mparent: Json, ns: seq<Json>, outParent: Json, outs: seq<Json>, idMap: map<int, int>)
    requires Below(parent, ns) && Below(mparent, ns) && Below(outParent, outs)
    requires MigrateNodes(mparent, ns, idMap) == Ok(outs)
    ensures ShapesOf(outParent, outs) == ShapesOf(parent, ns)
    decreases parent, 0, |ns|
  {
    if ns != [] {
      ShapeKept(ns[0], idMap);
      assert MigrateNodes(mparent, ns[1..], idMap) == Ok(outs[1..]);
      ShapesKept(parent, mparent, ns[1..], outParent, outs[1..], idMap);
    }
  }

  /** The `layerId` values of the rewritten tree, in pre-order, are the old ones mapped one by one. */
  lemma {:induction false} LayerIdsRemapped(n: Json, idMap: map<int, int>)
    requires MigrateNode(n, idMap).Ok?
    ensures MapsTo(FieldValues(MigrateNode(n, idMap).value, "layerId"), FieldValues(n, "layerId"), v => NewLayerId(idMap, v))
    decreases n, 1
  {
    var o := MigrateNode(n, idMap).value;
    RewrittenInPlace(n, idMap);
    var f := v => NewLayerId(idMap, v);
    var here := match Get(n, "layerId") case None => [] case Some(v) => [v];
    var hereOut := match Get(o, "layerId") case None => [] case Some(v) => [v];
    assert Has(o, "layerId") <==> Has(n, "layerId") by {
      HasIffKey(o, "layerId");
      HasIffKey(n, "layerId");
    }
    assert MapsTo(hereOut, here, f);
    var kids, outKids := Kids(n, "children"), Kids(o, "children");
    LayerIdsAllRemapped(n, kids, o, outKids, idMap);
    MapsToAppend(hereOut, here, FieldValuesAll(o, outKids, "layerId"), FieldValuesAll(n, kids, "layerId"), f);
    assert FieldValues(o, "layerId") == hereOut + FieldValuesAll(o, outKids, "layerId");
    assert FieldValues(n, "layerId") == here + FieldValuesAll(n, kids, "layerId");
  }

  lemma {:induction false} LayerIdsAllRemapped(parent: Json, ns: seq<Json>, outParent: Json, outs: seq<Json>, idMap: map<int, int>)
    requires Below(parent, ns) && Below(outParent, outs)
    requires MigrateNodes(parent, ns, idMap) == Ok(outs)
    ensures MapsTo(FieldValuesAll(outParent, outs, "layerId"), FieldValuesAll(parent, ns, "layerId"), v => NewLayerId(idMap, v))
    decreases parent, 0, |ns|
  {
    if ns != [] {
      assert MigrateNode(ns[0], idMap) == Ok(outs[0]);
      assert MigrateNodes(parent, ns[1..], idMap) == Ok(outs[1..]);
      LayerIdsRemapped(ns[0], idMap);
      LayerIdsAllRemapped(parent, ns[1..], outParent, outs[1..], idMap);
      MapsToAppend(FieldValues(outs[0], "layerId"), FieldValues(ns[0], "layerId"),
        FieldValuesAll(outParent, outs[1..], "layerId"), FieldValuesAll(parent, ns[1..], "layerId"), v => NewLayerId(idMap, v));
    }
  }

  /**
   * The new `backgroundLayers`: each entry `asInt()` and looked up in the
   * map, `null` when unmapped, in the same order.
   */
  function BackgroundIds(refs: seq<Json>, idMap: map<int, int>): (r: Result<seq<Json>>)
    ensures r.Ok? <==> forall i :: 0 <= i < |refs| ==> AsInt(refs[i]).Ok?
    ensures r.Ok? ==>
      && |r.value| == |refs|
      && forall i :: 0 <= i < |refs| ==> r.value[i] == Resolve(idMap, AsInt(refs[i]).value)
    decreases |refs|
  {
    if refs == [] then Ok([])
    else
      var id :- AsInt(refs[0]);
      var rest :- BackgroundIds(refs[1..], idMap);
      Ok([Resolve(idMap, id)] + rest)
  }

  /** The client config with its `backgroundLayers` remapped, when it has them. */
  function ClientConfig(config: Json, idMap: map<int, int>): (r: Result<Json>)
    ensures !Has(config, "backgroundLayers") ==> r == Ok(config)
    ensures Has(config, "backgroundLayers") ==>
      var refs := Elements(Get(config, "backgroundLayers").value);
      && (r.Ok? <==> BackgroundIds(refs, idMap).Ok?)
      && (r.Ok? ==>
            && r.value.JObj?
            && Keys(r.value) == Keys(config)
            && Get(r.value, "backgroundLayers") == Some(JArr(BackgroundIds(refs, idMap).value))
            && forall k :: k != "backgroundLayers" ==> Get(r.value, k) == Get(config, k))
  {
    if Has(config, "backgroundLayers") then
      var ids :- BackgroundIds(Elements(Get(config, "backgroundLayers").value), idMap);
      Ok(Put(config, "backgroundLayers", JArr(ids)))
    else Ok(config)
  }

  /**
   * The application document after the rewrite: without its `id`, with the
   * given client config and layer tree, every other field as it was. The
   * keys keep their order; a client config or layer tree the document did
   * not have would go last.
   */
  function Rewritten(app: Json, config: Json, tree: Json): (r: Json)
    requires app.JObj?
    ensures !Has(r, "id")
    ensures Get(r, "clientConfig") == Some(config)
    ensures Get(r, "layerTree") == Some(tree)
    ensures forall k :: k != "id" && k != "clientConfig" && k != "layerTree" ==> Get(r, k) == Get(app, k)
    ensures Keys(r) ==
      Without(Keys(app), "id")
      + (if Has(app, "clientConfig") then [] else ["clientConfig"])
      + (if Has(app, "layerTree") then [] else ["layerTree"])
  {
    var withConfig := WithConfig(app, config);
    assert Get(withConfig, "layerTree") == Get(app, "layerTree");
    PutKeepsOther(withConfig, "layerTree", tree, "clientConfig");
    PutKeepsOther(withConfig, "layerTree", tree, "id");
    Put(withConfig, "layerTree", tree)
  }

  /** The document without its `id` and with the new client config; the keys keep their order. */
  function WithConfig(app: Json, config: Json): (r: Json)
    requires app.JObj?
    ensures r.JObj? && !Has(r, "id")
    ensures Get(r, "clientConfig") == Some(config)
    ensures forall k :: k != "id" && k != "clientConfig" ==> Get(r, k) == Get(app, k)
    ensures Keys(r) == Without(Keys(app), "id") + (if Has(app, "clientConfig") then [] else ["clientConfig"])
  {
    var removed := Remove(app, "id");
    assert Get(removed, "clientConfig") == Get(app, "clientConfig");
    Put(removed, "clientConfig", config)
  }

  /**
   * `migrateApplication`: the `id` is removed, the `name` must be there (it
   * is logged), the client config must be there and gets its background
   * layers remapped, and the layer tree must be there and is rewritten in
   * place. A document that is not an object fails the cast to `ObjectNode`.
   * Removing the `id` first does not change what the later steps read.
   */
  function MigrateApplication(app: Json, idMap: map<int, int>): (r: Result<Json>)
    ensures !app.JObj? ==> r == Fail(ClassCast("ObjectNode"))
    ensures app.JObj? && !Has(app, "name") ==> r == Fail(NullPointer("name"))
    ensures app.JObj? && Has(app, "name") && !Has(app, "clientConfig") ==> r == Fail(NullPointer("clientConfig"))
    ensures r.Ok? <==>
      && app.JObj? && Has(app, "name") && Has(app, "clientConfig")
      && ClientConfig(Get(app, "clientConfig").value, idMap).Ok?
      && Has(app, "layerTree") && MigrateNode(Get(app, "layerTree").value, idMap).Ok?
    ensures r.Ok? ==>
      r.value == Rewritten(app, ClientConfig(Get(app, "clientConfig").value, idMap).value, MigrateNode(Get(app, "layerTree").value, idMap).value)
    ensures r.Ok? ==> Keys(r.value) == Without(Keys(app), "id")
  {
    if !app.JObj? then Fail(ClassCast("ObjectNode"))
    else
      var name :- Required(Get(app, "name"), "name");
      var config :- Required(Get(app, "clientConfig"), "clientConfig");
      var config :- ClientConfig(config, idMap);
      var tree :- Required(Get(app, "layerTree"), "layerTree");
      var tree :- MigrateNode(tree, idMap);
      Ok(Rewritten(app, config, tree))
  }

  /**
   * One layer of `migrateLayers`: its `id` is read (a missing one is a null
   * dereference) and removed, and everything else is saved as it is.
   */
  function MigrateLayer(layer: Json): (r: Result<Option<Json>>)
    ensures r.Ok? <==> Has(layer, "id")
    ensures !Has(layer, "id") ==> r == Fail(NullPointer("id"))
    ensures r.Ok? ==>
      && r.value.Some? && r.value.value.JObj?
      && !Has(r.value.value, "id")
      && (forall k :: k != "id" ==> Get(r.value.value, k) == Get(layer, k))
      && Keys(r.value.value) == Without(Keys(layer), "id")
  {
    match Get(layer, "id")
    case None => Fail(NullPointer("id"))
    case Some(_) => Ok(Some(Remove(layer, "id")))
  }

  /**
   * `migrateLayers`: every fetched layer is saved without its `id`, and the
   * returned map sends the old id of every layer to the id `save` returned
   * for the last layer with that id.
   */
  method MigrateLayers(layers: Json, save: LayerIds.Save) returns (r: Result<map<int, int>>)
    ensures r.Ok? <==> forall i :: 0 <= i < |Elements(layers)| ==> Has(Elements(layers)[i], "id")
    ensures r.Ok? ==> r.value.Keys == set i | 0 <= i < |Elements(layers)| :: LayerIds.OldId(Elements(layers)[i])
    ensures r.Ok? ==> LayerIds.SavedLast(Elements(layers), |Elements(layers)|, MigrateLayer, save, r.value)
  {
    var ls := Elements(layers);
    r := LayerIds.CollectIds(layers, MigrateLayer, save);
    assert forall i :: 0 <= i < |ls| ==> (LayerIds.StepSucceeds(MigrateLayer, ls[i]) <==> Has(ls[i], "id"));
    if r.Ok? {
      assert forall i :: 0 <= i < |ls| ==> LayerIds.Kept(MigrateLayer, ls[i]);
      assert LayerIds.KeptIds(ls, |ls|, MigrateLayer) == set i | 0 <= i < |ls| :: LayerIds.OldId(ls[i]);
    }
  }

  /** `handlesSourceType`: the source type names this migrator, in any letter case. */
  function HandlesSourceType(sourceType: string): (r: bool)
    ensures r <==> JavaText.FoldAll(sourceType) == "boot"
  {
    JavaText.EqualsIgnoreCaseIsFoldEquality(sourceType, "boot");
    assert JavaText.FoldAll("boot") == "boot";
    JavaText.EqualsIgnoreCase(sourceType, "boot")
  }
}
