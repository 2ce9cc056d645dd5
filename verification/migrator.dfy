/**
 * The original SHOGun 2 migrator (`Migrator`): a layer becomes a document
 * with a name, a target type, a client config and a source config; an
 * application becomes a document with a name, the migrated layer tree and a
 * client config holding the map view found in its viewport. Only the
 * building of the target documents is modelled; fetching and saving are
 * parameters.
 */
module Migrator {
  import opened Json
  import opened Trees
  import opened Legacy
  import LegacyTree
  import LayerIds

  /**
   * The client config of a layer: the resolution bounds as text, then the
   * search flag and, for a searchable layer, its search configuration. What
   * it stores is stated by `ClientConfigValues`.
   */
  function ClientConfig(node: Json): (r: Result<Json>)
    ensures r.Ok? <==>
      && Has(node, "appearance")
      && Has(Get(node, "appearance").value, "minResolution") && Has(Get(node, "appearance").value, "maxResolution")
      && (Searchable(node) ==> Has(node, "searchConfig") && SearchConfig(Get(node, "searchConfig").value).Ok?)
    ensures r.Ok? ==>
      Keys(r.value) == ["minResolution", "maxResolution"] + (["searchable"] + (if Searchable(node) then ["searchConfig"] else []))
  {
    var bounds :- ResolutionFields(node);
    var search :- SearchFields(node);
    KeysAppend(bounds, search);
    assert Keys(JObj(bounds)) == ["minResolution", "maxResolution"];
    assert Keys(JObj(search)) == ["searchable"] + (if Searchable(node) then ["searchConfig"] else []);
    Ok(JObj(bounds + search))
  }

  /** The resolution bounds as text, the search flag and, for a searchable layer, the search configuration. */
  lemma ClientConfigValues(node: Json)
    requires ClientConfig(node).Ok?
    ensures
      var config := ClientConfig(node).value;
      var appearance := Get(node, "appearance").value;
      && Get(config, "minResolution") == Some(StrOrNull(TextValue(Get(appearance, "minResolution").value)))
      && Get(config, "maxResolution") == Some(StrOrNull(TextValue(Get(appearance, "maxResolution").value)))
      && Get(config, "searchable") == Some(JBool(Searchable(node)))
      && (Searchable(node) ==> Get(config, "searchConfig") == Some(SearchConfig(Get(node, "searchConfig").value).value))
  {
    var bounds := ResolutionFields(node).value;
    var search := SearchFields(node).value;
    assert ClientConfig(node).value == JObj(bounds + search);
    LookupAppend(bounds, search, "minResolution");
    LookupAppend(bounds, search, "maxResolution");
    LookupAppend(bounds, search, "searchable");
    LookupAppend(bounds, search, "searchConfig");
    LookupFound(bounds, "searchable");
    LookupFound(bounds, "searchConfig");
    LookupAt(bounds, 1);
    if Searchable(node) {
      LookupAt(search, 1);
    }
  }

  /**
   * The source config of a layer: URL and layer names are required and
   * copied as text, followed by the tile grid fields when the source has a
   * tile grid. What it stores is stated by `SourceConfigValues`.
   */
  function SourceConfig(node: Json): (r: Result<Json>)
    ensures r.Ok? <==>
      && Has(node, "source")
      && Has(Get(node, "source").value, "url") && Has(Get(node, "source").value, "layerNames")
      && TileGridFields(Get(node, "source").value).Ok?
    ensures r.Ok? ==>
      Keys(r.value) == ["url", "layerNames"] + (if Has(Get(node, "source").value, "tileGrid") then ["tileSize", "tileOrigin", "resolutions"] else [])
  {
    var source :- Required(Get(node, "source"), "source");
    var url :- Required(Get(source, "url"), "url");
    var names :- Required(Get(source, "layerNames"), "layerNames");
    var grid :- TileGridFields(source);
    var head := [Field("url", StrOrNull(TextValue(url))), Field("layerNames", StrOrNull(TextValue(names)))];
    KeysAppend(head, grid);
    TileGridKeys(source);
    Ok(JObj(head + grid))
  }

  /** The URL, the layer names and, with a tile grid, its tile size, origin and resolutions, as the source config stores them. */
  lemma SourceConfigValues(node: Json)
    requires SourceConfig(node).Ok?
    ensures
      var config := SourceConfig(node).value;
      var source := Get(node, "source").value;
      && Get(config, "url") == Some(StrOrNull(TextValue(Get(source, "url").value)))
      && Get(config, "layerNames") == Some(StrOrNull(TextValue(Get(source, "layerNames").value)))
      && (Has(source, "tileGrid") ==>
            var grid := Get(source, "tileGrid").value;
            var origin := Get(grid, "tileGridOrigin").value;
            && Get(config, "tileSize") == Some(JNum(Int(IntValue(Get(grid, "tileSize").value))))
            && Get(config, "tileOrigin") == Some(JArr([DoubleNode(DoubleValue(Get(origin, "x").value)), DoubleNode(DoubleValue(Get(origin, "y").value))]))
            && Get(config, "resolutions") == Some(JArr(DoubleNodes(Elements(Get(grid, "tileGridResolutions").value)))))
  {
    var source := Get(node, "source").value;
    var head := [
      Field("url", StrOrNull(TextValue(Get(source, "url").value))),
      Field("layerNames", StrOrNull(TextValue(Get(source, "layerNames").value)))
    ];
    var grid := TileGridFields(source).value;
    assert SourceConfig(node).value == JObj(head + grid);
    LookupAppend(head, grid, "url");
    LookupAppend(head, grid, "layerNames");
    LookupAt(head, 1);
    if Has(source, "tileGrid") {
      LookupAppend(head, grid, "tileSize");
      LookupAppend(head, grid, "tileOrigin");
      LookupAppend(head, grid, "resolutions");
      LookupFound(head, "tileSize");
      LookupFound(head, "tileOrigin");
      LookupFound(head, "resolutions");
      LookupAt(grid, 1);
      LookupAt(grid, 2);
    }
  }

  /**
   * `migrateLayer`: `None` for a layer that is skipped (no source type, or
   * one the type table does not know); otherwise the target document with
   * the name, the mapped type, the client config and the source config.
   */
  function MigrateLayer(node: Json): (r: Result<Option<Json>>)
    ensures r == Ok(None) <==> LayerHead(node) == Ok(None)
    ensures r.Fail? <==>
      LayerHead(node).Fail? || (LayerHead(node).value.Some? && (ClientConfig(node).Fail? || SourceConfig(node).Fail?))
    ensures r.Ok? && r.value.Some? ==>
      r.value.value == LayerNode(LayerHead(node).value.value, ClientConfig(node).value, SourceConfig(node).value)
  {
    var head :- LayerHead(node);
    match head
    case None => Ok(None)
    case Some(h) =>
      var client :- ClientConfig(node);
      var source :- SourceConfig(node);
      Ok(Some(LayerNode(h, client, source)))
  }

  /** Every part of the map view can be read from the map config. */
  predicate MapViewReadable(mapConfig: Json) {
    && CenterNodes(mapConfig).Ok?
    && Corner(Get(mapConfig, "extent"), "lowerLeft").Ok?
    && Corner(Get(mapConfig, "extent"), "upperRight").Ok?
    && Projection(mapConfig).Ok?
    && Resolutions(mapConfig).Ok?
  }

  /** The map view document: the center, the extent as `[minX, minY, maxX, maxY]`, the projection code and the resolutions. */
  function ViewNode(center: seq<Json>, lowerLeft: Point, upperRight: Point, projection: string, resolutions: seq<Json>): (r: Json)
    ensures Keys(r) == ["center", "mapExtent", "projection", "resolutions"]
    ensures Get(r, "center") == Some(JArr(center))
    ensures Get(r, "mapExtent") == Some(JArr([DoubleNode(lowerLeft.x), DoubleNode(lowerLeft.y), DoubleNode(upperRight.x), DoubleNode(upperRight.y)]))
    ensures Get(r, "projection") == Some(JStr(projection))
    ensures Get(r, "resolutions") == Some(JArr(resolutions))
  {
    var fields := [
      Field("center", JArr(center)),
      Field("mapExtent", JArr([DoubleNode(lowerLeft.x), DoubleNode(lowerLeft.y), DoubleNode(upperRight.x), DoubleNode(upperRight.y)])),
      Field("projection", JStr(projection)),
      Field("resolutions", JArr(resolutions))
    ];
    LookupAt(fields, 1);
    LookupAt(fields, 2);
    LookupAt(fields, 3);
    JObj(fields)
  }

  /**
   * The map view of the map module, read in the source's order: the map
   * config (required), the center, both extent corners, the projection and
   * the resolutions.
   */
  function MapView(mapModule: Json): (r: Result<Json>)
    ensures r.Ok? <==> Has(mapModule, "mapConfig") && MapViewReadable(Get(mapModule, "mapConfig").value)
    ensures !Has(mapModule, "mapConfig") ==> r == Fail(NullPointer("mapConfig"))
    ensures r.Ok? ==>
      var mapConfig := Get(mapModule, "mapConfig").value;
      r.value == ViewNode(
        CenterNodes(mapConfig).value,
        Corner(Get(mapConfig, "extent"), "lowerLeft").value,
        Corner(Get(mapConfig, "extent"), "upperRight").value,
        Projection(mapConfig).value,
        Resolutions(mapConfig).value)
  {
    var mapConfig :- Required(Get(mapModule, "mapConfig"), "mapConfig");
    var center :- CenterNodes(mapConfig);
    var ll :- Corner(Get(mapConfig, "extent"), "lowerLeft");
    var ur :- Corner(Get(mapConfig, "extent"), "upperRight");
    var projection :- Projection(mapConfig);
    var resolutions :- Resolutions(mapConfig);
    Ok(ViewNode(center, ll, ur, projection, resolutions))
  }

  /** The client config of an application: the map view when the viewport holds a map module. */
  function AppClientConfig(app: Json): (r: Result<Json>)
    ensures r.Ok? <==> (FindMapModule(Get(app, "viewport")).Some? ==> MapView(FindMapModule(Get(app, "viewport")).value).Ok?)
    ensures r.Ok? && FindMapModule(Get(app, "viewport")).None? ==> r.value == JObj([])
    ensures r.Ok? && FindMapModule(Get(app, "viewport")).Some? ==>
      && Keys(r.value) == ["mapView"]
      && Get(r.value, "mapView") == Some(MapView(FindMapModule(Get(app, "viewport")).value).value)
  {
    match FindMapModule(Get(app, "viewport"))
    case None => Ok(JObj([]))
    case Some(mapModule) =>
      var view :- MapView(mapModule);
      Ok(JObj([Field("mapView", view)]))
  }

  /**
   * `migrateApplication`: the name (required, as text), the layer tree with
   * layer references resolved through `idMap`, and the client config. The
   * name is read first, then the map view, then the tree.
   */
  function MigrateApplication(app: Json, idMap: map<int, int>): (r: Result<Json>)
    ensures r.Ok? <==>
      && Has(app, "name") && AsText(Get(app, "name").value).Ok?
      && AppClientConfig(app).Ok?
      && Has(app, "layerTree")
      && LegacyTree.RefsReadable(LegacyTree.ObjectOnly, FieldValues(Get(app, "layerTree").value, "layer"))
    ensures !Has(app, "name") ==> r == Fail(NullPointer("name"))
    ensures r.Ok? ==>
      r.value == AppNode(
        AsText(Get(app, "name").value).value,
        LegacyTree.MigrateLayerTree(LegacyTree.ObjectOnly, Get(app, "layerTree"), idMap).value,
        AppClientConfig(app).value)
  {
    var name :- Required(Get(app, "name"), "name");
    var name :- AsText(name);
    var clientConfig :- AppClientConfig(app);
    var tree :- LegacyTree.MigrateLayerTree(LegacyTree.ObjectOnly, Get(app, "layerTree"), idMap);
    Ok(AppNode(name, tree, clientConfig))
  }

  /**
   * `migrateLayers`: every fetched layer is migrated, the kept ones saved,
   * and the returned map sends each kept layer's old id to its new id.
   */
  method MigrateLayers(layers: Json, save: LayerIds.Save) returns (r: Result<map<int, int>>)
    ensures r.Ok? <==>
      forall i :: 0 <= i < |Elements(layers)| ==> LayerIds.StepSucceeds(MigrateLayer, Elements(layers)[i])
    ensures r.Ok? ==> r.value.Keys == LayerIds.KeptIds(Elements(layers), |Elements(layers)|, MigrateLayer)
    ensures r.Ok? ==> LayerIds.SavedLast(Elements(layers), |Elements(layers)|, MigrateLayer, save, r.value)
  {
    r := LayerIds.CollectIds(layers, MigrateLayer, save);
  }
}
