/**
 * The parts of the legacy (SHOGun2) document format that both legacy
 * migrators read the same way: the layer-type table, the search for the map
 * module in the viewport, projection codes, the map center, resolution lists,
 * search configuration and tile grids.
 */
module Legacy {
  import opened Json
  import opened Trees
  import JavaText

  /** The layer types of the target format. */
  datatype LayerType = TileWms | VectorTile | Wms | Wmts | Wfs | Xyz

  /** The name the target format stores for a layer type. */
  function TypeName(t: LayerType): string {
    match t
    case TileWms => "TILEWMS"
    case VectorTile => "VECTORTILE"
    case Wms => "WMS"
    case Wmts => "WMTS"
    case Wfs => "WFS"
    case Xyz => "XYZ"
  }

  /** The legacy source types each target type is migrated from (the inverse of `MapType`). */
  function SourceNames(t: LayerType): set<string> {
    match t
    case TileWms => {"TileWMS"}
    case VectorTile => {"OSMVectortile"}
    case Wms => {"ImageWMS", "WMSTime"}
    case Wmts => {"WMTS"}
    case Wfs => {"WFS"}
    case Xyz => {"XYZ"}
  }

  /**
   * The type table: an exact, case-sensitive match on seven legacy source
   * types; every other string has no target type and the layer is skipped.
   */
  function MapType(sourceType: string): (r: Option<LayerType>)
    ensures r.Some? ==> sourceType in SourceNames(r.value)
    ensures forall t :: sourceType in SourceNames(t) ==> r == Some(t)
  {
    if sourceType == "TileWMS" then Some(TileWms)
    else if sourceType == "OSMVectortile" then Some(VectorTile)
    else if sourceType == "ImageWMS" || sourceType == "WMSTime" then Some(Wms)
    else if sourceType == "WMTS" then Some(Wmts)
    else if sourceType == "WFS" then Some(Wfs)
    else if sourceType == "XYZ" then Some(Xyz)
    else None
  }

  /** The target names of WMTS, WFS and XYZ are also their legacy names; no other target name is a legacy type. */
  lemma MapTypeFixedPoints(t: LayerType)
    ensures MapType(TypeName(t)) == (if t in {Wmts, Wfs, Xyz} then Some(t) else None)
  {
  }

  const SubModules := "subModules"
  const MapModuleXType := "shogun-component-map"

  /**
   * The node is the map component. `asText()` of `xtype` can only equal the
   * marker when `xtype` is a string, so no other node kind needs a case.
   */
  predicate IsMapModule(n: Json) {
    Get(n, "xtype") == Some(JStr(MapModuleXType))
  }

  /** The first map module of a sequence of nodes. */
  function FirstMapModule(ns: seq<Json>): (r: Option<Json>)
    ensures r.Some? ==> IsMapModule(r.value) && r.value in ns
    ensures r.None? ==> forall i :: 0 <= i < |ns| ==> !IsMapModule(ns[i])
  {
    if ns == [] then None
    else if IsMapModule(ns[0]) then Some(ns[0])
    else FirstMapModule(ns[1..])
  }

  /** `findMapModule`: `null` in, `null` out; otherwise the depth-first search below. */
  function FindMapModule(node: Option<Json>): (r: Option<Json>)
    ensures node.None? ==> r.None?
    ensures node.Some? ==> r == FirstMapModule(PreOrder(node.value, SubModules))
  {
    if node.None? then None
    else
      FindInIsFirstInPreOrder(node.value);
      FindIn(node.value)
  }

  /** The node itself if it is the map module, else the first hit among its sub-modules, in order. */
  function FindIn(n: Json): Option<Json>
    decreases n, 1
  {
    if IsMapModule(n) then Some(n) else FindFirst(n, Kids(n, SubModules))
  }

  function FindFirst(ghost parent: Json, ns: seq<Json>): Option<Json>
    requires Below(parent, ns)
    decreases parent, 0, |ns|
  {
    if ns == [] then None
    else
      var hit := FindIn(ns[0]);
      if hit.Some? then hit else FindFirst(parent, ns[1..])
  }

  lemma FirstMapModuleAppend(a: seq<Json>, b: seq<Json>)
    ensures FirstMapModule(a + b) == if FirstMapModule(a).Some? then FirstMapModule(a) else FirstMapModule(b)
  {
    if a == [] {
      assert a + b == b;
    } else {
      assert (a + b)[0] == a[0];
      assert (a + b)[1..] == a[1..] + b;
      FirstMapModuleAppend(a[1..], b);
    }
  }

  /**
   * The search is pre-order and first-match-wins: it returns the first map
   * module in the pre-order listing of the module tree.
   */
  lemma {:induction false} FindInIsFirstInPreOrder(n: Json)
    ensures FindIn(n) == FirstMapModule(PreOrder(n, SubModules))
    decreases n, 1
  {
    var kids := Kids(n, SubModules);
    FindFirstIsFirstInPreOrder(n, kids);
    FirstMapModuleAppend([n], PreOrderAll(n, kids, SubModules));
  }

  lemma {:induction false} FindFirstIsFirstInPreOrder(parent: Json, ns: seq<Json>)
    requires Below(parent, ns)
    ensures FindFirst(parent, ns) == FirstMapModule(PreOrderAll(parent, ns, SubModules))
    decreases parent, 0, |ns|
  {
    if ns != [] {
      FindInIsFirstInPreOrder(ns[0]);
      FindFirstIsFirstInPreOrder(parent, ns[1..]);
      FirstMapModuleAppend(PreOrder(ns[0], SubModules), PreOrderAll(parent, ns[1..], SubModules));
    }
  }

  const EpsgPrefix := "EPSG:"

  /** A projection code in `EPSG:<code>` form: kept when already prefixed, prefixed otherwise. */
  function NormalizeProjection(p: string): (r: string)
    ensures JavaText.StartsWith(r, EpsgPrefix)
    ensures r == p || r == EpsgPrefix + p
    ensures JavaText.StartsWith(p, EpsgPrefix) <==> r == p
  {
    if JavaText.StartsWith(p, EpsgPrefix) then p else EpsgPrefix + p
  }

  /** Normalising twice is normalising once. */
  lemma NormalizeProjectionIdempotent(p: string)
    ensures NormalizeProjection(NormalizeProjection(p)) == NormalizeProjection(p)
  {
  }

  /** A bare code and its prefixed form normalise to the same string. */
  lemma NormalizeProjectionBareOrPrefixed(code: string)
    ensures NormalizeProjection(code) == NormalizeProjection(EpsgPrefix + code) || JavaText.StartsWith(code, EpsgPrefix)
  {
    assert (EpsgPrefix + code)[..|EpsgPrefix|] == EpsgPrefix;
  }

  /**
   * The map center as the output array first holds it: an `[x, y]` array is
   * coerced element-wise to doubles, while the `{x, y}` form copies the two
   * nodes as they are (a missing one becomes `null`).
   */
  function CenterNodes(mapConfig: Json): (r: Result<seq<Json>>)
    ensures r.Ok? ==> |r.value| == 2
    ensures r.Ok? ==> Has(mapConfig, "center")
    ensures r.Ok? && !Get(mapConfig, "center").value.JArr? ==>
      var c := Get(mapConfig, "center").value;
      r.value == [OrNull(Get(c, "x")), OrNull(Get(c, "y"))]
    ensures r.Ok? && Get(mapConfig, "center").value.JArr? ==>
      var items := Get(mapConfig, "center").value.items;
      && |items| >= 2
      && AsDouble(items[0]).Ok? && AsDouble(items[1]).Ok?
      && r.value == [DoubleNode(AsDouble(items[0]).value), DoubleNode(AsDouble(items[1]).value)]
  {
    var center :- Required(Get(mapConfig, "center"), "center");
    if center.JArr? then
      if |center.items| < 1 then Fail(NullPointer("center[0]"))
      else
        var x :- AsDouble(center.items[0]);
        if |center.items| < 2 then Fail(NullPointer("center[1]"))
        else
          var y :- AsDouble(center.items[1]);
          Ok([DoubleNode(x), DoubleNode(y)])
    else
      Ok([OrNull(Get(center, "x")), OrNull(Get(center, "y"))])
  }

  /** A position given by its two ordinates. */
  datatype Point = Point(x: real, y: real)

  /** Both ordinates of a corner are present and readable with `asDouble()`. */
  predicate CornerReadable(c: Json) {
    && Has(c, "x") && Has(c, "y")
    && AsDouble(Get(c, "x").value).Ok? && AsDouble(Get(c, "y").value).Ok?
  }

  /**
   * A corner (`lowerLeft` or `upperRight`) of the map extent, its ordinates
   * read with `asDouble()`; the extent, the corner and both ordinates are
   * required.
   */
  function Corner(extent: Option<Json>, corner: string): (r: Result<Point>)
    ensures r.Ok? <==> extent.Some? && Has(extent.value, corner) && CornerReadable(Get(extent.value, corner).value)
    ensures r.Ok? ==>
      var c := Get(extent.value, corner).value;
      r.value == Point(AsDouble(Get(c, "x").value).value, AsDouble(Get(c, "y").value).value)
  {
    var e :- Required(extent, "extent");
    var c :- Required(Get(e, corner), corner);
    var x :- Required(Get(c, "x"), "x");
    var x :- AsDouble(x);
    var y :- Required(Get(c, "y"), "y");
    var y :- AsDouble(y);
    Ok(Point(x, y))
  }

  /** The map's projection as text, normalised to the `EPSG:<code>` form. */
  function Projection(mapConfig: Json): (r: Result<string>)
    ensures r.Ok? <==> Has(mapConfig, "projection") && AsText(Get(mapConfig, "projection").value).Ok?
    ensures r.Ok? ==> JavaText.StartsWith(r.value, EpsgPrefix)
    ensures r.Ok? ==> r.value == NormalizeProjection(AsText(Get(mapConfig, "projection").value).value)
  {
    var p :- Required(Get(mapConfig, "projection"), "projection");
    var text :- AsText(p);
    Ok(NormalizeProjection(text))
  }

  /** The map's resolutions, each coerced with `asDouble()`, in order; the list is required. */
  function Resolutions(mapConfig: Json): (r: Result<seq<Json>>)
    ensures r.Ok? <==> Has(mapConfig, "resolutions") && AsDoubles(Elements(Get(mapConfig, "resolutions").value)).Ok?
    ensures r.Ok? ==>
      var given := Elements(Get(mapConfig, "resolutions").value);
      |r.value| == |given| && forall i :: 0 <= i < |given| ==> r.value[i] == DoubleNode(AsDouble(given[i]).value)
  {
    var given :- Required(Get(mapConfig, "resolutions"), "resolutions");
    AsDoubles(Elements(given))
  }

  /** The minimum and maximum resolution of a layer's appearance, each required and stored as text (or `null`). */
  function ResolutionFields(node: Json): (r: Result<seq<Field>>)
    ensures r.Ok? <==>
      Has(node, "appearance") && Has(Get(node, "appearance").value, "minResolution") && Has(Get(node, "appearance").value, "maxResolution")
    ensures r.Ok? ==>
      var appearance := Get(node, "appearance").value;
      r.value == [
        Field("minResolution", StrOrNull(TextValue(Get(appearance, "minResolution").value))),
        Field("maxResolution", StrOrNull(TextValue(Get(appearance, "maxResolution").value)))]
  {
    var appearance :- Required(Get(node, "appearance"), "appearance");
    var min :- Required(Get(appearance, "minResolution"), "minResolution");
    var max :- Required(Get(appearance, "maxResolution"), "maxResolution");
    Ok([Field("minResolution", StrOrNull(TextValue(min))), Field("maxResolution", StrOrNull(TextValue(max)))])
  }

  /** The layer is searchable: its `searchable` flag is the boolean `true`. */
  predicate Searchable(node: Json) {
    BooleanValue(OrNull(Get(node, "searchable")))
  }

  /** Every node coerced with `asDouble()`, in order; fails on the first node that cannot be. */
  function AsDoubles(vs: seq<Json>): (r: Result<seq<Json>>)
    ensures r.Ok? <==> forall i :: 0 <= i < |vs| ==> AsDouble(vs[i]).Ok?
    ensures r.Ok? ==> |r.value| == |vs| && forall i :: 0 <= i < |vs| ==> r.value[i] == DoubleNode(AsDouble(vs[i]).value)
  {
    if vs == [] then Ok([])
    else
      var d :- AsDouble(vs[0]);
      var rest :- AsDoubles(vs[1..]);
      assert forall i :: 1 <= i < |vs| ==> vs[i] == vs[1..][i - 1];
      Ok([DoubleNode(d)] + rest)
  }

  /** `textValue()` of every node, in order (`null` for non-text nodes). */
  function TextNodes(vs: seq<Json>): (r: seq<Json>)
    ensures |r| == |vs| && forall i :: 0 <= i < |vs| ==> r[i] == StrOrNull(TextValue(vs[i]))
  {
    seq(|vs|, i requires 0 <= i < |vs| => StrOrNull(TextValue(vs[i])))
  }

  /**
   * The search configuration of a searchable layer: the display template
   * (required), the icon only when present, and the attributes in their order.
   */
  function SearchConfig(given: Json): (r: Result<Json>)
    ensures r.Ok? <==> Has(given, "displayTemplate") && Has(given, "attributes")
    ensures r.Ok? ==> Get(r.value, "displayTemplate") == Some(StrOrNull(TextValue(Get(given, "displayTemplate").value)))
    ensures r.Ok? ==> (Has(r.value, "icon") <==> Has(given, "icon"))
    ensures r.Ok? && Has(given, "icon") ==> Get(r.value, "icon") == Some(StrOrNull(TextValue(Get(given, "icon").value)))
    ensures r.Ok? ==> Get(r.value, "attributes") == Some(JArr(TextNodes(Elements(Get(given, "attributes").value))))
  {
    var template :- Required(Get(given, "displayTemplate"), "displayTemplate");
    var icon := Get(given, "icon");
    var attributes :- Required(Get(given, "attributes"), "attributes");
    var head := [Field("displayTemplate", StrOrNull(TextValue(template)))];
    var iconField := if icon.Some? then [Field("icon", StrOrNull(TextValue(icon.value)))] else [];
    var tail := [Field("attributes", JArr(TextNodes(Elements(attributes))))];
    LookupAppend(head, iconField + tail, "icon");
    LookupAppend(iconField, tail, "icon");
    LookupAppend(head, iconField + tail, "attributes");
    LookupAppend(iconField, tail, "attributes");
    LookupAppend(head, iconField + tail, "displayTemplate");
    Ok(JObj(head + (iconField + tail)))
  }

  /**
   * The searchable flag of a layer's client config and, for a searchable
   * layer, its search configuration. Only a boolean `true` makes the layer
   * searchable; anything else marks it not searchable with no configuration.
   */
  function SearchFields(node: Json): (r: Result<seq<Field>>)
    ensures !BooleanValue(OrNull(Get(node, "searchable"))) ==> r == Ok([Field("searchable", JBool(false))])
    ensures BooleanValue(OrNull(Get(node, "searchable"))) ==>
      (r.Ok? <==> Has(node, "searchConfig") && SearchConfig(Get(node, "searchConfig").value).Ok?)
    ensures BooleanValue(OrNull(Get(node, "searchable"))) && r.Ok? ==>
      r.value == [Field("searchable", JBool(true)), Field("searchConfig", SearchConfig(Get(node, "searchConfig").value).value)]
  {
    var searchable := Get(node, "searchable");
    if searchable.Some? && BooleanValue(searchable.value) then
      var given :- Required(Get(node, "searchConfig"), "searchConfig");
      var config :- SearchConfig(given);
      Ok([Field("searchable", JBool(true)), Field("searchConfig", config)])
    else
      Ok([Field("searchable", JBool(false))])
  }

  /** `doubleValue()` of every node, in order. */
  function DoubleNodes(vs: seq<Json>): (r: seq<Json>)
    ensures |r| == |vs| && forall i :: 0 <= i < |vs| ==> r[i] == DoubleNode(DoubleValue(vs[i]))
  {
    seq(|vs|, i requires 0 <= i < |vs| => DoubleNode(DoubleValue(vs[i])))
  }

  /**
   * The fields of a tile grid: the tile size as an `int`, the origin as
   * `[x, y]` doubles and the resolutions as doubles in order. Each of the
   * four parts is required.
   */
  function GridFields(grid: Json): (r: Result<seq<Field>>)
    ensures r.Ok? <==>
      && Has(grid, "tileSize") && Has(grid, "tileGridOrigin") && Has(grid, "tileGridResolutions")
      && Has(Get(grid, "tileGridOrigin").value, "x") && Has(Get(grid, "tileGridOrigin").value, "y")
    ensures r.Ok? ==> |r.value| == 3
    ensures r.Ok? ==> r.value[0] == Field("tileSize", JNum(Int(IntValue(Get(grid, "tileSize").value))))
    ensures r.Ok? ==>
      var origin := Get(grid, "tileGridOrigin").value;
      r.value[1] == Field("tileOrigin", JArr([DoubleNode(DoubleValue(Get(origin, "x").value)), DoubleNode(DoubleValue(Get(origin, "y").value))]))
    ensures r.Ok? ==> r.value[2] == Field("resolutions", JArr(DoubleNodes(Elements(Get(grid, "tileGridResolutions").value))))
  {
    var size :- Required(Get(grid, "tileSize"), "tileSize");
    var origin :- Required(Get(grid, "tileGridOrigin"), "tileGridOrigin");
    var x :- Required(Get(origin, "x"), "x");
    var y :- Required(Get(origin, "y"), "y");
    var resolutions :- Required(Get(grid, "tileGridResolutions"), "tileGridResolutions");
    Ok([
      Field("tileSize", JNum(Int(IntValue(size)))),
      Field("tileOrigin", JArr([DoubleNode(DoubleValue(x)), DoubleNode(DoubleValue(y))])),
      Field("resolutions", JArr(DoubleNodes(Elements(resolutions))))
    ])
  }

  /** The tile grid fields of a layer's source; none when the source has no tile grid. */
  function TileGridFields(source: Json): (r: Result<seq<Field>>)
    ensures !Has(source, "tileGrid") ==> r == Ok([])
    ensures Has(source, "tileGrid") ==> r == GridFields(Get(source, "tileGrid").value)
  {
    match Get(source, "tileGrid")
    case None => Ok([])
    case Some(grid) => GridFields(grid)
  }

  /** The names of the tile grid fields: all three when the source has a tile grid, none otherwise. */
  lemma TileGridKeys(source: Json)
    requires TileGridFields(source).Ok?
    ensures Keys(JObj(TileGridFields(source).value)) == (if Has(source, "tileGrid") then ["tileSize", "tileOrigin", "resolutions"] else [])
  {
    var fs := TileGridFields(source).value;
    if Has(source, "tileGrid") {
      assert fs[0].key == "tileSize" && fs[1].key == "tileOrigin" && fs[2].key == "resolutions";
    }
  }

  /** The layer's `source.type` node, if the layer has a source. */
  function SourceType(node: Json): Option<Json> {
    match Get(node, "source")
    case None => None
    case Some(source) => Get(source, "type")
  }

  /** What a legacy layer migration decides before it builds configs: the layer's name and target type. */
  datatype Head = Head(name: Json, layerType: LayerType)

  /**
   * The first steps of `migrateLayer` in both legacy migrators: the name is
   * required, and a layer whose `source.type` is missing or not in the type
   * table is skipped (`None`). A type that is not a string fails like the
   * Java `switch` on a `null` string.
   */
  function LayerHead(node: Json): (r: Result<Option<Head>>)
    ensures r == Ok(None) <==>
      && Has(node, "name") && Has(node, "source")
      && (SourceType(node).None? || (SourceType(node).value.JStr? && MapType(SourceType(node).value.s).None?))
    ensures r.Fail? <==>
      !Has(node, "name") || !Has(node, "source") || (SourceType(node).Some? && !SourceType(node).value.JStr?)
    ensures r.Ok? && r.value.Some? ==>
      && SourceType(node).Some? && SourceType(node).value.JStr?
      && MapType(SourceType(node).value.s) == Some(r.value.value.layerType)
      && r.value.value.name == StrOrNull(TextValue(Get(node, "name").value))
  {
    var name :- Required(Get(node, "name"), "name");
    var source :- Required(Get(node, "source"), "source");
    match Get(source, "type")
    case None => Ok(None)
    case Some(t) =>
      if !t.JStr? then Fail(NullPointer("type"))
      else
        match MapType(t.s)
        case None => Ok(None)
        case Some(lt) => Ok(Some(Head(StrOrNull(TextValue(name)), lt)))
  }

  /** The target document of a migrated layer: its name, its target type, its client config and its source config. */
  function LayerNode(head: Head, client: Json, source: Json): (r: Json)
    ensures Keys(r) == ["name", "type", "clientConfig", "sourceConfig"]
    ensures Get(r, "name") == Some(head.name)
    ensures Get(r, "type") == Some(JStr(TypeName(head.layerType)))
    ensures Get(r, "clientConfig") == Some(client)
    ensures Get(r, "sourceConfig") == Some(source)
  {
    var fields := [
      Field("name", head.name),
      Field("type", JStr(TypeName(head.layerType))),
      Field("clientConfig", client),
      Field("sourceConfig", source)
    ];
    LookupAt(fields, 1);
    LookupAt(fields, 2);
    LookupAt(fields, 3);
    JObj(fields)
  }

  /** The target document of a migrated application: its name, its layer tree and its client config. */
  function AppNode(name: string, tree: Json, client: Json): (r: Json)
    ensures Keys(r) == ["name", "layerTree", "clientConfig"]
    ensures Get(r, "name") == Some(JStr(name))
    ensures Get(r, "layerTree") == Some(tree)
    ensures Get(r, "clientConfig") == Some(client)
  {
    var fields := [Field("name", JStr(name)), Field("layerTree", tree), Field("clientConfig", client)];
    LookupAt(fields, 1);
    LookupAt(fields, 2);
    JObj(fields)
  }
}
