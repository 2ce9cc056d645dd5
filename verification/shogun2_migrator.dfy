/**
 * The SHOGun 2 migrator (`Shogun2Migrator`). It reads the same legacy
 * documents as the original migrator, but the target format differs: layer
 * URLs can be rewritten, client configs carry `hoverable` and a feature info
 * form built from the German column aliases, and the map view is reprojected
 * to WGS 84 with latitude first. Reprojection is a parameter: which codes the
 * CRS factory knows, and the transform of one point.
 */
module Shogun2Migrator {
  import opened Json
  import opened Trees
  import opened Legacy
  import JavaText
  import LegacyTree
  import LayerIds
  import UrlRules

  /**
   * The coordinate system support the migrator calls: whether a projection
   * code can be decoded and a transform to EPSG:4326 found, and the
   * transform of one point (`None` when it throws). The result point holds
   * ordinate 0 in `x` and ordinate 1 in `y`.
   */
  datatype Reprojection = Reprojection(known: string -> bool, toWgs84: (string, Point) -> Option<Point>)

  /** One point reprojected from `code` to WGS 84. */
  function Transform(geo: Reprojection, code: string, p: Point): (r: Result<Point>)
    ensures r.Ok? <==> geo.toWgs84(code, p).Some?
    ensures r.Ok? ==> r.value == geo.toWgs84(code, p).value
  {
    match geo.toWgs84(code, p)
    case None => Fail(TransformFailed)
    case Some(q) => Ok(q)
  }

  /** The center as a point, read back with `asDouble()` from the array built for it. */
  function CenterPoint(center: seq<Json>): (r: Result<Point>)
    requires |center| == 2
    ensures r.Ok? <==> AsDouble(center[0]).Ok? && AsDouble(center[1]).Ok?
    ensures r.Ok? ==> r.value == Point(AsDouble(center[0]).value, AsDouble(center[1]).value)
  {
    var x :- AsDouble(center[0]);
    var y :- AsDouble(center[1]);
    Ok(Point(x, y))
  }

  /**
   * Every step of the map view succeeds, in the order the source takes
   * them: center, projection, the coordinate system, each extent corner and
   * its transform, the zoom, the center's transform, the resolutions.
   */
  predicate MapViewReadable(mapConfig: Json, geo: Reprojection) {
    var extent := Get(mapConfig, "extent");
    && CenterNodes(mapConfig).Ok?
    && Projection(mapConfig).Ok?
    && geo.known(Projection(mapConfig).value)
    && Corner(extent, "lowerLeft").Ok?
    && geo.toWgs84(Projection(mapConfig).value, Corner(extent, "lowerLeft").value).Some?
    && Corner(extent, "upperRight").Ok?
    && geo.toWgs84(Projection(mapConfig).value, Corner(extent, "upperRight").value).Some?
    && Has(mapConfig, "zoom") && AsInt(Get(mapConfig, "zoom").value).Ok?
    && CenterPoint(CenterNodes(mapConfig).value).Ok?
    && geo.toWgs84(Projection(mapConfig).value, CenterPoint(CenterNodes(mapConfig).value).value).Some?
    && Resolutions(mapConfig).Ok?
  }

  /** What the map view is built from, once every value has been read and reprojected. */
  datatype View = View(center: Point, code: string, lowerLeft: Point, upperRight: Point, zoom: int, resolutions: seq<Json>)

  /**
   * The values of the map view, read in the source's order: center,
   * projection, the coordinate system check, each extent corner and its
   * transform, the zoom, the center's transform, the resolutions. An
   * unknown projection code fails before any point is read.
   */
  function ReadView(mapConfig: Json, geo: Reprojection): (r: Result<View>)
    ensures r.Ok? <==> MapViewReadable(mapConfig, geo)
    ensures CenterNodes(mapConfig).Ok? && Projection(mapConfig).Ok? && !geo.known(Projection(mapConfig).value) ==>
      r == Fail(UnknownCrs(Projection(mapConfig).value))
    ensures r.Ok? ==>
      var code := Projection(mapConfig).value;
      && r.value.code == code
      && r.value.lowerLeft == geo.toWgs84(code, Corner(Get(mapConfig, "extent"), "lowerLeft").value).value
      && r.value.upperRight == geo.toWgs84(code, Corner(Get(mapConfig, "extent"), "upperRight").value).value
      && r.value.center == geo.toWgs84(code, CenterPoint(CenterNodes(mapConfig).value).value).value
      && r.value.zoom == AsInt(Get(mapConfig, "zoom").value).value
      && r.value.resolutions == Resolutions(mapConfig).value
  {
    var center :- CenterNodes(mapConfig);
    var code :- Projection(mapConfig);
    if !geo.known(code) then Fail(UnknownCrs(code))
    else
      var ll :- Corner(Get(mapConfig, "extent"), "lowerLeft");
      var ll :- Transform(geo, code, ll);
      var ur :- Corner(Get(mapConfig, "extent"), "upperRight");
      var ur :- Transform(geo, code, ur);
      var zoom :- Required(Get(mapConfig, "zoom"), "zoom");
      var zoom :- AsInt(zoom);
      var c :- CenterPoint(center);
      var c :- Transform(geo, code, c);
      var resolutions :- Resolutions(mapConfig);
      Ok(View(c, code, ll, ur, zoom, resolutions))
  }

  /** The map view document: center and extent with latitude first, the projection code, the zoom and the resolutions. */
  function ViewNode(v: View): (r: Json)
    ensures Keys(r) == ["center", "projection", "extent", "zoom", "resolutions"]
    ensures Get(r, "center") == Some(JArr([DoubleNode(v.center.y), DoubleNode(v.center.x)]))
    ensures Get(r, "projection") == Some(JStr(v.code))
    ensures Get(r, "extent") == Some(JArr([DoubleNode(v.lowerLeft.y), DoubleNode(v.lowerLeft.x), DoubleNode(v.upperRight.y), DoubleNode(v.upperRight.x)]))
    ensures Get(r, "zoom") == Some(JNum(Int(v.zoom)))
    ensures Get(r, "resolutions") == Some(JArr(v.resolutions))
  {
    var fields := [
      Field("center", JArr([DoubleNode(v.center.y), DoubleNode(v.center.x)])),
      Field("projection", JStr(v.code)),
      Field("extent", JArr([DoubleNode(v.lowerLeft.y), DoubleNode(v.lowerLeft.x), DoubleNode(v.upperRight.y), DoubleNode(v.upperRight.x)])),
      Field("zoom", JNum(Int(v.zoom))),
      Field("resolutions", JArr(v.resolutions))
    ];
    LookupAt(fields, 1);
    LookupAt(fields, 2);
    LookupAt(fields, 3);
    LookupAt(fields, 4);
    JObj(fields)
  }

  /** The map view of the map module; a module without a map config is a null dereference. */
  function MapView(mapModule: Json, geo: Reprojection): (r: Result<Json>)
    ensures r.Ok? <==> Has(mapModule, "mapConfig") && MapViewReadable(Get(mapModule, "mapConfig").value, geo)
    ensures !Has(mapModule, "mapConfig") ==> r == Fail(NullPointer("mapConfig"))
    ensures r.Ok? ==> r.value == ViewNode(ReadView(Get(mapModule, "mapConfig").value, geo).value)
  {
    var mapConfig :- Required(Get(mapModule, "mapConfig"), "mapConfig");
    var view :- ReadView(mapConfig, geo);
    Ok(ViewNode(view))
  }

  /** The legal texts attached to every migrated application; each may be missing. */
  datatype Legal = Legal(contact: Option<string>, imprint: Option<string>, privacy: Option<string>)

  /** A legal text that is stored: present and not empty. */
  predicate Stored(text: Option<string>) {
    text.Some? && text.value != ""
  }

  /** The value a legal text is stored as: the text when it is stored, nothing otherwise. */
  function LegalText(text: Option<string>): Option<Json> {
    if Stored(text) then Some(JStr(text.value)) else None
  }

  /** The field for one legal text: the text under `key` when it is stored, no field otherwise. */
  function LegalEntry(key: string, text: Option<string>): (r: seq<Field>)
    ensures Keys(JObj(r)) == if Stored(text) then [key] else []
    ensures Lookup(r, key) == LegalText(text)
    ensures forall k :: k != key ==> Lookup(r, k).None?
  {
    if Stored(text) then [Field(key, JStr(text.value))] else []
  }

  /** The stored imprint and privacy texts as fields, in that order. */
  function LegalTail(l: Legal): (fs: seq<Field>)
    ensures Keys(JObj(fs)) == (if Stored(l.imprint) then ["imprint"] else []) + (if Stored(l.privacy) then ["privacy"] else [])
    ensures Lookup(fs, "contact").None?
    ensures Lookup(fs, "imprint") == LegalText(l.imprint)
    ensures Lookup(fs, "privacy") == LegalText(l.privacy)
  {
    var b := LegalEntry("imprint", l.imprint);
    var c := LegalEntry("privacy", l.privacy);
    LookupAppend(b, c, "contact");
    LookupAppend(b, c, "imprint");
    LookupAppend(b, c, "privacy");
    KeysAppend(b, c);
    b + c
  }

  /** The stored legal texts as fields, in the order contact, imprint, privacy. */
  function LegalFields(l: Legal): (fs: seq<Field>)
    ensures Keys(JObj(fs)) ==
      (if Stored(l.contact) then ["contact"] else [])
      + (if Stored(l.imprint) then ["imprint"] else [])
      + (if Stored(l.privacy) then ["privacy"] else [])
    ensures Lookup(fs, "contact") == LegalText(l.contact)
    ensures Lookup(fs, "imprint") == LegalText(l.imprint)
    ensures Lookup(fs, "privacy") == LegalText(l.privacy)
  {
    var a := LegalEntry("contact", l.contact);
    var bc := LegalTail(l);
    LookupAppend(a, bc, "contact");
    LookupAppend(a, bc, "imprint");
    LookupAppend(a, bc, "privacy");
    KeysAppend(a, bc);
    a + bc
  }

  /**
   * The legal node of the client config: attached when legal texts are
   * given and at least one of them is present (even if empty), holding only
   * the present, non-empty texts.
   */
  function LegalNode(legal: Option<Legal>): (r: Option<Json>)
    ensures r.Some? <==> legal.Some? && (legal.value.contact.Some? || legal.value.imprint.Some? || legal.value.privacy.Some?)
    ensures r.Some? ==> Get(r.value, "contact") == LegalText(legal.value.contact)
    ensures r.Some? ==> Get(r.value, "imprint") == LegalText(legal.value.imprint)
    ensures r.Some? ==> Get(r.value, "privacy") == LegalText(legal.value.privacy)
    ensures r.Some? ==>
      Keys(r.value) ==
        (if Stored(legal.value.contact) then ["contact"] else [])
        + (if Stored(legal.value.imprint) then ["imprint"] else [])
        + (if Stored(legal.value.privacy) then ["privacy"] else [])
  {
    match legal
    case None => None
    case Some(l) =>
      if l.contact.None? && l.imprint.None? && l.privacy.None? then None
      else Some(JObj(LegalFields(l)))
  }

  /** `Collections.reverse` of a list of names. */
  function Reversed(names: seq<string>): (r: seq<string>)
    ensures |r| == |names|
  {
    seq(|names|, i requires 0 <= i < |names| => names[|names| - 1 - i])
  }

  /** Reversing twice gives the list back. */
  lemma ReversedTwice(names: seq<string>)
    ensures Reversed(Reversed(names)) == names
  {
    var r := Reversed(names);
    assert forall i :: 0 <= i < |names| ==> Reversed(r)[i] == r[|r| - 1 - i] == names[i];
  }

  /** One entry of the feature info form: the attribute and the label shown for it. */
  function PropertyNode(name: string, display: string): (r: Json)
    ensures Keys(r) == ["propertyName", "displayName"]
    ensures Get(r, "propertyName") == Some(JStr(name))
    ensures Get(r, "displayName") == Some(JStr(display))
  {
    var fields := [Field("propertyName", JStr(name)), Field("displayName", JStr(display))];
    LookupAt(fields, 1);
    JObj(fields)
  }

  /** The form entries for `names`, in that order, each label `asText()` of the alias. */
  function Properties(aliases: Json, names: seq<string>): (r: Result<seq<Json>>)
    ensures r.Ok? <==> forall i :: 0 <= i < |names| ==> Has(aliases, names[i]) && AsText(Get(aliases, names[i]).value).Ok?
    ensures r.Ok? ==>
      && |r.value| == |names|
      && forall i :: 0 <= i < |names| ==> r.value[i] == PropertyNode(names[i], AsText(Get(aliases, names[i]).value).value)
    decreases |names|
  {
    if names == [] then Ok([])
    else
      var alias :- Required(Get(aliases, names[0]), names[0]);
      var display :- AsText(alias);
      var rest :- Properties(aliases, names[1..]);
      Ok([PropertyNode(names[0], display)] + rest)
  }

  /** The aliases that make a feature info form: present and not empty. */
  predicate HasAliases(node: Json) {
    Has(node, "columnAliasesDe") && !IsEmptyNode(Get(node, "columnAliasesDe").value)
  }

  /**
   * The feature info form: one group titled with the layer name whose
   * entries are the alias names in reverse order. A scalar alias node counts
   * as empty; a non-empty array has no field names and gives no entries.
   */
  function FeatureInfoFields(node: Json): (r: Result<seq<Field>>)
    ensures !HasAliases(node) ==> r == Ok([])
    ensures HasAliases(node) ==>
      var aliases := Get(node, "columnAliasesDe").value;
      r.Ok? <==>
        && Has(node, "name") && AsText(Get(node, "name").value).Ok?
        && Properties(aliases, Reversed(Keys(aliases))).Ok?
    ensures HasAliases(node) && r.Ok? ==>
      var aliases := Get(node, "columnAliasesDe").value;
      var group := JObj([
        Field("title", JStr(AsText(Get(node, "name").value).value)),
        Field("children", JArr(Properties(aliases, Reversed(Keys(aliases))).value))]);
      r.value == [Field("featureInfoFormConfig", JArr([group]))]
  {
    if !HasAliases(node) then Ok([])
    else
      var aliases := Get(node, "columnAliasesDe").value;
      var name :- Required(Get(node, "name"), "name");
      var title :- AsText(name);
      var children :- Properties(aliases, Reversed(Keys(aliases)));
      var group := JObj([Field("title", JStr(title)), Field("children", JArr(children))]);
      Ok([Field("featureInfoFormConfig", JArr([group]))])
  }

  /** The entries for the reversed names, read from the end, are the entries for the names in order. */
  lemma PropertiesReversed(aliases: Json, names: seq<string>)
    requires Properties(aliases, Reversed(names)).Ok?
    ensures
      var entries := Properties(aliases, Reversed(names)).value;
      && |entries| == |names|
      && (forall i :: 0 <= i < |names| ==>
            && Get(entries[|names| - 1 - i], "propertyName") == Some(JStr(names[i]))
            && Get(entries[|names| - 1 - i], "displayName") == Some(JStr(AsText(Get(aliases, names[i]).value).value)))
  {
    var rev := Reversed(names);
    var entries := Properties(aliases, rev).value;
    assert |entries| == |names|;
    forall i | 0 <= i < |names|
      ensures Get(entries[|names| - 1 - i], "propertyName") == Some(JStr(names[i]))
      ensures Get(entries[|names| - 1 - i], "displayName") == Some(JStr(AsText(Get(aliases, names[i]).value).value))
    {
      var j := |names| - 1 - i;
      assert rev[j] == names[i];
      PropertyEntryAt(aliases, rev, j);
    }
  }

  /** The `j`-th form entry names the `j`-th name and carries its alias text. */
  lemma PropertyEntryAt(aliases: Json, names: seq<string>, j: int)
    requires Properties(aliases, names).Ok? && 0 <= j < |names|
    ensures Get(Properties(aliases, names).value[j], "propertyName") == Some(JStr(names[j]))
    ensures Get(Properties(aliases, names).value[j], "displayName") == Some(JStr(AsText(Get(aliases, names[j]).value).value))
  {
    var e := Properties(aliases, names).value[j];
    assert e == PropertyNode(names[j], AsText(Get(aliases, names[j]).value).value);
  }

  /**
   * The form lists every alias once, last alias first, labelled with its
   * alias text; reading the entries from the end gives the alias names in
   * their order.
   */
  lemma FormListsAliasesReversed(node: Json)
    requires HasAliases(node) && FeatureInfoFields(node).Ok?
    ensures
      var aliases := Get(node, "columnAliasesDe").value;
      var names := Keys(aliases);
      var entries := Properties(aliases, Reversed(names)).value;
      && |entries| == |names|
      && (forall i :: 0 <= i < |names| ==>
            && Get(entries[|names| - 1 - i], "propertyName") == Some(JStr(names[i]))
            && Get(entries[|names| - 1 - i], "displayName") == Some(JStr(AsText(Get(aliases, names[i]).value).value)))
  {
    var aliases := Get(node, "columnAliasesDe").value;
    PropertiesReversed(aliases, Keys(aliases));
  }

  /** Every alias name is a field of the aliases, so the only way the form fails is an alias `asText()` cannot render. */
  lemma FormFailsOnlyOnText(node: Json)
    requires HasAliases(node) && Has(node, "name") && AsText(Get(node, "name").value).Ok?
    ensures
      var aliases := Get(node, "columnAliasesDe").value;
      var names := Keys(aliases);
      FeatureInfoFields(node).Fail? <==>
        exists i :: 0 <= i < |names| && Has(aliases, names[i]) && AsText(Get(aliases, names[i]).value).Fail?
  {
    var aliases := Get(node, "columnAliasesDe").value;
    var names := Keys(aliases);
    var rev := Reversed(names);
    forall k | k in names
      ensures Has(aliases, k)
    {
      HasIffKey(aliases, k);
    }
    if FeatureInfoFields(node).Fail? {
      var j :| 0 <= j < |rev| && !(Has(aliases, rev[j]) && AsText(Get(aliases, rev[j]).value).Ok?);
      assert rev[j] == names[|names| - 1 - j];
    } else {
      forall i | 0 <= i < |names|
        ensures Has(aliases, names[i]) && AsText(Get(aliases, names[i]).value).Ok?
      {
        assert rev[|names| - 1 - i] == names[i];
      }
    }
  }

  /** The `hoverable` flag of the appearance, required, as a boolean. */
  function HoverableField(node: Json): (r: Result<Field>)
    ensures r.Ok? <==> Has(node, "appearance") && Has(Get(node, "appearance").value, "hoverable")
    ensures r.Ok? ==> r.value == Field("hoverable", JBool(BooleanValue(Get(Get(node, "appearance").value, "hoverable").value)))
  {
    var appearance :- Required(Get(node, "appearance"), "appearance");
    var hoverable :- Required(Get(appearance, "hoverable"), "hoverable");
    Ok(Field("hoverable", JBool(BooleanValue(hoverable))))
  }

  /**
   * The client config of a layer: the resolution bounds, `hoverable`, the
   * feature info form when there are aliases, then the search flag and
   * configuration. Its fields are stated by `ClientConfigKeys`,
   * `ClientConfigFlags`, `ClientConfigBounds`,
   * `ClientConfigForm` and `ClientConfigSearch`.
   */
  function ClientConfig(node: Json): (r: Result<Json>)
    ensures r.Ok? <==>
      ResolutionFields(node).Ok? && HoverableField(node).Ok? && FeatureInfoFields(node).Ok? && SearchFields(node).Ok?
    ensures r.Ok? ==> r.value.JObj?
  {
    var bounds :- ResolutionFields(node);
    var hover :- HoverableField(node);
    var form :- FeatureInfoFields(node);
    var search :- SearchFields(node);
    Ok(JObj(bounds + [hover] + (form + search)))
  }

  /** The fields of a layer's client config, in order. */
  lemma ClientConfigKeys(node: Json)
    requires ClientConfig(node).Ok?
    ensures
      Keys(ClientConfig(node).value) ==
        ["minResolution", "maxResolution", "hoverable"]
        + ((if HasAliases(node) then ["featureInfoFormConfig"] else [])
           + (["searchable"] + (if Searchable(node) then ["searchConfig"] else [])))
  {
    var bounds := ResolutionFields(node).value;
    var head := bounds + [HoverableField(node).value];
    var form := FeatureInfoFields(node).value;
    var search := SearchFields(node).value;
    assert ClientConfig(node) == Ok(JObj(head + (form + search)));
    KeysAppend(head, form + search);
    KeysAppend(form, search);
    assert Keys(JObj(head)) == ["minResolution", "maxResolution", "hoverable"];
    assert Keys(JObj(form)) == if HasAliases(node) then ["featureInfoFormConfig"] else [];
    assert Keys(JObj(search)) == ["searchable"] + (if Searchable(node) then ["searchConfig"] else []);
  }

  /** The `hoverable` and `searchable` flags a layer's client config carries. */
  lemma ClientConfigFlags(node: Json)
    requires ClientConfig(node).Ok?
    ensures Get(ClientConfig(node).value, "hoverable") == Some(HoverableField(node).value.value)
    ensures Get(ClientConfig(node).value, "searchable") == Some(JBool(Searchable(node)))
  {
    var head := ResolutionFields(node).value + [HoverableField(node).value];
    var form := FeatureInfoFields(node).value;
    var search := SearchFields(node).value;
    assert ClientConfig(node) == Ok(JObj(head + (form + search)));
    LookupAppend(head, form + search, "hoverable");
    LookupAppend(head, form + search, "searchable");
    LookupAppend(form, search, "searchable");
    LookupAt(head, 2);
    LookupFound(head, "searchable");
    LookupFound(form, "searchable");
  }

  /** The resolution bounds a layer's client config stores, as text. */
  lemma ClientConfigBounds(node: Json)
    requires ClientConfig(node).Ok?
    ensures
      var config := ClientConfig(node).value;
      var appearance := Get(node, "appearance").value;
      && Get(config, "minResolution") == Some(StrOrNull(TextValue(Get(appearance, "minResolution").value)))
      && Get(config, "maxResolution") == Some(StrOrNull(TextValue(Get(appearance, "maxResolution").value)))
  {
    var bounds := ResolutionFields(node).value;
    var rest := [HoverableField(node).value] + (FeatureInfoFields(node).value + SearchFields(node).value);
    assert ClientConfig(node) == Ok(JObj(bounds + rest)) by {
      assert bounds + [HoverableField(node).value] + (FeatureInfoFields(node).value + SearchFields(node).value) == bounds + rest;
    }
    LookupAppend(bounds, rest, "minResolution");
    LookupAppend(bounds, rest, "maxResolution");
    LookupAt(bounds, 1);
  }

  /** The feature info form a layer's client config stores, exactly when the layer has aliases. */
  lemma ClientConfigForm(node: Json)
    requires ClientConfig(node).Ok?
    ensures HasAliases(node) ==> Get(ClientConfig(node).value, "featureInfoFormConfig") == Some(FeatureInfoFields(node).value[0].value)
    ensures !HasAliases(node) ==> Get(ClientConfig(node).value, "featureInfoFormConfig").None?
  {
    var head := ResolutionFields(node).value + [HoverableField(node).value];
    var form := FeatureInfoFields(node).value;
    var search := SearchFields(node).value;
    assert ClientConfig(node) == Ok(JObj(head + (form + search)));
    LookupAppend(head, form + search, "featureInfoFormConfig");
    LookupFound(head, "featureInfoFormConfig");
    LookupAppend(form, search, "featureInfoFormConfig");
    LookupFound(search, "featureInfoFormConfig");
  }

  /** The search configuration a layer's client config stores, exactly when the layer is searchable. */
  lemma ClientConfigSearch(node: Json)
    requires ClientConfig(node).Ok?
    ensures Searchable(node) ==> Get(ClientConfig(node).value, "searchConfig") == Some(SearchConfig(Get(node, "searchConfig").value).value)
    ensures !Searchable(node) ==> Get(ClientConfig(node).value, "searchConfig").None?
  {
    var head := ResolutionFields(node).value + [HoverableField(node).value] + FeatureInfoFields(node).value;
    var search := SearchFields(node).value;
    assert ClientConfig(node) == Ok(JObj(head + search)) by {
      assert head + search == ResolutionFields(node).value + [HoverableField(node).value] + (FeatureInfoFields(node).value + search);
    }
    LookupAppend(head, search, "searchConfig");
    LookupFound(head, "searchConfig");
    if Searchable(node) {
      LookupAt(search, 1);
    } else {
      LookupFound(search, "searchConfig");
    }
  }

  /** The legend URL, `asText()` of it, when the layer has one. */
  function LegendUrl(node: Json): (r: Result<Option<string>>)
    ensures r.Ok? <==> (Has(node, "legendUrl") ==> AsText(Get(node, "legendUrl").value).Ok?)
    ensures r.Ok? ==> (r.value.Some? <==> Has(node, "legendUrl"))
    ensures r.Ok? && r.value.Some? ==> r.value.value == AsText(Get(node, "legendUrl").value).value
  {
    match Get(node, "legendUrl")
    case None => Ok(None)
    case Some(legend) =>
      var text :- AsText(legend);
      Ok(Some(text))
  }

  /** The layer names: `layerNames`, else the WMTS layer, else empty; a non-text value is stored as `null`. */
  function LayerNames(source: Json): (r: Json)
    ensures Has(source, "layerNames") ==> r == StrOrNull(TextValue(Get(source, "layerNames").value))
    ensures !Has(source, "layerNames") && Has(source, "wmtsLayer") ==> r == StrOrNull(TextValue(Get(source, "wmtsLayer").value))
    ensures !Has(source, "layerNames") && !Has(source, "wmtsLayer") ==> r == JStr("")
  {
    match Get(source, "layerNames")
    case Some(names) => StrOrNull(TextValue(names))
    case None =>
      match Get(source, "wmtsLayer")
      case Some(layer) => StrOrNull(TextValue(layer))
      case None => JStr("")
  }

  /**
   * The URL of the layer's source after rewriting. A URL that is not text
   * (and is not rewritten) is Java's `null` at the `startsWith` call.
   */
  function SourceUrl(source: Json, rules: Option<string>): (r: Result<string>)
    ensures r.Ok? <==>
      && Has(source, "url")
      && UrlRules.Rewrite(TextValue(Get(source, "url").value), rules).Ok?
      && UrlRules.Rewrite(TextValue(Get(source, "url").value), rules).value.Some?
    ensures r.Ok? ==> Some(r.value) == UrlRules.Rewrite(TextValue(Get(source, "url").value), rules).value
    ensures r.Ok? && (rules.None? || !JavaText.Contains(rules.value, UrlRules.PairSeparator)) ==>
      Get(source, "url").value == JStr(r.value)
  {
    var url :- Required(Get(source, "url"), "url");
    var url :- UrlRules.Rewrite(TextValue(url), rules);
    if url.None? then Fail(NullPointer("url")) else Ok(url.value)
  }

  /** The leading fields of the source config: the attribution, then the legend URL when there is one. */
  function SourceHead(attribution: Json, legend: Option<string>): (fs: seq<Field>)
    ensures Keys(JObj(fs)) == ["attribution"] + (if legend.Some? then ["legendUrl"] else [])
    ensures Lookup(fs, "attribution") == Some(attribution)
    ensures legend.Some? ==> Lookup(fs, "legendUrl") == Some(JStr(legend.value))
    ensures Lookup(fs, "url").None? && Lookup(fs, "layerNames").None?
  {
    var first := [Field("attribution", attribution)];
    var second := if legend.Some? then [Field("legendUrl", JStr(legend.value))] else [];
    KeysAppend(first, second);
    assert Keys(JObj(first)) == ["attribution"];
    assert Keys(JObj(second)) == if legend.Some? then ["legendUrl"] else [];
    LookupAppend(first, second, "legendUrl");
    LookupFound(first + second, "url");
    LookupFound(first + second, "layerNames");
    first + second
  }

  /**
   * The source config document: the attribution, the legend URL when there
   * is one, the URL and the layer names, then the tile grid fields.
   */
  function SourceNode(attribution: Json, legend: Option<string>, url: string, names: Json, grid: seq<Field>): (r: Json)
    ensures Keys(r) == (["attribution"] + (if legend.Some? then ["legendUrl"] else [])) + (["url", "layerNames"] + Keys(JObj(grid)))
    ensures Get(r, "attribution") == Some(attribution)
    ensures legend.Some? ==> Get(r, "legendUrl") == Some(JStr(legend.value))
    ensures Get(r, "url") == Some(JStr(url))
    ensures Get(r, "layerNames") == Some(names)
  {
    var head := SourceHead(attribution, legend);
    var mid := [Field("url", JStr(url)), Field("layerNames", names)];
    KeysAppend(head, mid + grid);
    KeysAppend(mid, grid);
    assert Keys(JObj(mid)) == ["url", "layerNames"];
    LookupAppend(head, mid + grid, "attribution");
    LookupAppend(head, mid + grid, "legendUrl");
    LookupAppend(head, mid + grid, "url");
    LookupAppend(head, mid + grid, "layerNames");
    LookupAppend(mid, grid, "layerNames");
    LookupAt(mid, 1);
    JObj(head + (mid + grid))
  }

  /**
   * The source config of a layer: the attribution, the legend URL, the URL
   * after rewriting (an `http…` URL kept, any other replaced by the GeoServer
   * endpoint), the layer names and the tile grid fields.
   */
  function SourceConfig(node: Json, rules: Option<string>): (r: Result<Json>)
    ensures r.Ok? <==>
      && Has(node, "appearance") && Has(Get(node, "appearance").value, "attribution")
      && LegendUrl(node).Ok?
      && Has(node, "source")
      && SourceUrl(Get(node, "source").value, rules).Ok?
      && TileGridFields(Get(node, "source").value).Ok?
    ensures r.Ok? ==>
      var source := Get(node, "source").value;
      r.value == SourceNode(
        StrOrNull(TextValue(Get(Get(node, "appearance").value, "attribution").value)),
        LegendUrl(node).value,
        UrlRules.StoredUrl(SourceUrl(source, rules).value),
        LayerNames(source),
        TileGridFields(source).value)
  {
    var appearance :- Required(Get(node, "appearance"), "appearance");
    var attribution :- Required(Get(appearance, "attribution"), "attribution");
    var legend :- LegendUrl(node);
    var source :- Required(Get(node, "source"), "source");
    var url :- SourceUrl(source, rules);
    var grid :- TileGridFields(source);
    Ok(SourceNode(StrOrNull(TextValue(attribution)), legend, UrlRules.StoredUrl(url), LayerNames(source), grid))
  }

  /** The fields of a layer's source config, in order: the legend URL and the tile grid fields only when the layer has them. */
  lemma SourceConfigKeys(node: Json, rules: Option<string>)
    requires SourceConfig(node, rules).Ok?
    ensures
      Keys(SourceConfig(node, rules).value) ==
        (["attribution"] + (if Has(node, "legendUrl") then ["legendUrl"] else []))
        + (["url", "layerNames"] + (if Has(Get(node, "source").value, "tileGrid") then ["tileSize", "tileOrigin", "resolutions"] else []))
  {
    TileGridKeys(Get(node, "source").value);
  }

  /**
   * `migrateLayer`: `None` for a layer that is skipped; otherwise the name,
   * the mapped type, the client config and the source config.
   */
  function MigrateLayer(node: Json, rules: Option<string>): (r: Result<Option<Json>>)
    ensures r == Ok(None) <==> LayerHead(node) == Ok(None)
    ensures r.Fail? <==>
      LayerHead(node).Fail? || (LayerHead(node).value.Some? && (ClientConfig(node).Fail? || SourceConfig(node, rules).Fail?))
    ensures r.Ok? && r.value.Some? ==>
      r.value.value == LayerNode(LayerHead(node).value.value, ClientConfig(node).value, SourceConfig(node, rules).value)
  {
    var head :- LayerHead(node);
    match head
    case None => Ok(None)
    case Some(h) =>
      var client :- ClientConfig(node);
      var source :- SourceConfig(node, rules);
      Ok(Some(LayerNode(h, client, source)))
  }

  /** The migration of one layer under the given URL rules, as the layer loop uses it. */
  function LayerMigration(rules: Option<string>): LayerIds.Migration {
    node => MigrateLayer(node, rules)
  }

  /**
   * `migrateLayers`: every fetched layer is migrated under the URL rules,
   * the kept ones saved, and the returned map sends each kept layer's old id
   * to its new id. Making layers public is a call to the target and is left
   * to `save`.
   */
  method MigrateLayers(layers: Json, rules: Option<string>, save: LayerIds.Save) returns (r: Result<map<int, int>>)
    ensures r.Ok? <==>
      forall i :: 0 <= i < |Elements(layers)| ==> LayerIds.StepSucceeds(LayerMigration(rules), Elements(layers)[i])
    ensures r.Ok? ==> r.value.Keys == LayerIds.KeptIds(Elements(layers), |Elements(layers)|, LayerMigration(rules))
    ensures r.Ok? ==> LayerIds.SavedLast(Elements(layers), |Elements(layers)|, LayerMigration(rules), save, r.value)
  {
    r := LayerIds.CollectIds(layers, LayerMigration(rules), save);
  }

  /** The client config document of an application: the map view when there is one, then the legal node when there is one. */
  function AppConfigNode(view: Option<Json>, legal: Option<Json>): (r: Json)
    ensures Keys(r) == (if view.Some? then ["mapView"] else []) + (if legal.Some? then ["legal"] else [])
    ensures Get(r, "mapView") == view
    ensures Get(r, "legal") == legal
  {
    var viewField := match view case None => [] case Some(v) => [Field("mapView", v)];
    var legalField := match legal case None => [] case Some(l) => [Field("legal", l)];
    LookupAppend(viewField, legalField, "mapView");
    LookupAppend(viewField, legalField, "legal");
    LookupFound(viewField, "legal");
    LookupFound(legalField, "mapView");
    KeysAppend(viewField, legalField);
    JObj(viewField + legalField)
  }

  /** The client config of an application: the map view when the viewport holds a map module, then the legal texts. */
  function AppClientConfig(app: Json, legal: Option<Legal>, geo: Reprojection): (r: Result<Json>)
    ensures r.Ok? <==> (FindMapModule(Get(app, "viewport")).Some? ==> MapView(FindMapModule(Get(app, "viewport")).value, geo).Ok?)
    ensures r.Ok? ==>
      var mapModule := FindMapModule(Get(app, "viewport"));
      r.value == AppConfigNode(if mapModule.Some? then Some(MapView(mapModule.value, geo).value) else None, LegalNode(legal))
  {
    match FindMapModule(Get(app, "viewport"))
    case None => Ok(AppConfigNode(None, LegalNode(legal)))
    case Some(mapModule) =>
      var v :- MapView(mapModule, geo);
      Ok(AppConfigNode(Some(v), LegalNode(legal)))
  }

  /**
   * `migrateApplication`: the name, the layer tree (layer references given
   * as objects or as bare ids) and the client config. The name is read
   * first, then the map view, then the tree.
   */
  function MigrateApplication(app: Json, idMap: map<int, int>, legal: Option<Legal>, geo: Reprojection): (r: Result<Json>)
    ensures r.Ok? <==>
      && Has(app, "name") && AsText(Get(app, "name").value).Ok?
      && AppClientConfig(app, legal, geo).Ok?
      && Has(app, "layerTree")
      && LegacyTree.RefsReadable(LegacyTree.ObjectOrBareId, FieldValues(Get(app, "layerTree").value, "layer"))
    ensures !Has(app, "name") ==> r == Fail(NullPointer("name"))
    ensures r.Ok? ==>
      r.value == AppNode(
        AsText(Get(app, "name").value).value,
        LegacyTree.MigrateLayerTree(LegacyTree.ObjectOrBareId, Get(app, "layerTree"), idMap).value,
        AppClientConfig(app, legal, geo).value)
  {
    var name :- Required(Get(app, "name"), "name");
    var name :- AsText(name);
    var clientConfig :- AppClientConfig(app, legal, geo);
    var tree :- LegacyTree.MigrateLayerTree(LegacyTree.ObjectOrBareId, Get(app, "layerTree"), idMap);
    Ok(AppNode(name, tree, clientConfig))
  }

  /** `handlesSourceType`: the source type names this migrator, in any letter case. */
  function HandlesSourceType(sourceType: string): (r: bool)
    ensures r <==> JavaText.FoldAll(sourceType) == "shogun2"
  {
    JavaText.EqualsIgnoreCaseIsFoldEquality(sourceType, "shogun2");
    assert JavaText.FoldAll("shogun2") == "shogun2";
    JavaText.EqualsIgnoreCase(sourceType, "shogun2")
  }
}
