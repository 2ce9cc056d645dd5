# shogun-migrator: the document transformations, in Dafny

This project models the JSON-to-JSON core of the SHOGun migrator. The
migrator moves applications and layers from one SHOGun instance to another.
Three migrators are covered:

- `Migrator`, the original SHOGun 2 migrator (module `Migrator`);
- `Shogun2Migrator`, its successor with coordinate reprojection, URL rules,
  feature-info forms and legal texts (module `Shogun2Migrator`);
- `BootMigrator`, the Boot-to-Boot migrator that only rewrites layer ids in
  place (module `BootMigrator`).

Jackson's `JsonNode` becomes the `Json.Json` datatype, whose objects keep
their fields in insertion order. Each Jackson accessor the migrators use is
written out with its Java behaviour: `get`, `has`, `textValue`, `asText`,
`intValue` with 32-bit narrowing, `asInt`, `asDouble`, `doubleValue`,
`booleanValue`, `put`/`set`, `remove` and iteration. A Java exception
becomes a `Fail` of the `Result` datatype, naming what was thrown: a null
dereference, an index out of bounds, a failed cast, an unknown coordinate
system or a failed transform.

The shared legacy reading is in module `Legacy`: the type table, the
map-module search, projection codes, centers, corners, resolutions, search
configs and tile grids. The layer tree rewrite of both SHOGun 2 migrators is
in `LegacyTree`, and the `migrateLayers` loop of all three is in `LayerIds`.
Reference views of trees used in the proofs are in `Trees`: pre-order
listing, shape, and field values in pre-order. The URL rules are in
`UrlRules`, and the Java string operations they need are in `JavaText`.
`Comparison` relates the two SHOGun 2 migrators where their work overlaps.

Fetching from the source, saving to the target and making layers public are
parameters: `save` gives the new id of a saved document. The GeoTools
reprojection is the `Reprojection` parameter: which codes it knows, and the
transform to WGS 84 (`None` when it fails).

Some behaviours of the code that are easy to miss, and that the model
follows:

- A legal node is attached when any legal text is present, even if every
  text is empty. The node then holds no field.
- A source URL is kept as absolute when it `startsWith("http")`; any other
  URL is replaced by `/geoserver/ows`.
- The newer migrator always reprojects to EPSG:4326, even when the source
  projection is already EPSG:4326. The older one never reprojects.
- The older migrator stores no `zoom` and accepts only layer objects in the
  layer tree, not bare ids.
- The search config copies its texts with `textValue()`, so a non-text
  value is stored as `null`.
- A failing application or layer ends the whole batch: the loops in the
  source catch exceptions around the entire loop, not around one record.

## Model

| member | source | states |
|---|---|---|
| Json.AsText | src/main/java/de/terrestris/shogun/migrator/Migrator.java:77 | `asText()` returns a string node's text and succeeds on every node except a floating-point number, whose `Double.toString` is not modelled |
| JavaText.DecimalRoundTrip | src/main/java/de/terrestris/shogun/migrator/Migrator.java:77 | the decimal text `asText()` gives an integral number reads back as that number |
| Json.BooleanValue | src/main/java/de/terrestris/shogun/migrator/shogun2/Shogun2Migrator.java:192 | `booleanValue()` is true exactly for the boolean `true` node |
| Json.ToInt32 | src/main/java/de/terrestris/shogun/migrator/shogun2/Shogun2Migrator.java:67-69 | narrowing to `int` lands in the 32-bit range, agrees with the input modulo 2^32, and leaves in-range values alone |
| Json.DoubleToInt32 | src/main/java/de/terrestris/shogun/migrator/shogun2/Shogun2Migrator.java:67-69 | a floating-point `intValue()` rounds toward zero and saturates at the `int` bounds |
| Json.IntValue | src/main/java/de/terrestris/shogun/migrator/shogun2/Shogun2Migrator.java:67-69 | `intValue()` is always a 32-bit value, 0 for a non-number, and the number itself for an in-range integral number |
| Json.AsInt | src/main/java/de/terrestris/shogun/migrator/shogun2/BootMigrator.java:44 | `asInt()` equals `intValue()` on numbers and fails only on text, whose parsing is not modelled |
| Json.AsDouble | src/main/java/de/terrestris/shogun/migrator/Migrator.java:95-98 | `asDouble()` is a number's value and fails only on text |
| Json.DoubleValue | src/main/java/de/terrestris/shogun/migrator/Migrator.java:258-259 | `doubleValue()` is the number's value, 0.0 for a non-number |
| Json.TextValue | src/main/java/de/terrestris/shogun/migrator/Migrator.java:227-228 | `textValue()` is present exactly for string nodes |
| Json.Elements | src/main/java/de/terrestris/shogun/migrator/Migrator.java:66-68 | a Java `for` over a node visits an array's items or an object's values in order, and nothing for a scalar |
| Json.Required | src/main/java/de/terrestris/shogun/migrator/Migrator.java:77 | calling a method on a missing field's `null` throws a null dereference naming the field; a present field is passed on unchanged |
| JavaText.IndexOf | src/main/java/de/terrestris/shogun/migrator/shogun2/Shogun2Migrator.java:244-247 | `indexOf` from a position gives the first occurrence at or after it, or -1 exactly when there is none |
| Json.HasIffKey | src/main/java/de/terrestris/shogun/migrator/shogun2/Shogun2Migrator.java:204-210 | `has(k)` holds exactly when `k` is among the object's field names |
| Json.Put | src/main/java/de/terrestris/shogun/migrator/shogun2/BootMigrator.java:26 | `put` stores the value under the key, changes no other key, keeps the key's position when present and appends it otherwise |
| Json.Remove | src/main/java/de/terrestris/shogun/migrator/shogun2/BootMigrator.java:37 | after `remove` the key is gone, and every other key keeps its value and its place in the key order |
| Json.WithElements | src/main/java/de/terrestris/shogun/migrator/shogun2/BootMigrator.java:29-31 | a container whose elements were rewritten in place has the new elements and the same kind and keys |
| JavaText.SplitAll | src/main/java/de/terrestris/shogun/migrator/shogun2/Shogun2Migrator.java:244-247 | cutting at every separator keeps every piece: joining the pieces with the separator gives the input back |
| JavaText.SplitAllLeftmost | src/main/java/de/terrestris/shogun/migrator/shogun2/Shogun2Migrator.java:244-247 | every cut is at the leftmost occurrence: no occurrence of the separator starts inside any piece, at the piece's place in the input |
| JavaText.SplitAllPieces | src/main/java/de/terrestris/shogun/migrator/shogun2/Shogun2Migrator.java:244-247 | no piece holds the separator, and there is more than one piece exactly when the separator occurs |
| JavaText.DropTrailingEmpty | src/main/java/de/terrestris/shogun/migrator/shogun2/Shogun2Migrator.java:244-247 | the result is a prefix of the input, everything dropped is empty, and the last kept piece is not empty |
| JavaText.Split | src/main/java/de/terrestris/shogun/migrator/shogun2/Shogun2Migrator.java:244-247 | `split` returns the input alone when the separator is absent, and otherwise the full cut without its trailing empty strings; no part holds the separator |
| JavaText.EqualsIgnoreCaseIsFoldEquality | src/main/java/de/terrestris/shogun/migrator/shogun2/Shogun2Migrator.java:380 | `equalsIgnoreCase` holds exactly when both strings case-fold to the same string |
| Trees.Resolve | src/main/java/de/terrestris/shogun/migrator/Migrator.java:61 | `idMap.get` gives the mapped new id, or `null` for an unmapped old id |
| UrlRules.FirstDecidingRule | src/main/java/de/terrestris/shogun/migrator/shogun2/Shogun2Migrator.java:243-254 | the rule loop's outcome is that of the first rule whose first part is missing or equals the URL |
| UrlRules.NoDecidingRule | src/main/java/de/terrestris/shogun/migrator/shogun2/Shogun2Migrator.java:243-254 | when no rule matches, the URL is kept |
| UrlRules.Rewrite | src/main/java/de/terrestris/shogun/migrator/shogun2/Shogun2Migrator.java:241-254 | without rules holding `::` the URL is kept; a changed URL is the second part of a rule and holds no `::`; a missing URL is never rewritten |
| UrlRules.RewriteKeepsOrCutsPart | src/main/java/de/terrestris/shogun/migrator/shogun2/Shogun2Migrator.java:246-250 | a rewritten URL is a `::`-free rule part, and a missing URL stays missing |
| UrlRules.RewriteWith | src/main/java/de/terrestris/shogun/migrator/shogun2/Shogun2Migrator.java:245-253 | the rule loop fails only on a missing first or second part; a URL it changes is the second part of some rule |
| UrlRules.StoredUrl | src/main/java/de/terrestris/shogun/migrator/shogun2/Shogun2Migrator.java:256-260 | an `http…` URL is stored as is and any other becomes `/geoserver/ows` |
| UrlRules.StoredUrlIdempotent | src/main/java/de/terrestris/shogun/migrator/shogun2/Shogun2Migrator.java:256-260 | storing a stored URL again changes nothing |
| LayerIds.FailureSticks | src/main/java/de/terrestris/shogun/migrator/shogun2/Shogun2Migrator.java:332-354 | once a layer's step throws, later layers change nothing: the loop's outcome is that failure |
| LayerIds.IdMapSucceedsIff | src/main/java/de/terrestris/shogun/migrator/Migrator.java:187-198 | the loop completes exactly when every layer migrates and every kept layer has an `id` |
| LayerIds.IdMapKeys | src/main/java/de/terrestris/shogun/migrator/Migrator.java:187-198 | the map's keys are exactly the old ids of the kept layers; skipped layers contribute nothing |
| LayerIds.IdMapValues | src/main/java/de/terrestris/shogun/migrator/Migrator.java:193-194 | each old id maps to the id returned when saving the last kept layer with that old id |
| LayerIds.CollectIds | src/main/java/de/terrestris/shogun/migrator/Migrator.java:181-200 | the loop computes that map: it succeeds iff every step does, its keys are the kept old ids, and each value is the last save for that id |
| Legacy.MapType | src/main/java/de/terrestris/shogun/migrator/shogun2/Shogun2Migrator.java:171-185 | a legacy type is mapped to the target type whose legacy names include it, and a type no target lists is not mapped |
| Legacy.MapTypeFixedPoints | src/main/java/de/terrestris/shogun/migrator/Migrator.java:211-217 | the target names of WMTS, WFS and XYZ map back to themselves, and the other target names are not legacy types |
| Legacy.FirstMapModule | src/main/java/de/terrestris/shogun/migrator/Migrator.java:42-52 | the result is a map module taken from the list, and there is none only when no node of the list is a map module |
| Legacy.FindMapModule | src/main/java/de/terrestris/shogun/migrator/Migrator.java:38-54 | `findMapModule` of `null` is `null`; otherwise it is the first map module in the pre-order listing of the module tree |
| Legacy.FindInIsFirstInPreOrder | src/main/java/de/terrestris/shogun/migrator/shogun2/Shogun2Migrator.java:41-57 | the recursive search with its early return equals first-match over the pre-order listing |
| Legacy.FindFirstIsFirstInPreOrder | src/main/java/de/terrestris/shogun/migrator/shogun2/Shogun2Migrator.java:48-55 | the loop over sub-modules returns the first hit in the pre-order listing of the siblings |
| Legacy.NormalizeProjection | src/main/java/de/terrestris/shogun/migrator/Migrator.java:100-101 | the code always starts with `EPSG:`, and the input is kept exactly when it already does |
| Legacy.NormalizeProjectionIdempotent | src/main/java/de/terrestris/shogun/migrator/shogun2/Shogun2Migrator.java:106-107 | normalising a normalised code changes nothing |
| Legacy.NormalizeProjectionBareOrPrefixed | src/main/java/de/terrestris/shogun/migrator/Migrator.java:101 | a bare code and its `EPSG:` form normalise alike |
| Legacy.CenterNodes | src/main/java/de/terrestris/shogun/migrator/Migrator.java:84-91 | an array center gives its first two items as doubles; an object center gives its `x` and `y` nodes as they are, with `null` for a missing one |
| Legacy.Corner | src/main/java/de/terrestris/shogun/migrator/Migrator.java:94-98 | a corner is read exactly when the extent, the corner and both ordinates are present and readable as doubles |
| Legacy.Projection | src/main/java/de/terrestris/shogun/migrator/shogun2/Shogun2Migrator.java:106-107 | the projection is required and readable as text, and the stored code is its normalised form |
| Legacy.Resolutions | src/main/java/de/terrestris/shogun/migrator/Migrator.java:102-107 | the resolutions are required; the result has one double per given entry, in order |
| Legacy.ResolutionFields | src/main/java/de/terrestris/shogun/migrator/Migrator.java:226-228 | both resolution bounds are required and stored as their text (`null` if not text) |
| Legacy.AsDoubles | src/main/java/de/terrestris/shogun/migrator/shogun2/Shogun2Migrator.java:136-140 | every node is coerced in order, and the whole fails exactly when one node cannot be |
| Legacy.TextNodes | src/main/java/de/terrestris/shogun/migrator/Migrator.java:241 | the attributes become their texts, one for one, in order |
| Legacy.SearchConfig | src/main/java/de/terrestris/shogun/migrator/Migrator.java:232-242 | template and attributes are required; the icon is stored exactly when given; each is its text |
| Legacy.SearchFields | src/main/java/de/terrestris/shogun/migrator/Migrator.java:229-245 | only a boolean `true` makes a layer searchable and requires a search config; anything else stores `searchable: false` alone |
| Legacy.DoubleNodes | src/main/java/de/terrestris/shogun/migrator/Migrator.java:263 | the tile grid resolutions become their `doubleValue()`s, in order |
| Legacy.GridFields | src/main/java/de/terrestris/shogun/migrator/Migrator.java:255-264 | tile size, origin and resolutions are required; the size is an `int` and the origin `[x, y]` doubles |
| Legacy.TileGridFields | src/main/java/de/terrestris/shogun/migrator/shogun2/Shogun2Migrator.java:274-286 | no tile grid gives no fields; otherwise the grid's fields |
| Legacy.TileGridKeys | src/main/java/de/terrestris/shogun/migrator/Migrator.java:253-265 | the grid adds `tileSize`, `tileOrigin`, `resolutions` in that order, or nothing |
| Legacy.LayerHead | src/main/java/de/terrestris/shogun/migrator/Migrator.java:272-283 | name and source are required; a layer without a type or with an unknown one is skipped; a non-text type throws; otherwise the mapped type |
| Legacy.LayerNode | src/main/java/de/terrestris/shogun/migrator/shogun2/Shogun2Migrator.java:293-313 | a layer document has exactly `name`, `type`, `clientConfig`, `sourceConfig`, in that order, with the given values |
| Legacy.AppNode | src/main/java/de/terrestris/shogun/migrator/Migrator.java:77-112 | an application document has exactly `name`, `layerTree`, `clientConfig`, in that order |
| LegacyTree.LayerRefId | src/main/java/de/terrestris/shogun/migrator/shogun2/Shogun2Migrator.java:63-70 | a layer object needs an `id`; a bare id is read only in the newer form; the id is a 32-bit `intValue()` |
| LegacyTree.Folder | src/main/java/de/terrestris/shogun/migrator/Migrator.java:57-70 | a folder's keys are `checked`, `title`, then `layerId` and `children` exactly when given, in that order; `title` is the old `text` |
| LegacyTree.MigrateNode | src/main/java/de/terrestris/shogun/migrator/shogun2/Shogun2Migrator.java:59-81 | the only failure is a `null` dereference of an `id`; a migrated node is the folder of the old one |
| LegacyTree.MigrateNodes | src/main/java/de/terrestris/shogun/migrator/Migrator.java:66-68 | the only failure is a `null` dereference of an `id`; the loop gives one node per child |
| LegacyTree.MigratedFolder | src/main/java/de/terrestris/shogun/migrator/Migrator.java:56-71 | a migrated node is the folder of the old node: keys `checked`, `title`, then `layerId` iff `layer` was present and `children` iff `children` was |
| LegacyTree.MigratedKids | src/main/java/de/terrestris/shogun/migrator/Migrator.java:63-69 | the migrated node's children are the old children migrated |
| LegacyTree.PreOrderCorresponds | src/main/java/de/terrestris/shogun/migrator/Migrator.java:56-71 | in pre-order, the new tree and the old tree have the same number of nodes, and each folder is made of the old node at the same position |
| LegacyTree.PreOrderAllCorresponds | src/main/java/de/terrestris/shogun/migrator/Migrator.java:66-68 | the same node-by-node correspondence holds for a list of sibling subtrees |
| LegacyTree.ShapePreserved | src/main/java/de/terrestris/shogun/migrator/Migrator.java:63-69 | the new tree nests exactly like the old one; a leaf gets no child list |
| LegacyTree.ShapesPreserved | src/main/java/de/terrestris/shogun/migrator/Migrator.java:66-68 | siblings keep their shapes, in order |
| LegacyTree.LayerIdsResolved | src/main/java/de/terrestris/shogun/migrator/shogun2/Shogun2Migrator.java:63-72 | the new tree's `layerId`s in pre-order are the old `layer` references resolved one by one |
| LegacyTree.LayerIdsAllResolved | src/main/java/de/terrestris/shogun/migrator/shogun2/Shogun2Migrator.java:76-78 | the same holds across a list of sibling subtrees |
| LegacyTree.NoFabricatedIds | src/main/java/de/terrestris/shogun/migrator/Migrator.java:61 | every `layerId` is `null` or a new id of the map |
| LegacyTree.MigrateNodeOk | src/main/java/de/terrestris/shogun/migrator/Migrator.java:60-69 | one node migrates exactly when its own reference reads and all its children migrate |
| LegacyTree.MigrateSucceedsIff | src/main/java/de/terrestris/shogun/migrator/shogun2/Shogun2Migrator.java:59-81 | the rewrite fails exactly when some `layer` reference in the tree cannot be read |
| LegacyTree.MigrateAllSucceedsIff | src/main/java/de/terrestris/shogun/migrator/shogun2/Shogun2Migrator.java:76-78 | a list of siblings migrates exactly when all their references can be read |
| LegacyTree.RefsReadableAppend | src/main/java/de/terrestris/shogun/migrator/shogun2/Shogun2Migrator.java:63-70 | the references of two lists can all be read exactly when those of each list can |
| LegacyTree.MigrateLayerTree | src/main/java/de/terrestris/shogun/migrator/shogun2/Shogun2Migrator.java:163-164 | a missing tree is a null dereference; a migrated tree corresponds node by node, keeps its shape, resolves every reference and invents no id |
| LegacyTree.BareIdOnlyInCurrentForm | src/main/java/de/terrestris/shogun/migrator/Migrator.java:61 | a bare-id reference fails in the older migrator and resolves in the newer one |
| LegacyTree.OlderFormAgrees | src/main/java/de/terrestris/shogun/migrator/shogun2/Shogun2Migrator.java:63-70 | wherever the older migrator's rewrite succeeds, the newer one builds the same tree |
| LegacyTree.OlderFormsAgree | src/main/java/de/terrestris/shogun/migrator/shogun2/Shogun2Migrator.java:76-78 | the same holds for a list of sibling subtrees |
| Migrator.ClientConfig | src/main/java/de/terrestris/shogun/migrator/Migrator.java:224-246 | the client config exists exactly when both bounds are present and a searchable layer has a valid search config; its keys are the bounds, `searchable`, and `searchConfig` only for a searchable layer |
| Migrator.ClientConfigValues | src/main/java/de/terrestris/shogun/migrator/Migrator.java:227-242 | the bounds are stored as text, `searchable` as the flag, and the search config as migrated |
| Migrator.SourceConfig | src/main/java/de/terrestris/shogun/migrator/Migrator.java:248-266 | the source config exists exactly when source, URL and layer names are present and the tile grid is complete; its keys are `url`, `layerNames` and the grid fields |
| Migrator.SourceConfigValues | src/main/java/de/terrestris/shogun/migrator/Migrator.java:251-264 | URL and layer names are copied as text; with a tile grid, its size, origin (`doubleValue` of `x` and `y`) and resolutions are stored |
| Migrator.MigrateLayer | src/main/java/de/terrestris/shogun/migrator/Migrator.java:268-297 | a layer is skipped exactly when the type check skips it; it fails exactly when a required part is missing; otherwise it is the layer document of name, type and both configs |
| Migrator.ViewNode | src/main/java/de/terrestris/shogun/migrator/Migrator.java:92-108 | the map view holds `center`, `mapExtent` as `[minX, minY, maxX, maxY]`, `projection` and `resolutions`, in that order |
| Migrator.MapView | src/main/java/de/terrestris/shogun/migrator/Migrator.java:81-108 | the view is built exactly when the map config and all its parts can be read; a missing map config is a null dereference |
| Migrator.AppClientConfig | src/main/java/de/terrestris/shogun/migrator/Migrator.java:79-109 | without a map module the client config is empty; with one, it holds just the map view |
| Migrator.MigrateApplication | src/main/java/de/terrestris/shogun/migrator/Migrator.java:73-116 | the application migrates exactly when its name, map view and layer tree do; a missing name is a null dereference; the document is name, migrated tree and client config |
| Migrator.MigrateLayers | src/main/java/de/terrestris/shogun/migrator/Migrator.java:181-200 | the loop succeeds iff every layer's step does; the map's keys are the kept layers' old ids, each mapped to the last save |
| Shogun2Migrator.Transform | src/main/java/de/terrestris/shogun/migrator/shogun2/Shogun2Migrator.java:111-116 | a point transforms exactly when the reprojection gives a result, and the result is that point |
| Shogun2Migrator.CenterPoint | src/main/java/de/terrestris/shogun/migrator/shogun2/Shogun2Migrator.java:130 | the center is read back with `asDouble()` from the array built for it |
| Shogun2Migrator.ReadView | src/main/java/de/terrestris/shogun/migrator/shogun2/Shogun2Migrator.java:93-141 | the view reads exactly when every step does; with a readable center, an unknown code fails as an unknown CRS; corners and center are the reprojected points, zoom is `asInt()` |
| Shogun2Migrator.ViewNode | src/main/java/de/terrestris/shogun/migrator/shogun2/Shogun2Migrator.java:102-141 | the map view holds `center` and `extent` latitude first, then `projection`, `zoom` and `resolutions`, in the source's key order |
| Shogun2Migrator.MapView | src/main/java/de/terrestris/shogun/migrator/shogun2/Shogun2Migrator.java:91-142 | the view is built exactly when the map config is present and readable; a missing map config is a null dereference |
| Shogun2Migrator.LegalNode | src/main/java/de/terrestris/shogun/migrator/shogun2/Shogun2Migrator.java:144-162 | a legal node exists iff legal texts are given with one present; its keys are exactly `contact`, `imprint`, `privacy` in that order, each present iff its text is present and not empty, and each holds its text |
| Shogun2Migrator.Reversed | src/main/java/de/terrestris/shogun/migrator/shogun2/Shogun2Migrator.java:205 | reversing keeps the length |
| Shogun2Migrator.ReversedTwice | src/main/java/de/terrestris/shogun/migrator/shogun2/Shogun2Migrator.java:205 | reversing twice gives the names back |
| Shogun2Migrator.PropertyNode | src/main/java/de/terrestris/shogun/migrator/shogun2/Shogun2Migrator.java:208-211 | a form entry holds `propertyName` then `displayName` |
| Shogun2Migrator.Properties | src/main/java/de/terrestris/shogun/migrator/shogun2/Shogun2Migrator.java:207-212 | one entry per name, in order, labelled with its alias text; fails exactly when an alias is missing or unreadable |
| Shogun2Migrator.FeatureInfoFields | src/main/java/de/terrestris/shogun/migrator/shogun2/Shogun2Migrator.java:193-213 | without aliases there is no form; with aliases, one group titled with the layer name holding the entries in reversed name order |
| Shogun2Migrator.PropertiesReversed | src/main/java/de/terrestris/shogun/migrator/shogun2/Shogun2Migrator.java:203-212 | read from the end, the entries for the reversed names are the names in order with their labels |
| Shogun2Migrator.FormListsAliasesReversed | src/main/java/de/terrestris/shogun/migrator/shogun2/Shogun2Migrator.java:193-213 | the form lists every alias once, last first, labelled with its alias text |
| Shogun2Migrator.FormFailsOnlyOnText | src/main/java/de/terrestris/shogun/migrator/shogun2/Shogun2Migrator.java:204-210 | with a readable name, the form fails exactly when some alias's text cannot be rendered |
| Shogun2Migrator.HoverableField | src/main/java/de/terrestris/shogun/migrator/shogun2/Shogun2Migrator.java:192 | `hoverable` is required and stored as its `booleanValue()` |
| Shogun2Migrator.ClientConfig | src/main/java/de/terrestris/shogun/migrator/shogun2/Shogun2Migrator.java:187-231 | the client config exists exactly when bounds, hoverable flag, form and search config all do |
| Shogun2Migrator.ClientConfigKeys | src/main/java/de/terrestris/shogun/migrator/shogun2/Shogun2Migrator.java:187-231 | its keys are the bounds, `hoverable`, the form only with aliases, `searchable`, and `searchConfig` only when searchable |
| Shogun2Migrator.ClientConfigFlags | src/main/java/de/terrestris/shogun/migrator/shogun2/Shogun2Migrator.java:192-230 | it stores the hoverable flag and whether the layer is searchable |
| Shogun2Migrator.ClientConfigBounds | src/main/java/de/terrestris/shogun/migrator/shogun2/Shogun2Migrator.java:190-191 | `minResolution` and `maxResolution` are the appearance's `textValue()`s, `null` for non-text |
| Shogun2Migrator.ClientConfigForm | src/main/java/de/terrestris/shogun/migrator/shogun2/Shogun2Migrator.java:193-213 | the feature info form is stored exactly when the layer has non-empty aliases, and is the group built from them |
| Shogun2Migrator.ClientConfigSearch | src/main/java/de/terrestris/shogun/migrator/shogun2/Shogun2Migrator.java:214-230 | `searchConfig` is stored exactly when the layer is searchable, and is the migrated search config |
| Shogun2Migrator.LegendUrl | src/main/java/de/terrestris/shogun/migrator/shogun2/Shogun2Migrator.java:235-238 | a legend URL is stored exactly when present, as its text |
| Shogun2Migrator.LayerNames | src/main/java/de/terrestris/shogun/migrator/shogun2/Shogun2Migrator.java:261-273 | `layerNames`, else the WMTS layer, else the empty string |
| Shogun2Migrator.SourceUrl | src/main/java/de/terrestris/shogun/migrator/shogun2/Shogun2Migrator.java:241-254 | the URL is required, rewritten by the rules, and must be text; without applicable rules it is the given text |
| Shogun2Migrator.SourceNode | src/main/java/de/terrestris/shogun/migrator/shogun2/Shogun2Migrator.java:233-287 | a source config holds `attribution`, the optional `legendUrl`, `url`, `layerNames`, then the grid fields |
| Shogun2Migrator.SourceConfig | src/main/java/de/terrestris/shogun/migrator/shogun2/Shogun2Migrator.java:233-287 | the source config exists exactly when attribution, legend, source, URL and grid read; it stores the rewritten URL or the fallback |
| Shogun2Migrator.SourceConfigKeys | src/main/java/de/terrestris/shogun/migrator/shogun2/Shogun2Migrator.java:233-287 | its keys in order, with `legendUrl` and the grid fields only when the layer has them |
| Shogun2Migrator.MigrateLayer | src/main/java/de/terrestris/shogun/migrator/shogun2/Shogun2Migrator.java:289-318 | a layer is skipped exactly when the type check skips it; it fails exactly when a required part is missing; otherwise it is the layer document |
| Shogun2Migrator.MigrateLayers | src/main/java/de/terrestris/shogun/migrator/shogun2/Shogun2Migrator.java:327-355 | the loop succeeds iff every layer's step does; the map's keys are the kept old ids, each mapped to the last save |
| Shogun2Migrator.AppConfigNode | src/main/java/de/terrestris/shogun/migrator/shogun2/Shogun2Migrator.java:142-160 | an application client config holds `mapView` then `legal`, each exactly when given |
| Shogun2Migrator.AppClientConfig | src/main/java/de/terrestris/shogun/migrator/shogun2/Shogun2Migrator.java:89-162 | it is built exactly when a found map module's view is; it holds that view and the legal node |
| Shogun2Migrator.MigrateApplication | src/main/java/de/terrestris/shogun/migrator/shogun2/Shogun2Migrator.java:83-169 | the application migrates exactly when name, client config and layer tree do; a missing name is a null dereference; the document is name, tree, client config |
| Shogun2Migrator.HandlesSourceType | src/main/java/de/terrestris/shogun/migrator/shogun2/Shogun2Migrator.java:378-381 | the migrator handles exactly the source types that case-fold to `shogun2` |
| BootMigrator.MigrateNode | src/main/java/de/terrestris/shogun/migrator/shogun2/BootMigrator.java:24-33 | a non-object node fails the cast, the cast is the only failure, and a rewritten node keeps its keys in order |
| BootMigrator.MigrateNodes | src/main/java/de/terrestris/shogun/migrator/shogun2/BootMigrator.java:29-31 | the loop rewrites one node per child |
| BootMigrator.RewrittenInPlace | src/main/java/de/terrestris/shogun/migrator/shogun2/BootMigrator.java:24-33 | a rewritten node has the same keys in order, all other fields untouched, `layerId` remapped and children rewritten in place |
| BootMigrator.PreOrderInPlace | src/main/java/de/terrestris/shogun/migrator/shogun2/BootMigrator.java:24-33 | in pre-order, every node of the rewritten tree, at any depth, is the old node at the same position with only `layerId` remapped and children rewritten |
| BootMigrator.PreOrderAllInPlace | src/main/java/de/terrestris/shogun/migrator/shogun2/BootMigrator.java:28-32 | the same in-place correspondence holds for a list of sibling subtrees |
| BootMigrator.MigrateSucceedsIff | src/main/java/de/terrestris/shogun/migrator/shogun2/BootMigrator.java:24-33 | the rewrite succeeds exactly when every node of the tree is an object |
| BootMigrator.MigrateAllSucceedsIff | src/main/java/de/terrestris/shogun/migrator/shogun2/BootMigrator.java:29-31 | siblings rewrite exactly when every node under them is an object |
| BootMigrator.AllObjectsAppend | src/main/java/de/terrestris/shogun/migrator/shogun2/BootMigrator.java:30 | the casts succeed on two lists exactly when they succeed on each |
| BootMigrator.ShapeKept | src/main/java/de/terrestris/shogun/migrator/shogun2/BootMigrator.java:24-33 | the rewritten tree nests exactly like the old one |
| BootMigrator.ShapesKept | src/main/java/de/terrestris/shogun/migrator/shogun2/BootMigrator.java:28-32 | siblings keep their shapes, in order |
| BootMigrator.LayerIdsRemapped | src/main/java/de/terrestris/shogun/migrator/shogun2/BootMigrator.java:25-27 | the tree's `layerId`s in pre-order are the old ones mapped one by one |
| BootMigrator.LayerIdsAllRemapped | src/main/java/de/terrestris/shogun/migrator/shogun2/BootMigrator.java:28-32 | the same holds across a list of sibling subtrees |
| BootMigrator.BackgroundIds | src/main/java/de/terrestris/shogun/migrator/shogun2/BootMigrator.java:42-45 | the background layers are remapped one by one, in order, and fail exactly when one cannot be read with `asInt()` |
| BootMigrator.ClientConfig | src/main/java/de/terrestris/shogun/migrator/shogun2/BootMigrator.java:40-47 | without background layers the config is unchanged; with them, only `backgroundLayers` changes, in place |
| BootMigrator.Rewritten | src/main/java/de/terrestris/shogun/migrator/shogun2/BootMigrator.java:37-51 | the saved document has no `id`, the new client config and tree, and every other field as it was; its keys are the old ones in their order without `id` |
| BootMigrator.MigrateApplication | src/main/java/de/terrestris/shogun/migrator/shogun2/BootMigrator.java:35-52 | a non-object fails the cast; missing name or client config is a null dereference; success iff the config and tree rewrite; the result is the rewritten document, whose keys are the old ones in their order without `id` |
| BootMigrator.MigrateLayer | src/main/java/de/terrestris/shogun/migrator/shogun2/BootMigrator.java:67-71 | a layer needs an `id`; it is saved without its `id`, every other key keeping its value and its place in the order |
| BootMigrator.MigrateLayers | src/main/java/de/terrestris/shogun/migrator/shogun2/BootMigrator.java:61-85 | the loop succeeds iff every layer has an `id`; the map's keys are all old ids, each mapped to the last save |
| BootMigrator.HandlesSourceType | src/main/java/de/terrestris/shogun/migrator/shogun2/BootMigrator.java:103-106 | the migrator handles exactly the source types that case-fold to `boot` |
| Comparison.NewerViewImpliesOlder | src/main/java/de/terrestris/shogun/migrator/shogun2/Shogun2Migrator.java:91-141 | where the newer migrator builds a map view, the older one does too, with the same projection and resolutions |
| Comparison.ExtentAxesSwapped | src/main/java/de/terrestris/shogun/migrator/shogun2/Shogun2Migrator.java:113-125 | with a reprojection that moves nothing, the newer extent is the older one with each corner's axes swapped |
| Comparison.SameLayersSkipped | src/main/java/de/terrestris/shogun/migrator/Migrator.java:272-282 | both migrators skip exactly the same layers |
| Comparison.SourceUrlsAgree | src/main/java/de/terrestris/shogun/migrator/shogun2/Shogun2Migrator.java:241-260 | without rules the newer migrator needs a text URL, stores the older one's URL when it starts with `http`, and the fallback otherwise |

## Left out

- HTTP: fetching, saving, authentication and making layers public are calls to other systems. They appear only as the `save` parameter.
- Serialising documents to bytes, and logging, are not modelled.
- GeoTools: `CRS.decode` and the transform are the `Reprojection` parameter. Which codes exist and where points land are not modelled.
- `migrateApplications` in each migrator is not modelled. It is a loop of `migrateApplication` and a save, whose failure ends the batch.
- The post-processors, the `ShogunMigrator` interface's service discovery, `initialize`, `ApiUtil`, `Theme` and the command line are not modelled.
- Json.AsText: `Double.toString` is not modelled, so `asText()` of a floating-point number is a `NotModelled` failure rather than a text.
- Json.AsInt: parsing a number out of text is not modelled, so `asInt()` of a text node is a `NotModelled` failure.
- Json.AsDouble: parsing a number out of text is not modelled, so `asDouble()` of a text node is a `NotModelled` failure.
- Json.NumberValue: numbers are exact reals, so rounding to a 64-bit `double` is not modelled.
- Shogun2Migrator.ReadView: the reprojected points are whatever `Reprojection` returns; no property of the WGS 84 transform is stated.
- Comparison.ExtentAxesSwapped: centers are not compared, because the older migrator copies `{x, y}` nodes unchanged while the newer reads them back as doubles.
- JavaText.EqualsIgnoreCase: only ASCII letters and the four characters whose case maps onto them are case-mapped, so the model matches `equalsIgnoreCase` when one side is a word of ASCII letters (`boot`, `shogun2`, the only uses) and not for other letters such as `é`/`É`.
- LegacyTree.MigratedFolder: each folder is described one level deep; deeper levels are covered by the pre-order lemmas.
