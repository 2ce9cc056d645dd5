/**
 * How the two SHOGun 2 migrators relate where their work overlaps: the
 * newer one (`Shogun2Migrator`) reads every map-view value the older one
 * (`Migrator`) reads, keeps the same layers, and stores the same source URL
 * when no URL rules are configured.
 */
module Comparison {
  import opened Json
  import opened Legacy
  import Migrator
  import Shogun2Migrator
  import UrlRules
  import JavaText

  /**
   * Where the newer migrator builds a map view, the older one builds one
   * too, with the same projection code and the same resolutions.
   */
  lemma NewerViewImpliesOlder(mapModule: Json, geo: Shogun2Migrator.Reprojection)
    requires Shogun2Migrator.MapView(mapModule, geo).Ok?
    ensures Migrator.MapView(mapModule).Ok?
    ensures
      var older := Migrator.MapView(mapModule).value;
      var newer := Shogun2Migrator.MapView(mapModule, geo).value;
      && Get(newer, "projection") == Get(older, "projection")
      && Get(newer, "resolutions") == Get(older, "resolutions")
  {
    var mapConfig := Get(mapModule, "mapConfig").value;
    assert Shogun2Migrator.ReadView(mapConfig, geo).value.code == Projection(mapConfig).value;
  }

  /**
   * With a reprojection that moves no point, the newer migrator's extent is
   * the older one's with the two axes of each corner swapped: latitude
   * first, as WGS 84 orders them.
   */
  lemma ExtentAxesSwapped(mapModule: Json, geo: Shogun2Migrator.Reprojection)
    requires Shogun2Migrator.MapView(mapModule, geo).Ok?
    requires forall code, p :: geo.toWgs84(code, p) == Some(p)
    ensures Migrator.MapView(mapModule).Ok?
    ensures
      var e := Get(Migrator.MapView(mapModule).value, "mapExtent").value.items;
      Get(Shogun2Migrator.MapView(mapModule, geo).value, "extent") == Some(JArr([e[1], e[0], e[3], e[2]]))
  {
    var mapConfig := Get(mapModule, "mapConfig").value;
    var code := Projection(mapConfig).value;
    var ll := Corner(Get(mapConfig, "extent"), "lowerLeft").value;
    var ur := Corner(Get(mapConfig, "extent"), "upperRight").value;
    assert geo.toWgs84(code, ll) == Some(ll);
    assert geo.toWgs84(code, ur) == Some(ur);
  }

  /** Both migrators skip exactly the same layers. */
  lemma SameLayersSkipped(node: Json, rules: Option<string>)
    ensures Migrator.MigrateLayer(node) == Ok(None) <==> Shogun2Migrator.MigrateLayer(node, rules) == Ok(None)
  {
  }

  /**
   * Without URL rules, the newer migrator accepts only a text URL; it
   * stores the same URL as the older one when that text starts with `http`,
   * and the GeoServer endpoint otherwise.
   */
  lemma SourceUrlsAgree(node: Json)
    requires Migrator.SourceConfig(node).Ok? && Shogun2Migrator.SourceConfig(node, None).Ok?
    ensures Get(Get(node, "source").value, "url").value.JStr?
    ensures
      var url := Get(Get(node, "source").value, "url").value.s;
      var older := Migrator.SourceConfig(node).value;
      var newer := Shogun2Migrator.SourceConfig(node, None).value;
      Get(newer, "url") == if JavaText.StartsWith(url, "http") then Get(older, "url") else Some(JStr(UrlRules.FallbackUrl))
  {
    Migrator.SourceConfigValues(node);
  }
}
