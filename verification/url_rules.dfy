/**
 * The layer URL rewriting of the SHOGun 2 migrator. The rules are one string
 * of comma-separated `from::to` pairs; a layer URL equal to the `from` part
 * of a rule is replaced by its `to` part, the first such rule winning. Both
 * separators are cut with Java's `String.split`, so an ill-formed rule can
 * make the array access throw.
 */
module UrlRules {
  import opened Json
  import JavaText

  const PairSeparator := "::"
  const RuleSeparator := ","

  /** The parts of one rule, `rule.split("::")`. */
  function Parts(rule: string): seq<string> {
    JavaText.Split(rule, PairSeparator)
  }

  /**
   * The rule ends the search for `url`: it holds the pair separator, and
   * its first part is missing (the access throws) or equals the URL.
   */
  predicate Decides(rule: string, url: Option<string>) {
    JavaText.Contains(rule, PairSeparator) && (|Parts(rule)| == 0 || url == Some(Parts(rule)[0]))
  }

  /** What a deciding rule does: a missing first or second part is an array access past the end. */
  function Decision(rule: string): Result<Option<string>> {
    var parts := Parts(rule);
    if |parts| == 0 then Fail(IndexOutOfBounds(0))
    else if |parts| == 1 then Fail(IndexOutOfBounds(1))
    else Ok(Some(parts[1]))
  }

  /** The `for` loop over the rules, with its `break` on the first rule whose first part equals the URL. */
  function RewriteWith(rules: seq<string>, url: Option<string>): (r: Result<Option<string>>)
    ensures r.Fail? ==> r.error == IndexOutOfBounds(0) || r.error == IndexOutOfBounds(1)
    ensures r.Ok? && r.value != url ==> exists i :: 0 <= i < |rules| && |Parts(rules[i])| >= 2 && r.value == Some(Parts(rules[i])[1])
    decreases |rules|
  {
    if rules == [] then Ok(url)
    else if JavaText.Contains(rules[0], PairSeparator) then
      var parts := JavaText.Split(rules[0], PairSeparator);
      if |parts| == 0 then Fail(IndexOutOfBounds(0))
      else if url == Some(parts[0]) then
        if |parts| < 2 then Fail(IndexOutOfBounds(1)) else Ok(Some(parts[1]))
      else RewriteWith(rules[1..], url)
    else RewriteWith(rules[1..], url)
  }

  /** The loop's outcome is that of the first rule that decides it. */
  lemma {:induction false} FirstDecidingRule(rules: seq<string>, url: Option<string>, i: nat)
    requires i < |rules| && Decides(rules[i], url)
    requires forall j :: 0 <= j < i ==> !Decides(rules[j], url)
    ensures RewriteWith(rules, url) == Decision(rules[i])
    decreases i
  {
    if i > 0 {
      assert !Decides(rules[0], url);
      FirstDecidingRule(rules[1..], url, i - 1);
    }
  }

  /** When no rule decides, the URL is kept. */
  lemma {:induction false} NoDecidingRule(rules: seq<string>, url: Option<string>)
    requires forall j :: 0 <= j < |rules| ==> !Decides(rules[j], url)
    ensures RewriteWith(rules, url) == Ok(url)
    decreases |rules|
  {
    if rules != [] {
      assert !Decides(rules[0], url);
      NoDecidingRule(rules[1..], url);
    }
  }

  /**
   * The rewrite applied to a layer's URL (`textValue()` of it, so possibly
   * Java's `null`): the rules are consulted only when given and holding the
   * pair separator at all.
   */
  function Rewrite(url: Option<string>, rules: Option<string>): (r: Result<Option<string>>)
    ensures rules.None? || !JavaText.Contains(rules.value, PairSeparator) ==> r == Ok(url)
    ensures r.Ok? && r.value != url ==> r.value.Some? && !JavaText.Contains(r.value.value, PairSeparator)
    ensures url.None? && r.Ok? ==> r.value.None?
  {
    if rules.Some? && JavaText.Contains(rules.value, PairSeparator) then
      var pieces := JavaText.Split(rules.value, RuleSeparator);
      RewriteKeepsOrCutsPart(pieces, url);
      RewriteWith(pieces, url)
    else Ok(url)
  }

  /** A rewritten URL is the second part of a rule, so it does not hold the pair separator; a missing URL is never rewritten (though an ill-formed rule still throws). */
  lemma {:induction false} RewriteKeepsOrCutsPart(rules: seq<string>, url: Option<string>)
    ensures RewriteWith(rules, url).Ok? && RewriteWith(rules, url).value != url ==>
      RewriteWith(rules, url).value.Some? && !JavaText.Contains(RewriteWith(rules, url).value.value, PairSeparator)
    ensures url.None? && RewriteWith(rules, url).Ok? ==> RewriteWith(rules, url).value.None?
    decreases |rules|
  {
    if rules != [] {
      RewriteKeepsOrCutsPart(rules[1..], url);
      if JavaText.Contains(rules[0], PairSeparator) {
        var parts := JavaText.Split(rules[0], PairSeparator);
        if |parts| >= 2 && url == Some(parts[0]) {
          assert !JavaText.Contains(parts[1], PairSeparator);
          assert RewriteWith(rules, url) == Ok(Some(parts[1]));
        }
      }
    }
  }

  const FallbackUrl := "/geoserver/ows"

  /** The URL stored in the source config: an `http…` URL as is, any other replaced by the relative GeoServer endpoint. */
  function StoredUrl(url: string): (r: string)
    ensures JavaText.StartsWith(url, "http") ==> r == url
    ensures !JavaText.StartsWith(url, "http") ==> r == FallbackUrl
  {
    if JavaText.StartsWith(url, "http") then url else FallbackUrl
  }

  /** A stored URL is stored again unchanged. */
  lemma StoredUrlIdempotent(url: string)
    ensures StoredUrl(StoredUrl(url)) == StoredUrl(url)
  {
    assert !JavaText.StartsWith(FallbackUrl, "http") by {
      assert FallbackUrl[0] == '/';
    }
  }
}
