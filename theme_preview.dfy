/** The colours the theme thumbnail paints: land from the theme's shade, and water and roads from
    the first colour styler of the first style rule for that exact feature type, with per-shade
    fallbacks. The canvas drawing itself is not modelled. */
module ThemePreview {
  import opened Wrappers
  import opened JsonValues
  import opened Model
  import MapStyles
  import ThemeUtils

  /** `Array.prototype.findIndex`: the first index whose element satisfies `p`. */
  function FindIndex<T>(s: seq<T>, p: T -> bool): (r: Option<nat>)
    ensures r.Some? ==> r.value < |s| && p(s[r.value]) && forall j :: 0 <= j < r.value ==> !p(s[j])
    ensures r.None? ==> forall j :: 0 <= j < |s| ==> !p(s[j])
  {
    if s == [] then None
    else if p(s[0]) then Some(0)
    else match FindIndex(s[1..], p)
      case None => None
      case Some(i) => Some(i + 1)
  }

  /** A style rule scoped to exactly this feature type (a sub-type such as `road.highway` does
      not count). */
  predicate ForFeature(feature: string, rule: StyleRule) {
    rule.featureType == Some(feature)
  }

  /** A styler that is a truthy object with a `color` key (an array never has one). */
  predicate IsColorStyler(v: Json) {
    v.JObj? && "color" in v.fields
  }

  /** What the lookup of one feature's colour gives: the colour found, the fallback, or a
      `TypeError` because `stylers` is a truthy non-array that has no `find`. */
  datatype Lookup = Found(color: string) | Fallback | Throws

  /** The colour lookup inside one rule: a falsy `stylers` gives the fallback, a truthy
      non-array throws, and an array gives the `color` of its first colour styler when that is a
      string. */
  function RuleLookup(rule: StyleRule): (r: Lookup)
    ensures r.Throws? <==> Truthy(rule.stylers) && !rule.stylers.JArr?
    ensures r.Found? ==> rule.stylers.JArr?
    ensures r.Found? ==> exists j ::
      && 0 <= j < |rule.stylers.items|
      && IsColorStyler(rule.stylers.items[j])
      && (forall k :: 0 <= k < j ==> !IsColorStyler(rule.stylers.items[k]))
      && rule.stylers.items[j].fields["color"] == JStr(r.color)
  {
    var stylers := rule.stylers;
    if !Truthy(stylers) then Fallback
    else if !stylers.JArr? then Throws
    else match FindIndex(stylers.items, IsColorStyler)
      case None => Fallback
      case Some(j) =>
        var c := stylers.items[j].fields["color"];
        if c.JStr? then Found(c.s) else Fallback
  }

  /** The colour lookup over the styles of a theme: the lookup inside the first rule for the
      feature, or the fallback when there is none. */
  function FeatureLookup(styles: seq<StyleRule>, feature: string): (r: Lookup)
    ensures (forall i :: 0 <= i < |styles| ==> !ForFeature(feature, styles[i])) ==> r == Fallback
  {
    match FindIndex(styles, (rule: StyleRule) => ForFeature(feature, rule))
    case None => Fallback
    case Some(i) => RuleLookup(styles[i])
  }

  /** The first rule for the feature decides the lookup. */
  lemma FirstRuleDecides(styles: seq<StyleRule>, feature: string, i: nat)
    requires i < |styles| && ForFeature(feature, styles[i])
    requires forall j :: 0 <= j < i ==> !ForFeature(feature, styles[j])
    ensures FeatureLookup(styles, feature) == RuleLookup(styles[i])
  {
    var f := FindIndex(styles, (rule: StyleRule) => ForFeature(feature, rule));
    assert f == Some(i);
  }

  /** The thumbnail colour for a feature: the colour found, or the shade's fallback. */
  function FeatureColor(theme: Theme, feature: string, darkFallback: string, lightFallback: string): (r: Option<string>)
    ensures r.None? <==> FeatureLookup(theme.styles, feature).Throws?
    ensures FeatureLookup(theme.styles, feature).Found? ==> r == Some(FeatureLookup(theme.styles, feature).color)
    ensures FeatureLookup(theme.styles, feature).Fallback? ==> r == Some(if theme.isDark then darkFallback else lightFallback)
  {
    match FeatureLookup(theme.styles, feature)
    case Found(c) => Some(c)
    case Fallback => Some(if theme.isDark then darkFallback else lightFallback)
    case Throws => None
  }

  /** `getWaterColor`; `None` stands for the `TypeError`. */
  function WaterColor(theme: Theme): Option<string> {
    FeatureColor(theme, "water", "#1a237e", "#aee6f9")
  }

  /** `getRoadColor`; `None` stands for the `TypeError`. */
  function RoadColor(theme: Theme): Option<string> {
    FeatureColor(theme, "road", "#3949ab", "#c0c0c0")
  }

  /** The land colour. */
  function LandColor(theme: Theme): (r: string)
    ensures theme.isDark <==> r == "#1a1a1a"
    ensures !theme.isDark <==> r == "#f5f5f5"
  {
    if theme.isDark then "#1a1a1a" else "#f5f5f5"
  }

  /** Only the first rule for the feature is consulted: rules appended after it change nothing. */
  lemma {:induction false} LaterRulesIgnored(styles: seq<StyleRule>, more: seq<StyleRule>, feature: string)
    requires exists i :: 0 <= i < |styles| && ForFeature(feature, styles[i])
    ensures FeatureLookup(styles + more, feature) == FeatureLookup(styles, feature)
  {
    var p := (rule: StyleRule) => ForFeature(feature, rule);
    FindIndexPrefix(styles, more, p);
  }

  /** The first match in a sequence is also the first match once more elements follow it. */
  lemma {:induction false} FindIndexPrefix<T>(s: seq<T>, more: seq<T>, p: T -> bool)
    requires exists i :: 0 <= i < |s| && p(s[i])
    ensures FindIndex(s + more, p) == FindIndex(s, p)
  {
    assert s != [];
    assert (s + more)[0] == s[0];
    if !p(s[0]) {
      var i :| 0 <= i < |s| && p(s[i]);
      assert s[1..][i - 1] == s[i];
      FindIndexPrefix(s[1..], more, p);
      assert (s + more)[1..] == s[1..] + more;
    }
  }

  /** Validated styles (every `stylers` an array) never make the lookup throw. */
  lemma ValidatedNeverThrows(theme: Theme, feature: string, darkFallback: string, lightFallback: string)
    requires forall i :: 0 <= i < |theme.styles| ==> theme.styles[i].stylers.JArr?
    ensures FeatureColor(theme, feature, darkFallback, lightFallback).Some?
  {
  }

  /** Every catalog theme gets a water and a road colour. */
  lemma CatalogThemesHaveColors(k: MapStyles.StyleKey)
    ensures WaterColor(ThemeUtils.CreateThemeFromStyle(k)).Some?
    ensures RoadColor(ThemeUtils.CreateThemeFromStyle(k)).Some?
  {
    var t := ThemeUtils.CreateThemeFromStyle(k);
    MapStyles.CatalogRulesWellFormed(k);
    assert t.styles == MapStyles.RawStyles(k);
    ValidatedNeverThrows(t, "water", "#1a237e", "#aee6f9");
    ValidatedNeverThrows(t, "road", "#3949ab", "#c0c0c0");
  }

  /** A theme whose only road rule is for `road.highway` paints roads in the fallback colour. */
  lemma HighwayRuleIsNotRoad(theme: Theme)
    requires |theme.styles| == 1 && theme.styles[0].featureType == Some("road.highway")
    ensures RoadColor(theme) == Some(if theme.isDark then "#3949ab" else "#c0c0c0")
  {
    assert !ForFeature("road", theme.styles[0]) by {
      assert "road.highway" != "road";
    }
  }
}
