/** Themes built from the style catalog and the queries over them (src/lib/themeUtils.ts). */
module ThemeUtils {
  import opened Wrappers
  import opened JsonValues
  import opened Model
  import opened MapStyles
  import Seqs
  import Text

  /** `themeColorPalettes[k].primaryColor` */
  function PrimaryColorOf(k: StyleKey): string {
    match k
    case Default => "blue-600"
    case DarkNova => "cyan-400"
    case PastelPop => "pink-400"
    case MinimalInk => "gray-900"
    case RetroWave => "amber-600"
    case CyberNight => "fuchsia-400"
    case SepiaDust => "amber-700"
    case OceanBreeze => "blue-600"
    case SakuraBlossom => "pink-600"
    case DesertGlow => "orange-600"
    case MidnightBlues => "blue-400"
    case ForestCalm => "green-600"
    case OceanBlue => "blue-700"
    case MysticPurple => "purple-600"
    case CitrusZest => "orange-500"
  }

  /** `themeColorPalettes[k].secondaryColor` */
  function SecondaryColorOf(k: StyleKey): string {
    match k
    case Default => "gray-600"
    case DarkNova => "slate-300"
    case PastelPop => "purple-300"
    case MinimalInk => "gray-600"
    case RetroWave => "orange-400"
    case CyberNight => "purple-400"
    case SepiaDust => "orange-600"
    case OceanBreeze => "cyan-500"
    case SakuraBlossom => "rose-400"
    case DesertGlow => "amber-500"
    case MidnightBlues => "indigo-300"
    case ForestCalm => "emerald-400"
    case OceanBlue => "blue-400"
    case MysticPurple => "violet-400"
    case CitrusZest => "amber-400"
  }

  /** `themeColorPalettes[k].pinColor` */
  function PinColorOf(k: StyleKey): string {
    match k
    case Default => "#EA4335"
    case DarkNova => "#8ec3b9"
    case PastelPop => "#d28ab7"
    case MinimalInk => "#000000"
    case RetroWave => "#523735"
    case CyberNight => "#ff4ecd"
    case SepiaDust => "#4a4238"
    case OceanBreeze => "#006064"
    case SakuraBlossom => "#d81b60"
    case DesertGlow => "#a85b00"
    case MidnightBlues => "#bbdefb"
    case ForestCalm => "#33691e"
    case OceanBlue => "#1565c0"
    case MysticPurple => "#4527a0"
    case CitrusZest => "#e65100"
  }

  /** `createThemeFromStyle`: the theme whose id is the key, with the key's metadata, palette and
      (cloned) styles. */
  function CreateThemeFromStyle(k: StyleKey): (r: Theme)
    ensures ParseKey(r.id) == Some(k)
    ensures r.category == Some(CategoryName(CategoryOf(k)))
    ensures r.isDark == DarkFlag(k)
    ensures r.styles == StylesOf(k)
  {
    ParseKeyName(k);
    Theme(KeyName(k), DisplayName(k), Some(Description(k)), Some(Emoji(k)), Some(CategoryName(CategoryOf(k))),
      StylesOf(k), PrimaryColorOf(k), SecondaryColorOf(k), PinColorOf(k), DarkFlag(k))
  }

  /** Different keys give different themes (their ids differ). */
  lemma CreateThemeInjective(j: StyleKey, k: StyleKey)
    ensures CreateThemeFromStyle(j) == CreateThemeFromStyle(k) <==> j == k
  {
    if CreateThemeFromStyle(j) == CreateThemeFromStyle(k) {
      assert ParseKey(CreateThemeFromStyle(j).id) == Some(j);
    }
  }

  /** `getAllThemes`: one theme per catalog key, in catalog order. */
  function AllThemes(): seq<Theme> {
    Seqs.Map(AllKeys, CreateThemeFromStyle)
  }

  /** The fifteen themes are those of the catalog keys, one each, with distinct ids. */
  lemma AllThemesAreTheCatalog()
    ensures |AllThemes()| == 15
    ensures forall i :: 0 <= i < 15 ==> AllThemes()[i] == CreateThemeFromStyle(AllKeys[i])
    ensures forall k :: CreateThemeFromStyle(k) in AllThemes()
    ensures forall i, j :: 0 <= i < j < 15 ==> AllThemes()[i].id != AllThemes()[j].id
  {
    var r := AllThemes();
    forall k ensures CreateThemeFromStyle(k) in r {
      KeyListed(k);
      var i :| 0 <= i < 15 && AllKeys[i] == k;
      assert r[i] == CreateThemeFromStyle(k);
    }
    AllKeysDistinct();
    forall i, j | 0 <= i < j < 15 ensures r[i].id != r[j].id {
      assert ParseKey(r[i].id) == Some(AllKeys[i]);
      assert ParseKey(r[j].id) == Some(AllKeys[j]);
    }
  }

  function CategoryIs(category: string): Theme -> bool {
    (t: Theme) => t.category == Some(category)
  }

  /** `getThemesByCategory` of themeUtils.ts. */
  function ThemesByCategory(category: string): seq<Theme> {
    Seqs.Filter(AllThemes(), CategoryIs(category))
  }

  /** The themes of a category are exactly the themes of the catalog keys in that category, in
      catalog order. */
  lemma ThemesByCategoryAreCatalogKeys(category: string)
    ensures ThemesByCategory(category) == Seqs.Map(Seqs.Filter(AllKeys, InCategory(category)), CreateThemeFromStyle)
  {
    Seqs.FilterMap(AllKeys, CreateThemeFromStyle, CategoryIs(category), InCategory(category));
  }

  function IsDarkTheme(t: Theme): bool { t.isDark }

  function IsLightTheme(t: Theme): bool { !t.isDark }

  /** `getDarkThemes` */
  function DarkThemes(): seq<Theme> {
    Seqs.Filter(AllThemes(), IsDarkTheme)
  }

  /** `getLightThemes` */
  function LightThemes(): seq<Theme> {
    Seqs.Filter(AllThemes(), IsLightTheme)
  }

  /** The dark themes are darkNova, cyberNight and midnightBlues, in that order. */
  lemma DarkThemesAreThree()
    ensures DarkThemes() == Seqs.Map([DarkNova, CyberNight, MidnightBlues], CreateThemeFromStyle)
  {
    Seqs.FilterMap(AllKeys, CreateThemeFromStyle, IsDarkTheme, IsDarkKey);
    ThreeDarkKeys();
  }

  /** Dark and light themes split the catalog: every theme is in exactly one of the two lists. */
  lemma DarkLightPartition()
    ensures |DarkThemes()| + |LightThemes()| == |AllThemes()|
    ensures forall t :: t in AllThemes() ==> (t in DarkThemes() <==> t !in LightThemes())
  {
    Seqs.FilterPartition(AllThemes(), IsDarkTheme, IsLightTheme);
  }

  /** `getThemeById`: the catalog theme with that id, or nothing for an unknown id. */
  function ThemeById(id: string): (r: Option<Theme>)
    ensures r.Some? ==> r.value.id == id
  {
    match ParseKey(id)
    case Some(k) => Some(CreateThemeFromStyle(k))
    case None => None
  }

  /** An id is found exactly when it is one of the catalog keys, and every catalog theme is found
      again by its own id. */
  lemma ThemeByIdFindsCatalog(id: string)
    ensures ThemeById(id).Some? <==> id in GetAllThemeKeys()
    ensures forall t :: t in AllThemes() ==> ThemeById(t.id) == Some(t)
  {
    AllThemeKeysNameTheCatalog();
    var names := GetAllThemeKeys();
    if ThemeById(id).Some? {
      var k := ParseKey(id).value;
      KeyListed(k);
      var i :| 0 <= i < 15 && AllKeys[i] == k;
      assert names[i] == id;
    }
    if id in names {
      var i :| 0 <= i < |names| && names[i] == id;
      assert ParseKey(id).Some?;
    }
    forall t | t in AllThemes() ensures ThemeById(t.id) == Some(t) {
      var i :| 0 <= i < |AllThemes()| && AllThemes()[i] == t;
      ParseKeyName(AllKeys[i]);
    }
  }

  /** `getRandomTheme` with `Math.random()` supplied as `roll`. */
  function RandomTheme(roll: real): (r: Theme)
    requires 0.0 <= roll < 1.0
    ensures r in AllThemes()
  {
    var i := (roll * 15.0).Floor;
    assert 0 <= i < 15;
    AllThemes()[i]
  }

  /** `getThemeById(id)!` for an id the code writes out; each such id is a catalog key's name,
      so the lookup succeeds. */
  function Known(k: StyleKey): (r: Theme)
    ensures r == CreateThemeFromStyle(k)
  {
    ParseKeyName(k);
    ThemeById(KeyName(k)).value
  }

  /** The use cases `getRecommendedThemes` distinguishes; `Unlisted` is any other value, which
      reaches the `default` branch. */
  datatype UseCase = Business | Travel | Creative | MinimalUse | Unlisted

  /** The keys `getRecommendedThemes` names for each listed use case. */
  function RecommendedKeys(useCase: UseCase): seq<StyleKey> {
    match useCase
    case Business => [Default, MinimalInk, OceanBreeze]
    case Travel => [SakuraBlossom, OceanBreeze, DesertGlow]
    case Creative => [PastelPop, CyberNight, RetroWave]
    case MinimalUse => [MinimalInk, SepiaDust, Default]
    case Unlisted => AllKeys[..3]
  }

  /** `getRecommendedThemes`: the named themes, looked up by id, for a listed use case; any other
      value gets the first three catalog themes. */
  function RecommendedThemes(useCase: UseCase): (r: seq<Theme>)
    ensures |r| == 3
    ensures forall i :: 0 <= i < 3 ==> ThemeById(r[i].id) == Some(r[i])
    ensures useCase == Unlisted ==> r == AllThemes()[..3]
  {
    ThemeByIdFindsCatalog("default");
    if useCase == Unlisted then AllThemes()[..3] else Seqs.Map(RecommendedKeys(useCase), Known)
  }

  function Ids(themes: seq<Theme>): seq<string> {
    Seqs.Map(themes, (t: Theme) => t.id)
  }

  /** The ids each use case recommends, as the code writes them. */
  function RecommendedIds(useCase: UseCase): seq<string> {
    match useCase
    case Business => ["default", "minimalInk", "oceanBreeze"]
    case Travel => ["sakuraBlossom", "oceanBreeze", "desertGlow"]
    case Creative => ["pastelPop", "cyberNight", "retroWave"]
    case MinimalUse => ["minimalInk", "sepiaDust", "default"]
    case Unlisted => ["default", "darkNova", "pastelPop"]
  }

  /** The recommendations of each use case are exactly the themes with the ids the code names. */
  lemma RecommendedThemeIds(useCase: UseCase)
    ensures Ids(RecommendedThemes(useCase)) == RecommendedIds(useCase)
  {
    var keys := RecommendedKeys(useCase);
    RecommendedThemesOfKeys(useCase);
    IdsOfCatalogThemes(keys);
    RecommendedKeyNames(useCase);
  }

  /** Every use case recommends the catalog themes of its keys. */
  lemma RecommendedThemesOfKeys(useCase: UseCase)
    ensures RecommendedThemes(useCase) == Seqs.Map(RecommendedKeys(useCase), CreateThemeFromStyle)
  {
    if useCase == Unlisted {
      AllThemesAreTheCatalog();
    }
  }

  /** The ids of catalog themes are the names of their keys. */
  lemma IdsOfCatalogThemes(keys: seq<StyleKey>)
    ensures Ids(Seqs.Map(keys, CreateThemeFromStyle)) == Seqs.Map(keys, KeyName)
  {
  }

  /** The names of the recommended keys are the ids the code writes. */
  lemma RecommendedKeyNames(useCase: UseCase)
    ensures Seqs.Map(RecommendedKeys(useCase), KeyName) == RecommendedIds(useCase)
  {
    var names := Seqs.Map(RecommendedKeys(useCase), KeyName);
    assert names == [KeyName(RecommendedKeys(useCase)[0]), KeyName(RecommendedKeys(useCase)[1]), KeyName(RecommendedKeys(useCase)[2])];
  }

  const BrightPinColors: seq<string> := ["#ff4ecd", "#8ec3b9", "#bbdefb", "#d28ab7"]
  const DarkPinColors: seq<string> := ["#000000", "#523735", "#795548", "#006064", "#d81b60", "#a85b00"]

  /** `colors.some(color => color.toLowerCase() === pinColor.toLowerCase())` */
  function SomeColorMatches(colors: seq<string>, pinColor: string): (r: bool)
    ensures r <==> exists i :: 0 <= i < |colors| && Text.Lower(colors[i]) == Text.Lower(pinColor)
  {
    if colors == [] then false
    else if Text.Lower(colors[0]) == Text.Lower(pinColor) then true
    else
      var rest := SomeColorMatches(colors[1..], pinColor);
      assert forall i :: 1 <= i < |colors| ==> colors[i] == colors[1..][i - 1];
      rest
  }

  /** `isThemeCompatibleWithPinColor`: dark themes accept the bright pin colours and light themes
      the dark ones, ignoring letter case. */
  function IsThemeCompatibleWithPinColor(theme: Theme, pinColor: string): (r: bool)
    ensures theme.isDark ==> (r <==> exists i :: 0 <= i < |BrightPinColors| && Text.Lower(BrightPinColors[i]) == Text.Lower(pinColor))
    ensures !theme.isDark ==> (r <==> exists i :: 0 <= i < |DarkPinColors| && Text.Lower(DarkPinColors[i]) == Text.Lower(pinColor))
  {
    SomeColorMatches(if theme.isDark then BrightPinColors else DarkPinColors, pinColor)
  }

  /** Compatibility does not depend on the letter case of the pin colour. */
  lemma CompatibilityIgnoresCase(theme: Theme, pinColor: string)
    ensures IsThemeCompatibleWithPinColor(theme, Text.Lower(pinColor)) == IsThemeCompatibleWithPinColor(theme, pinColor)
  {
    Text.LowerIdempotent(pinColor);
  }

  /** Each dark catalog theme accepts its own pin colour. */
  lemma DarkThemesAcceptOwnPinColor(k: StyleKey)
    requires DarkFlag(k)
    ensures IsThemeCompatibleWithPinColor(CreateThemeFromStyle(k), CreateThemeFromStyle(k).pinColor)
  {
    var t := CreateThemeFromStyle(k);
    var i := match k case DarkNova => 1 case CyberNight => 0 case _ => 2;
    DarkIffDarkCategory(k);
    assert Text.Lower(BrightPinColors[i]) == Text.Lower(t.pinColor);
  }

  /** `getDefaultTheme`: the light, style-less `default` catalog theme. */
  function DefaultTheme(): (r: Theme)
    ensures r.id == "default" && r.styles == [] && !r.isDark
    ensures ThemeById("default") == Some(r)
  {
    CreateThemeFromStyle(Default)
  }

  /** The JSON form of a style rule: absent scopes are absent keys. */
  function StyleRuleToJson(rule: StyleRule): Json {
    var scoped := if rule.featureType.Some? then map["featureType" := JStr(rule.featureType.value)] else map[];
    var both := if rule.elementType.Some? then scoped["elementType" := JStr(rule.elementType.value)] else scoped;
    JObj(both["stylers" := rule.stylers])
  }

  function OptionalString(key: string, v: Option<string>, m: map<string, Json>): map<string, Json> {
    if v.Some? then m[key := JStr(v.value)] else m
  }

  /** The JSON object form of a theme (what persisted state holds). */
  function ThemeToJson(t: Theme): Json {
    var base := map[
      "id" := JStr(t.id), "name" := JStr(t.name),
      "styles" := JArr(Seqs.Map(t.styles, StyleRuleToJson)),
      "primaryColor" := JStr(t.primaryColor), "secondaryColor" := JStr(t.secondaryColor),
      "pinColor" := JStr(t.pinColor), "isDark" := JBool(t.isDark)];
    JObj(OptionalString("category", t.category, OptionalString("emoji", t.emoji, OptionalString("description", t.description, base))))
  }

  predicate HasString(fields: map<string, Json>, key: string) {
    key in fields && fields[key].JStr?
  }

  /** The keys `isValidTheme` requires. */
  const RequiredThemeKeys: seq<string> := ["id", "name", "styles", "primaryColor", "secondaryColor", "pinColor", "isDark"]

  /** `isValidTheme`: a truthy object whose id, name and colours are strings, whose styles are an
      array and whose isDark is a boolean; other keys are ignored. */
  function IsValidTheme(theme: Json): (r: bool)
    ensures r ==> theme.JObj? && forall key :: key in RequiredThemeKeys ==> key in theme.fields
    ensures !theme.JObj? ==> !r
  {
    && Truthy(theme)
    && theme.JObj?
    && HasString(theme.fields, "id")
    && HasString(theme.fields, "name")
    && "styles" in theme.fields && theme.fields["styles"].JArr?
    && HasString(theme.fields, "primaryColor")
    && HasString(theme.fields, "secondaryColor")
    && HasString(theme.fields, "pinColor")
    && "isDark" in theme.fields && theme.fields["isDark"].JBool?
  }

  /** Every theme, written out as JSON, passes the validity check. */
  lemma ThemeJsonIsValid(t: Theme)
    ensures IsValidTheme(ThemeToJson(t))
  {
  }

  /** Dropping any required key from a theme's JSON makes it invalid. */
  lemma MissingKeyInvalid(t: Theme, key: string)
    requires key in RequiredThemeKeys
    ensures !IsValidTheme(JObj(ThemeToJson(t).fields - {key}))
  {
  }
}
