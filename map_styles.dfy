/** The catalog of fifteen map styles and their display metadata (src/themes/mapStyles.ts). */
module MapStyles {
  import opened Wrappers
  import opened JsonValues
  import opened Model
  import Seqs

  /** What `validateMapStyles` receives: an array of style rules, or something that is not an array. */
  datatype StyleInput = NotAnArray | StyleArray(entries: seq<StyleRule>)

  /** One entry after validation: a `stylers` value that is not an array becomes `[]`. */
  function ValidateStyle(rule: StyleRule): StyleRule {
    if rule.stylers.JArr? then rule else rule.(stylers := JArr([]))
  }

  /** `validateMapStyles`: `[]` for a non-array; otherwise the same entries in the same order, each
      with its `stylers` forced to be an array and nothing else touched. */
  function ValidateMapStyles(input: StyleInput): (r: seq<StyleRule>)
    ensures input.NotAnArray? ==> r == []
    ensures input.StyleArray? ==> |r| == |input.entries|
    ensures input.StyleArray? ==> forall i :: 0 <= i < |r| ==>
      && r[i].featureType == input.entries[i].featureType
      && r[i].elementType == input.entries[i].elementType
      && r[i].stylers.JArr?
      && (input.entries[i].stylers.JArr? ==> r[i] == input.entries[i])
      && (!input.entries[i].stylers.JArr? ==> r[i].stylers == JArr([]))
  {
    match input
    case NotAnArray => []
    case StyleArray(entries) => Seqs.Map(entries, ValidateStyle)
  }

  /** Validating an already validated list changes nothing. */
  lemma ValidateMapStylesIdempotent(input: StyleInput)
    ensures ValidateMapStyles(StyleArray(ValidateMapStyles(input))) == ValidateMapStyles(input)
  {
  }

  /** The same validation as it acts on the caller's entries: each rule whose `stylers` is not an
      array is rewritten in place, so the array passed in ends up holding the validated list. */
  method ValidateStylesInPlace(styles: array<StyleRule>)
    modifies styles
    ensures styles[..] == ValidateMapStyles(StyleArray(old(styles[..])))
  {
    for i := 0 to styles.Length
      invariant forall j :: 0 <= j < i ==> styles[j] == ValidateStyle(old(styles[j]))
      invariant forall j :: i <= j < styles.Length ==> styles[j] == old(styles[j])
    {
      if !styles[i].stylers.JArr? {
        styles[i] := styles[i].(stylers := JArr([]));
      }
    }
  }

  datatype StyleKey =
    | Default | DarkNova | PastelPop | MinimalInk | RetroWave | CyberNight | SepiaDust | OceanBreeze
    | SakuraBlossom | DesertGlow | MidnightBlues | ForestCalm | OceanBlue | MysticPurple | CitrusZest

  /** The keys of `mapStyles` in declaration order. */
  const AllKeys: seq<StyleKey> := [
    Default, DarkNova, PastelPop, MinimalInk, RetroWave, CyberNight, SepiaDust, OceanBreeze,
    SakuraBlossom, DesertGlow, MidnightBlues, ForestCalm, OceanBlue, MysticPurple, CitrusZest]

  function KeyName(k: StyleKey): string {
    match k
    case Default => "default"
    case DarkNova => "darkNova"
    case PastelPop => "pastelPop"
    case MinimalInk => "minimalInk"
    case RetroWave => "retroWave"
    case CyberNight => "cyberNight"
    case SepiaDust => "sepiaDust"
    case OceanBreeze => "oceanBreeze"
    case SakuraBlossom => "sakuraBlossom"
    case DesertGlow => "desertGlow"
    case MidnightBlues => "midnightBlues"
    case ForestCalm => "forestCalm"
    case OceanBlue => "oceanBlue"
    case MysticPurple => "mysticPurple"
    case CitrusZest => "citrusZest"
  }

  /** The catalog key a string names, if any: the string is an own key of `mapStyles`. */
  function ParseKey(s: string): (r: Option<StyleKey>)
    ensures r.Some? ==> KeyName(r.value) == s
  {
    if s == "default" then Some(Default)
    else if s == "darkNova" then Some(DarkNova)
    else if s == "pastelPop" then Some(PastelPop)
    else if s == "minimalInk" then Some(MinimalInk)
    else if s == "retroWave" then Some(RetroWave)
    else if s == "cyberNight" then Some(CyberNight)
    else if s == "sepiaDust" then Some(SepiaDust)
    else if s == "oceanBreeze" then Some(OceanBreeze)
    else if s == "sakuraBlossom" then Some(SakuraBlossom)
    else if s == "desertGlow" then Some(DesertGlow)
    else if s == "midnightBlues" then Some(MidnightBlues)
    else if s == "forestCalm" then Some(ForestCalm)
    else if s == "oceanBlue" then Some(OceanBlue)
    else if s == "mysticPurple" then Some(MysticPurple)
    else if s == "citrusZest" then Some(CitrusZest)
    else None
  }

  /** Every key name is recognised as that key. */
  lemma ParseKeyName(k: StyleKey)
    ensures ParseKey(KeyName(k)) == Some(k)
  {
    match k
    case Default => ParseFirstNames();
    case DarkNova => ParseFirstNames();
    case PastelPop => ParseFirstNames();
    case MinimalInk => ParseFirstNames();
    case RetroWave => ParseFirstNames();
    case CyberNight => ParseMiddleNames();
    case SepiaDust => ParseMiddleNames();
    case OceanBreeze => ParseMiddleNames();
    case SakuraBlossom => ParseMiddleNames();
    case DesertGlow => ParseMiddleNames();
    case MidnightBlues => ParseLastNames();
    case ForestCalm => ParseLastNames();
    case OceanBlue => ParseLastNames();
    case MysticPurple => ParseLastNames();
    case CitrusZest => ParseLastNames();
  }

  lemma ParseFirstNames()
    ensures ParseKey("default") == Some(Default) && ParseKey("darkNova") == Some(DarkNova)
    ensures ParseKey("pastelPop") == Some(PastelPop) && ParseKey("minimalInk") == Some(MinimalInk)
    ensures ParseKey("retroWave") == Some(RetroWave)
  {
  }

  lemma ParseMiddleNames()
    ensures ParseKey("cyberNight") == Some(CyberNight) && ParseKey("sepiaDust") == Some(SepiaDust)
    ensures ParseKey("oceanBreeze") == Some(OceanBreeze) && ParseKey("sakuraBlossom") == Some(SakuraBlossom)
    ensures ParseKey("desertGlow") == Some(DesertGlow)
  {
  }

  lemma ParseLastNames()
    ensures ParseKey("midnightBlues") == Some(MidnightBlues) && ParseKey("forestCalm") == Some(ForestCalm)
    ensures ParseKey("oceanBlue") == Some(OceanBlue) && ParseKey("mysticPurple") == Some(MysticPurple)
    ensures ParseKey("citrusZest") == Some(CitrusZest)
  {
    ParseMysticPurple();
    ParseCitrusZest();
  }

  lemma ParseMysticPurple() ensures ParseKey("mysticPurple") == Some(MysticPurple) { }
  lemma ParseCitrusZest() ensures ParseKey("citrusZest") == Some(CitrusZest) { }

  function ColorStyler(color: string): Json {
    JObj(map["color" := JStr(color)])
  }

  /** `{ elementType: et, stylers: [{ color }] }` */
  function ElementRule(et: string, color: string): StyleRule {
    StyleRule(None, Some(et), JArr([ColorStyler(color)]))
  }

  /** `{ featureType: ft, stylers: [{ color }] }` */
  function FeatureRule(ft: string, color: string): StyleRule {
    StyleRule(Some(ft), None, JArr([ColorStyler(color)]))
  }

  /** The style literals, as written before validation. */
  function RawStyles(k: StyleKey): seq<StyleRule> {
    match k
    case Default => []
    case DarkNova => [
      ElementRule("geometry", "#1d2c4d"), ElementRule("labels.text.fill", "#8ec3b9"),
      ElementRule("labels.text.stroke", "#1a3646"), FeatureRule("road", "#2c3e50"),
      FeatureRule("water", "#17263c")]
    case PastelPop => [
      ElementRule("geometry", "#fdf5f1"), FeatureRule("water", "#aee6f9"),
      ElementRule("labels.text.fill", "#d28ab7"), FeatureRule("road", "#f7d9e3")]
    case MinimalInk => [
      ElementRule("geometry", "#ffffff"), ElementRule("labels.text.fill", "#000000"),
      StyleRule(None, Some("labels.icon"), JArr([JObj(map["visibility" := JStr("off")])])),
      FeatureRule("road", "#c0c0c0")]
    case RetroWave => [
      ElementRule("geometry", "#ebe3cd"), ElementRule("labels.text.fill", "#523735"),
      ElementRule("labels.text.stroke", "#f5f1e6"), FeatureRule("road", "#f5deb3")]
    case CyberNight => [
      ElementRule("geometry", "#0f0c29"), FeatureRule("road", "#5f0f40"),
      ElementRule("labels.text.fill", "#ff4ecd"), FeatureRule("water", "#2d0638")]
    case SepiaDust => [
      ElementRule("geometry", "#e9dac1"), ElementRule("labels.text.fill", "#4a4238"),
      FeatureRule("road", "#d4c5a8"), FeatureRule("water", "#b5a992")]
    case OceanBreeze => [
      ElementRule("geometry", "#e0f7fa"), FeatureRule("water", "#0288d1"),
      FeatureRule("road", "#b3e5fc"), ElementRule("labels.text.fill", "#006064")]
    case SakuraBlossom => [
      ElementRule("geometry", "#ffe4e1"), ElementRule("labels.text.fill", "#d81b60"),
      FeatureRule("road", "#fce4ec"), FeatureRule("water", "#f8bbd0")]
    case DesertGlow => [
      ElementRule("geometry", "#f5f0e1"), FeatureRule("road", "#e3c29b"),
      ElementRule("labels.text.fill", "#a85b00"), FeatureRule("water", "#c2b280")]
    case MidnightBlues => [
      ElementRule("geometry", "#1e2a38"), FeatureRule("water", "#1a237e"),
      FeatureRule("road", "#3949ab"), ElementRule("labels.text.fill", "#bbdefb")]
    case ForestCalm => [
      ElementRule("geometry", "#e8f5e9"), FeatureRule("water", "#b9f6ca"),
      FeatureRule("road", "#c8e6c9"), ElementRule("labels.text.fill", "#33691e")]
    case OceanBlue => [
      ElementRule("geometry", "#e3f2fd"), FeatureRule("water", "#0d47a1"),
      FeatureRule("road", "#bbdefb"), ElementRule("labels.text.fill", "#1565c0")]
    case MysticPurple => [
      ElementRule("geometry", "#ede7f6"), FeatureRule("water", "#9575cd"),
      FeatureRule("road", "#d1c4e9"), ElementRule("labels.text.fill", "#4527a0")]
    case CitrusZest => [
      ElementRule("geometry", "#fff3e0"), FeatureRule("water", "#ffcc80"),
      FeatureRule("road", "#ffe0b2"), ElementRule("labels.text.fill", "#e65100")]
  }

  /** `mapStyles[k]`: the literal passed through `validateMapStyles`. */
  function StylesOf(k: StyleKey): seq<StyleRule> {
    ValidateMapStyles(StyleArray(RawStyles(k)))
  }

  /** Every catalog rule is scoped by a feature or an element type and has an array of stylers,
      so validation leaves the catalog as written. */
  lemma CatalogRulesWellFormed(k: StyleKey)
    ensures forall i :: 0 <= i < |RawStyles(k)| ==>
      (RawStyles(k)[i].featureType.Some? || RawStyles(k)[i].elementType.Some?) && RawStyles(k)[i].stylers.JArr?
    ensures StylesOf(k) == RawStyles(k)
  {
    RawRulesScoped(k);
    ValidArrayUnchanged(RawStyles(k));
  }

  /** Validation leaves a list whose every `stylers` is an array as it is. */
  lemma ValidArrayUnchanged(rules: seq<StyleRule>)
    requires forall i :: 0 <= i < |rules| ==> rules[i].stylers.JArr?
    ensures ValidateMapStyles(StyleArray(rules)) == rules
  {
  }

  predicate ScopedArrayRule(rule: StyleRule) {
    (rule.featureType.Some? || rule.elementType.Some?) && rule.stylers.JArr?
  }

  lemma RawRulesScoped(k: StyleKey)
    ensures forall i :: 0 <= i < |RawStyles(k)| ==> ScopedArrayRule(RawStyles(k)[i])
  {
    match k
    case Default =>
    case DarkNova =>
    case PastelPop =>
    case MinimalInk =>
    case RetroWave =>
    case CyberNight =>
    case SepiaDust =>
    case OceanBreeze =>
    case SakuraBlossom =>
    case DesertGlow =>
    case MidnightBlues =>
    case ForestCalm =>
    case OceanBlue =>
    case MysticPurple =>
    case CitrusZest =>
  }

  datatype Category = Standard | Dark | Colorful | Minimal | Vintage | Nature

  function CategoryName(c: Category): string {
    match c
    case Standard => "standard"
    case Dark => "dark"
    case Colorful => "colorful"
    case Minimal => "minimal"
    case Vintage => "vintage"
    case Nature => "nature"
  }

  /** One entry of `themeMetadata`. */
  datatype ThemeMeta = ThemeMeta(name: string, description: string, emoji: string, category: Category, isDark: bool)

  /** The `name` of a catalog entry. */
  function DisplayName(k: StyleKey): string {
    match k
    case Default => "Default"
    case DarkNova => "Dark Nova"
    case PastelPop => "Pastel Pop"
    case MinimalInk => "Minimal Ink"
    case RetroWave => "Retro Wave"
    case CyberNight => "Cyber Night"
    case SepiaDust => "Sepia Dust"
    case OceanBreeze => "Ocean Breeze"
    case SakuraBlossom => "Sakura Blossom"
    case DesertGlow => "Desert Glow"
    case MidnightBlues => "Midnight Blues"
    case ForestCalm => "Forest Calm"
    case OceanBlue => "Ocean Blue"
    case MysticPurple => "Mystic Purple"
    case CitrusZest => "Citrus Zest"
  }

  /** The `description` of a catalog entry. */
  function Description(k: StyleKey): string {
    match k
    case Default => "Google's standard map style"
    case DarkNova => "Deep dark theme with neon elements"
    case PastelPop => "Light and colorful candy tones"
    case MinimalInk => "Clean black-and-white minimalism"
    case RetroWave => "Muted 80s-inspired nostalgia"
    case CyberNight => "Synthwave and neon city vibes"
    case SepiaDust => "Warm vintage tones"
    case OceanBreeze => "Cool blues for coastal themes"
    case SakuraBlossom => "Romantic cherry blossom inspired"
    case DesertGlow => "Warm earthy desert tones"
    case MidnightBlues => "Dark with cool blue accents"
    case ForestCalm => "Natural greens and earth tones"
    case OceanBlue => "Calming blues and aqua tones"
    case MysticPurple => "Deep purples and mystical vibes"
    case CitrusZest => "Bright and energetic orange tones"
  }

  /** The `emoji` of a catalog entry. */
  function Emoji(k: StyleKey): string {
    match k
    case Default => "\U{1F5FA}\U{FE0F}"
    case DarkNova => "\U{1F30C}"
    case PastelPop => "\U{1F36C}"
    case MinimalInk => "\U{1F5A4}"
    case RetroWave => "\U{1F9EC}"
    case CyberNight => "\U{1F49C}"
    case SepiaDust => "\U{2615}"
    case OceanBreeze => "\U{1F30A}"
    case SakuraBlossom => "\U{1F338}"
    case DesertGlow => "\U{1F3DC}\U{FE0F}"
    case MidnightBlues => "\U{1F30C}"
    case ForestCalm => "\U{1F33F}"
    case OceanBlue => "\U{1F30A}"
    case MysticPurple => "\U{1F52E}"
    case CitrusZest => "\U{1F34A}"
  }

  /** The `category` of a catalog entry. */
  function CategoryOf(k: StyleKey): Category {
    match k
    case Default => Standard
    case DarkNova => Dark
    case PastelPop => Colorful
    case MinimalInk => Minimal
    case RetroWave => Vintage
    case CyberNight => Dark
    case SepiaDust => Vintage
    case OceanBreeze => Nature
    case SakuraBlossom => Nature
    case DesertGlow => Nature
    case MidnightBlues => Dark
    case ForestCalm => Nature
    case OceanBlue => Nature
    case MysticPurple => Colorful
    case CitrusZest => Colorful
  }

  /** The `isDark` flag of a catalog entry. */
  function DarkFlag(k: StyleKey): bool {
    match k
    case Default => false
    case DarkNova => true
    case PastelPop => false
    case MinimalInk => false
    case RetroWave => false
    case CyberNight => true
    case SepiaDust => false
    case OceanBreeze => false
    case SakuraBlossom => false
    case DesertGlow => false
    case MidnightBlues => true
    case ForestCalm => false
    case OceanBlue => false
    case MysticPurple => false
    case CitrusZest => false
  }

  /** The `themeMetadata` entry of a key. */
  function Metadata(k: StyleKey): ThemeMeta {
    ThemeMeta(DisplayName(k), Description(k), Emoji(k), CategoryOf(k), DarkFlag(k))
  }

  /** In the catalog a theme is dark exactly when its category is `dark`. */
  lemma DarkIffDarkCategory(k: StyleKey)
    ensures DarkFlag(k) <==> CategoryOf(k) == Dark
  {
    match k
    case Default =>
    case DarkNova =>
    case PastelPop =>
    case MinimalInk =>
    case RetroWave =>
    case CyberNight =>
    case SepiaDust =>
    case OceanBreeze =>
    case SakuraBlossom =>
    case DesertGlow =>
    case MidnightBlues =>
    case ForestCalm =>
    case OceanBlue =>
    case MysticPurple =>
    case CitrusZest =>
  }

  predicate IsDarkKey(k: StyleKey) {
    DarkFlag(k)
  }

  lemma DarkKeysFrom10()
    ensures Seqs.FilterFrom(AllKeys, IsDarkKey, 10) == [MidnightBlues]
  {
    assert Seqs.FilterFrom(AllKeys, IsDarkKey, 14) == [];
    assert Seqs.FilterFrom(AllKeys, IsDarkKey, 13) == [];
    assert Seqs.FilterFrom(AllKeys, IsDarkKey, 12) == [];
    assert Seqs.FilterFrom(AllKeys, IsDarkKey, 11) == [];
    assert Seqs.FilterFrom(AllKeys, IsDarkKey, 10) == [MidnightBlues];
  }

  lemma DarkKeysFrom5()
    ensures Seqs.FilterFrom(AllKeys, IsDarkKey, 5) == [CyberNight, MidnightBlues]
  {
    DarkKeysFrom10();
    assert Seqs.FilterFrom(AllKeys, IsDarkKey, 9) == [MidnightBlues];
    assert Seqs.FilterFrom(AllKeys, IsDarkKey, 8) == [MidnightBlues];
    assert Seqs.FilterFrom(AllKeys, IsDarkKey, 7) == [MidnightBlues];
    assert Seqs.FilterFrom(AllKeys, IsDarkKey, 6) == [MidnightBlues];
    assert Seqs.FilterFrom(AllKeys, IsDarkKey, 5) == [CyberNight, MidnightBlues];
  }

  /** Exactly three catalog entries are dark: darkNova, cyberNight and midnightBlues. */
  lemma ThreeDarkKeys()
    ensures Seqs.Filter(AllKeys, IsDarkKey) == [DarkNova, CyberNight, MidnightBlues]
  {
    DarkKeysFrom5();
    assert Seqs.FilterFrom(AllKeys, IsDarkKey, 4) == [CyberNight, MidnightBlues];
    assert Seqs.FilterFrom(AllKeys, IsDarkKey, 3) == [CyberNight, MidnightBlues];
    assert Seqs.FilterFrom(AllKeys, IsDarkKey, 2) == [CyberNight, MidnightBlues];
    assert Seqs.FilterFrom(AllKeys, IsDarkKey, 1) == [DarkNova, CyberNight, MidnightBlues];
    assert Seqs.FilterFrom(AllKeys, IsDarkKey, 0) == [DarkNova, CyberNight, MidnightBlues];
    Seqs.FilterFromIsFilter(AllKeys, IsDarkKey, 0);
    assert AllKeys[0..] == AllKeys;
  }

  /** `getThemeStyles`: the catalog styles of an own key, or the default styles for any other
      string. */
  function GetThemeStyles(themeKey: string): seq<StyleRule> {
    match ParseKey(themeKey)
    case Some(k) => StylesOf(k)
    case None => StylesOf(Default)
  }

  /** A key's name yields that key's styles; a string that is not an own key yields the empty
      default styles. */
  lemma GetThemeStylesLookup(themeKey: string)
    ensures forall k :: KeyName(k) == themeKey ==> GetThemeStyles(themeKey) == StylesOf(k)
    ensures ParseKey(themeKey).None? ==> GetThemeStyles(themeKey) == []
  {
    forall k | KeyName(k) == themeKey ensures GetThemeStyles(themeKey) == StylesOf(k) {
      ParseKeyName(k);
    }
  }

  /** Every key occurs in `AllKeys`. */
  lemma KeyListed(k: StyleKey)
    ensures k in AllKeys
  {
    match k
    case Default =>
    case DarkNova =>
    case PastelPop =>
    case MinimalInk =>
    case RetroWave =>
    case CyberNight =>
    case SepiaDust =>
    case OceanBreeze =>
    case SakuraBlossom =>
    case DesertGlow =>
    case MidnightBlues =>
    case ForestCalm =>
    case OceanBlue =>
    case MysticPurple =>
    case CitrusZest =>
  }

  /** The position of a key in `AllKeys`. */
  function KeyIndex(k: StyleKey): nat {
    match k
    case Default => 0
    case DarkNova => 1
    case PastelPop => 2
    case MinimalInk => 3
    case RetroWave => 4
    case CyberNight => 5
    case SepiaDust => 6
    case OceanBreeze => 7
    case SakuraBlossom => 8
    case DesertGlow => 9
    case MidnightBlues => 10
    case ForestCalm => 11
    case OceanBlue => 12
    case MysticPurple => 13
    case CitrusZest => 14
  }

  /** `AllKeys` lists each key once, at its index. */
  lemma AllKeysDistinct()
    ensures |AllKeys| == 15
    ensures forall i :: 0 <= i < |AllKeys| ==> KeyIndex(AllKeys[i]) == i
    ensures Seqs.Distinct(AllKeys)
  {
    forall i | 0 <= i < |AllKeys| ensures KeyIndex(AllKeys[i]) == i {
      if i < 5 {
        assert i == 0 || i == 1 || i == 2 || i == 3 || i == 4;
      } else if i < 10 {
        assert i == 5 || i == 6 || i == 7 || i == 8 || i == 9;
      } else {
        assert i == 10 || i == 11 || i == 12 || i == 13 || i == 14;
      }
    }
  }

  /** `getAllThemeKeys`: the key names in declaration order. */
  function GetAllThemeKeys(): seq<string> {
    Seqs.Map(AllKeys, KeyName)
  }

  /** The fifteen names are distinct and each names the catalog key at its position. */
  lemma AllThemeKeysNameTheCatalog()
    ensures |GetAllThemeKeys()| == 15
    ensures forall i :: 0 <= i < |GetAllThemeKeys()| ==> ParseKey(GetAllThemeKeys()[i]) == Some(AllKeys[i])
    ensures Seqs.Distinct(GetAllThemeKeys())
  {
    var r := GetAllThemeKeys();
    forall i | 0 <= i < |r| ensures ParseKey(r[i]) == Some(AllKeys[i]) {
      ParseKeyName(AllKeys[i]);
    }
    AllKeysDistinct();
    forall i, j | 0 <= i < j < |r| ensures r[i] != r[j] {
      assert ParseKey(r[i]) == Some(AllKeys[i]) && ParseKey(r[j]) == Some(AllKeys[j]);
      assert KeyIndex(AllKeys[i]) != KeyIndex(AllKeys[j]);
    }
  }

  /** An entry of `getThemesByCategory`: the metadata tagged with its key. */
  datatype CategoryEntry = CategoryEntry(key: string, meta: ThemeMeta)

  function EntryOf(k: StyleKey): CategoryEntry {
    CategoryEntry(KeyName(k), Metadata(k))
  }

  function InCategory(category: string): StyleKey -> bool {
    (k: StyleKey) => CategoryName(CategoryOf(k)) == category
  }

  /** `getThemesByCategory` of mapStyles.ts: the metadata entries of that category in declaration
      order, each tagged with its key. */
  function GetThemesByCategory(category: string): seq<CategoryEntry> {
    Seqs.Map(Seqs.Filter(AllKeys, InCategory(category)), EntryOf)
  }

  /** An entry is listed under a category exactly when it is the entry of a key of that category. */
  lemma ThemesByCategoryMembers(category: string, e: CategoryEntry)
    ensures e in GetThemesByCategory(category) <==>
      exists k :: e == EntryOf(k) && CategoryName(CategoryOf(k)) == category
  {
    var keys := Seqs.Filter(AllKeys, InCategory(category));
    var r := GetThemesByCategory(category);
    if e in r {
      var i :| 0 <= i < |r| && r[i] == e;
      assert keys[i] in keys;
      assert e == EntryOf(keys[i]);
    }
    if k :| e == EntryOf(k) && CategoryName(CategoryOf(k)) == category {
      KeyListed(k);
      assert k in keys;
      var i :| 0 <= i < |keys| && keys[i] == k;
      assert r[i] == e;
    }
  }
}
