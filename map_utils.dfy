/** Embed-snippet generators, the predefined theme table and the sample-pin helpers
    (src/features/map/utils/mapUtils.ts). */
module MapUtils {
  import opened Wrappers
  import opened JsonValues
  import opened Model
  import Text

  /** The ten keys of `predefinedThemes`, in declaration order. */
  datatype PredefinedKey = PDefault | PLight | PDark | PSunset | PAqua | PGrayscale | PMidnight | PNature | PRetro | PNeon

  function PredefinedName(k: PredefinedKey): string {
    match k
    case PDefault => "default"
    case PLight => "light"
    case PDark => "dark"
    case PSunset => "sunset"
    case PAqua => "aqua"
    case PGrayscale => "grayscale"
    case PMidnight => "midnight"
    case PNature => "nature"
    case PRetro => "retro"
    case PNeon => "neon"
  }

  /** `{ featureType: ft, elementType: et, stylers: [{ color }] }` */
  function Rule(ft: string, et: string, color: string): StyleRule {
    StyleRule(Some(ft), Some(et), JArr([JObj(map["color" := JStr(color)])]))
  }

  function PredefinedStyles(k: PredefinedKey): seq<StyleRule> {
    match k
    case PDefault => []
    case PLight => [
      Rule("all", "labels.text.fill", "#6b7280"), Rule("water", "geometry.fill", "#dbeafe"),
      Rule("landscape", "geometry.fill", "#f9fafb"), Rule("road", "geometry", "#e5e7eb"),
      Rule("poi", "geometry", "#d1fae5")]
    case PDark => [
      Rule("all", "labels.text.fill", "#d1d5db"), Rule("all", "geometry", "#1f2937"),
      Rule("water", "geometry.fill", "#0f172a"), Rule("road", "geometry", "#374151"),
      Rule("poi", "geometry", "#312e81")]
    case PSunset => [
      Rule("all", "labels.text.fill", "#713f12"), Rule("water", "geometry.fill", "#fef3c7"),
      Rule("landscape", "geometry.fill", "#fef2f2"), Rule("road", "geometry", "#fecaca"),
      Rule("poi", "geometry", "#fed7aa")]
    case PAqua => [
      Rule("all", "labels.text.fill", "#0f766e"), Rule("water", "geometry.fill", "#a5f3fc"),
      Rule("landscape", "geometry.fill", "#f0fdfa"), Rule("road", "geometry", "#ccfbf1"),
      Rule("poi", "geometry", "#99f6e4")]
    case PGrayscale => [
      StyleRule(Some("all"), Some("all"), JArr([JObj(map["saturation" := JNum(-100.0)])])),
      Rule("water", "geometry.fill", "#e5e7eb")]
    case PMidnight => [
      Rule("all", "geometry", "#0f172a"), Rule("all", "labels.text.fill", "#94a3b8"),
      Rule("water", "geometry.fill", "#1e3a8a"), Rule("road", "geometry", "#1e293b"),
      Rule("poi", "geometry", "#312e81"), Rule("transit", "geometry", "#475569")]
    case PNature => [
      Rule("water", "geometry.fill", "#a5f3fc"), Rule("landscape", "geometry.fill", "#d9f99d"),
      Rule("road", "geometry", "#fef3c7"), Rule("poi.park", "geometry", "#86efac"),
      Rule("poi.business", "geometry", "#fef08a")]
    case PRetro => [
      Rule("all", "labels.text.fill", "#6b7280"), Rule("water", "geometry.fill", "#fcd34d"),
      Rule("landscape", "geometry.fill", "#fef3c7"), Rule("road", "geometry", "#fca5a5"),
      Rule("poi", "geometry", "#bbf7d0")]
    case PNeon => [
      Rule("all", "geometry", "#18181b"), Rule("all", "labels.text.fill", "#d4d4d8"),
      Rule("water", "geometry.fill", "#0c4a6e"), Rule("road", "geometry", "#3b0764"),
      Rule("road.highway", "geometry", "#4c1d95"), Rule("poi", "geometry", "#1e293b")]
  }

  /** The entry of `predefinedThemes` under a key. */
  function PredefinedTheme(k: PredefinedKey): Theme {
    match k
    case PDefault => Theme("default", "Default", None, None, None, PredefinedStyles(k), "#3B82F6", "#93C5FD", "#3B82F6", false)
    case PLight => Theme("light", "Light", None, None, None, PredefinedStyles(k), "#60A5FA", "#BFDBFE", "#2563EB", false)
    case PDark => Theme("dark", "Dark", None, None, None, PredefinedStyles(k), "#4B5563", "#9CA3AF", "#6B7280", true)
    case PSunset => Theme("sunset", "Sunset", None, None, None, PredefinedStyles(k), "#F59E0B", "#FCD34D", "#D97706", false)
    case PAqua => Theme("aqua", "Aqua Pop", None, None, None, PredefinedStyles(k), "#06B6D4", "#67E8F9", "#0891B2", false)
    case PGrayscale => Theme("grayscale", "Grayscale", None, None, None, PredefinedStyles(k), "#6B7280", "#9CA3AF", "#4B5563", false)
    case PMidnight => Theme("midnight", "Midnight", None, None, None, PredefinedStyles(k), "#6366f1", "#818cf8", "#4f46e5", true)
    case PNature => Theme("nature", "Nature", None, None, None, PredefinedStyles(k), "#16a34a", "#4ade80", "#15803d", false)
    case PRetro => Theme("retro", "Retro", None, None, None, PredefinedStyles(k), "#f97316", "#fb923c", "#ea580c", false)
    case PNeon => Theme("neon", "Neon", None, None, None, PredefinedStyles(k), "#d946ef", "#e879f9", "#c026d3", true)
  }

  /** The keys of `predefinedThemes`, in the order the object literal lists them. */
  const PredefinedKeys: seq<PredefinedKey> := [PDefault, PLight, PDark, PSunset, PAqua, PGrayscale, PMidnight, PNature, PRetro, PNeon]

  /** An object literal listing `keys` in order, each name bound to its theme. */
  function ThemeTable(keys: seq<PredefinedKey>): map<string, Theme> {
    if keys == [] then map[]
    else
      var last := keys[|keys| - 1];
      ThemeTable(keys[..|keys| - 1])[PredefinedName(last) := PredefinedTheme(last)]
  }

  /** `predefinedThemes` as a dictionary from names to themes. */
  function PredefinedThemes(): map<string, Theme> {
    ThemeTable(PredefinedKeys)
  }

  /** Each predefined theme's id is its key's name. */
  lemma PredefinedThemeId(k: PredefinedKey)
    ensures PredefinedTheme(k).id == PredefinedName(k)
  {
    match k
    case PDefault =>
    case PLight =>
    case PDark =>
    case PSunset =>
    case PAqua =>
    case PGrayscale =>
    case PMidnight =>
    case PNature =>
    case PRetro =>
    case PNeon =>
  }

  /** A table built from keys holds exactly their names, each bound to a theme with that id. */
  lemma {:induction false} ThemeTableEntries(keys: seq<PredefinedKey>)
    ensures forall name :: name in ThemeTable(keys) <==> exists k :: k in keys && PredefinedName(k) == name
    ensures forall name :: name in ThemeTable(keys) ==> ThemeTable(keys)[name].id == name
  {
    if keys != [] {
      var init, last := keys[..|keys| - 1], keys[|keys| - 1];
      var before := ThemeTable(init);
      ThemeTableEntries(init);
      PredefinedThemeId(last);
      assert keys == init + [last];
      assert ThemeTable(keys) == before[PredefinedName(last) := PredefinedTheme(last)];
      forall name ensures name in ThemeTable(keys) <==> exists k :: k in keys && PredefinedName(k) == name {
        if name in ThemeTable(keys) && name != PredefinedName(last) {
          assert name in before;
          var k :| k in init && PredefinedName(k) == name;
          assert k in keys;
        }
      }
    }
  }

  /** Every rule of the table is scoped by both a feature and an element type. */
  lemma PredefinedStylesScoped(k: PredefinedKey)
    ensures forall i :: 0 <= i < |PredefinedStyles(k)| ==>
      PredefinedStyles(k)[i].featureType.Some? && PredefinedStyles(k)[i].elementType.Some?
  {
    match k
    case PDefault =>
    case PLight =>
    case PDark =>
    case PSunset =>
    case PAqua =>
    case PGrayscale =>
    case PMidnight =>
    case PNature =>
    case PRetro =>
    case PNeon =>
  }

  /** The table holds an entry for every key, stored under that key's name, and every entry is
      stored under its own id. */
  lemma PredefinedThemesKeyedById()
    ensures forall k :: PredefinedName(k) in PredefinedThemes()
    ensures forall name :: name in PredefinedThemes() ==> exists k :: PredefinedName(k) == name
    ensures forall name :: name in PredefinedThemes() ==> PredefinedThemes()[name].id == name
  {
    ThemeTableEntries(PredefinedKeys);
    forall k ensures PredefinedName(k) in PredefinedThemes() {
      assert k in PredefinedKeys by {
        match k
        case PDefault =>
        case PLight =>
        case PDark =>
        case PSunset =>
        case PAqua =>
        case PGrayscale =>
        case PMidnight =>
        case PNature =>
        case PRetro =>
        case PNeon =>
      }
    }
  }

  const PinIcons: seq<string> := ["default", "office", "store", "warehouse", "event", "workshop", "restaurant", "hotel", "attraction", "custom"]

  const PinColors: seq<string> := ["#4f46e5", "#10b981", "#f59e0b", "#ef4444", "#8b5cf6", "#ec4899", "#06b6d4", "#84cc16", "#6b7280", "#000000"]

  /** `Math.floor(roll * n)` for `roll` in [0, 1): an index below `n`. */
  function RandomIndex(roll: real, n: nat): (i: nat)
    requires 0.0 <= roll < 1.0 && n > 0
    ensures i < n
  {
    var f := (roll * n as real).Floor;
    assert 0.0 <= roll * n as real < n as real;
    f
  }

  /** `getRandomPinColor` with `Math.random()` supplied as `roll`. */
  function GetRandomPinColor(roll: real): (r: string)
    requires 0.0 <= roll < 1.0
    ensures r in PinColors
  {
    PinColors[RandomIndex(roll, |PinColors|)]
  }

  /** `generateSamplePin(index)` with the two random draws for colour and icon supplied as
      `colorRoll` and `iconRoll`, and the random coordinates as `lat` and `lng`. */
  function GenerateSamplePin(index: int, lat: real, lng: real, colorRoll: real, iconRoll: real): (r: PinFields)
    requires 0.0 <= colorRoll < 1.0 && 0.0 <= iconRoll < 1.0
    ensures r.title == "Sample Location " + Text.IntToString(index + 1)
    ensures r.description == Some("This is a sample location " + Text.IntToString(index + 1) + " for demonstration purposes.")
    ensures r.color.Some? && r.color.value in PinColors
    ensures r.icon.Some? && r.icon.value in PinIcons && r.icon.value != "custom"
  {
    var n := Text.IntToString(index + 1);
    var icon := PinIcons[RandomIndex(iconRoll, |PinIcons| - 1)];
    PinFields(lat, lng, "Sample Location " + n,
      Some("This is a sample location " + n + " for demonstration purposes."),
      Some(icon), Some(GetRandomPinColor(colorRoll)), None, None, None, None, None)
  }

  /** JavaScript's `value || fallback` on an optional string: absent and empty both fall back. */
  function OrDefault(value: Option<string>, fallback: string): (r: string)
    ensures value.Some? && value.value != "" ==> r == value.value
    ensures value.None? || value.value == "" ==> r == fallback
  {
    if value.Some? && value.value != "" then value.value else fallback
  }

  /** `process.env.NEXT_PUBLIC_APP_URL || 'https://mapnest.app'` */
  function BaseUrl(env: Option<string>): string {
    OrDefault(env, "https://mapnest.app")
  }

  /** The `[userId, actualMapId]` destructuring: `mapId.split('_', 2)` when the id holds an
      underscore, and `['user', mapId]` otherwise. */
  function SplitCompositeId(mapId: string): (r: (string, string))
    ensures '_' !in mapId ==> r == ("user", mapId)
    ensures '_' in mapId ==> |Text.Split(mapId, '_')| >= 2
    ensures '_' in mapId ==> r.0 == Text.Split(mapId, '_')[0] && r.1 == Text.Split(mapId, '_')[1]
  {
    if '_' in mapId then
      Text.SplitAtSeparator(mapId, '_');
      var parts := Text.SplitLimit(mapId, '_', 2);
      (parts[0], parts[1])
    else ("user", mapId)
  }

  /** A composite of two underscore-free parts is taken apart into those parts. */
  lemma SplitCompositeIdTwoParts(userId: string, id: string)
    requires '_' !in userId && '_' !in id
    ensures SplitCompositeId(userId + "_" + id) == (userId, id)
  {
    Text.SplitAfterPrefix(userId, '_', id);
    Text.SplitNoSeparator(id, '_');
    assert '_' in userId + "_" + id by { assert (userId + "_" + id)[|userId|] == '_'; }
  }

  /** As written, everything after a second underscore is lost: for the composite of a user id and
      a database map id such as `map_123_abc`, only `map` survives. */
  lemma SplitCompositeIdDropsTail(userId: string, id: string, tail: string)
    requires '_' !in userId && '_' !in id
    ensures SplitCompositeId(userId + "_" + id + "_" + tail) == (userId, id)
  {
    var s := userId + "_" + id + "_" + tail;
    assert s == userId + ['_'] + (id + ['_'] + tail);
    Text.SplitAfterPrefix(userId, '_', id + ['_'] + tail);
    Text.SplitAfterPrefix(id, '_', tail);
    assert s[|userId|] == '_';
  }

  /** The concrete case: `u_map_123_abc` is read as user `u` and map `map`. */
  lemma SplitCompositeIdExample()
    ensures SplitCompositeId("u_map_123_abc") == ("u", "map")
    ensures SplitCompositeId("u_map_123_abc").1 != "map_123_abc"
  {
    SplitCompositeIdDropsTail("u", "map", "123_abc");
    assert "u" + "_" + "map" + "_" + "123_abc" == "u_map_123_abc";
  }

  /** The evidently intended reading: the user id is the text before the first underscore and the
      map id is all the rest. */
  function SplitCompositeIdAtFirst(mapId: string): (r: (string, string))
    ensures '_' !in mapId ==> r == ("user", mapId)
    ensures '_' in mapId ==> '_' !in r.0 && mapId == r.0 + "_" + r.1
  {
    if '_' in mapId then
      Text.SplitJoin(mapId, '_');
      Text.SplitAtSeparator(mapId, '_');
      var userId := Text.Split(mapId, '_')[0];
      Text.SplitPrefix(mapId, '_');
      (userId, mapId[|userId| + 1..])
    else ("user", mapId)
  }

  /** Corrected reading round trip: the composite `${userId}_${mapId}` of an underscore-free user
      id gives back both parts, whatever underscores the map id holds. */
  lemma SplitCompositeIdAtFirstRoundTrip(userId: string, id: string)
    requires '_' !in userId
    ensures SplitCompositeIdAtFirst(userId + "_" + id) == (userId, id)
  {
    var s := userId + "_" + id;
    assert s[|userId|] == '_';
    Text.SplitAfterPrefix(userId, '_', id);
    assert s[|userId| + 1..] == id;
  }

  /** The options `generateEmbedCode` reads; `None` is an absent key. */
  datatype IframeOptions = IframeOptions(
    width: Option<string>,
    height: Option<string>,
    responsive: Option<bool>,
    showAttribution: Option<bool>,
    allowFullscreen: Option<bool>)

  /** `${baseUrl}/${userId}/${actualMapId}?embed=true` */
  function EmbedUrl(env: Option<string>, mapId: string): string {
    var (userId, actualMapId) := SplitCompositeId(mapId);
    BaseUrl(env) + "/" + userId + "/" + actualMapId + "?embed=true"
  }

  /** The nine lines of the iframe template. */
  function IframeLines(url: string, width: string, height: string, fullscreen: string): seq<string> {
    ["<iframe ",
     "  src=\"" + url + "\" ",
     "  width=\"" + width + "\" ",
     "  height=\"" + height + "\" ",
     "  style=\"border:0;\" ",
     "  " + fullscreen + " ",
     "  loading=\"lazy\" ",
     ReferrerLine,
     "</iframe>"]
  }

  /** No template line holds a line break when the inserted values hold none. */
  lemma IframeLinesSingle(url: string, width: string, height: string, fullscreen: string)
    requires '\n' !in url && '\n' !in width && '\n' !in height && '\n' !in fullscreen
    ensures forall i :: 0 <= i < 9 ==> '\n' !in IframeLines(url, width, height, fullscreen)[i]
  {
    var lines := IframeLines(url, width, height, fullscreen);
    FixedLinesSingle();
    WrappedLinesSingle(url, width, height, fullscreen);
    assert lines[0] == "<iframe ";
    assert lines[1] == "  src=\"" + url + "\" ";
    assert lines[2] == "  width=\"" + width + "\" ";
    assert lines[3] == "  height=\"" + height + "\" ";
    assert lines[4] == "  style=\"border:0;\" ";
    assert lines[5] == "  " + fullscreen + " ";
    assert lines[6] == "  loading=\"lazy\" ";
    assert lines[7] == ReferrerLine;
    assert lines[8] == "</iframe>";
  }

  lemma FixedLinesSingle()
    ensures '\n' !in "<iframe " && '\n' !in "  style=\"border:0;\" " && '\n' !in "  loading=\"lazy\" "
    ensures '\n' !in ReferrerLine && '\n' !in "</iframe>"
  {
    ReferrerLineSingle();
  }

  /** The referrer-policy line of the template. */
  const ReferrerLine: string := ReferrerAttr + ReferrerValue
  const ReferrerAttr: string := "  referrerpolicy="
  const ReferrerValue: string := "\"no-referrer-when-downgrade\">"

  lemma ReferrerLineSingle()
    ensures '\n' !in ReferrerLine
  {
    ReferrerAttrSingle();
    ReferrerValueSingle();
  }

  // Helpers of ReferrerLineSingle, one literal piece each.
  lemma ReferrerAttrSingle() ensures '\n' !in ReferrerAttr { }
  lemma ReferrerValueSingle() ensures '\n' !in ReferrerValue { }

  lemma WrappedLinesSingle(url: string, width: string, height: string, fullscreen: string)
    requires '\n' !in url && '\n' !in width && '\n' !in height && '\n' !in fullscreen
    ensures '\n' !in "  src=\"" + url + "\" " && '\n' !in "  width=\"" + width + "\" "
    ensures '\n' !in "  height=\"" + height + "\" " && '\n' !in "  " + fullscreen + " "
  {
  }

  /** `generateEmbedCode`: the iframe template, its lines joined by newlines. */
  function GenerateEmbedCode(env: Option<string>, mapId: string, options: IframeOptions): string {
    var width := OrDefault(options.width, "100%");
    var height := OrDefault(options.height, "500px");
    var fullscreen := if options.allowFullscreen != Some(false) then "allowfullscreen" else "";
    Text.Join(IframeLines(EmbedUrl(env, mapId), width, height, fullscreen), '\n')
  }

  /** Reading the iframe snippet back line by line (for values without line breaks) gives the URL
      built from the id, the width and height or their defaults, and the `allowfullscreen` token
      exactly when `allowFullscreen` is not `false`. */
  lemma GenerateEmbedCodeLines(env: Option<string>, mapId: string, options: IframeOptions)
    requires '\n' !in EmbedUrl(env, mapId)
    requires options.width.Some? ==> '\n' !in options.width.value
    requires options.height.Some? ==> '\n' !in options.height.value
    ensures var lines := Text.Split(GenerateEmbedCode(env, mapId, options), '\n');
      && |lines| == 9
      && lines[1] == "  src=\"" + EmbedUrl(env, mapId) + "\" "
      && lines[2] == "  width=\"" + OrDefault(options.width, "100%") + "\" "
      && lines[3] == "  height=\"" + OrDefault(options.height, "500px") + "\" "
      && (lines[5] == "  allowfullscreen " <==> options.allowFullscreen != Some(false))
      && (lines[5] == "   " <==> options.allowFullscreen == Some(false))
  {
    var url := EmbedUrl(env, mapId);
    var width := OrDefault(options.width, "100%");
    var height := OrDefault(options.height, "500px");
    var fullscreen := if options.allowFullscreen != Some(false) then "allowfullscreen" else "";
    assert '\n' !in width && '\n' !in height && '\n' !in fullscreen;
    IframeSplit(url, width, height, fullscreen);
    FullscreenLine(options.allowFullscreen != Some(false));
  }

  /** The template lines come back out of the snippet. */
  lemma IframeSplit(url: string, width: string, height: string, fullscreen: string)
    requires '\n' !in url && '\n' !in width && '\n' !in height && '\n' !in fullscreen
    ensures Text.Split(Text.Join(IframeLines(url, width, height, fullscreen), '\n'), '\n') == IframeLines(url, width, height, fullscreen)
  {
    IframeLinesSingle(url, width, height, fullscreen);
    Text.JoinSplit(IframeLines(url, width, height, fullscreen), '\n');
  }

  /** The sixth line carries the `allowfullscreen` token exactly when it is switched on, and is
      blank otherwise. */
  lemma FullscreenLine(on: bool)
    ensures var line := "  " + (if on then "allowfullscreen" else "") + " ";
      && (line == "  allowfullscreen " <==> on)
      && (line == "   " <==> !on)
  {
    if !on {
      assert |"  allowfullscreen "| != 3;
    }
  }

  /** For an id without underscores the iframe points at the `user` path; with a composite of two
      underscore-free parts it points at those parts. */
  lemma EmbedUrlShape(env: Option<string>, userId: string, id: string)
    requires '_' !in userId && '_' !in id
    ensures EmbedUrl(env, id) == BaseUrl(env) + "/user/" + id + "?embed=true"
    ensures EmbedUrl(env, userId + "_" + id) == BaseUrl(env) + "/" + userId + "/" + id + "?embed=true"
  {
    SplitCompositeIdTwoParts(userId, id);
  }

  /** The embed URL with the composite id split at its first underscore only. */
  function IntendedEmbedUrl(env: Option<string>, mapId: string): string {
    var (userId, actualMapId) := SplitCompositeIdAtFirst(mapId);
    BaseUrl(env) + "/" + userId + "/" + actualMapId + "?embed=true"
  }

  /** The corrected URL names the whole map id, underscores included, and agrees with the URL as
      written whenever the map id has no underscore. */
  lemma IntendedEmbedUrlKeepsId(env: Option<string>, userId: string, id: string)
    requires '_' !in userId
    ensures IntendedEmbedUrl(env, userId + "_" + id) == BaseUrl(env) + "/" + userId + "/" + id + "?embed=true"
    ensures '_' !in id ==> IntendedEmbedUrl(env, userId + "_" + id) == EmbedUrl(env, userId + "_" + id)
  {
    SplitCompositeIdAtFirstRoundTrip(userId, id);
    if '_' !in id {
      SplitCompositeIdTwoParts(userId, id);
    }
  }

  /** The options `generateScriptEmbedCode` reads. */
  datatype ScriptOptions = ScriptOptions(width: Option<string>, height: Option<string>, responsive: Option<bool>)

  /** The placeholder `div` line of the script snippet. */
  function DivLine(mapId: string, width: string, height: string): (r: string)
    ensures '\n' !in mapId && '\n' !in width && '\n' !in height ==> '\n' !in r
  {
    "<div id=\"mapnest-" + mapId + "\" style=\"width:" + width + ";height:" + height + ";\"></div>"
  }

  /** The loader `script` line: its opening, the `data-mapid` attribute, then the closing part
      with the responsive flag. */
  function ScriptLine(base: string, mapId: string, responsive: string): (r: string)
    ensures '\n' !in base && '\n' !in mapId && '\n' !in responsive ==> '\n' !in r
  {
    ScriptHead(base) + DataMapId(mapId) + ScriptTail(responsive)
  }

  function ScriptHead(base: string): string { "<script src=\"" + base + "/api/embed.js\" " }

  function DataMapId(mapId: string): string { "data-mapid=\"" + mapId + "\"" }

  function ScriptTail(responsive: string): string { " " + responsive + " async></script>" }

  /** The script line always names the map and carries whatever responsive attribute it is given. */
  lemma ScriptLineAttributes(base: string, mapId: string, responsive: string)
    ensures Text.Contains(ScriptLine(base, mapId, responsive), DataMapId(mapId))
    ensures Text.Contains(ScriptLine(base, mapId, responsive), responsive)
  {
    Text.ContainsSpliced(ScriptHead(base), DataMapId(mapId), ScriptTail(responsive));
    var pre := ScriptHead(base) + DataMapId(mapId) + " ";
    assert ScriptLine(base, mapId, responsive) == pre + responsive + " async></script>";
    Text.ContainsSpliced(pre, responsive, " async></script>");
  }

  /** `generateScriptEmbedCode`: a placeholder `div` and the loader script, on two lines. */
  function GenerateScriptEmbedCode(env: Option<string>, mapId: string, options: ScriptOptions): string {
    var width := OrDefault(options.width, "100%");
    var height := OrDefault(options.height, "500px");
    DivLine(mapId, width, height) + "\n" + ScriptLine(BaseUrl(env), mapId, ResponsiveToken(options.responsive))
  }

  /** The responsive attribute of the script: present unless `responsive` is `false`. */
  function ResponsiveToken(responsive: Option<bool>): string {
    if responsive != Some(false) then "data-responsive=\"true\"" else ""
  }

  /** The script snippet is two lines: the `div` named `mapnest-<mapId>` with the width and height
      or their defaults, and the script carrying `data-mapid="<mapId>"` and `data-responsive="true"`
      unless `responsive` is `false`. */
  lemma GenerateScriptEmbedCodeLines(env: Option<string>, mapId: string, options: ScriptOptions)
    requires '\n' !in mapId && '\n' !in BaseUrl(env)
    requires options.width.Some? ==> '\n' !in options.width.value
    requires options.height.Some? ==> '\n' !in options.height.value
    ensures var lines := Text.Split(GenerateScriptEmbedCode(env, mapId, options), '\n');
      && |lines| == 2
      && lines[0] == DivLine(mapId, OrDefault(options.width, "100%"), OrDefault(options.height, "500px"))
      && lines[1] == ScriptLine(BaseUrl(env), mapId, ResponsiveToken(options.responsive))
      && (ResponsiveToken(options.responsive) == "data-responsive=\"true\"" <==> options.responsive != Some(false))
      && (ResponsiveToken(options.responsive) == "" <==> options.responsive == Some(false))
      && Text.Contains(lines[1], DataMapId(mapId))
      && (options.responsive != Some(false) ==> Text.Contains(lines[1], "data-responsive=\"true\""))
  {
    var width := OrDefault(options.width, "100%");
    var height := OrDefault(options.height, "500px");
    var responsive := ResponsiveToken(options.responsive);
    assert '\n' !in width && '\n' !in height && '\n' !in responsive;
    TwoLines(DivLine(mapId, width, height), ScriptLine(BaseUrl(env), mapId, responsive));
    ScriptLineAttributes(BaseUrl(env), mapId, responsive);
  }

  /** Two line-break-free lines joined by a line break split back into the two. */
  lemma TwoLines(first: string, second: string)
    requires '\n' !in first && '\n' !in second
    ensures Text.Split(first + "\n" + second, '\n') == [first, second]
  {
    Text.SplitAfterPrefix(first, '\n', second);
    Text.SplitNoSeparator(second, '\n');
  }
}
