/** The embed-code panel: option merge, iframe and script snippets, the displayed code and the
    option-change callback (src/components/molecules/EmbedCode.tsx). */
module EmbedCode {
  import opened Wrappers
  import opened Model
  import Text
  import UrlEncoding
  import MapUtils

  /** The options every snippet starts from; the map id is the component's own. */
  function DefaultOptions(mapId: string): EmbedOptions {
    EmbedOptions(mapId, "100%", "500px", true, true, true, false, None)
  }

  /** `{...defaultOptions, ...options}`: each key the caller gives wins, every other key keeps its
      default. */
  function MergeOptions(mapId: string, options: EmbedPatch): (r: EmbedOptions)
    ensures r.mapId == options.mapId.GetOr(mapId)
    ensures r.width == options.width.GetOr("100%") && r.height == options.height.GetOr("500px")
    ensures r.responsive == options.responsive.GetOr(true)
    ensures r.showAttribution == options.showAttribution.GetOr(true)
    ensures r.allowFullscreen == options.allowFullscreen.GetOr(true)
    ensures r.showFullInterface == options.showFullInterface.GetOr(false)
    ensures r.theme == options.theme
  {
    ApplyEmbed(DefaultOptions(mapId), options)
  }

  /** Merging a combined update equals merging the first and then overlaying the second. */
  lemma MergeOptionsOverlay(mapId: string, p: EmbedPatch, q: EmbedPatch)
    ensures MergeOptions(mapId, OverlayEmbed(p, q)) == ApplyEmbed(MergeOptions(mapId, p), q)
  {
    ApplyEmbedTwice(DefaultOptions(mapId), p, q);
  }

  /** `options.theme?.id` when truthy: read from the caller's options, not the merged ones. */
  function ThemeId(options: EmbedPatch): Option<string> {
    if options.theme.Some? && options.theme.value.id != "" then Some(options.theme.value.id) else None
  }

  /** The parameters set on the `URLSearchParams`, in the order they are set. */
  function IframeParams(mapId: string, options: EmbedPatch): (r: seq<(string, string)>)
    ensures ThemeId(options).Some? ==> |r| >= 1 && r[0] == ("theme", ThemeId(options).value)
    ensures ("fullInterface", "true") in r <==> MergeOptions(mapId, options).showFullInterface
    ensures (exists v :: ("theme", v) in r) <==> ThemeId(options).Some?
    ensures |r| <= 2
  {
    var theme := if ThemeId(options).Some? then [("theme", ThemeId(options).value)] else [];
    var full := if MergeOptions(mapId, options).showFullInterface then [("fullInterface", "true")] else [];
    theme + full
  }

  /** `${baseUrl}/embed/${mapId}` followed by `?` and the query when there is one. */
  function IframeUrl(env: Option<string>, mapId: string, options: EmbedPatch): (r: string)
    ensures IframeParams(mapId, options) == [] ==> r == MapUtils.BaseUrl(env) + "/embed/" + mapId
    ensures IframeParams(mapId, options) != [] ==>
      r == MapUtils.BaseUrl(env) + "/embed/" + mapId + "?" + UrlEncoding.QueryString(IframeParams(mapId, options))
  {
    var query := UrlEncoding.QueryString(IframeParams(mapId, options));
    UrlEncoding.QueryStringEmpty(IframeParams(mapId, options));
    MapUtils.BaseUrl(env) + "/embed/" + mapId + (if query != "" then "?" + query else "")
  }

  /** `generateIframeCode`: the same nine-line iframe template as the map utilities, filled from
      the merged options. */
  function GenerateIframeCode(env: Option<string>, mapId: string, options: EmbedPatch): string {
    var merged := MergeOptions(mapId, options);
    var fullscreen := if merged.allowFullscreen then "allowfullscreen" else "";
    Text.Join(MapUtils.IframeLines(IframeUrl(env, mapId, options), merged.width, merged.height, fullscreen), '\n')
  }

  /** Read back line by line, the iframe shows the URL, the merged width and height, and the
      `allowfullscreen` token exactly when the merged option is true. */
  lemma GenerateIframeCodeLines(env: Option<string>, mapId: string, options: EmbedPatch)
    requires '\n' !in IframeUrl(env, mapId, options)
    requires '\n' !in MergeOptions(mapId, options).width && '\n' !in MergeOptions(mapId, options).height
    ensures var lines := Text.Split(GenerateIframeCode(env, mapId, options), '\n');
      && |lines| == 9
      && lines[1] == "  src=\"" + IframeUrl(env, mapId, options) + "\" "
      && lines[2] == "  width=\"" + MergeOptions(mapId, options).width + "\" "
      && lines[3] == "  height=\"" + MergeOptions(mapId, options).height + "\" "
      && (lines[5] == "  allowfullscreen " <==> MergeOptions(mapId, options).allowFullscreen)
  {
    var merged := MergeOptions(mapId, options);
    IframeTemplateLines(IframeUrl(env, mapId, options), merged.width, merged.height, merged.allowFullscreen);
  }

  /** The iframe template read back line by line, for any URL, size and fullscreen flag. */
  lemma IframeTemplateLines(url: string, width: string, height: string, on: bool)
    requires '\n' !in url && '\n' !in width && '\n' !in height
    ensures var lines := Text.Split(Text.Join(MapUtils.IframeLines(url, width, height, if on then "allowfullscreen" else ""), '\n'), '\n');
      && |lines| == 9
      && lines[1] == "  src=\"" + url + "\" "
      && lines[2] == "  width=\"" + width + "\" "
      && lines[3] == "  height=\"" + height + "\" "
      && (lines[5] == "  allowfullscreen " <==> on)
  {
    var fullscreen := if on then "allowfullscreen" else "";
    assert '\n' !in fullscreen;
    MapUtils.IframeSplit(url, width, height, fullscreen);
    MapUtils.FullscreenLine(on);
  }

  /** `data-theme="<id>"` when there is a theme id, and nothing otherwise. */
  function ThemeAttr(options: EmbedPatch): string {
    if ThemeId(options).Some? then "data-theme=\"" + ThemeId(options).value + "\"" else ""
  }

  const ResponsiveAttr := "data-responsive=\"true\""
  const FullInterfaceAttr := "data-full-interface=\"true\""

  /** The space-separated fields of the script tag; empty attributes leave empty fields. */
  function ScriptFields(env: Option<string>, mapId: string, options: EmbedPatch): seq<string> {
    var merged := MergeOptions(mapId, options);
    ["<script",
     "src=\"" + MapUtils.BaseUrl(env) + "/api/embed.js\"",
     MapUtils.DataMapId(mapId),
     ThemeAttr(options),
     if merged.responsive then ResponsiveAttr else "",
     if merged.showFullInterface then FullInterfaceAttr else "",
     "async></script>"]
  }

  /** `generateScriptCode`: the placeholder `div` and the script tag, on two lines. */
  function GenerateScriptCode(env: Option<string>, mapId: string, options: EmbedPatch): string {
    var merged := MergeOptions(mapId, options);
    MapUtils.DivLine(mapId, merged.width, merged.height) + "\n" + Text.Join(ScriptFields(env, mapId, options), ' ')
  }

  /** No script field holds a space or a line break when the base URL, the map id and the theme
      id hold none. */
  lemma ScriptFieldsPlain(env: Option<string>, mapId: string, options: EmbedPatch)
    requires ' ' !in MapUtils.BaseUrl(env) && ' ' !in mapId
    requires '\n' !in MapUtils.BaseUrl(env) && '\n' !in mapId
    requires ThemeId(options).Some? ==> ' ' !in ThemeId(options).value && '\n' !in ThemeId(options).value
    ensures forall i :: 0 <= i < 7 ==> ' ' !in ScriptFields(env, mapId, options)[i] && '\n' !in ScriptFields(env, mapId, options)[i]
  {
    var f := ScriptFields(env, mapId, options);
    FixedFieldsPlain();
    assert ' ' !in f[1] && '\n' !in f[1] by {
      var base := MapUtils.BaseUrl(env);
      assert f[1] == "src=\"" + base + "/api/embed.js\"";
      assert ' ' !in "src=\"" && '\n' !in "src=\"";
      assert ' ' !in "/api/embed.js\"" && '\n' !in "/api/embed.js\"";
    }
    assert ' ' !in f[2] && '\n' !in f[2] by {
      assert ' ' !in "data-mapid=\"" && '\n' !in "data-mapid=\"";
    }
    assert ' ' !in f[3] && '\n' !in f[3] by {
      assert ' ' !in "data-theme=\"" && '\n' !in "data-theme=\"";
    }
  }

  /** The fixed parts of the script tag hold no space and no line break. */
  lemma FixedFieldsPlain()
    ensures ' ' !in "<script" && '\n' !in "<script"
    ensures ' ' !in ResponsiveAttr && '\n' !in ResponsiveAttr
    ensures ' ' !in FullInterfaceAttr && '\n' !in FullInterfaceAttr
    ensures ' ' !in "async></script>" && '\n' !in "async></script>"
  {
    ResponsivePlain();
    FullInterfacePlain();
  }

  // Helpers of FixedFieldsPlain, one attribute each.
  lemma ResponsivePlain() ensures ' ' !in ResponsiveAttr && '\n' !in ResponsiveAttr { }
  lemma FullInterfacePlain() ensures ' ' !in FullInterfaceAttr && '\n' !in FullInterfaceAttr { }

  /** Read back, the script snippet is the `div` line and a script tag whose fields name the map,
      carry `data-theme` exactly when there is a theme id, `data-responsive` exactly when the
      merged option is true and `data-full-interface` exactly when the full interface is on. */
  lemma GenerateScriptCodeFields(env: Option<string>, mapId: string, options: EmbedPatch)
    requires ' ' !in MapUtils.BaseUrl(env) && ' ' !in mapId
    requires '\n' !in MapUtils.BaseUrl(env) && '\n' !in mapId
    requires ThemeId(options).Some? ==> ' ' !in ThemeId(options).value && '\n' !in ThemeId(options).value
    requires '\n' !in MergeOptions(mapId, options).width && '\n' !in MergeOptions(mapId, options).height
    ensures var lines := Text.Split(GenerateScriptCode(env, mapId, options), '\n');
      && |lines| == 2
      && lines[0] == MapUtils.DivLine(mapId, MergeOptions(mapId, options).width, MergeOptions(mapId, options).height)
      && var fields := Text.Split(lines[1], ' ');
      && |fields| == 7
      && fields[2] == MapUtils.DataMapId(mapId)
      && (fields[3] != "" <==> ThemeId(options).Some?)
      && (ThemeId(options).Some? ==> fields[3] == "data-theme=\"" + ThemeId(options).value + "\"")
      && (fields[4] == ResponsiveAttr <==> MergeOptions(mapId, options).responsive)
      && (fields[5] == FullInterfaceAttr <==> MergeOptions(mapId, options).showFullInterface)
  {
    var merged := MergeOptions(mapId, options);
    var fields := ScriptFields(env, mapId, options);
    ScriptFieldsPlain(env, mapId, options);
    var tag := Text.Join(fields, ' ');
    Text.JoinSplit(fields, ' ');
    Text.SplitJoin(tag, '\n');
    assert '\n' !in tag by {
      JoinFree(fields, ' ', '\n');
    }
    MapUtils.TwoLines(MapUtils.DivLine(mapId, merged.width, merged.height), tag);
  }

  /** Joining pieces free of `x` with a separator other than `x` gives a string free of `x`. */
  lemma {:induction false} JoinFree(pieces: seq<string>, c: char, x: char)
    requires c != x
    requires forall i :: 0 <= i < |pieces| ==> x !in pieces[i]
    ensures x !in Text.Join(pieces, c)
    decreases |pieces|
  {
    if |pieces| > 1 {
      JoinFree(pieces[1..], c, x);
    }
  }

  /** Which snippet the panel shows. */
  datatype EmbedType = Iframe | Script

  /** `embedCode`: the iframe snippet when the iframe tab is selected, the script snippet
      otherwise; the two are told apart by their opening tag. */
  function DisplayedCode(embedType: EmbedType, env: Option<string>, mapId: string, options: EmbedPatch): (r: string)
    ensures embedType == Iframe ==> r == GenerateIframeCode(env, mapId, options)
    ensures embedType == Script ==> r == GenerateScriptCode(env, mapId, options)
    ensures |r| > 1 && (embedType == Iframe <==> r[1] == 'i')
  {
    match embedType
    case Iframe => GenerateIframeCode(env, mapId, options)
    case Script => GenerateScriptCode(env, mapId, options)
  }

  /** One `handleOptionChange(key, value)` call: the key and its new value. */
  datatype OptionChange =
    | SetMapId(mapId: string)
    | SetWidth(width: string)
    | SetHeight(height: string)
    | SetResponsive(responsive: bool)
    | SetShowAttribution(showAttribution: bool)
    | SetAllowFullscreen(allowFullscreen: bool)
    | SetShowFullInterface(showFullInterface: bool)
    | SetTheme(theme: Theme)

  /** `options` and `r` agree on every key except the one `change` names. */
  predicate SameOtherKeys(r: EmbedPatch, options: EmbedPatch, change: OptionChange) {
    && (!change.SetMapId? ==> r.mapId == options.mapId)
    && (!change.SetWidth? ==> r.width == options.width)
    && (!change.SetHeight? ==> r.height == options.height)
    && (!change.SetResponsive? ==> r.responsive == options.responsive)
    && (!change.SetShowAttribution? ==> r.showAttribution == options.showAttribution)
    && (!change.SetAllowFullscreen? ==> r.allowFullscreen == options.allowFullscreen)
    && (!change.SetShowFullInterface? ==> r.showFullInterface == options.showFullInterface)
    && (!change.SetTheme? ==> r.theme == options.theme)
  }

  /** `r` holds the value `change` sets. */
  predicate HoldsChange(r: EmbedPatch, change: OptionChange) {
    match change
    case SetMapId(v) => r.mapId == Some(v)
    case SetWidth(v) => r.width == Some(v)
    case SetHeight(v) => r.height == Some(v)
    case SetResponsive(v) => r.responsive == Some(v)
    case SetShowAttribution(v) => r.showAttribution == Some(v)
    case SetAllowFullscreen(v) => r.allowFullscreen == Some(v)
    case SetShowFullInterface(v) => r.showFullInterface == Some(v)
    case SetTheme(v) => r.theme == Some(v)
  }

  /** `handleOptionChange`: what is passed to `onOptionsChange` (the caller's raw options with one
      key replaced), or nothing when there is no callback. */
  function HandleOptionChange(options: EmbedPatch, change: OptionChange, hasCallback: bool): (r: Option<EmbedPatch>)
    ensures !hasCallback ==> r.None?
    ensures hasCallback ==> r.Some? && HoldsChange(r.value, change) && SameOtherKeys(r.value, options, change)
  {
    if !hasCallback then None
    else
      Some(match change
        case SetMapId(v) => options.(mapId := Some(v))
        case SetWidth(v) => options.(width := Some(v))
        case SetHeight(v) => options.(height := Some(v))
        case SetResponsive(v) => options.(responsive := Some(v))
        case SetShowAttribution(v) => options.(showAttribution := Some(v))
        case SetAllowFullscreen(v) => options.(allowFullscreen := Some(v))
        case SetShowFullInterface(v) => options.(showFullInterface := Some(v))
        case SetTheme(v) => options.(theme := Some(v)))
  }

  /** Setting a key to the value it already has emits the options unchanged. */
  lemma HandleOptionChangeSameValue(options: EmbedPatch, change: OptionChange)
    requires HoldsChange(options, change)
    ensures HandleOptionChange(options, change, true) == Some(options)
  {
  }
}
