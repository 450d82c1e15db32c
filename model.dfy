/** The entities of the map editor (pins, themes, layouts, embed options, saved maps) and the
    object-spread merges that the stores apply to them. */
module Model {
  import opened Wrappers
  import opened JsonValues

  datatype Animation = Drop | Bounce | NoAnimation

  /** Everything a pin carries besides its identifier (`Omit<MapPin, 'id'>`). */
  datatype PinFields = PinFields(
    lat: real,
    lng: real,
    title: string,
    description: Option<string>,
    icon: Option<string>,
    color: Option<string>,
    category: Option<string>,
    imageUrl: Option<string>,
    url: Option<string>,
    isActive: Option<bool>,
    animation: Option<Animation>)

  /** A map pin: its identifier and its fields. */
  datatype Pin = Pin(id: string, fields: PinFields)

  /** A partial pin update (`Partial<Omit<MapPin, 'id'>>`); `None` is an absent key. */
  datatype PinPatch = PinPatch(
    lat: Option<real>,
    lng: Option<real>,
    title: Option<string>,
    description: Option<string>,
    icon: Option<string>,
    color: Option<string>,
    category: Option<string>,
    imageUrl: Option<string>,
    url: Option<string>,
    isActive: Option<bool>,
    animation: Option<Animation>)

  /** `{...pin, ...patch}` on the pin's fields. */
  function MergePin(f: PinFields, p: PinPatch): (r: PinFields)
    ensures p.lat.Some? ==> r.lat == p.lat.value
    ensures p.lat.None? ==> r.lat == f.lat
    ensures p.lng.Some? ==> r.lng == p.lng.value
    ensures p.lng.None? ==> r.lng == f.lng
    ensures p.title.Some? ==> r.title == p.title.value
    ensures p.title.None? ==> r.title == f.title
    ensures p.description.Some? ==> r.description == p.description
    ensures p.description.None? ==> r.description == f.description
    ensures p.icon.Some? ==> r.icon == p.icon
    ensures p.icon.None? ==> r.icon == f.icon
    ensures p.color.Some? ==> r.color == p.color
    ensures p.color.None? ==> r.color == f.color
    ensures p.category.Some? ==> r.category == p.category
    ensures p.category.None? ==> r.category == f.category
    ensures p.imageUrl.Some? ==> r.imageUrl == p.imageUrl
    ensures p.imageUrl.None? ==> r.imageUrl == f.imageUrl
    ensures p.url.Some? ==> r.url == p.url
    ensures p.url.None? ==> r.url == f.url
    ensures p.isActive.Some? ==> r.isActive == p.isActive
    ensures p.isActive.None? ==> r.isActive == f.isActive
    ensures p.animation.Some? ==> r.animation == p.animation
    ensures p.animation.None? ==> r.animation == f.animation
    ensures p == PinPatch(None, None, None, None, None, None, None, None, None, None, None) ==> r == f
  {
    PinFields(
      Over(Some(f.lat), p.lat).value,
      Over(Some(f.lng), p.lng).value,
      Over(Some(f.title), p.title).value,
      Over(f.description, p.description),
      Over(f.icon, p.icon),
      Over(f.color, p.color),
      Over(f.category, p.category),
      Over(f.imageUrl, p.imageUrl),
      Over(f.url, p.url),
      Over(f.isActive, p.isActive),
      Over(f.animation, p.animation))
  }

  /** The display arrangement of a map (`MapLayout`). */
  datatype Layout = Fullscreen | Split | SidebarRight | FloatingCard | ListMode

  /** One rule of a map style: an optional feature and element scope and its `stylers` value,
      which is meant to be an array of style directives but is not checked to be one. */
  datatype StyleRule = StyleRule(featureType: Option<string>, elementType: Option<string>, stylers: Json)

  /** A map theme; `description`, `emoji` and `category` are set by the theme catalog only. */
  datatype Theme = Theme(
    id: string,
    name: string,
    description: Option<string>,
    emoji: Option<string>,
    category: Option<string>,
    styles: seq<StyleRule>,
    primaryColor: string,
    secondaryColor: string,
    pinColor: string,
    isDark: bool)

  /** `Partial<EmbedOptions>`, with the `showFullInterface` and `theme` keys the code also uses. */
  datatype EmbedPatch = EmbedPatch(
    mapId: Option<string>,
    width: Option<string>,
    height: Option<string>,
    responsive: Option<bool>,
    showAttribution: Option<bool>,
    allowFullscreen: Option<bool>,
    showFullInterface: Option<bool>,
    theme: Option<Theme>)

  /** Embed options with every key present (the `theme` key stays optional). */
  datatype EmbedOptions = EmbedOptions(
    mapId: string,
    width: string,
    height: string,
    responsive: bool,
    showAttribution: bool,
    allowFullscreen: bool,
    showFullInterface: bool,
    theme: Option<Theme>)

  /** The empty object `{}`. */
  const NoEmbedKeys := EmbedPatch(None, None, None, None, None, None, None, None)

  /** The embed options a new editor map starts with: full width, 500 pixels high, responsive,
      with attribution and the full-screen button. */
  const StarterEmbedOptions := EmbedPatch(None, Some("100%"), Some("500px"), Some(true), Some(true), Some(true), None, None)

  /** `{...base, ...top}` on partial embed options. */
  function OverlayEmbed(base: EmbedPatch, top: EmbedPatch): EmbedPatch {
    EmbedPatch(
      Over(base.mapId, top.mapId),
      Over(base.width, top.width),
      Over(base.height, top.height),
      Over(base.responsive, top.responsive),
      Over(base.showAttribution, top.showAttribution),
      Over(base.allowFullscreen, top.allowFullscreen),
      Over(base.showFullInterface, top.showFullInterface),
      Over(base.theme, top.theme))
  }

  /** `{...base, ...top}` where `base` has every key. */
  function ApplyEmbed(base: EmbedOptions, top: EmbedPatch): EmbedOptions {
    EmbedOptions(
      top.mapId.GetOr(base.mapId),
      top.width.GetOr(base.width),
      top.height.GetOr(base.height),
      top.responsive.GetOr(base.responsive),
      top.showAttribution.GetOr(base.showAttribution),
      top.allowFullscreen.GetOr(base.allowFullscreen),
      top.showFullInterface.GetOr(base.showFullInterface),
      Over(base.theme, top.theme))
  }

  /** A shallow merge: the keys of `top` win and every key `top` lacks keeps its old value. */
  lemma OverlayEmbedKeys(base: EmbedPatch, top: EmbedPatch)
    ensures var r := OverlayEmbed(base, top);
      && (top.width.Some? ==> r.width == top.width) && (top.width.None? ==> r.width == base.width)
      && (top.height.Some? ==> r.height == top.height) && (top.height.None? ==> r.height == base.height)
      && (top.mapId.Some? ==> r.mapId == top.mapId) && (top.mapId.None? ==> r.mapId == base.mapId)
      && (top.responsive.Some? ==> r.responsive == top.responsive)
      && (top.responsive.None? ==> r.responsive == base.responsive)
      && (top.showAttribution.Some? ==> r.showAttribution == top.showAttribution)
      && (top.showAttribution.None? ==> r.showAttribution == base.showAttribution)
      && (top.allowFullscreen.Some? ==> r.allowFullscreen == top.allowFullscreen)
      && (top.allowFullscreen.None? ==> r.allowFullscreen == base.allowFullscreen)
      && (top.showFullInterface.Some? ==> r.showFullInterface == top.showFullInterface)
      && (top.showFullInterface.None? ==> r.showFullInterface == base.showFullInterface)
      && (top.theme.Some? ==> r.theme == top.theme) && (top.theme.None? ==> r.theme == base.theme)
  {
  }

  /** Merging `{}` either way changes nothing, merging the same keys twice is merging them once,
      and two successive merges are one merge of the combined keys. */
  lemma OverlayEmbedAlgebra(a: EmbedPatch, b: EmbedPatch, c: EmbedPatch)
    ensures OverlayEmbed(a, NoEmbedKeys) == a && OverlayEmbed(NoEmbedKeys, a) == a
    ensures OverlayEmbed(OverlayEmbed(a, b), b) == OverlayEmbed(a, b)
    ensures OverlayEmbed(OverlayEmbed(a, b), c) == OverlayEmbed(a, OverlayEmbed(b, c))
  {
  }

  /** Applying two partial option sets in turn is applying their merge once. */
  lemma ApplyEmbedTwice(base: EmbedOptions, p: EmbedPatch, q: EmbedPatch)
    ensures ApplyEmbed(ApplyEmbed(base, p), q) == ApplyEmbed(base, OverlayEmbed(p, q))
    ensures ApplyEmbed(base, NoEmbedKeys) == base
  {
  }

  /** A saved map as the zustand store and the file storage keep it. */
  datatype SavedMap = SavedMap(
    id: string,
    name: string,
    pins: seq<Pin>,
    theme: Option<Theme>,
    layout: Layout,
    embedOptions: EmbedPatch,
    createdAt: int,
    updatedAt: int)
}
