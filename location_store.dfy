/** The embed-builder store: the theme, layout and pin style picked in the builder, the locations
    shown on the map, and the iframe snippet generated from them. Theme, layout and pin style are
    kept as their string names; the page origin, the clock and `JSON.stringify` are parameters. */
module LocationStore {
  import opened Wrappers
  import opened Seqs
  import opened JsonValues
  import Text
  import UrlEncoding

  /** A location on the builder's map: the six fields the embed reads, and whatever else the
      record carries. */
  datatype Location = Location(
    id: string,
    name: string,
    lat: real,
    lng: real,
    category: Option<string>,
    address: Option<string>,
    others: map<string, Json>)

  /** A location as the embed configuration carries it. */
  datatype ConfigLocation = ConfigLocation(
    id: string,
    name: string,
    lat: real,
    lng: real,
    category: Option<string>,
    address: Option<string>)

  /** The configuration object passed to the embed page. */
  datatype EmbedConfig = EmbedConfig(theme: string, layout: string, pinStyle: string, locations: seq<ConfigLocation>)

  function Project(l: Location): ConfigLocation {
    ConfigLocation(l.id, l.name, l.lat, l.lng, l.category, l.address)
  }

  /** The configuration: the three names and every location cut down to its six embed fields, in
      order. */
  function ConfigOf(theme: string, layout: string, pinStyle: string, locations: seq<Location>): (r: EmbedConfig)
    ensures r.theme == theme && r.layout == layout && r.pinStyle == pinStyle
    ensures |r.locations| == |locations|
    ensures forall i :: 0 <= i < |locations| ==>
      && r.locations[i].id == locations[i].id
      && r.locations[i].name == locations[i].name
      && r.locations[i].lat == locations[i].lat
      && r.locations[i].lng == locations[i].lng
      && r.locations[i].category == locations[i].category
      && r.locations[i].address == locations[i].address
  {
    EmbedConfig(theme, layout, pinStyle, Map(locations, Project))
  }

  /** Locations that agree on their six embed fields give the same configuration, whatever else
      they carry. */
  lemma ConfigIgnoresOtherFields(theme: string, layout: string, pinStyle: string, a: seq<Location>, b: seq<Location>)
    requires |a| == |b|
    requires forall i :: 0 <= i < |a| ==> a[i].(others := map[]) == b[i].(others := map[])
    ensures ConfigOf(theme, layout, pinStyle, a) == ConfigOf(theme, layout, pinStyle, b)
  {
    var ca := ConfigOf(theme, layout, pinStyle, a).locations;
    var cb := ConfigOf(theme, layout, pinStyle, b).locations;
    forall i | 0 <= i < |a| ensures ca[i] == cb[i] {
      assert a[i].(others := map[]).id == b[i].(others := map[]).id;
    }
  }

  /** The `src` attribute: the origin's `/embed` page with the encoded configuration. */
  function EmbedSrc(origin: string, encodedConfig: string): string {
    origin + "/embed?config=" + encodedConfig
  }

  /** The fixed styling of the frame: no border, rounded corners and a soft shadow. */
  const StyleLine: string := StyleBorder + StyleRadius + StyleShadow + StyleShadowColor
  const StyleBorder: string := "  style=\"border: none; "
  const StyleRadius: string := "border-radius: 8px; "
  const StyleShadow: string := "box-shadow: 0 2px 8px "
  const StyleShadowColor: string := "rgba(0,0,0,0.1);\""

  lemma StyleLineSingle()
    ensures '\n' !in StyleLine
  {
    BorderSingle();
    RadiusSingle();
    ShadowSingle();
    ShadowColorSingle();
    assert '\n' !in StyleBorder + StyleRadius;
    assert '\n' !in StyleBorder + StyleRadius + StyleShadow;
  }

  // Helpers of StyleLineSingle: one literal piece each, so that no single proof has to scan the
  // whole style line.
  lemma BorderSingle() ensures '\n' !in StyleBorder { }
  lemma RadiusSingle() ensures '\n' !in StyleRadius { }
  lemma ShadowSingle() ensures '\n' !in StyleShadow { }
  lemma ShadowColorSingle() ensures '\n' !in StyleShadowColor { }

  /** The nine lines of the iframe template. */
  function EmbedLines(src: string, width: string, height: string): seq<string> {
    ["<iframe ",
     "  src=\"" + src + "\"",
     "  width=\"" + width + "\"",
     "  height=\"" + height + "\"",
     StyleLine,
     "  title=\"MapNest Embed\"",
     "  allow=\"geolocation\"",
     "  loading=\"lazy\">",
     "</iframe>"]
  }

  /** The snippet `generateEmbedCode` stores, given the serialiser of the configuration. */
  function EmbedCodeFor(origin: string, config: EmbedConfig, stringify: EmbedConfig -> string,
                        width: string, height: string): string
  {
    Text.Join(EmbedLines(EmbedSrc(origin, UrlEncoding.EncodeUriComponent(stringify(config))), width, height), '\n')
  }

  /** No template line holds a line break when the inserted values hold none. */
  lemma EmbedLinesSingle(src: string, width: string, height: string)
    requires '\n' !in src && '\n' !in width && '\n' !in height
    ensures forall i :: 0 <= i < 9 ==> '\n' !in EmbedLines(src, width, height)[i]
  {
    var lines := EmbedLines(src, width, height);
    StyleLineSingle();
    assert '\n' !in lines[0];
    assert '\n' !in lines[1];
    assert '\n' !in lines[2];
    assert '\n' !in lines[3];
    assert '\n' !in lines[4];
    assert '\n' !in lines[5];
    assert '\n' !in lines[6];
    assert '\n' !in lines[7];
    assert '\n' !in lines[8];
  }

  /** The template lines come back out of the snippet. */
  lemma EmbedSplit(src: string, width: string, height: string)
    requires '\n' !in src && '\n' !in width && '\n' !in height
    ensures Text.Split(Text.Join(EmbedLines(src, width, height), '\n'), '\n') == EmbedLines(src, width, height)
  {
    EmbedLinesSingle(src, width, height);
    Text.JoinSplit(EmbedLines(src, width, height), '\n');
  }

  /** Reading the snippet back line by line (for an origin and dimensions without line breaks)
      gives the `src` built from the origin and the percent-encoded configuration, then the width
      and the height, in a nine-line iframe element. */
  lemma EmbedCodeLines(origin: string, config: EmbedConfig, stringify: EmbedConfig -> string, width: string, height: string)
    requires '\n' !in origin && '\n' !in width && '\n' !in height
    ensures var lines := Text.Split(EmbedCodeFor(origin, config, stringify, width, height), '\n');
      && |lines| == 9
      && lines[0] == "<iframe "
      && lines[1] == "  src=\"" + origin + "/embed?config=" + UrlEncoding.EncodeUriComponent(stringify(config)) + "\""
      && lines[2] == "  width=\"" + width + "\""
      && lines[3] == "  height=\"" + height + "\""
      && lines[8] == "</iframe>"
  {
    var encoded := UrlEncoding.EncodeUriComponent(stringify(config));
    assert '\n' !in encoded by {
      assert forall i :: 0 <= i < |encoded| ==> encoded[i] != '\n';
    }
    assert '\n' !in EmbedSrc(origin, encoded) by {
      assert '\n' !in "/embed?config=";
    }
    EmbedTemplateLines(EmbedSrc(origin, encoded), width, height);
  }

  /** The template read back line by line, for any inserted values without line breaks. */
  lemma EmbedTemplateLines(src: string, width: string, height: string)
    requires '\n' !in src && '\n' !in width && '\n' !in height
    ensures var lines := Text.Split(Text.Join(EmbedLines(src, width, height), '\n'), '\n');
      && |lines| == 9
      && lines[0] == "<iframe "
      && lines[1] == "  src=\"" + src + "\""
      && lines[2] == "  width=\"" + width + "\""
      && lines[3] == "  height=\"" + height + "\""
      && lines[8] == "</iframe>"
  {
    EmbedSplit(src, width, height);
  }

  /** `addLocation`: the record appended, its id replaced by the clock reading in decimal. */
  function Appended(locations: seq<Location>, location: Location, now: nat): (r: seq<Location>)
    ensures |r| == |locations| + 1 && r[..|locations|] == locations
    ensures r[|locations|] == location.(id := Text.NatToString(now))
  {
    locations + [location.(id := Text.NatToString(now))]
  }

  predicate HasOtherId(id: string, l: Location) {
    l.id != id
  }

  /** `removeLocation`: every location whose id differs from `id`, in order. */
  function WithoutId(locations: seq<Location>, id: string): (r: seq<Location>)
    ensures forall l :: l in r <==> l in locations && l.id != id
    ensures IsSubseq(r, locations)
  {
    FilterIsSubseq(locations, l => HasOtherId(id, l));
    Filter(locations, l => HasOtherId(id, l))
  }

  /** Removing an id that no location has changes nothing, and removing is idempotent. */
  lemma WithoutIdProperties(locations: seq<Location>, id: string)
    ensures (forall i :: 0 <= i < |locations| ==> locations[i].id != id) ==> WithoutId(locations, id) == locations
    ensures WithoutId(WithoutId(locations, id), id) == WithoutId(locations, id)
  {
    var p := l => HasOtherId(id, l);
    if forall i :: 0 <= i < |locations| ==> locations[i].id != id {
      FilterKeepsAll(locations, p);
    }
    var r := WithoutId(locations, id);
    assert forall i :: 0 <= i < |r| ==> r[i] in r;
    FilterKeepsAll(r, p);
  }

  /** Removing the id a location was just added under takes it out again, when no earlier
      location had that id. */
  lemma AddThenRemove(locations: seq<Location>, location: Location, now: nat)
    requires forall i :: 0 <= i < |locations| ==> locations[i].id != Text.NatToString(now)
    ensures WithoutId(Appended(locations, location, now), Text.NatToString(now)) == locations
  {
    var id := Text.NatToString(now);
    var p := l => HasOtherId(id, l);
    FilterConcat(locations, [location.(id := id)], p);
    FilterKeepsAll(locations, p);
  }

  class Store {
    var theme: string
    var layout: string
    var pinStyle: string
    var locations: seq<Location>
    var selectedLocationId: Option<string>
    var embedCode: string
    var embedWidth: string
    var embedHeight: string

    /** The starting state: the midnight theme, the split view, modern pins, the sample
        locations, nothing selected, no snippet yet and a 100% by 500px frame. */
    constructor (sampleLocations: seq<Location>)
      ensures theme == "midnight" && layout == "split-view" && pinStyle == "modern"
      ensures locations == sampleLocations && selectedLocationId == None
      ensures embedCode == "" && embedWidth == "100%" && embedHeight == "500px"
    {
      theme := "midnight";
      layout := "split-view";
      pinStyle := "modern";
      locations := sampleLocations;
      selectedLocationId := None;
      embedCode := "";
      embedWidth := "100%";
      embedHeight := "500px";
    }

    method SetTheme(t: string)
      modifies this
      ensures theme == t
      ensures layout == old(layout) && pinStyle == old(pinStyle) && locations == old(locations)
      ensures selectedLocationId == old(selectedLocationId) && embedCode == old(embedCode)
      ensures embedWidth == old(embedWidth) && embedHeight == old(embedHeight)
    {
      theme := t;
    }

    method SetLayout(l: string)
      modifies this
      ensures layout == l
      ensures theme == old(theme) && pinStyle == old(pinStyle) && locations == old(locations)
      ensures selectedLocationId == old(selectedLocationId) && embedCode == old(embedCode)
      ensures embedWidth == old(embedWidth) && embedHeight == old(embedHeight)
    {
      layout := l;
    }

    method SetPinStyle(style: string)
      modifies this
      ensures pinStyle == style
      ensures theme == old(theme) && layout == old(layout) && locations == old(locations)
      ensures selectedLocationId == old(selectedLocationId) && embedCode == old(embedCode)
      ensures embedWidth == old(embedWidth) && embedHeight == old(embedHeight)
    {
      pinStyle := style;
    }

    method SetLocations(ls: seq<Location>)
      modifies this
      ensures locations == ls
      ensures theme == old(theme) && layout == old(layout) && pinStyle == old(pinStyle)
      ensures selectedLocationId == old(selectedLocationId) && embedCode == old(embedCode)
      ensures embedWidth == old(embedWidth) && embedHeight == old(embedHeight)
    {
      locations := ls;
    }

    /** Appends the location under a fresh id taken from the clock. */
    method AddLocation(location: Location, now: nat)
      modifies this
      ensures locations == Appended(old(locations), location, now)
      ensures theme == old(theme) && layout == old(layout) && pinStyle == old(pinStyle)
      ensures selectedLocationId == old(selectedLocationId) && embedCode == old(embedCode)
      ensures embedWidth == old(embedWidth) && embedHeight == old(embedHeight)
    {
      locations := locations + [location.(id := Text.NatToString(now))];
    }

    /** Drops every location with that id; the selection is left as it was, even when it named
        the removed location. */
    method RemoveLocation(id: string)
      modifies this
      ensures locations == WithoutId(old(locations), id)
      ensures theme == old(theme) && layout == old(layout) && pinStyle == old(pinStyle)
      ensures selectedLocationId == old(selectedLocationId) && embedCode == old(embedCode)
      ensures embedWidth == old(embedWidth) && embedHeight == old(embedHeight)
    {
      locations := WithoutId(locations, id);
    }

    method SetSelectedLocationId(id: Option<string>)
      modifies this
      ensures selectedLocationId == id
      ensures theme == old(theme) && layout == old(layout) && pinStyle == old(pinStyle)
      ensures locations == old(locations) && embedCode == old(embedCode)
      ensures embedWidth == old(embedWidth) && embedHeight == old(embedHeight)
    {
      selectedLocationId := id;
    }

    /** Builds the snippet from the current choices, locations and frame size and stores it. */
    method GenerateEmbedCode(origin: string, stringify: EmbedConfig -> string)
      modifies this
      ensures embedCode == EmbedCodeFor(origin, ConfigOf(theme, layout, pinStyle, locations), stringify, embedWidth, embedHeight)
      ensures theme == old(theme) && layout == old(layout) && pinStyle == old(pinStyle)
      ensures locations == old(locations) && selectedLocationId == old(selectedLocationId)
      ensures embedWidth == old(embedWidth) && embedHeight == old(embedHeight)
    {
      var config := ConfigOf(theme, layout, pinStyle, locations);
      embedCode := EmbedCodeFor(origin, config, stringify, embedWidth, embedHeight);
    }

    /** Sets the frame size; the stored snippet is not regenerated. */
    method SetEmbedDimensions(width: string, height: string)
      modifies this
      ensures embedWidth == width && embedHeight == height
      ensures theme == old(theme) && layout == old(layout) && pinStyle == old(pinStyle)
      ensures locations == old(locations) && selectedLocationId == old(selectedLocationId)
      ensures embedCode == old(embedCode)
    {
      embedWidth := width;
      embedHeight := height;
    }
  }
}
