/** The editor hook's state cells (pins, theme, layout, selected pin, embed options) and the
    reducers that replace them. Each reducer changes its own cells and no others. */
module UseMapState {
  import opened Wrappers
  import opened Model
  import opened Pins

  /** The hook's parameters; `None` is an absent one, which takes its default. */
  datatype HookProps = HookProps(
    initialPins: Option<seq<Pin>>,
    initialTheme: Option<Theme>,
    initialLayout: Option<Layout>,
    initialEmbedOptions: Option<EmbedPatch>)

  /** `togglePinSelection`: deselects when the selection has the pin's id, selects it otherwise. */
  function Toggle(current: Option<Pin>, pin: Pin): (r: Option<Pin>)
    ensures r.None? <==> current.Some? && current.value.id == pin.id
    ensures r.Some? ==> r == Some(pin)
  {
    if current.Some? && current.value.id == pin.id then None else Some(pin)
  }

  /** Toggling the same pin twice from no selection ends with no selection; toggling another pin
      moves the selection to it. */
  lemma ToggleTwice(p: Pin, q: Pin)
    ensures Toggle(Toggle(None, p), p) == None
    ensures p.id != q.id ==> Toggle(Toggle(None, p), q) == Some(q)
  {
  }

  /** The selection after `updatePin`: the updated pin replaces it exactly when the ids match. */
  function SelectedAfterUpdate(current: Option<Pin>, updated: Pin): (r: Option<Pin>)
    ensures r.None? <==> current.None?
    ensures current.Some? && current.value.id == updated.id ==> r == Some(updated)
    ensures current.Some? && current.value.id != updated.id ==> r == current
  {
    if current.Some? && current.value.id == updated.id then Some(updated) else current
  }

  /** The selection after `deletePin`: cleared exactly when it had that id. */
  function SelectedAfterDelete(current: Option<Pin>, pinId: string): (r: Option<Pin>)
    ensures r.None? <==> current.None? || current.value.id == pinId
    ensures r.Some? ==> r == current
  {
    if current.Some? && current.value.id == pinId then None else current
  }

  /** The hook's state cells. */
  class MapState {
    var pins: seq<Pin>
    var theme: Option<Theme>
    var layout: Layout
    var selectedPin: Option<Pin>
    var embedOptions: EmbedPatch

    /** The initial cells: the given values, or no pins, full-screen layout, the starter embed
        options; nothing is selected. */
    constructor (props: HookProps)
      ensures pins == props.initialPins.GetOr([])
      ensures theme == props.initialTheme
      ensures layout == props.initialLayout.GetOr(Fullscreen)
      ensures selectedPin.None?
      ensures embedOptions == props.initialEmbedOptions.GetOr(StarterEmbedOptions)
    {
      pins := props.initialPins.GetOr([]);
      theme := props.initialTheme;
      layout := props.initialLayout.GetOr(Fullscreen);
      selectedPin := None;
      embedOptions := props.initialEmbedOptions.GetOr(StarterEmbedOptions);
    }

    method SelectPin(pin: Option<Pin>)
      modifies this
      ensures selectedPin == pin
      ensures pins == old(pins) && theme == old(theme) && layout == old(layout) && embedOptions == old(embedOptions)
    {
      selectedPin := pin;
    }

    method TogglePinSelection(pin: Pin)
      modifies this
      ensures selectedPin == Toggle(old(selectedPin), pin)
      ensures pins == old(pins) && theme == old(theme) && layout == old(layout) && embedOptions == old(embedOptions)
    {
      selectedPin := Toggle(selectedPin, pin);
    }

    /** Appends the pin and returns it. */
    method CreatePin(pin: Pin) returns (r: Pin)
      modifies this
      ensures r == pin && pins == old(pins) + [pin]
      ensures selectedPin == old(selectedPin) && theme == old(theme) && layout == old(layout) && embedOptions == old(embedOptions)
    {
      pins := pins + [pin];
      r := pin;
    }

    /** Replaces every pin with the updated pin's id, and the selection when it has that id. */
    method UpdatePin(updated: Pin) returns (r: Pin)
      modifies this
      ensures r == updated
      ensures pins == ReplacePins(old(pins), updated)
      ensures selectedPin == SelectedAfterUpdate(old(selectedPin), updated)
      ensures theme == old(theme) && layout == old(layout) && embedOptions == old(embedOptions)
    {
      pins := ReplacePins(pins, updated);
      selectedPin := SelectedAfterUpdate(selectedPin, updated);
      r := updated;
    }

    /** Removes every pin with that id, and the selection when it has that id. */
    method DeletePin(pinId: string)
      modifies this
      ensures pins == RemovePins(old(pins), pinId)
      ensures selectedPin == SelectedAfterDelete(old(selectedPin), pinId)
      ensures theme == old(theme) && layout == old(layout) && embedOptions == old(embedOptions)
    {
      pins := RemovePins(pins, pinId);
      selectedPin := SelectedAfterDelete(selectedPin, pinId);
    }

    method ChangeTheme(newTheme: Option<Theme>)
      modifies this
      ensures theme == newTheme
      ensures pins == old(pins) && selectedPin == old(selectedPin) && layout == old(layout) && embedOptions == old(embedOptions)
    {
      theme := newTheme;
    }

    method ChangeLayout(newLayout: Layout)
      modifies this
      ensures layout == newLayout
      ensures pins == old(pins) && selectedPin == old(selectedPin) && theme == old(theme) && embedOptions == old(embedOptions)
    {
      layout := newLayout;
    }

    /** A shallow merge in which the new keys win and the others are kept. */
    method UpdateEmbedOptions(options: EmbedPatch)
      modifies this
      ensures embedOptions == OverlayEmbed(old(embedOptions), options)
      ensures pins == old(pins) && selectedPin == old(selectedPin) && theme == old(theme) && layout == old(layout)
    {
      embedOptions := OverlayEmbed(embedOptions, options);
    }
  }
}
