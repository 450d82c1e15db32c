/** The persisted editor store: saved maps keyed by id, the current map and the selected pin.
    Every action replaces the state through a pure updater; the updaters are the functions below
    and the store object applies them. The dictionary's key order (insertion order) is kept
    explicitly because `deleteMap` picks the first remaining key. */
module MapStore {
  import opened Wrappers
  import opened Seqs
  import opened Text
  import opened Model
  import opened Pins

  /** The store's state; `keyOrder` lists the keys of `maps` in insertion order. */
  datatype StoreState = StoreState(
    maps: map<string, SavedMap>,
    keyOrder: seq<string>,
    currentMapId: Option<string>,
    selectedPinId: Option<string>)

  /** What the persistence middleware writes: the maps and the current map only. */
  datatype PersistedState = PersistedState(maps: map<string, SavedMap>, currentMapId: Option<string>)

  /** `keyOrder` lists each key of `maps` exactly once. */
  ghost predicate WellKeyed(s: StoreState) {
    Distinct(s.keyOrder) && forall k :: k in s.keyOrder <==> k in s.maps
  }

  const InitialState := StoreState(map[], [], None, None)

  /** A partial map update; `None` is an absent key. Setting `theme` to `undefined` is not
      distinguished from leaving it out. */
  datatype MapChanges = MapChanges(
    name: Option<string>,
    theme: Option<Theme>,
    layout: Option<Layout>,
    embedOptions: Option<EmbedPatch>)

  /** `map-<timestamp>`: the id `createMap` gives a map created at that millisecond. */
  function NewMapId(stamp: nat): string {
    "map-" + NatToString(stamp)
  }

  /** Two maps created in the same millisecond get the same id. */
  lemma NewMapIdInjective(a: nat, b: nat)
    ensures NewMapId(a) == NewMapId(b) <==> a == b
  {
    if NewMapId(a) == NewMapId(b) {
      assert NatToString(a) == NewMapId(a)[4..];
      assert NatToString(b) == NewMapId(b)[4..];
      NatToStringInjective(a, b);
    }
  }

  /** The record `createMap` stores. */
  function NewMap(id: string, name: string, theme: Option<Theme>, now: int): (m: SavedMap)
    ensures m.id == id && m.name == name && m.theme == theme
    ensures m.pins == [] && m.layout == Fullscreen && m.embedOptions == StarterEmbedOptions
    ensures m.createdAt == now && m.updatedAt == now
  {
    SavedMap(id, name, [], theme, Fullscreen, StarterEmbedOptions, now, now)
  }

  /** `createMap`: stores a new empty map under `NewMapId(stamp)` and makes it current. */
  function CreateMapStep(s: StoreState, stamp: nat, name: string, theme: Option<Theme>, now: int): (r: StoreState)
    ensures r.maps == s.maps[NewMapId(stamp) := NewMap(NewMapId(stamp), name, theme, now)]
    ensures r.currentMapId == Some(NewMapId(stamp)) && r.selectedPinId == s.selectedPinId
    ensures WellKeyed(s) ==> WellKeyed(r)
    ensures NewMapId(stamp) !in s.keyOrder ==> r.keyOrder == s.keyOrder + [NewMapId(stamp)]
  {
    var id := NewMapId(stamp);
    StoreState(
      s.maps[id := NewMap(id, name, theme, now)],
      if id in s.keyOrder then s.keyOrder else s.keyOrder + [id],
      Some(id),
      s.selectedPinId)
  }

  /** Replaces the record under a key that is already present (the key keeps its place). */
  function WithMap(s: StoreState, mapId: string, m: SavedMap): (r: StoreState)
    ensures r.maps == s.maps[mapId := m] && r.keyOrder == s.keyOrder
    ensures r.currentMapId == s.currentMapId && r.selectedPinId == s.selectedPinId
    ensures WellKeyed(s) && mapId in s.maps ==> WellKeyed(r)
  {
    s.(maps := s.maps[mapId := m])
  }

  /** `updateMap`: overlays the changes and stamps `updatedAt`; an absent map leaves the state
      as it is. */
  function UpdateMapStep(s: StoreState, mapId: string, changes: MapChanges, now: int): (r: StoreState)
    ensures mapId !in s.maps ==> r == s
    ensures mapId in s.maps ==> r == WithMap(s, mapId, s.maps[mapId].(
              name := changes.name.GetOr(s.maps[mapId].name),
              theme := Over(s.maps[mapId].theme, changes.theme),
              layout := changes.layout.GetOr(s.maps[mapId].layout),
              embedOptions := changes.embedOptions.GetOr(s.maps[mapId].embedOptions),
              updatedAt := now))
    ensures mapId in s.maps ==> r.maps[mapId].id == s.maps[mapId].id && r.maps[mapId].pins == s.maps[mapId].pins
    ensures mapId in s.maps ==> r.maps[mapId].createdAt == s.maps[mapId].createdAt
  {
    if mapId !in s.maps then s
    else
      var m := s.maps[mapId];
      WithMap(s, mapId, m.(
        name := changes.name.GetOr(m.name),
        theme := Over(m.theme, changes.theme),
        layout := changes.layout.GetOr(m.layout),
        embedOptions := changes.embedOptions.GetOr(m.embedOptions),
        updatedAt := now))
  }

  /** The keys of `order` other than `k`, in order. */
  function Without(order: seq<string>, k: string): (r: seq<string>)
    ensures forall x :: x in r <==> x in order && x != k
    ensures Distinct(order) ==> Distinct(r)
  {
    FilterDistinct(order, (x: string) => x != k);
    Filter(order, (x: string) => x != k)
  }

  /** `deleteMap`: removes the key and clears the selected pin; when the deleted map was current,
      the first remaining key (or none) becomes current. */
  function DeleteMapStep(s: StoreState, mapId: string): (r: StoreState)
    ensures r.maps == s.maps - {mapId} && r.keyOrder == Without(s.keyOrder, mapId)
    ensures r.selectedPinId.None?
    ensures s.currentMapId != Some(mapId) ==> r.currentMapId == s.currentMapId
    ensures s.currentMapId == Some(mapId) && r.keyOrder == [] ==> r.currentMapId.None?
    ensures s.currentMapId == Some(mapId) && r.keyOrder != [] ==> r.currentMapId == Some(r.keyOrder[0])
    ensures WellKeyed(s) ==> WellKeyed(r)
    ensures WellKeyed(s) && s.currentMapId == Some(mapId) ==>
              (r.currentMapId.None? <==> r.maps == map[]) && (r.currentMapId.Some? ==> r.currentMapId.value in r.maps)
  {
    var rest := Without(s.keyOrder, mapId);
    var current := if s.currentMapId == Some(mapId) then (if |rest| > 0 then Some(rest[0]) else None) else s.currentMapId;
    assert WellKeyed(s) && rest == [] ==> s.maps - {mapId} == map[] by {
      if WellKeyed(s) && rest == [] {
        assert forall k :: k in s.maps ==> k == mapId;
      }
    }
    assert WellKeyed(s) && rest != [] ==> rest[0] in s.maps - {mapId} by {
      if WellKeyed(s) && rest != [] {
        assert rest[0] in rest;
      }
    }
    StoreState(s.maps - {mapId}, rest, current, None)
  }

  /** Creating a map under a fresh id and deleting it again restores the maps and their order. */
  lemma CreateThenDelete(s: StoreState, stamp: nat, name: string, theme: Option<Theme>, now: int)
    requires WellKeyed(s) && NewMapId(stamp) !in s.maps
    ensures DeleteMapStep(CreateMapStep(s, stamp, name, theme, now), NewMapId(stamp)).maps == s.maps
    ensures DeleteMapStep(CreateMapStep(s, stamp, name, theme, now), NewMapId(stamp)).keyOrder == s.keyOrder
  {
    var id := NewMapId(stamp);
    var keep := (x: string) => x != id;
    assert s.maps[id := NewMap(id, name, theme, now)] - {id} == s.maps;
    FilterConcat(s.keyOrder, [id], keep);
    assert Filter([id], keep) == [];
    forall i | 0 <= i < |s.keyOrder| ensures keep(s.keyOrder[i]) {
      assert s.keyOrder[i] in s.keyOrder;
    }
    FilterKeepsAll(s.keyOrder, keep);
  }

  /** `setCurrentMap`: points at the map (present or not) and clears the selected pin. */
  function SetCurrentMapStep(s: StoreState, mapId: string): (r: StoreState)
    ensures r.currentMapId == Some(mapId) && r.selectedPinId.None?
    ensures r.maps == s.maps && r.keyOrder == s.keyOrder
  {
    s.(currentMapId := Some(mapId), selectedPinId := None)
  }

  /** `addPin`: appends the pin to the map's pins and stamps `updatedAt`. */
  function AddPinStep(s: StoreState, mapId: string, pinId: string, fields: PinFields, now: int): (r: StoreState)
    ensures mapId !in s.maps ==> r == s
    ensures mapId in s.maps ==> mapId in r.maps
    ensures mapId in s.maps ==> r == WithMap(s, mapId, s.maps[mapId].(pins := r.maps[mapId].pins, updatedAt := now))
    ensures mapId in s.maps ==> |r.maps[mapId].pins| == |s.maps[mapId].pins| + 1
    ensures mapId in s.maps ==> r.maps[mapId].pins[..|s.maps[mapId].pins|] == s.maps[mapId].pins
    ensures mapId in s.maps ==> r.maps[mapId].pins[|s.maps[mapId].pins|] == Pin(pinId, fields)
  {
    if mapId !in s.maps then s
    else
      var m := s.maps[mapId];
      WithMap(s, mapId, m.(pins := m.pins + [Pin(pinId, fields)], updatedAt := now))
  }

  /** `updatePin`: merges the update into the map's pins with that id and stamps `updatedAt`. */
  function UpdatePinStep(s: StoreState, mapId: string, pinId: string, patch: PinPatch, now: int): (r: StoreState)
    ensures mapId !in s.maps ==> r == s
    ensures mapId in s.maps ==> r == WithMap(s, mapId, s.maps[mapId].(pins := PatchPins(s.maps[mapId].pins, pinId, patch), updatedAt := now))
  {
    if mapId !in s.maps then s
    else
      var m := s.maps[mapId];
      WithMap(s, mapId, m.(pins := PatchPins(m.pins, pinId, patch), updatedAt := now))
  }

  /** `deletePin`: removes the map's pins with that id, stamps `updatedAt`, and clears the
      selected pin exactly when it was that pin. */
  function DeletePinStep(s: StoreState, mapId: string, pinId: string, now: int): (r: StoreState)
    ensures mapId !in s.maps ==> r == s
    ensures mapId in s.maps ==> r.maps == s.maps[mapId := s.maps[mapId].(pins := RemovePins(s.maps[mapId].pins, pinId), updatedAt := now)]
    ensures mapId in s.maps ==> r.keyOrder == s.keyOrder && r.currentMapId == s.currentMapId
    ensures mapId in s.maps ==> (r.selectedPinId.None? <==> s.selectedPinId.None? || s.selectedPinId == Some(pinId))
    ensures mapId in s.maps && r.selectedPinId.Some? ==> r.selectedPinId == s.selectedPinId
  {
    if mapId !in s.maps then s
    else
      var m := s.maps[mapId];
      var t := WithMap(s, mapId, m.(pins := RemovePins(m.pins, pinId), updatedAt := now));
      t.(selectedPinId := if s.selectedPinId == Some(pinId) then None else s.selectedPinId)
  }

  /** Adding a pin under a new id and deleting it again restores the map's pins. */
  lemma AddThenDeletePin(s: StoreState, mapId: string, pinId: string, fields: PinFields, t1: int, t2: int)
    requires mapId in s.maps && pinId !in Ids(s.maps[mapId].pins)
    ensures DeletePinStep(AddPinStep(s, mapId, pinId, fields, t1), mapId, pinId, t2).maps[mapId].pins == s.maps[mapId].pins
  {
    RemovePinsProperties(s.maps[mapId].pins, pinId, fields);
  }

  /** `selectPin`. */
  function SelectPinStep(s: StoreState, pinId: Option<string>): (r: StoreState)
    ensures r.selectedPinId == pinId
    ensures r.(selectedPinId := s.selectedPinId) == s
  {
    s.(selectedPinId := pinId)
  }

  /** `setTheme`: sets (or, with `None`, removes) the map's theme and stamps `updatedAt`. */
  function SetThemeStep(s: StoreState, mapId: string, theme: Option<Theme>, now: int): (r: StoreState)
    ensures mapId !in s.maps ==> r == s
    ensures mapId in s.maps ==> r == WithMap(s, mapId, s.maps[mapId].(theme := theme, updatedAt := now))
  {
    if mapId !in s.maps then s else WithMap(s, mapId, s.maps[mapId].(theme := theme, updatedAt := now))
  }

  /** `setLayout`. */
  function SetLayoutStep(s: StoreState, mapId: string, layout: Layout, now: int): (r: StoreState)
    ensures mapId !in s.maps ==> r == s
    ensures mapId in s.maps ==> r == WithMap(s, mapId, s.maps[mapId].(layout := layout, updatedAt := now))
  {
    if mapId !in s.maps then s else WithMap(s, mapId, s.maps[mapId].(layout := layout, updatedAt := now))
  }

  /** `updateEmbedOptions`: a shallow merge in which the new keys win. */
  function UpdateEmbedOptionsStep(s: StoreState, mapId: string, options: EmbedPatch, now: int): (r: StoreState)
    ensures mapId !in s.maps ==> r == s
    ensures mapId in s.maps ==> r == WithMap(s, mapId, s.maps[mapId].(embedOptions := OverlayEmbed(s.maps[mapId].embedOptions, options), updatedAt := now))
  {
    if mapId !in s.maps then s
    else
      var m := s.maps[mapId];
      WithMap(s, mapId, m.(embedOptions := OverlayEmbed(m.embedOptions, options), updatedAt := now))
  }

  /** Two embed-option updates in a row are one update with the merged options; an empty update
      only moves `updatedAt`. */
  lemma UpdateEmbedOptionsTwice(s: StoreState, mapId: string, a: EmbedPatch, b: EmbedPatch, t1: int, t2: int)
    ensures UpdateEmbedOptionsStep(UpdateEmbedOptionsStep(s, mapId, a, t1), mapId, b, t2)
            == UpdateEmbedOptionsStep(s, mapId, OverlayEmbed(a, b), t2)
    ensures mapId in s.maps ==> UpdateEmbedOptionsStep(s, mapId, NoEmbedKeys, t1).maps[mapId].embedOptions == s.maps[mapId].embedOptions
  {
    OverlayEmbedAlgebra(if mapId in s.maps then s.maps[mapId].embedOptions else NoEmbedKeys, a, b);
  }

  /** `partialize`: only the maps and the current map are written. */
  function Partialize(s: StoreState): (r: PersistedState)
    ensures r.maps == s.maps && r.currentMapId == s.currentMapId
  {
    PersistedState(s.maps, s.currentMapId)
  }

  /** The selected pin never reaches storage: states that differ only in it persist the same. */
  lemma PartializeIgnoresSelection(s: StoreState, pinId: Option<string>)
    ensures Partialize(SelectPinStep(s, pinId)) == Partialize(s)
    ensures Partialize(s.(keyOrder := [])) == Partialize(s)
  {
  }

  /** The store object; each action applies its updater to the whole state. */
  class Store {
    var maps: map<string, SavedMap>
    var keyOrder: seq<string>
    var currentMapId: Option<string>
    var selectedPinId: Option<string>

    function State(): StoreState
      reads this
    {
      StoreState(maps, keyOrder, currentMapId, selectedPinId)
    }

    /** Applies an updater's result. */
    method Set(s: StoreState)
      modifies this
      ensures State() == s
    {
      maps := s.maps;
      keyOrder := s.keyOrder;
      currentMapId := s.currentMapId;
      selectedPinId := s.selectedPinId;
    }

    constructor ()
      ensures State() == InitialState && WellKeyed(State())
    {
      maps := map[];
      keyOrder := [];
      currentMapId := None;
      selectedPinId := None;
    }

    /** Returns the new map's id, `NewMapId(stamp)`. */
    method CreateMap(name: string, theme: Option<Theme>, stamp: nat, now: int) returns (id: string)
      modifies this
      ensures id == NewMapId(stamp)
      ensures State() == CreateMapStep(old(State()), stamp, name, theme, now)
    {
      id := NewMapId(stamp);
      Set(CreateMapStep(State(), stamp, name, theme, now));
    }

    method UpdateMap(mapId: string, changes: MapChanges, now: int)
      modifies this
      ensures State() == UpdateMapStep(old(State()), mapId, changes, now)
    {
      Set(UpdateMapStep(State(), mapId, changes, now));
    }

    method DeleteMap(mapId: string)
      modifies this
      ensures State() == DeleteMapStep(old(State()), mapId)
    {
      Set(DeleteMapStep(State(), mapId));
    }

    method SetCurrentMap(mapId: string)
      modifies this
      ensures State() == SetCurrentMapStep(old(State()), mapId)
    {
      Set(SetCurrentMapStep(State(), mapId));
    }

    /** Returns `pinId` (built from the clock and a random draw), whether or not the map exists. */
    method AddPin(mapId: string, fields: PinFields, pinId: string, now: int) returns (r: string)
      modifies this
      ensures r == pinId
      ensures State() == AddPinStep(old(State()), mapId, pinId, fields, now)
    {
      Set(AddPinStep(State(), mapId, pinId, fields, now));
      r := pinId;
    }

    method UpdatePin(mapId: string, pinId: string, patch: PinPatch, now: int)
      modifies this
      ensures State() == UpdatePinStep(old(State()), mapId, pinId, patch, now)
    {
      Set(UpdatePinStep(State(), mapId, pinId, patch, now));
    }

    method DeletePin(mapId: string, pinId: string, now: int)
      modifies this
      ensures State() == DeletePinStep(old(State()), mapId, pinId, now)
    {
      Set(DeletePinStep(State(), mapId, pinId, now));
    }

    method SelectPin(pinId: Option<string>)
      modifies this
      ensures State() == SelectPinStep(old(State()), pinId)
    {
      selectedPinId := pinId;
    }

    method SetTheme(mapId: string, theme: Option<Theme>, now: int)
      modifies this
      ensures State() == SetThemeStep(old(State()), mapId, theme, now)
    {
      Set(SetThemeStep(State(), mapId, theme, now));
    }

    method SetLayout(mapId: string, layout: Layout, now: int)
      modifies this
      ensures State() == SetLayoutStep(old(State()), mapId, layout, now)
    {
      Set(SetLayoutStep(State(), mapId, layout, now));
    }

    method UpdateEmbedOptions(mapId: string, options: EmbedPatch, now: int)
      modifies this
      ensures State() == UpdateEmbedOptionsStep(old(State()), mapId, options, now)
    {
      Set(UpdateEmbedOptionsStep(State(), mapId, options, now));
    }
  }
}
