# MapNest core, modelled in Dafny

MapNest is a Next.js application. With it a user builds maps of pins, gives each map a theme (one of
15 catalog map styles) and a layout, and embeds the map in other sites through an iframe or
script snippet. This project models the logic behind that interface, together with the
properties it promises:

- **The map-record stores.**
  - `Database` models `MapDatabase`: create, update, delete, duplicate, the sorted and filtered
    listings, statistics, legacy migration and import.
  - `FileStorage` models the older `FileStorage`: save, delete, current-map tracking and
    validated import.
  - Both are classes over a `map<string, …>` of records, with the dictionary updated in place.
- **The editor state machines.**
  - `MapStore` models the persisted zustand store. Each action is a pure transition on a
    `StoreState`, and `MapStore.Store` applies it.
  - `UseMapState` models the `useMapState` hook as a class whose fields are the hook's state
    cells.
  - `LocationStore` models the simpler `map-store.ts` store, with locations, embed dimensions and
    generated embed code.
- **The theme catalog.**
  - `MapStyles` holds the 15 style sets, their metadata, `validateMapStyles` (as a function and
    as the in-place array method) and the key lookups.
  - `ThemeUtils` holds the theme objects built from the catalog, the shade and category
    filters, lookup by id, recommendations, pin-colour compatibility and theme validation.
- **The embed-snippet generators.**
  - `MapUtils` covers `generateEmbedCode`, `generateScriptEmbedCode`, the predefined theme table
    and the random pin helpers.
  - `EmbedCode` covers the option merge, the iframe/script generators and the option-change
    handler of the `EmbedCode` component.
- **The filters inside components.**
  - `ThemePicker` has the theme filter pipeline, the category counts, the recommendation panel
    and the selected-theme fallback.
  - `Sidebar` has the pin search and the collapsed first-five view with its overflow badge.
  - `ThemePreview` has the water, road and land colours of the theme thumbnail.
  - `Utils` has `truncateText` and `getRandomColor`.

Shared modules:

- `Model` holds the entities of `src/types/index.ts`: pins, themes, style rules, layouts and
  embed options, plus the shallow "spread" merges of partial records.
- `Pins` holds the pin-list operations shared by the stores.
- `JsonValues` holds untyped JSON values.
- `Text` holds the JavaScript string operations used: lower-casing (of the ASCII letters only),
  `includes`, `trim`, `split`, and number formatting. Strings are sequences of Unicode
  characters, not of UTF-16 code units.
- `UrlEncoding` holds `encodeURIComponent`.
- `Seqs` holds filters and subsequences.
- `Wrappers` holds `Option` and `Result`.

`Date.now()`, `Math.random()`, `window.location.origin`, `process.env.NEXT_PUBLIC_APP_URL` and
`JSON.stringify` are parameters of the operations that use them. A random draw is a `real` in
`[0, 1)`, and an absent optional key is `None`.

## Model

| member | source | states |
|---|---|---|
| Model.MergePin | src/features/map/store/mapStore.ts:170 | merging a pin patch takes every supplied field and keeps every other one; the empty patch changes nothing |
| Model.OverlayEmbedKeys | src/features/map/store/mapStore.ts:241-260 | after a shallow merge of embed options, each key holds the newer value when supplied and the older one otherwise |
| Model.OverlayEmbedAlgebra | src/features/map/hooks/useMapState.ts:76-78 | the merge has the empty patch as identity on both sides, repeating a merge changes nothing, and merges associate |
| Model.ApplyEmbedTwice | src/components/molecules/EmbedCode.tsx:35-38 | overlaying two patches one after the other on complete options equals overlaying their combination; the empty patch changes nothing |
| Pins.Ids | src/features/map/store/mapStore.ts:159-196 | the ids of a pin list, position by position |
| Pins.MergePinTwice | src/features/map/store/mapStore.ts:170 | two successive patches of one pin equal one combined patch; applying the same patch twice equals applying it once |
| Pins.PatchPins | src/features/map/store/mapStore.ts:169-171 | patching by id keeps the count, the order and the ids; pins with another id stay as they were, and each pin with the id gets the merged fields |
| Pins.PatchPinsAlgebra | src/features/map/store/mapStore.ts:169-171 | patching an absent id changes nothing, and two patches of the same id equal one combined patch |
| Pins.ReplacePins | src/features/map/hooks/useMapState.ts:50-52 | replacing by id keeps count, order and ids, and puts the updated pin exactly where the id matches |
| Pins.ReplacePinsAlgebra | src/features/map/hooks/useMapState.ts:50-52 | replacing is idempotent and changes nothing when the id is absent |
| Pins.RemovePins | src/features/map/store/mapStore.ts:189 | a pin survives exactly when it was in the list and has another id |
| Pins.RemovePinsProperties | src/features/map/hooks/useMapState.ts:60-63 | removal keeps the survivors in order, leaves a list without the id alone, undoes an append of that id and is idempotent |
| Pins.GeneratePinIdParts | src/features/map/hooks/useMapState.ts:81-83 | a generated pin id splits at `-` into `pin`, the timestamp and a number below 1000 |
| Database.FromDraft | src/lib/database.ts:148-157 | a created record carries the new id, `createdAt == updatedAt == now`, and every other field of the draft unchanged |
| Database.ApplyUpdate | src/lib/database.ts:166-178 | an update keeps `id` and `createdAt`, sets `updatedAt` to now, takes every supplied field and keeps every field not supplied |
| Database.UpdatesCompose | src/lib/database.ts:166-178 | two successive updates equal one combined update; repeating an update equals doing it once |
| Database.UpdateWithOwnFields | src/lib/database.ts:166-178 | updating a record with its own fields changes only `updatedAt` |
| Database.GenerateMapId | src/lib/database.ts:143-145 | generated map ids start with `map_` |
| Database.GenerateMapIdParts | src/lib/database.ts:143-145 | a generated id splits at `_` into `map`, the timestamp and the random suffix |
| Database.CompositeOfGeneratedIdIsTruncated | src/lib/database.ts:144 | a composite `user_map_<ts>_<suffix>` id is cut down to `map` by the embed generator's split, while a split at the first underscore keeps the whole id |
| Database.MigrateMap | src/lib/database.ts:89-116 | a legacy record gets the key as id, `Map <id>` for a missing or empty name, `fullscreen` for a missing layout, the legacy default theme, `[]` pins, an embed `mapId` of the key unless overridden, private with no tags, and timestamps of now when missing or 0 |
| Database.MigratedFromUnique | src/lib/database.ts:84-129 | migration determines the resulting database: two results of the same document are equal |
| Database.MigrateMaps | src/lib/database.ts:87-117 | the migration loop produces exactly the legacy keys, each migrated record by record |
| Database.MigrateData | src/lib/database.ts:84-129 | a legacy document (maps without metadata) is migrated with `totalMaps` equal to the number of keys; a current document comes back unchanged |
| Database.InsertNewestFirst | src/lib/database.ts:193 | inserting a record where the newer records end keeps a listing sorted newest first |
| Database.InsertionPoint | src/lib/database.ts:193 | the records before the insertion point were updated no earlier than the new one, and those after it strictly earlier |
| Database.InsertKeyed | src/lib/database.ts:192-194 | inserting a stored record with a fresh key keeps a listing in one-to-one correspondence with the stored keys |
| Database.FilterStep | src/lib/database.ts:205-225 | each criterion filter keeps exactly the matching records, in order |
| Database.FilterByCriteriaSpec | src/lib/database.ts:205-225 | the criteria keep a subsequence of the listing, holding exactly the records that pass the visibility, any-tag and search tests, the search ignoring the case of ASCII letters |
| Database.SelectMapsSpec | src/lib/database.ts:197-232 | `getMaps` returns an order-preserving subsequence of matching records: a prefix of the filtered list, capped by a positive limit and uncapped for an absent or zero limit |
| Database.SelectMapsNoCriteria | src/lib/database.ts:197-232 | with no criteria `getMaps` returns the whole listing |
| Database.PinTotal | src/lib/database.ts:266 | the pin total of no maps is 0 |
| Database.PinTotalAppend | src/lib/database.ts:266 | the pin total is additive over concatenation |
| Database.OldestCreated | src/lib/database.ts:278 | the oldest creation time belongs to some map and is no later than any map's |
| Database.NewestCreated | src/lib/database.ts:279 | the newest creation time belongs to some map and is no earlier than any map's |
| Database.StatsOf | src/lib/database.ts:264-281 | statistics: the map count; the pin total as the sum of pin counts; the public count as the number of public maps, with the private count the rest; the numbers of distinct theme ids and of distinct layouts; oldest and newest creation times, absent exactly when there are no maps |
| Database.StatsOfBounds | src/lib/database.ts:264-281 | the public count and the distinct theme and layout counts never exceed the map count, and there is at least one theme and one layout when there are maps |
| Database.StatsOfBracketsCreation | src/lib/database.ts:276-277 | the oldest and newest times bracket every map's creation time |
| Database.DuplicateDraft | src/lib/database.ts:251-258 | the copy is named `newName` or `<name> (Copy)`, has as many pins as the original with only their ids replaced, and copies every other field, including the embed `mapId` of the original |
| Database.MapDatabase.constructor | src/lib/database.ts:55-82 | nothing stored gives the empty database at the current version; a stored document goes through migration |
| Database.MapDatabase.SaveToStorage | src/lib/database.ts:131-136 | saving rewrites `totalMaps` to the number of stored maps and changes nothing else |
| Database.MapDatabase.CreateMap | src/lib/database.ts:148-163 | the new record is stored under its id, `getMap` returns it, and the map count grows by one for a fresh id |
| Database.MapDatabase.UpdateMap | src/lib/database.ts:166-184 | an absent id gives null and changes nothing; otherwise the updated record replaces the old one, the key set is unchanged, and only `totalMaps` of the metadata changes (recounted) |
| Database.MapDatabase.GetMap | src/lib/database.ts:187-189 | the stored record for a present id, null for an absent one |
| Database.MapDatabase.GetAllMaps | src/lib/database.ts:192-194 | every stored record exactly once, most recently updated first |
| Database.MapDatabase.GetMaps | src/lib/database.ts:197-232 | the criteria applied to the sorted listing of all maps: only stored maps that meet the criteria, and every one of them when no limit is set |
| Database.MapDatabase.DeleteMap | src/lib/database.ts:235-242 | true exactly when the id was present; afterwards the id is absent, every other record is unchanged, and `totalMaps` is recounted when something was deleted |
| Database.MapDatabase.DuplicateMap | src/lib/database.ts:245-261 | an absent id gives null and changes nothing; otherwise the duplicate draft is created under the new id, and only `totalMaps` of the metadata changes (recounted) |
| Database.MapDatabase.GetStats | src/lib/database.ts:264-281 | the statistics of the sorted listing, whose total is the number of stored maps |
| Database.MapDatabase.ImportDatabase | src/lib/database.ts:289-297 | unparsable text fails with `Invalid database format` and changes nothing; a parsed document replaces the data by its migration, then `totalMaps` is recounted |
| Database.MapDatabase.ClearDatabase | src/lib/database.ts:300-303 | the database becomes the empty one |
| FileStorage.SavedRecord | src/lib/fileStorage.ts:65-80 | a saved record carries the input, `updatedAt` now, and the existing `createdAt` unless there is none or it is 0 |
| FileStorage.SaveTwiceKeepsCreation | src/lib/fileStorage.ts:65-80 | a second save keeps the creation time of the first, whatever it stores |
| FileStorage.CurrentAfterDelete | src/lib/fileStorage.ts:96-98 | the current map is cleared exactly when it was the deleted one |
| FileStorage.ImportResult | src/lib/fileStorage.ts:125-152 | only a parsed document whose `maps` is an object is accepted; it replaces the maps wholesale, with a missing current map as null; a read error, a parse error and a bad shape each give their own error |
| FileStorage.FileStorage.constructor | src/lib/fileStorage.ts:38-53 | the stored data, or empty storage when nothing is stored |
| FileStorage.FileStorage.SaveMap | src/lib/fileStorage.ts:65-83 | the saved record is stored under its id, the current map is untouched, and loading returns the input |
| FileStorage.FileStorage.LoadMap | src/lib/fileStorage.ts:85-87 | the stored record, or null |
| FileStorage.FileStorage.GetAllMaps | src/lib/fileStorage.ts:89-91 | every stored record exactly once, in no promised order |
| FileStorage.FileStorage.DeleteMap | src/lib/fileStorage.ts:93-99 | removes the id and clears the current map exactly when it was the deleted one |
| FileStorage.FileStorage.SetCurrentMap | src/lib/fileStorage.ts:101-104 | sets the current map without checking it exists; `getCurrentMapId` then returns it |
| FileStorage.FileStorage.GetCurrentMapId | src/lib/fileStorage.ts:106-108 | the current map id |
| FileStorage.FileStorage.ImportFromFile | src/lib/fileStorage.ts:125-152 | succeeds exactly when the import result is accepted and then installs it; on failure reports that error and leaves the data untouched |
| FileStorage.FileStorage.ClearAll | src/lib/fileStorage.ts:154-157 | empty maps and no current map |
| MapStore.NewMapIdInjective | src/features/map/store/mapStore.ts:66 | maps created at different milliseconds get different ids |
| MapStore.NewMap | src/features/map/store/mapStore.ts:69-87 | a new map has the name and theme given, no pins, `fullscreen` layout, the starter embed options and `createdAt == updatedAt` |
| MapStore.CreateMapStep | src/features/map/store/mapStore.ts:65-93 | the new map is inserted and becomes current, the selected pin is kept, a fresh key goes last in key order, and keys stay listed once |
| MapStore.WithMap | src/features/map/store/mapStore.ts:95-111 | replacing one record keeps the key order, the current map and the selection |
| MapStore.UpdateMapStep | src/features/map/store/mapStore.ts:95-111 | an absent map changes nothing; otherwise the changes are merged with id, pins and `createdAt` preserved |
| MapStore.Without | src/features/map/store/mapStore.ts:115-121 | the key order without the deleted key, still listing each key once |
| MapStore.DeleteMapStep | src/features/map/store/mapStore.ts:113-130 | the key is removed and the selection cleared; a deleted current map is replaced by the first remaining key, or none when none remain; another current map stays |
| MapStore.CreateThenDelete | src/features/map/store/mapStore.ts:65-130 | creating a map under a fresh id and deleting it restores the maps and their key order |
| MapStore.SetCurrentMapStep | src/features/map/store/mapStore.ts:132-134 | sets the current map, clears the selection and keeps the maps |
| MapStore.AddPinStep | src/features/map/store/mapStore.ts:137-157 | an absent map changes nothing; otherwise exactly one pin with the new id and the fields is appended, the existing pins stay in order, and `updatedAt` is now |
| MapStore.UpdatePinStep | src/features/map/store/mapStore.ts:159-177 | an absent map changes nothing; otherwise the pins with the id are patched in place and `updatedAt` is now |
| MapStore.DeletePinStep | src/features/map/store/mapStore.ts:179-196 | an absent map changes nothing; otherwise every pin with the id is removed and the selection is cleared exactly when it was that pin |
| MapStore.AddThenDeletePin | src/features/map/store/mapStore.ts:137-196 | adding a pin with a fresh id and deleting it restores the map's pins |
| MapStore.SelectPinStep | src/features/map/store/mapStore.ts:198-200 | only the selection changes |
| MapStore.SetThemeStep | src/features/map/store/mapStore.ts:203-219 | an absent map changes nothing; otherwise only the theme and `updatedAt` of that map change |
| MapStore.SetLayoutStep | src/features/map/store/mapStore.ts:222-238 | an absent map changes nothing; otherwise only the layout and `updatedAt` of that map change |
| MapStore.UpdateEmbedOptionsStep | src/features/map/store/mapStore.ts:241-260 | an absent map changes nothing; otherwise the embed options are overlaid, keeping unmentioned keys |
| MapStore.UpdateEmbedOptionsTwice | src/features/map/store/mapStore.ts:241-260 | two successive embed updates equal one combined update (timestamps aside); an empty update keeps the options |
| MapStore.Partialize | src/features/map/store/mapStore.ts:275-278 | only the maps and the current map are persisted |
| MapStore.PartializeIgnoresSelection | src/features/map/store/mapStore.ts:275-278 | the selected pin and the key order do not reach storage |
| MapStore.Store.constructor | src/features/map/store/mapStore.ts:60-62 | no maps, no current map, no selection |
| MapStore.Store.Set | src/features/map/store/mapStore.ts:60-62 | replaces the whole state |
| MapStore.Store.CreateMap | src/features/map/store/mapStore.ts:65-93 | returns the new id and applies the create transition |
| MapStore.Store.UpdateMap | src/features/map/store/mapStore.ts:95-111 | applies the update transition |
| MapStore.Store.DeleteMap | src/features/map/store/mapStore.ts:113-130 | applies the delete transition |
| MapStore.Store.SetCurrentMap | src/features/map/store/mapStore.ts:132-134 | applies the set-current transition |
| MapStore.Store.AddPin | src/features/map/store/mapStore.ts:137-157 | returns the new pin id and applies the add-pin transition |
| MapStore.Store.UpdatePin | src/features/map/store/mapStore.ts:159-177 | applies the update-pin transition |
| MapStore.Store.DeletePin | src/features/map/store/mapStore.ts:179-196 | applies the delete-pin transition |
| MapStore.Store.SelectPin | src/features/map/store/mapStore.ts:198-200 | applies the selection transition |
| MapStore.Store.SetTheme | src/features/map/store/mapStore.ts:203-219 | applies the theme transition |
| MapStore.Store.SetLayout | src/features/map/store/mapStore.ts:222-238 | applies the layout transition |
| MapStore.Store.UpdateEmbedOptions | src/features/map/store/mapStore.ts:241-260 | applies the embed-options transition |
| UseMapState.Toggle | src/features/map/hooks/useMapState.ts:38-40 | toggling clears the selection exactly when it already holds a pin with that id, and selects the pin otherwise |
| UseMapState.ToggleTwice | src/features/map/hooks/useMapState.ts:38-40 | from no selection, toggling a pin twice returns to no selection; toggling a different pin selects it |
| UseMapState.SelectedAfterUpdate | src/features/map/hooks/useMapState.ts:53-56 | the selection is replaced by the updated pin exactly when it has its id |
| UseMapState.SelectedAfterDelete | src/features/map/hooks/useMapState.ts:60-63 | the selection is cleared exactly when it had the deleted id |
| UseMapState.MapState.constructor | src/features/map/hooks/useMapState.ts:16-30 | the given pins or none, the given theme, the given layout or `fullscreen`, no selection, the given embed options or `100%`/`500px`/responsive/attribution/fullscreen |
| UseMapState.MapState.SelectPin | src/features/map/hooks/useMapState.ts:33-35 | replaces only the selection |
| UseMapState.MapState.TogglePinSelection | src/features/map/hooks/useMapState.ts:38-40 | toggles only the selection |
| UseMapState.MapState.CreatePin | src/features/map/hooks/useMapState.ts:43-46 | appends the pin at the end and returns it; nothing else changes |
| UseMapState.MapState.UpdatePin | src/features/map/hooks/useMapState.ts:49-57 | replaces the pins with its id and the selection when it has that id; returns the pin |
| UseMapState.MapState.DeletePin | src/features/map/hooks/useMapState.ts:60-63 | removes the pins with the id and clears the selection when it had that id |
| UseMapState.MapState.ChangeTheme | src/features/map/hooks/useMapState.ts:66-68 | replaces only the theme |
| UseMapState.MapState.ChangeLayout | src/features/map/hooks/useMapState.ts:71-73 | replaces only the layout |
| UseMapState.MapState.UpdateEmbedOptions | src/features/map/hooks/useMapState.ts:76-78 | overlays the new keys on the embed options; nothing else changes |
| LocationStore.ConfigOf | src/features/map/stores/map-store.ts:66-73 | the embed config carries theme, layout and pin style, and projects every location, in order, to id, name, lat, lng, category and address |
| LocationStore.ConfigIgnoresOtherFields | src/features/map/stores/map-store.ts:70-72 | extra fields of locations never reach the config |
| LocationStore.EmbedCodeLines | src/features/map/stores/map-store.ts:79-87 | the snippet is nine lines: the iframe opener, `src` of the origin, `/embed?config=` and the percent-encoded JSON config, the store's width and height, and the closing tag |
| LocationStore.EmbedTemplateLines | src/features/map/stores/map-store.ts:79-87 | for any inserted source, width and height without line breaks the template reads back as nine lines with those values in lines two to four |
| LocationStore.Appended | src/features/map/stores/map-store.ts:52-54 | exactly one location is appended, stamped with the timestamp as its id; the existing ones are unchanged |
| LocationStore.WithoutId | src/features/map/stores/map-store.ts:56-58 | a location survives exactly when it has another id, and the survivors keep their order |
| LocationStore.WithoutIdProperties | src/features/map/stores/map-store.ts:56-58 | removing an absent id changes nothing, and removal is idempotent |
| LocationStore.AddThenRemove | src/features/map/stores/map-store.ts:52-58 | removing the id just stamped undoes the append when no earlier location had it |
| LocationStore.Store.constructor | src/features/map/stores/map-store.ts:34-41 | theme `midnight`, layout `split-view`, pin style `modern`, the sample locations, no selection, empty code, `100%` by `500px` |
| LocationStore.Store.SetTheme | src/features/map/stores/map-store.ts:44 | replaces only the theme |
| LocationStore.Store.SetLayout | src/features/map/stores/map-store.ts:46 | replaces only the layout |
| LocationStore.Store.SetPinStyle | src/features/map/stores/map-store.ts:48 | replaces only the pin style |
| LocationStore.Store.SetLocations | src/features/map/stores/map-store.ts:50 | replaces only the locations |
| LocationStore.Store.AddLocation | src/features/map/stores/map-store.ts:52-54 | appends the stamped location; nothing else changes |
| LocationStore.Store.RemoveLocation | src/features/map/stores/map-store.ts:56-58 | removes the locations with the id and leaves the selection alone |
| LocationStore.Store.SetSelectedLocationId | src/features/map/stores/map-store.ts:60 | replaces only the selection |
| LocationStore.Store.GenerateEmbedCode | src/features/map/stores/map-store.ts:62-90 | stores the snippet built from the current config and dimensions; nothing else changes |
| LocationStore.Store.SetEmbedDimensions | src/features/map/stores/map-store.ts:92-95 | replaces only the width and the height |
| UrlEncoding.EncodeUriComponent | src/features/map/stores/map-store.ts:80 | the encoded config holds only unreserved characters and `%` escapes, so it never breaks the line it is on |
| MapStyles.ValidateMapStyles | src/themes/mapStyles.ts:9-30 | `[]` for a non-array; otherwise the same entries in order, with a non-array `stylers` replaced by `[]` and every other entry unchanged |
| MapStyles.ValidateMapStylesIdempotent | src/themes/mapStyles.ts:9-30 | validating validated styles changes nothing |
| MapStyles.ValidateStylesInPlace | src/themes/mapStyles.ts:18-27 | rewriting the array entry by entry leaves exactly the validated styles |
| MapStyles.ParseKey | src/themes/mapStyles.ts:266-268 | a key found in the catalog names that catalog entry |
| MapStyles.ParseKeyName | src/themes/mapStyles.ts:32-148 | every catalog key is found under its own name |
| MapStyles.CatalogRulesWellFormed | src/themes/mapStyles.ts:37-147 | every catalog rule has a feature or element type and an array of stylers, so validation leaves the catalog unchanged |
| MapStyles.DarkIffDarkCategory | src/themes/mapStyles.ts:151-263 | a catalog entry is dark exactly when its category is `dark` |
| MapStyles.ThreeDarkKeys | src/themes/mapStyles.ts:151-263 | the dark entries are darkNova, cyberNight and midnightBlues, in catalog order |
| MapStyles.GetThemeStylesLookup | src/themes/mapStyles.ts:266-268 | a catalog key gives its styles; any other string that is not an own key of the catalog gives the default's empty styles |
| MapStyles.KeyListed | src/themes/mapStyles.ts:271-273 | every catalog entry is among the listed keys |
| MapStyles.AllKeysDistinct | src/themes/mapStyles.ts:32-148 | there are 15 keys, each listed once |
| MapStyles.AllThemeKeysNameTheCatalog | src/themes/mapStyles.ts:271-273 | `getAllThemeKeys` lists the 15 names in declaration order, each once, each naming a catalog (and metadata) entry |
| MapStyles.ThemesByCategoryMembers | src/themes/mapStyles.ts:276-280 | an entry is listed under a category exactly when it is the key-tagged metadata of an entry of that category |
| ThemeUtils.CreateThemeFromStyle | src/lib/themeUtils.ts:94-115 | the theme's id names the key, and its category, shade and styles are the catalog's |
| ThemeUtils.CreateThemeInjective | src/lib/themeUtils.ts:94-115 | different keys give different themes |
| ThemeUtils.AllThemesAreTheCatalog | src/lib/themeUtils.ts:120-124 | 15 themes, one per key in key order, with distinct ids |
| ThemeUtils.ThemesByCategoryAreCatalogKeys | src/lib/themeUtils.ts:129-131 | the themes of a category are the themes of that category's keys, in catalog order |
| ThemeUtils.DarkThemesAreThree | src/lib/themeUtils.ts:136-140 | the dark themes are the themes of darkNova, cyberNight and midnightBlues, in catalog order |
| ThemeUtils.DarkLightPartition | src/lib/themeUtils.ts:136-145 | the dark and light lists are disjoint and together as long as the catalog |
| ThemeUtils.ThemeById | src/lib/themeUtils.ts:150-155 | a found theme has the requested id |
| ThemeUtils.ThemeByIdFindsCatalog | src/lib/themeUtils.ts:150-155 | a theme is found exactly for the catalog's own keys, and every catalog theme is found by its id; there is no default fallback |
| ThemeUtils.RandomTheme | src/lib/themeUtils.ts:160-164 | a random theme is a catalog theme |
| ThemeUtils.Known | src/lib/themeUtils.ts:169-182 | a recommended id resolves to its catalog theme |
| ThemeUtils.RecommendedThemes | src/lib/themeUtils.ts:169-182 | three catalog themes, each found by its id; an unlisted use case gets the first three of the catalog |
| ThemeUtils.RecommendedThemeIds | src/lib/themeUtils.ts:169-182 | the recommended themes have exactly the table's ids |
| ThemeUtils.RecommendedThemesOfKeys | src/lib/themeUtils.ts:169-182 | the recommended themes are the catalog themes built from the use case's three keys, in the table's order |
| ThemeUtils.IdsOfCatalogThemes | src/lib/themeUtils.ts:94-115 | a theme built from a catalog entry carries that entry's key as its id |
| ThemeUtils.RecommendedKeyNames | src/lib/themeUtils.ts:171-180 | business names default, minimalInk, oceanBreeze; travel sakuraBlossom, oceanBreeze, desertGlow; creative pastelPop, cyberNight, retroWave; minimal minimalInk, sepiaDust, default; any other use case default, darkNova, pastelPop |
| ThemeUtils.SomeColorMatches | src/lib/themeUtils.ts:187-198 | true exactly when some listed colour equals the pin colour ignoring the case of ASCII letters (the only characters the colour lists hold) |
| ThemeUtils.IsThemeCompatibleWithPinColor | src/lib/themeUtils.ts:187-198 | dark themes accept exactly the bright colours and light themes exactly the dark colours, ignoring the case of ASCII letters |
| ThemeUtils.CompatibilityIgnoresCase | src/lib/themeUtils.ts:187-198 | lower-casing the pin colour does not change the answer |
| ThemeUtils.DarkThemesAcceptOwnPinColor | src/lib/themeUtils.ts:187-198 | a dark catalog theme accepts its own pin colour |
| ThemeUtils.DefaultTheme | src/lib/themeUtils.ts:203-205 | the default theme has id `default`, no styles, is light, and is the catalog's `default` |
| ThemeUtils.IsValidTheme | src/lib/themeUtils.ts:210-220 | a valid theme is an object holding every required key |
| ThemeUtils.ThemeJsonIsValid | src/lib/themeUtils.ts:210-220 | every theme object passes validation |
| ThemeUtils.MissingKeyInvalid | src/lib/themeUtils.ts:210-220 | removing any required key makes a theme invalid |
| MapUtils.PredefinedStylesScoped | src/features/map/utils/mapUtils.ts:6-150 | every predefined rule names a feature and an element type and has array stylers |
| MapUtils.PredefinedThemeId | src/features/map/utils/mapUtils.ts:6-150 | each predefined theme carries its key as its id |
| MapUtils.ThemeTableEntries | src/features/map/utils/mapUtils.ts:6-150 | an object literal of these entries holds exactly the listed keys, each bound to the theme with that id |
| MapUtils.PredefinedThemesKeyedById | src/features/map/utils/mapUtils.ts:6-150 | the table has an entry for each of the ten keys and no other, and every entry's id equals its key |
| MapUtils.RandomIndex | src/features/map/utils/mapUtils.ts:222 | a scaled and floored draw is a valid index |
| MapUtils.GetRandomPinColor | src/features/map/utils/mapUtils.ts:221-223 | a random pin colour is one of the pin colours |
| MapUtils.GenerateSamplePin | src/features/map/utils/mapUtils.ts:228-240 | sample pin `i` has title `Sample Location <i+1>` and the matching description, a pin colour, and an icon that is never the last entry `custom` |
| MapUtils.OrDefault | src/features/map/utils/mapUtils.ts:261-262 | a missing or empty option takes the default |
| MapUtils.SplitCompositeId | src/features/map/utils/mapUtils.ts:258 | an id without `_` belongs to user `user`; otherwise the user and the map id are the first two `_`-separated pieces |
| MapUtils.SplitCompositeIdTwoParts | src/features/map/utils/mapUtils.ts:258 | `<user>_<id>` with underscore-free parts splits back into the user and the id |
| MapUtils.SplitCompositeIdDropsTail | src/features/map/utils/mapUtils.ts:258 | a third `_`-separated piece is dropped from the map id |
| MapUtils.SplitCompositeIdExample | src/features/map/utils/mapUtils.ts:258 | `u_map_123_abc` splits into `u` and `map`, not `map_123_abc` |
| MapUtils.SplitCompositeIdAtFirst | src/features/map/utils/mapUtils.ts:258 | splitting at the first underscore only: the user has no underscore and user, `_` and the map id rebuild the input |
| MapUtils.SplitCompositeIdAtFirstRoundTrip | src/features/map/utils/mapUtils.ts:258 | a user without underscores and any map id round-trip through the composite id |
| MapUtils.EmbedUrlShape | src/features/map/utils/mapUtils.ts:258-259 | a plain id gives `<base>/user/<id>?embed=true` and a composite one `<base>/<user>/<id>?embed=true` |
| MapUtils.IntendedEmbedUrlKeepsId | src/features/map/utils/mapUtils.ts:258-259 | with the composite split at its first underscore, the URL names the whole map id, and it agrees with the URL as written when the map id has no underscore |
| MapUtils.IframeSplit | src/features/map/utils/mapUtils.ts:265-273 | the iframe snippet is exactly its nine template lines |
| MapUtils.GenerateEmbedCodeLines | src/features/map/utils/mapUtils.ts:245-274 | the iframe snippet has the URL line, width and height defaulting to `100%`/`500px`, and an `allowfullscreen` token unless fullscreen is switched off |
| MapUtils.FullscreenLine | src/features/map/utils/mapUtils.ts:263 | the fullscreen line holds the token exactly when fullscreen is on |
| MapUtils.DivLine | src/features/map/utils/mapUtils.ts:292 | the div line stays one line |
| MapUtils.ScriptLine | src/features/map/utils/mapUtils.ts:293 | the script line stays one line |
| MapUtils.ScriptLineAttributes | src/features/map/utils/mapUtils.ts:293 | the script line carries `data-mapid` and the responsive attribute |
| MapUtils.GenerateScriptEmbedCodeLines | src/features/map/utils/mapUtils.ts:279-294 | two lines: a div `mapnest-<id>` sized by the defaulted width and height, then the script line with `data-mapid`, whose responsive slot holds `data-responsive="true"` exactly when responsive is not `false` and is empty exactly when it is |
| MapUtils.TwoLines | src/features/map/utils/mapUtils.ts:292-293 | two one-line pieces joined by a newline split back into themselves |
| EmbedCode.MergeOptions | src/components/molecules/EmbedCode.tsx:24-38 | each merged field is the provided value or its default (`mapId`, `100%`, `500px`, responsive, attribution, fullscreen on, full interface off) |
| EmbedCode.MergeOptionsOverlay | src/components/molecules/EmbedCode.tsx:35-38 | merging an overlay of two patches equals overlaying the second on the merge of the first |
| EmbedCode.IframeParams | src/components/molecules/EmbedCode.tsx:43-52 | `theme` is present exactly when the raw options have a theme id, and comes first; `fullInterface=true` is present exactly when the merged option is on |
| EmbedCode.IframeUrl | src/components/molecules/EmbedCode.tsx:54 | `<base>/embed/<mapId>`, followed by `?` and the query only when some parameter is set |
| EmbedCode.GenerateIframeCodeLines | src/components/molecules/EmbedCode.tsx:56-64 | the iframe has the URL, the merged width and height, and the `allowfullscreen` token exactly when merged fullscreen is on |
| EmbedCode.IframeTemplateLines | src/components/molecules/EmbedCode.tsx:56-64 | for any URL, width and height without line breaks the template reads back as nine lines with those values, and the sixth carries `allowfullscreen` exactly when it is switched on |
| EmbedCode.ScriptFieldsPlain | src/components/molecules/EmbedCode.tsx:68-76 | every attribute of the script tag is one space-free token |
| EmbedCode.FixedFieldsPlain | src/components/molecules/EmbedCode.tsx:68-76 | the fixed attributes are space-free tokens |
| EmbedCode.GenerateScriptCodeFields | src/components/molecules/EmbedCode.tsx:68-76 | the div is `mapnest-<mapId>` with the merged size; the script always has `data-mapid`, and has `data-theme`, `data-responsive` and `data-full-interface` exactly when their options hold |
| EmbedCode.JoinFree | src/components/molecules/EmbedCode.tsx:68-76 | joining pieces free of a character keeps it out of the result |
| EmbedCode.DisplayedCode | src/components/molecules/EmbedCode.tsx:79 | the iframe form exactly when the iframe tab is chosen, the script form otherwise |
| EmbedCode.HandleOptionChange | src/components/molecules/EmbedCode.tsx:93-100 | nothing is emitted without a callback; otherwise the raw options with exactly the changed key replaced |
| EmbedCode.HandleOptionChangeSameValue | src/components/molecules/EmbedCode.tsx:93-100 | setting a key to the value it already has emits the options unchanged |
| Utils.TruncateText | src/lib/utils.ts:39-42 | text that fits comes back unchanged; longer text becomes its first `maxLength` characters and `...`, `maxLength + 3` long |
| Utils.TruncateTextIdempotent | src/lib/utils.ts:39-42 | with a non-negative limit, truncating twice equals truncating once, and a result shorter than the limit is the untouched text |
| Utils.ColorFor | src/lib/utils.ts:27-34 | `#` followed by the digit each of the six draws picks |
| Utils.GetRandomColor | src/lib/utils.ts:27-34 | the loop builds exactly the colour the draws pick, a `#` and six upper-case hex digits |
| Utils.ColorForIsHex | src/lib/utils.ts:27-34 | every colour the draws pick is a hex colour |
| Utils.RollPicks | src/lib/utils.ts:31 | the draw `k/16` picks digit `k` |
| Utils.EveryHexColorReachable | src/lib/utils.ts:27-34 | every `#` plus six hex digits can come out |
| Utils.IndexOf | src/lib/utils.ts:28 | the position of a hex digit among the letters |
| ThemePicker.FilteredThemesMembers | src/components/organisms/ThemePicker.tsx:51-77 | a theme is listed exactly when it is a catalog theme of the right shade, of the chosen category unless `all`, and matching the lower-cased query unless it is blank |
| ThemePicker.FilteredThemesSubseq | src/components/organisms/ThemePicker.tsx:51-77 | the list is always the catalog with some themes left out, never reordered |
| ThemePicker.ShadeBaseSubseq | src/components/organisms/ThemePicker.tsx:55-59 | each shade filter starts from a subsequence of the catalog |
| ThemePicker.PipelineSubseq | src/components/organisms/ThemePicker.tsx:62-74 | the category and search filters only drop themes |
| ThemePicker.FilteredThemesUnfiltered | src/components/organisms/ThemePicker.tsx:51-77 | any shade, category `all` and a blank query list the whole catalog |
| ThemePicker.CategoriesWithCounts | src/components/organisms/ThemePicker.tsx:80-88 | one entry per category button, in order, with its count |
| ThemePicker.CategoryCountOfKeys | src/components/organisms/ThemePicker.tsx:80-88 | `all` counts the catalog; any other button counts the catalog entries of its category |
| ThemePicker.CategoryTotalIsLength | src/components/organisms/ThemePicker.tsx:80-88 | each key belongs to exactly one of the six categories |
| ThemePicker.CategoryCountsAddUp | src/components/organisms/ThemePicker.tsx:80-88 | the six category counts add up to the `all` count |
| ThemePicker.RecommendationPanel | src/components/organisms/ThemePicker.tsx:188-202 | the panel shows exactly when enabled with an empty query and category `all`; it then has the four use cases, each with the first two of its recommendations |
| ThemePicker.RecommendationPanelIds | src/components/organisms/ThemePicker.tsx:91-99 | each panel entry shows the first two ids its use case recommends |
| ThemePicker.SelectedTheme | src/components/organisms/ThemePicker.tsx:37 | the given theme, or the default theme when none is given |
| Sidebar.FilteredPins | src/components/molecules/Sidebar.tsx:30-36 | an empty query gives every pin; otherwise exactly the pins whose title, description or category contains it ignoring the case of ASCII letters, in order |
| Sidebar.EmptyQueryMatchesAll | src/components/molecules/Sidebar.tsx:30-36 | every pin matches the empty query |
| Sidebar.CollapsedPins | src/components/molecules/Sidebar.tsx:169 | the first `min(5, n)` pins of the unfiltered list |
| Sidebar.OverflowBadge | src/components/molecules/Sidebar.tsx:185-191 | the badge shows exactly when there are more than five pins, with the count `n - 5` |
| Sidebar.CollapsedAccountsForAll | src/components/molecules/Sidebar.tsx:169-191 | shown pins plus the badge count are all the pins |
| ThemePreview.FindIndex | src/components/molecules/ThemePreview.tsx:86-88 | the first index satisfying the test, or none when no element does |
| ThemePreview.RuleLookup | src/components/molecules/ThemePreview.tsx:90-96 | inside a rule: it throws exactly when `stylers` is truthy but not an array, and a found colour is the string `color` of the first colour styler |
| ThemePreview.FeatureLookup | src/components/molecules/ThemePreview.tsx:86-99 | with no rule for exactly that feature type the lookup falls back |
| ThemePreview.FirstRuleDecides | src/components/molecules/ThemePreview.tsx:86-97 | the first rule for the feature type decides the lookup |
| ThemePreview.FeatureColor | src/components/molecules/ThemePreview.tsx:84-118 | a found colour is used; otherwise the dark or light fallback; none exactly when the lookup throws |
| ThemePreview.LandColor | src/components/molecules/ThemePreview.tsx:45 | `#1a1a1a` exactly for dark themes and `#f5f5f5` exactly for light ones |
| ThemePreview.LaterRulesIgnored | src/components/molecules/ThemePreview.tsx:84-100 | rules after the first one for the feature never change the colour |
| ThemePreview.ValidatedNeverThrows | src/components/molecules/ThemePreview.tsx:84-118 | validated styles never make the colour lookup throw |
| ThemePreview.CatalogThemesHaveColors | src/components/molecules/ThemePreview.tsx:84-118 | every catalog theme gets a water and a road colour |
| ThemePreview.HighwayRuleIsNotRoad | src/components/molecules/ThemePreview.tsx:102-118 | a `road.highway` rule does not count as a road rule: roads take the fallback |

## Left out

- Browser storage is not modelled. `localStorage` reads and writes become the class state itself,
  and a failed read, a `JSON.parse` error and an unavailable `window` become an absent stored
  document.
- Database.MapDatabase.SaveToStorage: the model follows the browser path of `saveToStorage`, which
  always recounts `totalMaps`. Without `window` the source returns before the recount and leaves
  `totalMaps` stale. The same recount is promised by Database.MapDatabase.CreateMap,
  Database.MapDatabase.UpdateMap, Database.MapDatabase.DeleteMap,
  Database.MapDatabase.DuplicateMap and Database.MapDatabase.ImportDatabase.
- Downloads are not modelled: `createBackup`, `exportDatabase`, `exportToFile` and Blob URLs are
  I/O. `FileReader` is reduced to its three outcomes in `FileStorage.FileRead`.
- The clipboard, `alert`, `console` output and the warnings `validateMapStyles` logs are not
  modelled.
- `Date.now()` and `Math.random()` are parameters. Each call uses one `now`, whereas the source
  reads the clock separately for `createdAt` and `updatedAt` during migration.
- Database.MapDatabase.DuplicateMap: the pin-id generator is a parameter (`pinId`), so the model
  does not promise the ids are fresh, just as the source does not.
- `JSON.stringify` of the embed config is a parameter. `encodeURIComponent` escapes each
  character as its UTF-8 bytes; the `URIError` it raises on a lone UTF-16 surrogate is not
  modelled, because a model string cannot hold one.
- `window.location.origin` and `process.env.NEXT_PUBLIC_APP_URL` are parameters.
- Floating point is not modelled: coordinates are `real`, and `formatCoordinates`,
  `calculateDistance`, `formatCoordinate`, the random sample-pin coordinates and the canvas
  drawing of the theme thumbnail are left out.
- `debounce` and `cn` of `src/lib/utils.ts` are left out (timers and class-name joining).
- Utils.TruncateText: a non-integer or `NaN` limit is not modelled; the limit is an `int`.
  Lengths and cuts count Unicode characters, where `text.length` and `substring` count UTF-16
  code units, so text outside the Basic Multilingual Plane (`"😀😀"` with limit 3) is kept whole
  by the model but cut inside a surrogate pair by the source.
- Database.FilterByCriteriaSpec: the search test lower-cases only `A`-`Z`, where `toLowerCase`
  folds all of Unicode, so a name `École` searched as `école` is dropped by the model but kept by
  the source. The same holds for Database.SelectMapsSpec and Database.MapDatabase.GetMaps.
- Sidebar.FilteredPins: matching lower-cases only `A`-`Z`, so a pin titled `École` is not found
  by the query `école`, which the source finds.
- ThemePicker.FilteredThemesMembers: the query is lower-cased on `A`-`Z` only, so a query such as
  `K` (U+212A, which `toLowerCase` turns into `k`) matches no theme in the model while the
  source matches every theme with a `k`.
- MapStyles.GetThemeStylesLookup: only own keys are modelled, as for ThemeUtils.ThemeById. For an
  inherited name such as `toString`, `constructor` or `__proto__`, `mapStyles[themeKey]` is a
  truthy inherited value, so the source returns it rather than the default's `[]`. The model
  gives `[]`. The same holds for MapStyles.ParseKey, which finds own keys only.
- ThemeUtils.ThemeById: only the catalog's own keys are modelled. The source's `id in mapStyles`
  is also true for inherited names such as `toString`, `constructor` and `__proto__`; it then
  throws from `JSON.parse(undefined)` or builds a theme of `undefined` fields, where the model
  returns `None`.
- ThemeUtils.ThemeByIdFindsCatalog: "found exactly for the catalog keys" holds for own keys; the
  inherited names above are not modelled.
- Database.MapDatabase.GetMap: only own keys are modelled; `this.data.maps[id] || null` answers
  an inherited name such as `toString` with the inherited function, where the model gives null.
- FileStorage.FileStorage.LoadMap: only own keys are modelled, as for
  Database.MapDatabase.GetMap.
- Database.MapDatabase.UpdateMap: only own keys are modelled, as for Database.MapDatabase.GetMap.
  For an inherited name such as `toString` the source's `!this.data.maps[id]` test passes and it
  stores a record spread from a function, where the model returns null and changes nothing.
- Database.MapDatabase.DeleteMap: only own keys are modelled. For an inherited name the source
  returns true and deletes nothing, where the model returns false.
- Database.MapDatabase.DuplicateMap: only own keys are modelled. For an inherited name the
  source's lookup succeeds and then throws a `TypeError` at `originalMap.pins.map`, where the
  model returns null.
- MapStore.UpdateMapStep: only own keys are modelled, as for Database.MapDatabase.GetMap. For an
  inherited name the source's `if (!map)` test passes and a record is created under that key.
- MapStore.AddPinStep: only own keys are modelled, as for MapStore.UpdateMapStep.
- MapStore.UpdatePinStep: only own keys are modelled, as for MapStore.UpdateMapStep.
- MapStore.DeletePinStep: only own keys are modelled, as for MapStore.UpdateMapStep.
- MapStore.SetThemeStep: only own keys are modelled, as for MapStore.UpdateMapStep.
- MapStore.SetLayoutStep: only own keys are modelled, as for MapStore.UpdateMapStep.
- MapStore.UpdateEmbedOptionsStep: only own keys are modelled, as for MapStore.UpdateMapStep.
- Utils.GetRandomColor: the draws are exact reals, so floating-point rounding of
  `Math.random() * 16` is not captured.
- JavaScript object key order is not modelled except where it decides a result. `MapStore`
  keeps insertion order explicitly, because `deleteMap` picks the first remaining key, but
  ignores JavaScript's rule that integer-like keys come first.
- Database.MapDatabase.GetAllMaps: maps with equal `updatedAt` may come out in any order. The
  source's stable sort would keep dictionary order, which the model does not track.
- FileStorage.FileStorage.GetAllMaps: the order of the records is left open, as the source
  promises none.
- A stored or imported database document is either the legacy shape (maps without metadata) or
  the current shape. Other JSON with missing or mistyped fields is not modelled, and neither is
  an array under `maps` in a file import.
- A key explicitly set to `undefined` in a spread is treated as absent.
- The theme, layout and pin-style types of `map-store.ts` and its sample locations come from
  files that are not part of this model. They are strings and a constructor parameter, and a
  location's extra fields are an opaque map.
- The Google Maps SDK plumbing, the address search, React effects and all pure UI composition
  are out of scope.
- `getThemeById` returns `undefined` for an unknown id, with no fallback to the default theme.
- The iframe templates put every attribute on its own line.
- ThemePreview: the colours are modelled as the values the lookups return. The canvas drawing
  that uses them is left out.

## Findings

| source | as written | input that shows it | evidently intended | confidence | as-written member | corrected member |
|---|---|---|---|---|---|---|
| src/features/map/utils/mapUtils.ts:258 | `mapId.split('_', 2)` keeps only the first two `_`-separated pieces, so a map id that itself contains `_` loses its tail | `u_map_123_abc` (user `u`, map id `map_123_abc`, the form `createMap` at src/lib/database.ts:144 generates) gives the URL path `/u/map` | split at the first underscore only, so the URL names `/u/map_123_abc` | not executed | MapUtils.SplitCompositeIdDropsTail, MapUtils.SplitCompositeIdExample, Database.CompositeOfGeneratedIdIsTruncated | MapUtils.SplitCompositeIdAtFirst, MapUtils.SplitCompositeIdAtFirstRoundTrip, MapUtils.IntendedEmbedUrlKeepsId |
