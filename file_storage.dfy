/** The file storage: an older, simpler store of saved maps keyed by id, with a reference to the
    current map and a validated import of a whole document. Writing to browser storage and the
    file download are not modelled. */
module FileStorage {
  import opened Wrappers
  import opened Seqs
  import opened Model

  /** What `saveMap` is given: a saved map without its timestamps. */
  datatype MapInput = MapInput(
    id: string,
    name: string,
    pins: seq<Pin>,
    theme: Option<Theme>,
    layout: Layout,
    embedOptions: EmbedPatch)

  /** The whole stored document. */
  datatype StorageData = StorageData(maps: map<string, SavedMap>, currentMapId: Option<string>)

  const EmptyData := StorageData(map[], None)

  /** The `maps` field of an imported document, as the validation sees it. */
  datatype MapsField =
    | MapsMissing                                  // absent, `null`, `false`, `0` or `""`
    | MapsNotObject                                // a truthy number, string or `true`
    | MapsObject(records: map<string, SavedMap>)   // a non-null object

  /** An imported document; `currentMapId` is `None` when absent or empty. */
  datatype ImportedDoc = ImportedDoc(maps: MapsField, currentMapId: Option<string>)

  /** What reading the file gave: a read failure, text whose parse or first field access throws
      (`JSON.parse` fails, or the text is `null`), or a parsed document (a parsed value without a
      `maps` object, such as `5`, is a `Parsed` document with a missing `maps`). */
  datatype FileRead = ReadFailed | NotJson | Parsed(doc: ImportedDoc)

  datatype ImportError = FailedToRead | ParseError | InvalidFormat

  /** The message each rejection carries; a parse error carries the parser's own message. */
  function ErrorMessage(e: ImportError): Option<string> {
    match e
    case FailedToRead => Some("Failed to read file")
    case InvalidFormat => Some("Invalid file format")
    case ParseError => None
  }

  /** The input part of a saved map. */
  function InputOf(m: SavedMap): MapInput {
    MapInput(m.id, m.name, m.pins, m.theme, m.layout, m.embedOptions)
  }

  /** The record `saveMap` stores: the input, `updatedAt` now, and `createdAt` kept from the
      existing record unless that is missing or zero. */
  function SavedRecord(input: MapInput, existing: Option<SavedMap>, now: int): (r: SavedMap)
    ensures InputOf(r) == input
    ensures r.updatedAt == now
    ensures existing.Some? && existing.value.createdAt != 0 ==> r.createdAt == existing.value.createdAt
    ensures existing.None? || existing.value.createdAt == 0 ==> r.createdAt == now
  {
    var createdAt := if existing.Some? && existing.value.createdAt != 0 then existing.value.createdAt else now;
    SavedMap(input.id, input.name, input.pins, input.theme, input.layout, input.embedOptions, createdAt, now)
  }

  /** Saving twice keeps the creation time of the first save (when that is not zero), whatever was
      saved in between; the record only reflects the latest input and time. */
  lemma SaveTwiceKeepsCreation(a: MapInput, b: MapInput, existing: Option<SavedMap>, t1: int, t2: int)
    requires SavedRecord(a, existing, t1).createdAt != 0
    ensures SavedRecord(b, Some(SavedRecord(a, existing, t1)), t2).createdAt == SavedRecord(a, existing, t1).createdAt
    ensures SavedRecord(b, Some(SavedRecord(a, existing, t1)), t2) == SavedRecord(b, Some(SavedRecord(b, existing, t1)), t2)
  {
  }

  /** The current map after `mapId` is deleted. */
  function CurrentAfterDelete(current: Option<string>, mapId: string): (r: Option<string>)
    ensures r.None? <==> current.None? || current.value == mapId
    ensures r.Some? ==> r == current
  {
    if current == Some(mapId) then None else current
  }

  /** The document an import installs, or the reason it is refused. */
  function ImportResult(read: FileRead): (r: Result<StorageData, ImportError>)
    ensures r.Ok? <==> read.Parsed? && read.doc.maps.MapsObject?
    ensures r.Ok? ==> r.value == StorageData(read.doc.maps.records, read.doc.currentMapId)
    ensures read.ReadFailed? ==> r == Err(FailedToRead)
    ensures read.NotJson? ==> r == Err(ParseError)
    ensures read.Parsed? && !read.doc.maps.MapsObject? ==> r == Err(InvalidFormat)
  {
    match read
    case ReadFailed => Err(FailedToRead)
    case NotJson => Err(ParseError)
    case Parsed(doc) =>
      if doc.maps.MapsObject? then Ok(StorageData(doc.maps.records, doc.currentMapId)) else Err(InvalidFormat)
  }

  class FileStorage {
    var maps: map<string, SavedMap>
    var currentMapId: Option<string>

    function Data(): StorageData
      reads this
    {
      StorageData(maps, currentMapId)
    }

    /** Loading at start-up takes the stored document as it is; nothing stored, or text that does
        not parse, gives the empty document. */
    constructor (stored: Option<StorageData>)
      ensures Data() == stored.GetOr(EmptyData)
    {
      var d := stored.GetOr(EmptyData);
      maps := d.maps;
      currentMapId := d.currentMapId;
    }

    /** Stores the input under its own id, stamped `now`. */
    method SaveMap(input: MapInput, now: int)
      modifies this
      ensures maps == old(maps)[input.id := SavedRecord(input, old(LoadMap(input.id)), now)]
      ensures currentMapId == old(currentMapId)
      ensures LoadMap(input.id).Some? && InputOf(LoadMap(input.id).value) == input
    {
      var existing := LoadMap(input.id);
      maps := maps[input.id := SavedRecord(input, existing, now)];
    }

    /** The record under `mapId`, or `None`. */
    function LoadMap(mapId: string): (r: Option<SavedMap>)
      reads this
      ensures r.Some? <==> mapId in maps
      ensures r.Some? ==> r.value == maps[mapId]
    {
      if mapId in maps then Some(maps[mapId]) else None
    }

    /** Every stored record exactly once (the record under `ks[i]` at position `i`); no order is
        promised. */
    method GetAllMaps() returns (r: seq<SavedMap>, ghost ks: seq<string>)
      ensures |r| == |ks| == |maps|
      ensures Distinct(ks)
      ensures forall k :: k in ks <==> k in maps
      ensures forall i :: 0 <= i < |r| ==> ks[i] in maps && r[i] == maps[ks[i]]
      ensures |r| == |maps| && forall m :: m in r <==> m in maps.Values
    {
      r := [];
      ks := [];
      var remaining := maps.Keys;
      while remaining != {}
        invariant remaining <= maps.Keys
        invariant |r| == |ks| && |ks| + |remaining| == |maps.Keys|
        invariant Distinct(ks)
        invariant forall k :: k in ks <==> k in maps && k !in remaining
        invariant forall i :: 0 <= i < |r| ==> ks[i] in maps && r[i] == maps[ks[i]]
        decreases remaining
      {
        var k :| k in remaining;
        r := r + [maps[k]];
        ks := ks + [k];
        remaining := remaining - {k};
      }
      ListedValues(maps, r, ks);
    }

    /** Removes `mapId` and clears the current map if it named that map. */
    method DeleteMap(mapId: string)
      modifies this
      ensures maps == old(maps) - {mapId}
      ensures currentMapId == CurrentAfterDelete(old(currentMapId), mapId)
    {
      maps := maps - {mapId};
      if currentMapId == Some(mapId) {
        currentMapId := None;
      }
    }

    /** Points at `mapId`, whether or not it is stored. */
    method SetCurrentMap(mapId: string)
      modifies this
      ensures currentMapId == Some(mapId) && maps == old(maps)
      ensures GetCurrentMapId() == Some(mapId)
    {
      currentMapId := Some(mapId);
    }

    function GetCurrentMapId(): (r: Option<string>)
      reads this
      ensures r == currentMapId
    {
      currentMapId
    }

    /** Installs the imported document when its `maps` is an object, replacing the stored maps
        wholesale; any other outcome is refused and changes nothing. */
    method ImportFromFile(read: FileRead) returns (r: Result<(), ImportError>)
      modifies this
      ensures r.Ok? <==> ImportResult(read).Ok?
      ensures r.Ok? ==> Data() == ImportResult(read).value
      ensures r.Err? ==> r.error == ImportResult(read).error && Data() == old(Data())
    {
      var outcome := ImportResult(read);
      if outcome.Err? {
        return Err(outcome.error);
      }
      maps := outcome.value.maps;
      currentMapId := outcome.value.currentMapId;
      r := Ok(());
    }

    /** Back to no maps and no current map. */
    method ClearAll()
      modifies this
      ensures Data() == EmptyData
    {
      maps := map[];
      currentMapId := None;
    }
  }
}
