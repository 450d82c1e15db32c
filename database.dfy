/** The map database: a dictionary of map records keyed by id, with a metadata block, kept by a
    singleton that creates, updates, deletes and duplicates records, answers sorted and filtered
    queries and statistics, migrates the older file-storage format and imports whole documents.
    Writing the document to browser storage is not modelled; what persisting does to the metadata
    (recounting `totalMaps`) is. */
module Database {
  import opened Wrappers
  import opened Seqs
  import opened Text
  import opened Model
  import MapUtils

  const DbVersion := "1.0.0"

  datatype Center = Center(lat: real, lng: real)

  /** A stored map record (`MapData`); `None` is an absent optional key. */
  datatype MapData = MapData(
    id: string,
    name: string,
    description: Option<string>,
    pins: seq<Pin>,
    theme: Theme,
    layout: Layout,
    center: Center,
    zoom: real,
    embedOptions: EmbedOptions,
    isPublic: bool,
    tags: seq<string>,
    createdAt: int,
    updatedAt: int,
    createdBy: Option<string>)

  /** What a caller supplies to create a map: a record without `id`, `createdAt`, `updatedAt`. */
  datatype MapDraft = MapDraft(
    name: string,
    description: Option<string>,
    pins: seq<Pin>,
    theme: Theme,
    layout: Layout,
    center: Center,
    zoom: real,
    embedOptions: EmbedOptions,
    isPublic: bool,
    tags: seq<string>,
    createdBy: Option<string>)

  /** A partial update of a record; `None` leaves the field as it is. */
  datatype MapUpdate = MapUpdate(
    name: Option<string>,
    description: Option<string>,
    pins: Option<seq<Pin>>,
    theme: Option<Theme>,
    layout: Option<Layout>,
    center: Option<Center>,
    zoom: Option<real>,
    embedOptions: Option<EmbedOptions>,
    isPublic: Option<bool>,
    tags: Option<seq<string>>,
    createdBy: Option<string>)

  const NoChanges := MapUpdate(None, None, None, None, None, None, None, None, None, None, None)

  datatype DbMetadata = DbMetadata(version: string, lastBackup: Option<int>, totalMaps: int)

  /** The whole persisted document. */
  datatype DatabaseData = DatabaseData(maps: map<string, MapData>, metadata: DbMetadata)

  const DefaultData := DatabaseData(map[], DbMetadata(DbVersion, None, 0))

  /** The caller-supplied part of a record. */
  function DraftOf(m: MapData): MapDraft {
    MapDraft(m.name, m.description, m.pins, m.theme, m.layout, m.center, m.zoom, m.embedOptions,
             m.isPublic, m.tags, m.createdBy)
  }

  /** The record `createMap` builds: the draft stamped with an id and two equal timestamps. */
  function FromDraft(d: MapDraft, id: string, now: int): (r: MapData)
    ensures r.id == id && r.createdAt == now && r.updatedAt == now
    ensures DraftOf(r) == d
  {
    MapData(id, d.name, d.description, d.pins, d.theme, d.layout, d.center, d.zoom, d.embedOptions,
            d.isPublic, d.tags, now, now, d.createdBy)
  }

  /** `{...existing, ...updates, id, createdAt: existing.createdAt, updatedAt: now}`. */
  function ApplyUpdate(m: MapData, u: MapUpdate, now: int): (r: MapData)
    ensures r.id == m.id && r.createdAt == m.createdAt && r.updatedAt == now
    ensures u == NoChanges ==> DraftOf(r) == DraftOf(m)
    ensures u.name.Some? ==> r.name == u.name.value
    ensures u.name.None? ==> r.name == m.name
    ensures u.pins.Some? ==> r.pins == u.pins.value
    ensures u.pins.None? ==> r.pins == m.pins
    ensures u.embedOptions.Some? ==> r.embedOptions == u.embedOptions.value
    ensures u.embedOptions.None? ==> r.embedOptions == m.embedOptions
    ensures u.description.Some? ==> r.description == u.description
    ensures u.description.None? ==> r.description == m.description
    ensures u.theme.Some? ==> r.theme == u.theme.value
    ensures u.theme.None? ==> r.theme == m.theme
    ensures u.layout.Some? ==> r.layout == u.layout.value
    ensures u.layout.None? ==> r.layout == m.layout
    ensures u.center.Some? ==> r.center == u.center.value
    ensures u.center.None? ==> r.center == m.center
    ensures u.zoom.Some? ==> r.zoom == u.zoom.value
    ensures u.zoom.None? ==> r.zoom == m.zoom
    ensures u.isPublic.Some? ==> r.isPublic == u.isPublic.value
    ensures u.isPublic.None? ==> r.isPublic == m.isPublic
    ensures u.tags.Some? ==> r.tags == u.tags.value
    ensures u.tags.None? ==> r.tags == m.tags
    ensures u.createdBy.Some? ==> r.createdBy == u.createdBy
    ensures u.createdBy.None? ==> r.createdBy == m.createdBy
  {
    MapData(
      m.id,
      u.name.GetOr(m.name),
      Over(m.description, u.description),
      u.pins.GetOr(m.pins),
      u.theme.GetOr(m.theme),
      u.layout.GetOr(m.layout),
      u.center.GetOr(m.center),
      u.zoom.GetOr(m.zoom),
      u.embedOptions.GetOr(m.embedOptions),
      u.isPublic.GetOr(m.isPublic),
      u.tags.GetOr(m.tags),
      m.createdAt,
      now,
      Over(m.createdBy, u.createdBy))
  }

  /** Two partial updates given one after the other, as one object (`{...u, ...v}`). */
  function CombineUpdates(u: MapUpdate, v: MapUpdate): MapUpdate {
    MapUpdate(
      Over(u.name, v.name), Over(u.description, v.description), Over(u.pins, v.pins),
      Over(u.theme, v.theme), Over(u.layout, v.layout), Over(u.center, v.center),
      Over(u.zoom, v.zoom), Over(u.embedOptions, v.embedOptions), Over(u.isPublic, v.isPublic),
      Over(u.tags, v.tags), Over(u.createdBy, v.createdBy))
  }

  /** Two updates in a row are one update with the combined fields and the later time; in
      particular repeating an update only moves `updatedAt`. */
  lemma UpdatesCompose(m: MapData, u: MapUpdate, v: MapUpdate, t1: int, t2: int)
    ensures ApplyUpdate(ApplyUpdate(m, u, t1), v, t2) == ApplyUpdate(m, CombineUpdates(u, v), t2)
    ensures ApplyUpdate(ApplyUpdate(m, u, t1), u, t2) == ApplyUpdate(m, u, t2)
  {
  }

  /** An update never changes a record's identity or creation time, and a stored record updated
      with its own fields is the record with a new `updatedAt`. */
  lemma UpdateWithOwnFields(m: MapData, now: int)
    ensures var own := MapUpdate(Some(m.name), m.description, Some(m.pins), Some(m.theme), Some(m.layout),
                                 Some(m.center), Some(m.zoom), Some(m.embedOptions), Some(m.isPublic),
                                 Some(m.tags), m.createdBy);
            ApplyUpdate(m, own, now) == m.(updatedAt := now)
  {
  }

  // ---------------------------------------------------------------------------------------------
  // Ids

  /** `map_<timestamp>_<random suffix>`; the suffix is base-36 text and never holds `_`. */
  function GenerateMapId(stamp: nat, suffix: string): (r: string)
    ensures |r| > 4 && r[..4] == "map_"
  {
    "map_" + NatToString(stamp) + "_" + suffix
  }

  /** A generated id is three underscore-separated parts: `map`, the timestamp, the suffix. */
  lemma GenerateMapIdParts(stamp: nat, suffix: string)
    requires '_' !in suffix
    ensures Text.Split(GenerateMapId(stamp, suffix), '_') == ["map", NatToString(stamp), suffix]
  {
    var ts := NatToString(stamp);
    assert '_' !in ts by {
      forall i | 0 <= i < |ts| ensures ts[i] != '_' {
        assert '0' <= ts[i] <= '9';
      }
    }
    var pieces := ["map", ts, suffix];
    assert Join(pieces[1..], '_') == ts + "_" + suffix;
    assert Join(pieces, '_') == GenerateMapId(stamp, suffix);
    JoinSplit(pieces, '_');
  }

  /** Every database id loses its timestamp and suffix when it is the map part of a composite
      `${userId}_${mapId}` taken apart by the embed-code generator: only `map` survives. */
  lemma CompositeOfGeneratedIdIsTruncated(userId: string, stamp: nat, suffix: string)
    requires '_' !in userId
    ensures MapUtils.SplitCompositeId(userId + "_" + GenerateMapId(stamp, suffix)) == (userId, "map")
    ensures MapUtils.SplitCompositeIdAtFirst(userId + "_" + GenerateMapId(stamp, suffix)).1
            == GenerateMapId(stamp, suffix)
  {
    var tail := NatToString(stamp) + "_" + suffix;
    assert userId + "_" + GenerateMapId(stamp, suffix) == userId + "_" + "map" + "_" + tail;
    MapUtils.SplitCompositeIdDropsTail(userId, "map", tail);
    MapUtils.SplitCompositeIdAtFirstRoundTrip(userId, GenerateMapId(stamp, suffix));
  }

  // ---------------------------------------------------------------------------------------------
  // Migration from the file-storage format

  /** A record in the older format: every field may be missing. */
  datatype LegacyMap = LegacyMap(
    name: Option<string>,
    pins: Option<seq<Pin>>,
    theme: Option<Theme>,
    layout: Option<Layout>,
    embedOptions: EmbedPatch,
    createdAt: Option<int>,
    updatedAt: Option<int>)

  /** A parsed stored document: the older format has `maps` but no `metadata`. */
  datatype StoredDoc = LegacyDoc(legacyMaps: map<string, LegacyMap>) | CurrentDoc(data: DatabaseData)

  /** The theme a migrated record gets when it had none. */
  const LegacyDefaultTheme := Theme("default", "Default", None, None, None, [], "blue", "gray", "red", false)

  /** The embed options a migrated record starts from, before its own options are spread in. */
  function MigratedEmbedBase(id: string): EmbedOptions {
    EmbedOptions(id, "100%", "500px", true, true, true, false, None)
  }

  /** `value || fallback` for a timestamp: a missing or zero timestamp is replaced by now. */
  function StampOr(t: Option<int>, now: int): int {
    if t.Some? && t.value != 0 then t.value else now
  }

  /** The record migration builds for key `id`. */
  function MigrateMap(id: string, lm: LegacyMap, now: int): (r: MapData)
    ensures r.id == id
    ensures r.name == if lm.name.Some? && lm.name.value != "" then lm.name.value else "Map " + id
    ensures r.layout == if lm.layout.Some? then lm.layout.value else Fullscreen
    ensures r.pins == if lm.pins.Some? then lm.pins.value else []
    ensures r.theme == if lm.theme.Some? then lm.theme.value else LegacyDefaultTheme
    ensures r.embedOptions.mapId == if lm.embedOptions.mapId.Some? then lm.embedOptions.mapId.value else id
    ensures lm.embedOptions == NoEmbedKeys ==> r.embedOptions == MigratedEmbedBase(id)
    ensures !r.isPublic && r.tags == [] && r.description == Some("")
    ensures r.createdAt == if lm.createdAt.Some? && lm.createdAt.value != 0 then lm.createdAt.value else now
    ensures r.updatedAt == if lm.updatedAt.Some? && lm.updatedAt.value != 0 then lm.updatedAt.value else now
  {
    MapData(
      id,
      if lm.name.Some? && lm.name.value != "" then lm.name.value else "Map " + id,
      Some(""),
      lm.pins.GetOr([]),
      lm.theme.GetOr(LegacyDefaultTheme),
      lm.layout.GetOr(Fullscreen),
      Center(40.7128, -74.006),
      10.0,
      ApplyEmbed(MigratedEmbedBase(id), lm.embedOptions),
      false,
      [],
      StampOr(lm.createdAt, now),
      StampOr(lm.updatedAt, now),
      None)
  }

  /** `r` is what migrating `doc` yields: an older document gets every record migrated under its
      own key and a fresh count; a current document is taken as it is. */
  predicate MigratedFrom(doc: StoredDoc, now: int, r: DatabaseData) {
    match doc
    case CurrentDoc(data) => r == data
    case LegacyDoc(legacy) =>
      && r.maps.Keys == legacy.Keys
      && (forall id :: id in r.maps ==> r.maps[id] == MigrateMap(id, legacy[id], now))
      && r.metadata == DbMetadata(DbVersion, None, |r.maps|)
  }

  /** Migration has exactly one outcome per document. */
  lemma {:induction false} MigratedFromUnique(doc: StoredDoc, now: int, r1: DatabaseData, r2: DatabaseData)
    requires MigratedFrom(doc, now, r1) && MigratedFrom(doc, now, r2)
    ensures r1 == r2
  {
    if doc.LegacyDoc? {
      assert r1.maps == r2.maps by {
        forall id | id in r1.maps ensures r1.maps[id] == r2.maps[id] {
        }
      }
    }
  }

  /** The `forEach` over the older records, filling a fresh dictionary one key at a time. */
  method MigrateMaps(legacy: map<string, LegacyMap>, now: int) returns (migrated: map<string, MapData>)
    ensures migrated.Keys == legacy.Keys
    ensures forall id :: id in migrated ==> migrated[id] == MigrateMap(id, legacy[id], now)
  {
    migrated := map[];
    var remaining := legacy.Keys;
    while remaining != {}
      invariant remaining <= legacy.Keys
      invariant migrated.Keys == legacy.Keys - remaining
      invariant forall id :: id in migrated ==> migrated[id] == MigrateMap(id, legacy[id], now)
      decreases remaining
    {
      var id :| id in remaining;
      migrated := migrated[id := MigrateMap(id, legacy[id], now)];
      remaining := remaining - {id};
    }
  }

  /** `migrateData`: converts an older document and returns any other one unchanged. */
  method MigrateData(doc: StoredDoc, now: int) returns (r: DatabaseData)
    ensures MigratedFrom(doc, now, r)
    ensures doc.LegacyDoc? ==> r.metadata.totalMaps == |r.maps| == |doc.legacyMaps|
  {
    match doc
    case CurrentDoc(data) =>
      r := data;
    case LegacyDoc(legacy) =>
      var migrated := MigrateMaps(legacy, now);
      r := DatabaseData(migrated, DbMetadata(DbVersion, None, |migrated|));
      assert |migrated| == |migrated.Keys| == |legacy.Keys| == |legacy|;
  }

  // ---------------------------------------------------------------------------------------------
  // Queries

  /** Most recently updated first. */
  predicate NewestFirst(s: seq<MapData>) {
    forall i, j :: 0 <= i < j < |s| ==> s[i].updatedAt >= s[j].updatedAt
  }

  /** Inserting a record between the ones at least as recent and the ones older keeps the order. */
  lemma InsertNewestFirst(s: seq<MapData>, p: nat, m: MapData)
    requires p <= |s| && NewestFirst(s)
    requires forall i :: 0 <= i < p ==> s[i].updatedAt >= m.updatedAt
    requires forall i :: p <= i < |s| ==> s[i].updatedAt <= m.updatedAt
    ensures NewestFirst(s[..p] + [m] + s[p..])
  {
    var t := s[..p] + [m] + s[p..];
    forall i, j | 0 <= i < j < |t| ensures t[i].updatedAt >= t[j].updatedAt {
      if j < p {
        assert t[i] == s[i] && t[j] == s[j];
      } else if j == p {
        assert t[i] == s[i];
      } else if i == p {
        assert t[j] == s[j - 1];
      } else if i < p {
        assert t[i] == s[i] && t[j] == s[j - 1];
      } else {
        assert t[i] == s[i - 1] && t[j] == s[j - 1];
      }
    }
  }

  /** Where the sort puts a record: after every record at least as recent, before the older ones. */
  method InsertionPoint(s: seq<MapData>, m: MapData) returns (p: nat)
    requires NewestFirst(s)
    ensures p <= |s|
    ensures forall i :: 0 <= i < p ==> s[i].updatedAt >= m.updatedAt
    ensures forall i :: p <= i < |s| ==> s[i].updatedAt < m.updatedAt
  {
    p := 0;
    while p < |s| && s[p].updatedAt >= m.updatedAt
      invariant p <= |s|
      invariant forall i :: 0 <= i < p ==> s[i].updatedAt >= m.updatedAt
    {
      p := p + 1;
    }
  }

  /** Inserting the record under `k` into a keyed listing, at the same place in both sequences,
      keeps every position paired with its key. */
  lemma InsertKeyed(maps: map<string, MapData>, s: seq<MapData>, ks: seq<string>, p: nat, k: string)
    requires p <= |s| == |ks| && k in maps && k !in ks && Distinct(ks)
    requires forall i :: 0 <= i < |s| ==> ks[i] in maps && s[i] == maps[ks[i]]
    ensures var s', ks' := s[..p] + [maps[k]] + s[p..], ks[..p] + [k] + ks[p..];
      && |s'| == |ks'| == |s| + 1 && Distinct(ks')
      && (forall x :: x in ks' <==> x == k || x in ks)
      && (forall i :: 0 <= i < |s'| ==> ks'[i] in maps && s'[i] == maps[ks'[i]])
  {
    InsertAt(s, p, maps[k]);
    InsertAt(ks, p, k);
    InsertAtMembers(ks, p, k);
  }

  /** The criteria `getMaps` accepts; `None` is an absent key. */
  datatype Criteria = Criteria(
    isPublic: Option<bool>,
    tags: Option<seq<string>>,
    search: Option<string>,
    limit: Option<int>)

  /** The map carries at least one of the tags. */
  predicate HasAnyTag(m: MapData, tags: seq<string>) {
    exists i :: 0 <= i < |tags| && tags[i] in m.tags
  }

  /** A pin's title or description holds the lower-cased query. */
  predicate PinMatches(p: Pin, query: string) {
    Contains(Lower(p.fields.title), query)
    || (p.fields.description.Some? && Contains(Lower(p.fields.description.value), query))
  }

  /** The map's name, its description or one of its pins holds the lower-cased query. */
  predicate MatchesSearch(m: MapData, query: string) {
    || Contains(Lower(m.name), query)
    || (m.description.Some? && Contains(Lower(m.description.value), query))
    || exists i :: 0 <= i < |m.pins| && PinMatches(m.pins[i], query)
  }

  /** A record passes every filter the criteria switch on. */
  predicate Selected(m: MapData, c: Criteria) {
    && (c.isPublic.Some? ==> m.isPublic == c.isPublic.value)
    && (c.tags.Some? && |c.tags.value| > 0 ==> HasAnyTag(m, c.tags.value))
    && (c.search.Some? && c.search.value != "" ==> MatchesSearch(m, Lower(c.search.value)))
  }

  function ByVisibility(s: seq<MapData>, c: Criteria): seq<MapData> {
    if c.isPublic.Some? then Filter(s, (m: MapData) => m.isPublic == c.isPublic.value) else s
  }

  function ByTags(s: seq<MapData>, c: Criteria): seq<MapData> {
    if c.tags.Some? && |c.tags.value| > 0 then Filter(s, (m: MapData) => HasAnyTag(m, c.tags.value)) else s
  }

  function BySearch(s: seq<MapData>, c: Criteria): seq<MapData> {
    if c.search.Some? && c.search.value != "" then
      Filter(s, (m: MapData) => MatchesSearch(m, Lower(c.search.value)))
    else s
  }

  /** The three filters of `getMaps`, in order. */
  function FilterByCriteria(s: seq<MapData>, c: Criteria): seq<MapData> {
    BySearch(ByTags(ByVisibility(s, c), c), c)
  }

  /** The `getMaps` pipeline over the sorted listing: the filters, then `slice(0, limit)` when the
      limit is non-zero (a negative limit counts back from the end, as `slice` does). */
  function SelectMaps(all: seq<MapData>, c: Criteria): seq<MapData> {
    var s := FilterByCriteria(all, c);
    if c.limit.Some? && c.limit.value != 0 then SliceTo(s, c.limit.value) else s
  }

  /** A filter step keeps an order-preserving subsequence of exactly the records that pass it. */
  lemma FilterStep(s: seq<MapData>, p: MapData -> bool)
    ensures IsSubseq(Filter(s, p), s)
    ensures forall m :: m in Filter(s, p) <==> m in s && p(m)
  {
    FilterIsSubseq(s, p);
  }

  /** The filters keep, in order, exactly the records that satisfy the criteria. */
  lemma FilterByCriteriaSpec(all: seq<MapData>, c: Criteria)
    ensures IsSubseq(FilterByCriteria(all, c), all)
    ensures forall m :: m in FilterByCriteria(all, c) <==> m in all && Selected(m, c)
  {
    var a := ByVisibility(all, c);
    var b := ByTags(a, c);
    var r := BySearch(b, c);
    if c.isPublic.Some? { FilterStep(all, (m: MapData) => m.isPublic == c.isPublic.value); }
    else { IsSubseqRefl(all); }
    if c.tags.Some? && |c.tags.value| > 0 { FilterStep(a, (m: MapData) => HasAnyTag(m, c.tags.value)); }
    else { IsSubseqRefl(a); }
    if c.search.Some? && c.search.value != "" {
      FilterStep(b, (m: MapData) => MatchesSearch(m, Lower(c.search.value)));
    } else { IsSubseqRefl(b); }
    IsSubseqTrans(r, b, a);
    IsSubseqTrans(r, a, all);
  }

  /** `getMaps` returns an order-preserving subsequence of the listing whose records all satisfy
      the criteria; without a non-zero limit it returns every such record, and a positive limit
      keeps at most that many, taken from the front. */
  lemma SelectMapsSpec(all: seq<MapData>, c: Criteria)
    ensures IsSubseq(SelectMaps(all, c), all)
    ensures forall m :: m in SelectMaps(all, c) ==> m in all && Selected(m, c)
    ensures c.limit.None? || c.limit.value == 0 ==>
              forall m :: m in all && Selected(m, c) ==> m in SelectMaps(all, c)
    ensures c.limit.Some? && c.limit.value > 0 ==> |SelectMaps(all, c)| <= c.limit.value
    ensures SelectMaps(all, c) == FilterByCriteria(all, c)[..|SelectMaps(all, c)|]
  {
    var s := FilterByCriteria(all, c);
    var r := SelectMaps(all, c);
    FilterByCriteriaSpec(all, c);
    PrefixIsSubseq(s, |r|);
    assert r == s[..|r|];
    IsSubseqTrans(r, s, all);
    IsSubseqMembers(r, s);
  }

  /** Empty criteria select the whole listing. */
  lemma SelectMapsNoCriteria(all: seq<MapData>)
    ensures SelectMaps(all, Criteria(None, None, None, None)) == all
  {
  }

  // ---------------------------------------------------------------------------------------------
  // Statistics

  datatype Stats = Stats(
    totalMaps: nat,
    totalPins: nat,
    publicMaps: nat,
    privateMaps: int,
    uniqueThemes: nat,
    uniqueLayouts: nat,
    oldestMap: Option<int>,
    newestMap: Option<int>)

  /** The sum of the pin counts (`reduce` over the listing). */
  function PinTotal(ms: seq<MapData>): (r: nat)
    ensures ms == [] ==> r == 0
  {
    if ms == [] then 0 else |ms[0].pins| + PinTotal(ms[1..])
  }

  /** Summing pin counts over a concatenation adds the two sums. */
  lemma {:induction false} PinTotalAppend(a: seq<MapData>, b: seq<MapData>)
    ensures PinTotal(a + b) == PinTotal(a) + PinTotal(b)
    decreases |a|
  {
    if a != [] {
      PinTotalAppend(a[1..], b);
      assert (a + b)[0] == a[0];
      assert (a + b)[1..] == a[1..] + b;
    } else {
      assert a + b == b;
    }
  }

  /** `Math.min` of the creation times: one of them, and no larger than any. */
  function OldestCreated(ms: seq<MapData>): (r: int)
    requires ms != []
    ensures exists i :: 0 <= i < |ms| && ms[i].createdAt == r
    ensures forall i :: 0 <= i < |ms| ==> r <= ms[i].createdAt
  {
    if |ms| == 1 then ms[0].createdAt
    else
      var rest := OldestCreated(ms[1..]);
      assert forall i :: 1 <= i < |ms| ==> ms[i] == ms[1..][i - 1];
      if ms[0].createdAt <= rest then ms[0].createdAt else rest
  }

  /** `Math.max` of the creation times: one of them, and no smaller than any. */
  function NewestCreated(ms: seq<MapData>): (r: int)
    requires ms != []
    ensures exists i :: 0 <= i < |ms| && ms[i].createdAt == r
    ensures forall i :: 0 <= i < |ms| ==> r >= ms[i].createdAt
  {
    if |ms| == 1 then ms[0].createdAt
    else
      var rest := NewestCreated(ms[1..]);
      assert forall i :: 1 <= i < |ms| ==> ms[i] == ms[1..][i - 1];
      if ms[0].createdAt >= rest then ms[0].createdAt else rest
  }

  predicate IsPublicMap(m: MapData) {
    m.isPublic
  }

  function ThemeIdOf(m: MapData): string {
    m.theme.id
  }

  function LayoutOf(m: MapData): Layout {
    m.layout
  }

  /** The statistics `getStats` computes over a listing: the map count, the pin total, the public
      and private counts, the numbers of distinct theme ids and layouts, and the oldest and newest
      creation times (absent for an empty listing). */
  function StatsOf(ms: seq<MapData>): (s: Stats)
    ensures s.totalMaps == |ms| && s.publicMaps + s.privateMaps == s.totalMaps
    ensures s.publicMaps == |Filter(ms, IsPublicMap)|
    ensures s.uniqueThemes == |Values(ms, ThemeIdOf)| && s.uniqueLayouts == |Values(ms, LayoutOf)|
    ensures s.totalPins == PinTotal(ms)
    ensures s.oldestMap.None? <==> ms == []
    ensures s.newestMap.None? <==> ms == []
    ensures ms != [] ==> s.oldestMap == Some(OldestCreated(ms)) && s.newestMap == Some(NewestCreated(ms))
  {
    var publicMaps := |Filter(ms, IsPublicMap)|;
    Stats(
      |ms|,
      PinTotal(ms),
      publicMaps,
      |ms| - publicMaps,
      |Values(ms, ThemeIdOf)|,
      |Values(ms, LayoutOf)|,
      if ms == [] then None else Some(OldestCreated(ms)),
      if ms == [] then None else Some(NewestCreated(ms)))
  }

  /** The public count and the distinct theme and layout counts never exceed the map count, and
      there is at least one theme and one layout when there are maps. */
  lemma StatsOfBounds(ms: seq<MapData>)
    ensures StatsOf(ms).publicMaps <= StatsOf(ms).totalMaps
    ensures StatsOf(ms).uniqueThemes <= StatsOf(ms).totalMaps && StatsOf(ms).uniqueLayouts <= StatsOf(ms).totalMaps
    ensures ms != [] ==> 1 <= StatsOf(ms).uniqueThemes && 1 <= StatsOf(ms).uniqueLayouts
  {
    ValuesSpec(ms, ThemeIdOf);
    ValuesSpec(ms, LayoutOf);
  }

  /** The oldest and newest creation times bracket every map's creation time, and the oldest is
      no later than the newest. */
  lemma StatsOfBracketsCreation(ms: seq<MapData>)
    requires ms != []
    ensures StatsOf(ms).oldestMap.value <= StatsOf(ms).newestMap.value
    ensures forall i :: 0 <= i < |ms| ==> StatsOf(ms).oldestMap.value <= ms[i].createdAt <= StatsOf(ms).newestMap.value
  {
    var s := StatsOf(ms);
    assert s.oldestMap.value <= ms[0].createdAt <= s.newestMap.value;
  }

  // ---------------------------------------------------------------------------------------------
  // The database object

  class MapDatabase {
    var maps: map<string, MapData>
    var metadata: DbMetadata

    /** The document `this.data`. */
    function Data(): DatabaseData
      reads this
    {
      DatabaseData(maps, metadata)
    }

    /** The metadata counts the stored records, as every persisting operation leaves it. */
    predicate Counted()
      reads this
    {
      metadata.totalMaps == |maps|
    }

    /** `s` lists every stored record exactly once (the record under `ks[i]` at position `i`),
        most recently updated first. */
    ghost predicate Listing(s: seq<MapData>, ks: seq<string>)
      reads this
    {
      && |s| == |ks| == |maps|
      && Distinct(ks)
      && (forall k :: k in ks <==> k in maps)
      && (forall i :: 0 <= i < |s| ==> ks[i] in maps && s[i] == maps[ks[i]])
      && NewestFirst(s)
    }

    /** Loading at start-up: nothing stored (or unreadable text) gives the empty database, and a
        parsed document goes through migration. */
    constructor (stored: Option<StoredDoc>, now: int)
      ensures stored.None? ==> Data() == DefaultData
      ensures stored.Some? ==> MigratedFrom(stored.value, now, Data())
    {
      if stored.None? {
        maps := DefaultData.maps;
        metadata := DefaultData.metadata;
      } else {
        var d := MigrateData(stored.value, now);
        maps := d.maps;
        metadata := d.metadata;
      }
    }

    /** The part of `saveToStorage` that changes the document: `totalMaps` is recounted. */
    method SaveToStorage()
      modifies this
      ensures maps == old(maps)
      ensures metadata == old(metadata).(totalMaps := |maps|)
      ensures Counted()
    {
      metadata := metadata.(totalMaps := |maps|);
    }

    /** Stores the draft under `id` (the output of `GenerateMapId`) created and updated `now`. */
    method CreateMap(draft: MapDraft, id: string, now: int) returns (r: MapData)
      modifies this
      ensures r == FromDraft(draft, id, now)
      ensures maps == old(maps)[id := r]
      ensures metadata == old(metadata).(totalMaps := |maps|)
      ensures GetMap(id) == Some(r)
      ensures id !in old(maps) ==> |maps| == |old(maps)| + 1
    {
      r := FromDraft(draft, id, now);
      maps := maps[id := r];
      SaveToStorage();
    }

    /** Overlays the update on the stored record, or returns `None` and changes nothing when
        there is no record under `id`. */
    method UpdateMap(id: string, updates: MapUpdate, now: int) returns (r: Option<MapData>)
      modifies this
      ensures id !in old(maps) ==> r.None? && maps == old(maps) && metadata == old(metadata)
      ensures id in old(maps) ==> r == Some(ApplyUpdate(old(maps)[id], updates, now))
      ensures id in old(maps) ==> maps == old(maps)[id := r.value] && Counted()
      ensures id in old(maps) ==> metadata == old(metadata).(totalMaps := |maps|)
      ensures maps.Keys == old(maps.Keys)
    {
      if id !in maps {
        return None;
      }
      var updated := ApplyUpdate(maps[id], updates, now);
      maps := maps[id := updated];
      SaveToStorage();
      r := Some(updated);
    }

    /** The record under `id`, or `None`. */
    function GetMap(id: string): (r: Option<MapData>)
      reads this
      ensures r.Some? <==> id in maps
      ensures r.Some? ==> r.value == maps[id]
    {
      if id in maps then Some(maps[id]) else None
    }

    /** Every record, most recently updated first; `ks` are their keys in the same order. The
        records are taken one key at a time and each is inserted after all records at least as
        recent, so records with equal `updatedAt` stay in the order they were taken. */
    method GetAllMaps() returns (r: seq<MapData>, ghost ks: seq<string>)
      ensures Listing(r, ks)
      ensures |r| == |maps| && NewestFirst(r)
      ensures forall m :: m in r <==> m in maps.Values
    {
      r := [];
      ks := [];
      ghost var taken: set<string> := {};
      var remaining := maps.Keys;
      while remaining != {}
        invariant remaining <= maps.Keys
        invariant taken !! remaining && taken + remaining == maps.Keys
        invariant |r| == |ks| == |taken|
        invariant Distinct(ks)
        invariant forall k :: k in ks <==> k in taken
        invariant forall i :: 0 <= i < |r| ==> ks[i] in maps && r[i] == maps[ks[i]]
        invariant NewestFirst(r)
        decreases remaining
      {
        var k :| k in remaining;
        var m := maps[k];
        var p := InsertionPoint(r, m);
        InsertNewestFirst(r, p, m);
        InsertKeyed(maps, r, ks, p, k);
        r := r[..p] + [m] + r[p..];
        ks := ks[..p] + [k] + ks[p..];
        taken := taken + {k};
        remaining := remaining - {k};
      }
      assert |taken| == |maps.Keys| == |maps|;
      ListedValues(maps, r, ks);
    }

    /** `getMaps`: the selection of the sorted listing `all`. */
    method GetMaps(criteria: Criteria) returns (r: seq<MapData>, ghost all: seq<MapData>, ghost ks: seq<string>)
      ensures Listing(all, ks)
      ensures r == SelectMaps(all, criteria)
      ensures forall m :: m in r ==> m in maps.Values && Selected(m, criteria)
      ensures criteria.limit.None? || criteria.limit.value == 0 ==>
                forall m :: m in maps.Values && Selected(m, criteria) ==> m in r
    {
      var listing;
      listing, ks := GetAllMaps();
      all := listing;
      var s := listing;
      if criteria.isPublic.Some? {
        s := Filter(s, (m: MapData) => m.isPublic == criteria.isPublic.value);
      }
      if criteria.tags.Some? && |criteria.tags.value| > 0 {
        s := Filter(s, (m: MapData) => HasAnyTag(m, criteria.tags.value));
      }
      if criteria.search.Some? && criteria.search.value != "" {
        var searchLower := Lower(criteria.search.value);
        s := Filter(s, (m: MapData) => MatchesSearch(m, searchLower));
      }
      if criteria.limit.Some? && criteria.limit.value != 0 {
        s := SliceTo(s, criteria.limit.value);
      }
      r := s;
      SelectMapsSpec(all, criteria);
      ListedValues(maps, all, ks);
    }

    /** Removes the record under `id`; the result says whether there was one. */
    method DeleteMap(id: string) returns (r: bool)
      modifies this
      ensures r <==> id in old(maps)
      ensures maps == old(maps) - {id}
      ensures r ==> Counted() && metadata == old(metadata).(totalMaps := |maps|)
      ensures !r ==> metadata == old(metadata)
      ensures GetMap(id).None?
    {
      if id in maps {
        maps := maps - {id};
        SaveToStorage();
        return true;
      }
      return false;
    }

    /** Copies the record under `id` and stores the copy under `newId` (created `now`); pin `i`
        of the copy gets the fresh id `pinId(i)`. */
    method DuplicateMap(id: string, newName: Option<string>, newId: string, pinId: nat -> string, now: int)
      returns (r: Option<MapData>)
      modifies this
      ensures id !in old(maps) ==> r.None? && maps == old(maps) && metadata == old(metadata)
      ensures id in old(maps) ==>
                r == Some(FromDraft(DuplicateDraft(old(maps)[id], newName, pinId), newId, now))
                && maps == old(maps)[newId := r.value] && Counted()
      ensures id in old(maps) ==> metadata == old(metadata).(totalMaps := |maps|)
    {
      var original := GetMap(id);
      if original.None? {
        return None;
      }
      var copy := CreateMap(DuplicateDraft(original.value, newName, pinId), newId, now);
      r := Some(copy);
    }

    /** `getStats` over the sorted listing `all`. */
    method GetStats() returns (s: Stats, ghost all: seq<MapData>, ghost ks: seq<string>)
      ensures Listing(all, ks)
      ensures s == StatsOf(all)
      ensures s.totalMaps == |maps|
    {
      var listing;
      listing, ks := GetAllMaps();
      all := listing;
      s := StatsOf(listing);
    }

    /** Replaces the whole document by the migrated import; text that does not parse is refused
        with "Invalid database format" and changes nothing. */
    method ImportDatabase(parsed: Option<StoredDoc>, now: int) returns (r: Result<(), string>)
      modifies this
      ensures parsed.None? ==> r == Err("Invalid database format") && maps == old(maps) && metadata == old(metadata)
      ensures parsed.Some? ==> r.Ok? && Counted()
      ensures parsed.Some? ==> MigratedFrom(parsed.value, now, DatabaseData(maps, metadata.(totalMaps := ImportedCount(parsed.value, now))))
    {
      if parsed.None? {
        return Err("Invalid database format");
      }
      var d := MigrateData(parsed.value, now);
      maps := d.maps;
      metadata := d.metadata;
      SaveToStorage();
      r := Ok(());
    }

    /** Back to the empty database. */
    method ClearDatabase()
      modifies this
      ensures Data() == DefaultData
      ensures Counted()
    {
      maps := DefaultData.maps;
      metadata := DefaultData.metadata;
      SaveToStorage();
    }
  }

  /** The `totalMaps` the migrated document carried before saving recounts it. */
  function ImportedCount(doc: StoredDoc, now: int): int {
    match doc
    case CurrentDoc(data) => data.metadata.totalMaps
    case LegacyDoc(legacy) => |legacy|
  }

  /** The draft `duplicateMap` hands to `createMap`: the original's fields with the new name and
      pins that differ from the originals only in their ids. */
  function DuplicateDraft(m: MapData, newName: Option<string>, pinId: nat -> string): (d: MapDraft)
    ensures d.name == if newName.Some? && newName.value != "" then newName.value else m.name + " (Copy)"
    ensures |d.pins| == |m.pins|
    ensures forall i :: 0 <= i < |m.pins| ==> d.pins[i] == Pin(pinId(i), m.pins[i].fields)
    ensures d.(name := m.name, pins := m.pins) == DraftOf(m)
    ensures d.embedOptions.mapId == m.embedOptions.mapId
  {
    var pins := seq(|m.pins|, i requires 0 <= i < |m.pins| => Pin(pinId(i), m.pins[i].fields));
    DraftOf(m).(name := if newName.Some? && newName.value != "" then newName.value else m.name + " (Copy)",
                pins := pins)
  }
}
