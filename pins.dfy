/** The pin-list updates the editor stores share: merging a partial update into the pins with a
    given id, replacing them, and removing them. */
module Pins {
  import opened Wrappers
  import opened Seqs
  import opened Model
  import Text
  import MapUtils

  /** The ids of the pins, in order. */
  function Ids(pins: seq<Pin>): (r: seq<string>)
    ensures |r| == |pins|
    ensures forall i :: 0 <= i < |pins| ==> r[i] == pins[i].id
  {
    Map(pins, (p: Pin) => p.id)
  }

  /** Two partial pin updates given one after the other, as one object. */
  function CombinePatches(p: PinPatch, q: PinPatch): PinPatch {
    PinPatch(
      Over(p.lat, q.lat), Over(p.lng, q.lng), Over(p.title, q.title),
      Over(p.description, q.description), Over(p.icon, q.icon), Over(p.color, q.color),
      Over(p.category, q.category), Over(p.imageUrl, q.imageUrl), Over(p.url, q.url),
      Over(p.isActive, q.isActive), Over(p.animation, q.animation))
  }

  /** Merging two updates in turn is merging their combination once. */
  lemma MergePinTwice(f: PinFields, p: PinPatch, q: PinPatch)
    ensures MergePin(MergePin(f, p), q) == MergePin(f, CombinePatches(p, q))
    ensures MergePin(MergePin(f, p), p) == MergePin(f, p)
  {
  }

  /** `pins.map(pin => pin.id === pinId ? {...pin, ...data} : pin)`. */
  function PatchPins(pins: seq<Pin>, pinId: string, patch: PinPatch): (r: seq<Pin>)
    ensures |r| == |pins| && Ids(r) == Ids(pins)
    ensures forall i :: 0 <= i < |pins| && pins[i].id != pinId ==> r[i] == pins[i]
    ensures forall i :: 0 <= i < |pins| && pins[i].id == pinId ==> r[i].fields == MergePin(pins[i].fields, patch)
  {
    Map(pins, (p: Pin) => if p.id == pinId then Pin(p.id, MergePin(p.fields, patch)) else p)
  }

  /** Patching an id no pin has changes nothing; patching twice is patching once with the
      combined update. */
  lemma PatchPinsAlgebra(pins: seq<Pin>, pinId: string, p: PinPatch, q: PinPatch)
    ensures pinId !in Ids(pins) ==> PatchPins(pins, pinId, p) == pins
    ensures PatchPins(PatchPins(pins, pinId, p), pinId, q) == PatchPins(pins, pinId, CombinePatches(p, q))
  {
    var once := PatchPins(pins, pinId, CombinePatches(p, q));
    var twice := PatchPins(PatchPins(pins, pinId, p), pinId, q);
    forall i | 0 <= i < |pins| ensures twice[i] == once[i] {
      if pins[i].id == pinId {
        MergePinTwice(pins[i].fields, p, q);
      }
    }
    if pinId !in Ids(pins) {
      forall i | 0 <= i < |pins| ensures pins[i].id != pinId {
        assert Ids(pins)[i] == pins[i].id;
      }
    }
  }

  /** `pins.map(pin => pin.id === updated.id ? updated : pin)`. */
  function ReplacePins(pins: seq<Pin>, updated: Pin): (r: seq<Pin>)
    ensures |r| == |pins| && Ids(r) == Ids(pins)
    ensures forall i :: 0 <= i < |pins| ==> r[i] == if pins[i].id == updated.id then updated else pins[i]
  {
    Map(pins, (p: Pin) => if p.id == updated.id then updated else p)
  }

  /** Replacing is idempotent, and replacing an id no pin has changes nothing. */
  lemma ReplacePinsAlgebra(pins: seq<Pin>, updated: Pin)
    ensures ReplacePins(ReplacePins(pins, updated), updated) == ReplacePins(pins, updated)
    ensures updated.id !in Ids(pins) ==> ReplacePins(pins, updated) == pins
  {
    if updated.id !in Ids(pins) {
      forall i | 0 <= i < |pins| ensures pins[i].id != updated.id {
        assert Ids(pins)[i] == pins[i].id;
      }
    }
  }

  /** `pins.filter(pin => pin.id !== pinId)`. */
  function RemovePins(pins: seq<Pin>, pinId: string): (r: seq<Pin>)
    ensures forall p :: p in r <==> p in pins && p.id != pinId
    ensures |r| <= |pins|
  {
    Filter(pins, (p: Pin) => p.id != pinId)
  }

  /** Removal keeps the other pins in their order, removes nothing when no pin has the id, and
      undoes an append of a pin with that id. */
  lemma RemovePinsProperties(pins: seq<Pin>, pinId: string, f: PinFields)
    ensures IsSubseq(RemovePins(pins, pinId), pins)
    ensures pinId !in Ids(pins) ==> RemovePins(pins, pinId) == pins
    ensures RemovePins(pins + [Pin(pinId, f)], pinId) == RemovePins(pins, pinId)
    ensures RemovePins(RemovePins(pins, pinId), pinId) == RemovePins(pins, pinId)
  {
    var keep := (p: Pin) => p.id != pinId;
    FilterIsSubseq(pins, keep);
    if pinId !in Ids(pins) {
      forall i | 0 <= i < |pins| ensures keep(pins[i]) {
        assert Ids(pins)[i] == pins[i].id;
      }
      FilterKeepsAll(pins, keep);
    }
    FilterConcat(pins, [Pin(pinId, f)], keep);
    assert Filter([Pin(pinId, f)], keep) == [];
    FilterFilter(pins, keep, keep, keep);
  }

  /** `pin-<timestamp>-<Math.floor(roll * 1000)>`, the id both editor stores give a new pin. */
  function GeneratePinId(stamp: nat, roll: real): string
    requires 0.0 <= roll < 1.0
  {
    "pin-" + Text.NatToString(stamp) + "-" + Text.NatToString(MapUtils.RandomIndex(roll, 1000))
  }

  /** A pin id is three dash-separated parts: `pin`, the timestamp, and a number below 1000, so
      two pins made in the same millisecond share an id whenever their draws agree. */
  lemma GeneratePinIdParts(stamp: nat, roll: real)
    requires 0.0 <= roll < 1.0
    ensures |Text.Split(GeneratePinId(stamp, roll), '-')| == 3
    ensures Text.Split(GeneratePinId(stamp, roll), '-')[0] == "pin"
    ensures Text.ParseNat(Text.Split(GeneratePinId(stamp, roll), '-')[1]) == stamp
    ensures Text.ParseNat(Text.Split(GeneratePinId(stamp, roll), '-')[2]) < 1000
  {
    var ts := Text.NatToString(stamp);
    var k := MapUtils.RandomIndex(roll, 1000);
    var ks := Text.NatToString(k);
    var pieces := ["pin", ts, ks];
    assert '-' !in ts by {
      forall i | 0 <= i < |ts| ensures ts[i] != '-' { assert '0' <= ts[i] <= '9'; }
    }
    assert '-' !in ks by {
      forall i | 0 <= i < |ks| ensures ks[i] != '-' { assert '0' <= ks[i] <= '9'; }
    }
    assert Text.Join(pieces[1..], '-') == ts + "-" + ks;
    assert Text.Join(pieces, '-') == GeneratePinId(stamp, roll);
    Text.JoinSplit(pieces, '-');
    Text.ParseNatToString(stamp);
    Text.ParseNatToString(k);
  }
}
