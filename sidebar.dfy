/** The pin sidebar: the search filter over the pin list and the collapsed view, which shows the
    first five pins and a badge counting the rest. */
module Sidebar {
  import opened Wrappers
  import opened Seqs
  import opened Model
  import Text

  /** The title, description or category holds the lower-cased query. */
  predicate PinMatchesQuery(p: Pin, query: string) {
    var q := Text.Lower(query);
    || Text.Contains(Text.Lower(p.fields.title), q)
    || (p.fields.description.Some? && Text.Contains(Text.Lower(p.fields.description.value), q))
    || (p.fields.category.Some? && Text.Contains(Text.Lower(p.fields.category.value), q))
  }

  /** `filteredPins`: every pin for an empty query; otherwise the matching pins, in order. Any
      non-empty query filters, white space included. */
  function FilteredPins(pins: seq<Pin>, query: string): (r: seq<Pin>)
    ensures query == "" ==> r == pins
    ensures query != "" ==> forall p :: p in r <==> p in pins && PinMatchesQuery(p, query)
    ensures IsSubseq(r, pins)
  {
    if query != "" then
      FilterIsSubseq(pins, (p: Pin) => PinMatchesQuery(p, query));
      Filter(pins, (p: Pin) => PinMatchesQuery(p, query))
    else
      IsSubseqRefl(pins);
      pins
  }

  /** Every pin matches the empty string, so the filter and the unfiltered list agree on it even
      if it were applied. */
  lemma EmptyQueryMatchesAll(p: Pin)
    ensures PinMatchesQuery(p, "")
  {
    assert Text.Lower(p.fields.title)[..0] == "";
  }

  /** The pins shown by the collapsed sidebar: the first five (of the unfiltered list). */
  function CollapsedPins(pins: seq<Pin>): (r: seq<Pin>)
    ensures |r| == if |pins| < 5 then |pins| else 5
    ensures r == pins[..|r|]
  {
    SliceTo(pins, 5)
  }

  /** The overflow badge: present exactly when there are more than five pins, showing how many
      are not drawn. */
  function OverflowBadge(pins: seq<Pin>): (r: Option<nat>)
    ensures r.Some? <==> |pins| > 5
    ensures r.Some? ==> r.value == |pins| - 5
  {
    if |pins| > 5 then Some(|pins| - 5) else None
  }

  /** The collapsed view accounts for every pin: the drawn ones plus the badge count. */
  lemma CollapsedAccountsForAll(pins: seq<Pin>)
    ensures |CollapsedPins(pins)| + OverflowBadge(pins).GetOr(0) == |pins|
    ensures OverflowBadge(pins).Some? ==> OverflowBadge(pins).value >= 1
  {
  }
}
