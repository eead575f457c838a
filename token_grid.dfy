/** The record picker (src/shared/components/TokenGrid.tsx): which token
 *  records it lists, which of them can be picked, and which one is shown as
 *  selected. Records are compared by their `raw` text. */
module TokenGrid {
  import opened Text
  import opened AuctionTypes

  /** `excludeSet`: the identity texts of the excluded records. */
  function ExcludeSet(exclude: seq<TokenRecord>): (r: set<string>)
    ensures forall i :: 0 <= i < |exclude| ==> exclude[i].raw in r
    ensures forall raw :: raw in r ==> exists i :: 0 <= i < |exclude| && exclude[i].raw == raw
  {
    set i | 0 <= i < |exclude| :: exclude[i].raw
  }

  /** The filter's test: not excluded, and of the filtered token when a
      filter is set (an empty filter is unset, as `filterTokenId &&` reads it). */
  predicate Shown(r: TokenRecord, excluded: set<string>, filterTokenId: string)
  {
    r.raw !in excluded && (filterTokenId == "" || r.tokenId == filterTokenId)
  }

  /** `filtered`: the records that pass the test, in their order. */
  function Filtered(records: seq<TokenRecord>, excluded: set<string>, filterTokenId: string): (fs: seq<TokenRecord>)
    ensures |fs| <= |records|
    ensures forall i :: 0 <= i < |fs| ==> Shown(fs[i], excluded, filterTokenId) && fs[i] in records
    ensures forall r :: r in records && Shown(r, excluded, filterTokenId) ==> r in fs
  {
    if records == [] then []
    else if Shown(records[0], excluded, filterTokenId) then [records[0]] + Filtered(records[1..], excluded, filterTokenId)
    else Filtered(records[1..], excluded, filterTokenId)
  }

  /** The filter keeps the records' order. */
  lemma {:induction false} FilteredIsSubsequence(records: seq<TokenRecord>, excluded: set<string>, filterTokenId: string)
    ensures IsSubsequence(Filtered(records, excluded, filterTokenId), records)
    decreases |records|
  {
    if records != [] {
      FilteredIsSubsequence(records[1..], excluded, filterTokenId);
      var fs := Filtered(records, excluded, filterTokenId);
      var rest := Filtered(records[1..], excluded, filterTokenId);
      if Shown(records[0], excluded, filterTokenId) {
        assert fs[1..] == rest;
      } else if fs != [] {
        SubsequenceSkip(fs, records);
      }
    }
  }

  /** The records the grid lists for these props. */
  function GridRecords(records: seq<TokenRecord>, exclude: seq<TokenRecord>, filterTokenId: string): (fs: seq<TokenRecord>)
    ensures forall i, j :: 0 <= i < |fs| && 0 <= j < |exclude| ==> fs[i].raw != exclude[j].raw
    ensures filterTokenId != "" ==> forall i :: 0 <= i < |fs| ==> fs[i].tokenId == filterTokenId
  {
    Filtered(records, ExcludeSet(exclude), filterTokenId)
  }

  /** `hasSpent`: some listed record is spent. */
  predicate HasSpent(fs: seq<TokenRecord>)
  {
    exists i :: 0 <= i < |fs| && fs[i].spent
  }

  /** The spent hint appears exactly when a spent record passes the filter. */
  lemma HasSpentIffShownSpent(records: seq<TokenRecord>, excluded: set<string>, filterTokenId: string)
    ensures HasSpent(Filtered(records, excluded, filterTokenId)) <==>
              exists r :: r in records && Shown(r, excluded, filterTokenId) && r.spent
  {
    var fs := Filtered(records, excluded, filterTokenId);
    if exists r :: r in records && Shown(r, excluded, filterTokenId) && r.spent {
      var r :| r in records && Shown(r, excluded, filterTokenId) && r.spent;
      var i :| 0 <= i < |fs| && fs[i] == r;
    }
  }

  /** One card: whether it is drawn selected and whether it has a select handler. */
  datatype Card = Card(record: TokenRecord, selected: bool, selectable: bool)

  /** The cards for the listed records: a card is selected iff its record's
      identity text is the selected one's, and spent records get no handler. */
  function Cards(fs: seq<TokenRecord>, selected: Option<TokenRecord>): (cs: seq<Card>)
    ensures |cs| == |fs|
    ensures forall i :: 0 <= i < |cs| ==>
              && cs[i].record == fs[i]
              && (cs[i].selected <==> selected.Some? && selected.value.raw == fs[i].raw)
              && (cs[i].selectable <==> !fs[i].spent)
  {
    seq(|fs|, i requires 0 <= i < |fs| =>
      Card(fs[i], selected.Some? && selected.value.raw == fs[i].raw, !fs[i].spent))
  }

  /** A record reaches `onSelect` only from a selectable card. */
  predicate Pickable(records: seq<TokenRecord>, exclude: seq<TokenRecord>, filterTokenId: string, r: TokenRecord)
  {
    r in GridRecords(records, exclude, filterTokenId) && !r.spent
  }
}
