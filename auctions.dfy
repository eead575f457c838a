/** Listing every auction (src/features/auction/hooks/useAuctions.ts): the
 *  newest-first walk over the auction index, the lookup of each auction's
 *  configuration and state, and the creator filter. The program's mappings
 *  are maps; a key that is absent is a mapping value that does not exist. */
module Auctions {
  import opened Text
  import opened AuctionTypes
  import opened AuctionText

  /** One listed auction; its state may not exist yet. */
  datatype AuctionEntry = AuctionEntry(config: AuctionConfig, state: Option<AuctionState>)

  /** The number of auctions listed when the caller sets no limit. */
  const DefaultLimit := 50

  /** `limit = 50`: the caller's limit, or the default when it sets none. */
  function LimitOrDefault(limit: Option<int>): (r: int)
    ensures limit.None? ==> r == DefaultLimit
    ensures limit.Some? ==> r == limit.value
  {
    if limit.Some? then limit.value else DefaultLimit
  }

  /** The index positions read: `count-1` down to `max(0, count-limit)`.
      A count that is not a number gives a length that is not a number,
      which `Array.from` reads as 0, as it does a negative length. */
  function IndexList(count: Num, limit: int): (r: seq<int>)
    ensures count.NaN? || count.v <= 0 || limit <= 0 ==> r == []
    ensures count.Finite? ==> |r| == Max(0, Min(count.v, limit))
    ensures forall i :: 0 <= i < |r| ==> r[i] == count.v - 1 - i && 0 <= r[i] < count.v
    ensures forall i, j :: 0 <= i < j < |r| ==> r[i] > r[j]
    ensures |r| > 0 ==> r[0] == count.v - 1 && r[|r| - 1] == Max(0, count.v - limit)
  {
    if count.NaN? then []
    else
      var startIdx := Max(0, count.v - limit);
      seq(Max(0, count.v - startIdx), i => count.v - 1 - i)
  }

  /** `getAuctionIndex` for each position. */
  function IndexLookups(indices: seq<int>, index: map<int, string>): (r: seq<Option<string>>)
    ensures |r| == |indices|
    ensures forall i :: 0 <= i < |r| ==> (r[i].Some? <==> indices[i] in index)
    ensures forall i :: 0 <= i < |r| && r[i].Some? ==> r[i].value == index[indices[i]]
  {
    seq(|indices|, i requires 0 <= i < |indices| =>
      if indices[i] in index then Some(index[indices[i]]) else None)
  }

  /** `validIds`: the ids that exist and are not empty, in order. */
  function ValidIds(ids: seq<Option<string>>): (r: seq<string>)
    ensures |r| <= |ids|
    ensures forall i :: 0 <= i < |r| ==> r[i] != "" && Some(r[i]) in ids
    ensures forall i :: 0 <= i < |ids| && ids[i].Some? && ids[i].value != "" ==> ids[i].value in r
  {
    if ids == [] then []
    else if ids[0].Some? && ids[0].value != "" then [ids[0].value] + ValidIds(ids[1..])
    else ValidIds(ids[1..])
  }

  /** `r` is found in `xs` at the strictly increasing positions `pos`. */
  ghost predicate PositionsOf<T>(pos: seq<nat>, r: seq<T>, xs: seq<Option<T>>)
  {
    && |pos| == |r|
    && (forall i :: 0 <= i < |pos| ==> pos[i] < |xs| && xs[pos[i]] == Some(r[i]))
    && (forall i, j :: 0 <= i < j < |pos| ==> pos[i] < pos[j])
  }

  /** Keeping the head puts it in front of the tail's positions. */
  lemma PositionsKeepHead<T>(pos: seq<nat>, r: seq<T>, xs: seq<Option<T>>)
    requires xs != [] && xs[0].Some? && PositionsOf(pos, r, xs[1..])
    ensures PositionsOf([0] + Shifted(pos), [xs[0].value] + r, xs)
  {
    var p := [0] + Shifted(pos);
    forall i | 0 < i < |p| ensures p[i] < |xs| && xs[p[i]] == Some(([xs[0].value] + r)[i]) {
      assert xs[p[i]] == xs[1..][pos[i - 1]];
    }
  }

  /** Skipping the head moves the tail's positions one place on. */
  lemma PositionsSkipHead<T>(pos: seq<nat>, r: seq<T>, xs: seq<Option<T>>)
    requires xs != [] && PositionsOf(pos, r, xs[1..])
    ensures PositionsOf(Shifted(pos), r, xs)
  {
    var p := Shifted(pos);
    forall i | 0 <= i < |p| ensures p[i] < |xs| && xs[p[i]] == Some(r[i]) {
      assert xs[p[i]] == xs[1..][pos[i]];
    }
  }

  /** Every position of the tail is, moved one place on, a position of the whole. */
  lemma ShiftedHolds(rest: seq<nat>, k: nat)
    requires k > 0 && k - 1 in rest
    ensures k in Shifted(rest)
  {
    var m :| 0 <= m < |rest| && rest[m] == k - 1;
    assert Shifted(rest)[m] == k;
  }

  /** The ids kept are exactly those of the existing, non-empty results, in
      their order: they sit at strictly increasing positions of the results,
      and every such position is one of them. */
  lemma {:induction false} ValidIdsOrder(ids: seq<Option<string>>) returns (pos: seq<nat>)
    ensures PositionsOf(pos, ValidIds(ids), ids)
    ensures forall k :: 0 <= k < |ids| && ids[k].Some? && ids[k].value != "" ==> k in pos
    decreases |ids|
  {
    if ids == [] {
      pos := [];
    } else {
      var rest := ValidIdsOrder(ids[1..]);
      if ids[0].Some? && ids[0].value != "" {
        PositionsKeepHead(rest, ValidIds(ids[1..]), ids);
        pos := [0] + Shifted(rest);
      } else {
        PositionsSkipHead(rest, ValidIds(ids[1..]), ids);
        pos := Shifted(rest);
      }
      forall k | 0 < k < |ids| && ids[k].Some? && ids[k].value != "" ensures k in pos {
        assert ids[1..][k - 1] == ids[k];
        ShiftedHolds(rest, k);
      }
    }
  }

  /** The entry for one id: none without a (non-empty) configuration or when
      parsing throws; a state that does not exist is None. */
  function FetchEntry(id: string, configs: map<string, string>, states: map<string, string>): (r: Option<AuctionEntry>)
    ensures r.Some? <==>
              && id in configs && configs[id] != "" && ParseAuctionConfig(configs[id]).Returns?
              && (id !in states || states[id] == "" || ParseAuctionState(states[id]).Returns?)
    ensures r.Some? ==> id in configs && configs[id] != "" && ParseAuctionConfig(configs[id]) == Returns(r.value.config)
    ensures r.Some? ==> (r.value.state.Some? <==> id in states && states[id] != "")
    ensures r.Some? && r.value.state.Some? ==> ParseAuctionState(states[id]) == Returns(r.value.state.value)
    ensures id !in configs || configs[id] == "" ==> r.None?
  {
    if id !in configs || configs[id] == "" then None
    else match ParseAuctionConfig(configs[id])
      case Throws => None
      case Returns(c) =>
        if id in states && states[id] != "" then
          match ParseAuctionState(states[id])
          case Throws => None
          case Returns(s) => Some(AuctionEntry(c, Some(s)))
        else Some(AuctionEntry(c, None))
  }

  /** A configuration printed by the program is listed as itself, with no
      state while none is published. */
  lemma FetchPrintedConfig(id: string, c: AuctionConfig, order: seq<nat>, configs: map<string, string>, states: map<string, string>)
    requires IsOnChainConfig(c) && CoversFields(order, |ConfigNames|)
    requires id in configs && configs[id] == ConfigText(c, order) && (id !in states || states[id] == "")
    ensures FetchEntry(id, configs, states) == Some(AuctionEntry(c, None))
  {
    ParseAuctionConfigRoundTrip(c, order);
    assert |ConfigText(c, order)| >= 3;
    FetchParsedConfig(id, c, configs, states);
  }

  /** A non-empty configuration that parses and a missing or empty state
      give an entry without state. */
  lemma FetchParsedConfig(id: string, c: AuctionConfig, configs: map<string, string>, states: map<string, string>)
    requires id in configs && configs[id] != "" && ParseAuctionConfig(configs[id]) == Returns(c)
    requires id !in states || states[id] == ""
    ensures FetchEntry(id, configs, states) == Some(AuctionEntry(c, None))
  {
  }

  /** A configuration and a state that both parse give the entry holding both. */
  lemma FetchParsedAuction(id: string, c: AuctionConfig, s: AuctionState, configs: map<string, string>, states: map<string, string>)
    requires id in configs && configs[id] != "" && ParseAuctionConfig(configs[id]) == Returns(c)
    requires id in states && states[id] != "" && ParseAuctionState(states[id]) == Returns(s)
    ensures FetchEntry(id, configs, states) == Some(AuctionEntry(c, Some(s)))
  {
  }

  /** A live auction whose configuration and state the program printed is
      listed as itself, with its state. */
  lemma FetchPrintedAuction(id: string, c: AuctionConfig, corder: seq<nat>, s: AuctionState, sorder: seq<nat>,
                            configs: map<string, string>, states: map<string, string>)
    requires IsOnChainConfig(c) && CoversFields(corder, |ConfigNames|)
    requires IsOnChainState(s) && CoversFields(sorder, |StateNames|)
    requires id in configs && configs[id] == ConfigText(c, corder)
    requires id in states && states[id] == StateText(s, sorder)
    ensures FetchEntry(id, configs, states) == Some(AuctionEntry(c, Some(s)))
  {
    ParseAuctionConfigRoundTrip(c, corder);
    ParseAuctionStateRoundTrip(s, sorder);
    assert |ConfigText(c, corder)| >= 3;
    assert |StateText(s, sorder)| >= 3;
    FetchParsedAuction(id, c, s, configs, states);
  }

  /** `fetchAuction` for each id, in order. */
  function FetchAll(ids: seq<string>, configs: map<string, string>, states: map<string, string>): (r: seq<Option<AuctionEntry>>)
    ensures |r| == |ids| && forall j :: 0 <= j < |ids| ==> r[j] == FetchEntry(ids[j], configs, states)
  {
    seq(|ids|, j requires 0 <= j < |ids| => FetchEntry(ids[j], configs, states))
  }

  /** The values that are present, in order (`filter(x => x !== null)`). */
  function Present<T>(xs: seq<Option<T>>): (r: seq<T>)
    ensures |r| <= |xs|
  {
    if xs == [] then []
    else if xs[0].Some? then [xs[0].value] + Present(xs[1..])
    else Present(xs[1..])
  }

  /** The values kept are exactly the present ones, in their order. */
  lemma {:induction false} PresentOrder<T>(xs: seq<Option<T>>) returns (pos: seq<nat>)
    ensures PositionsOf(pos, Present(xs), xs)
    ensures forall k :: 0 <= k < |xs| && xs[k].Some? ==> k in pos
    decreases |xs|
  {
    if xs == [] {
      pos := [];
    } else {
      var rest := PresentOrder(xs[1..]);
      if xs[0].Some? {
        PositionsKeepHead(rest, Present(xs[1..]), xs);
        pos := [0] + Shifted(rest);
      } else {
        PositionsSkipHead(rest, Present(xs[1..]), xs);
        pos := Shifted(rest);
      }
      forall k | 0 < k < |xs| && xs[k].Some? ensures k in pos {
        assert xs[1..][k - 1] == xs[k];
        ShiftedHolds(rest, k);
      }
    }
  }

  lemma {:induction false} PresentExactly<T>(xs: seq<Option<T>>, e: T)
    ensures e in Present(xs) <==> Some(e) in xs
  {
    if xs != [] {
      PresentExactly(xs[1..], e);
      assert xs == [xs[0]] + xs[1..];
    }
  }

  /** The entries that could be fetched, in the ids' order. */
  function Entries(ids: seq<string>, configs: map<string, string>, states: map<string, string>): (r: seq<AuctionEntry>)
    ensures |r| <= |ids|
  {
    Present(FetchAll(ids, configs, states))
  }

  /** An entry is listed exactly when the fetch of some id returns it. */
  lemma EntriesExactly(ids: seq<string>, configs: map<string, string>, states: map<string, string>, e: AuctionEntry)
    ensures e in Entries(ids, configs, states) <==> Some(e) in FetchAll(ids, configs, states)
  {
    PresentExactly(FetchAll(ids, configs, states), e);
  }

  /** The creator filter: the entries of that creator, in order. */
  function CreatedBy(entries: seq<AuctionEntry>, creator: string): (r: seq<AuctionEntry>)
    ensures |r| <= |entries|
    ensures forall i :: 0 <= i < |r| ==> r[i].config.creator == creator && r[i] in entries
    ensures forall e :: e in entries && e.config.creator == creator ==> e in r
  {
    if entries == [] then []
    else if entries[0].config.creator == creator then [entries[0]] + CreatedBy(entries[1..], creator)
    else CreatedBy(entries[1..], creator)
  }

  /** The filter keeps the entries' order. */
  lemma {:induction false} CreatedBySubsequence(entries: seq<AuctionEntry>, creator: string)
    ensures IsSubsequence(CreatedBy(entries, creator), entries)
    decreases |entries|
  {
    if entries != [] {
      CreatedBySubsequence(entries[1..], creator);
      var r := CreatedBy(entries, creator);
      if entries[0].config.creator == creator {
        assert r[1..] == CreatedBy(entries[1..], creator);
      } else if r != [] {
        SubsequenceSkip(r, entries);
      }
    }
  }

  /** An empty filter is no filter. */
  function ByCreator(entries: seq<AuctionEntry>, creatorFilter: string): (r: seq<AuctionEntry>)
    ensures creatorFilter == "" ==> r == entries
  {
    if creatorFilter == "" then entries else CreatedBy(entries, creatorFilter)
  }

  /** What `fetch` lists for an auction count. */
  function Listed(count: Num, index: map<int, string>, configs: map<string, string>, states: map<string, string>,
                  creatorFilter: string, limit: int): seq<AuctionEntry>
  {
    if count == Finite(0) then []
    else ByCreator(Entries(ValidIds(IndexLookups(IndexList(count, limit), index)), configs, states), creatorFilter)
  }

  /** At most `limit` auctions are listed and never more than the count,
      none when the count is not a number, and only the filtered creator's. */
  lemma ListedBounded(count: Num, index: map<int, string>, configs: map<string, string>, states: map<string, string>,
                      creatorFilter: string, limit: int)
    ensures var r := Listed(count, index, configs, states, creatorFilter, limit);
      && (count.Finite? ==> |r| <= Max(0, Min(count.v, limit)))
      && (count.NaN? ==> r == [])
      && (creatorFilter != "" ==> forall i :: 0 <= i < |r| ==> r[i].config.creator == creatorFilter)
  {
  }

  /** The valid ids sit at strictly decreasing index positions below the count. */
  lemma {:induction false} ValidIdPositions(count: Num, index: map<int, string>, limit: int) returns (q: seq<int>)
    ensures var ids := ValidIds(IndexLookups(IndexList(count, limit), index));
      && |q| == |ids|
      && (forall i :: 0 <= i < |ids| ==>
            count.Finite? && 0 <= q[i] < count.v && q[i] in index && index[q[i]] == ids[i])
      && (forall i, j :: 0 <= i < j < |q| ==> q[i] > q[j])
  {
    var positions := IndexList(count, limit);
    var looks := IndexLookups(positions, index);
    var p := ValidIdsOrder(looks);
    q := seq(|p|, i requires 0 <= i < |p| => positions[p[i]]);
    forall i, j | 0 <= i < j < |q| ensures q[i] > q[j] {
      assert p[i] < p[j];
    }
  }

  /** The entries sit at strictly increasing positions of the ids they were
      fetched for. */
  lemma {:induction false} EntryPositions(ids: seq<string>, configs: map<string, string>, states: map<string, string>)
    returns (p: seq<nat>)
    ensures var es := Entries(ids, configs, states);
      && |p| == |es|
      && (forall i :: 0 <= i < |es| ==> p[i] < |ids| && FetchEntry(ids[p[i]], configs, states) == Some(es[i]))
      && (forall i, j :: 0 <= i < j < |p| ==> p[i] < p[j])
  {
    p := PresentOrder(FetchAll(ids, configs, states));
  }

  /** The filtered entries sit at strictly increasing positions of the entries. */
  lemma {:induction false} ByCreatorPositions(entries: seq<AuctionEntry>, creatorFilter: string) returns (p: seq<nat>)
    ensures var r := ByCreator(entries, creatorFilter);
      && |p| == |r|
      && (forall i :: 0 <= i < |r| ==> p[i] < |entries| && entries[p[i]] == r[i])
      && (forall i, j :: 0 <= i < j < |p| ==> p[i] < p[j])
  {
    if creatorFilter == "" {
      p := seq(|entries|, i requires 0 <= i < |entries| => i as nat);
    } else {
      CreatedBySubsequence(entries, creatorFilter);
      p := SubsequencePositions(CreatedBy(entries, creatorFilter), entries);
    }
  }

  /** Without a limit from the caller, at most 50 auctions are listed. */
  lemma DefaultListedAtMost50(count: Num, index: map<int, string>, configs: map<string, string>,
                              states: map<string, string>, creatorFilter: string)
    ensures |Listed(count, index, configs, states, creatorFilter, LimitOrDefault(None))| <= 50
  {
    ListedBounded(count, index, configs, states, creatorFilter, LimitOrDefault(None));
  }

  /** The listed auctions are newest first: each is what the fetch returns
      for the id at its index position, and the positions strictly decrease
      down the list, whether or not a creator filter is set. */
  lemma {:induction false} ListedNewestFirst(count: Num, index: map<int, string>, configs: map<string, string>,
                                             states: map<string, string>, creatorFilter: string, limit: int)
    returns (idx: seq<int>)
    ensures var r := Listed(count, index, configs, states, creatorFilter, limit);
      && |idx| == |r|
      && (forall i :: 0 <= i < |r| ==>
            && count.Finite? && 0 <= idx[i] < count.v && idx[i] in index
            && FetchEntry(index[idx[i]], configs, states) == Some(r[i]))
      && (forall i, j :: 0 <= i < j < |r| ==> idx[i] > idx[j])
  {
    if count == Finite(0) {
      idx := [];
      return;
    }
    var ids := ValidIds(IndexLookups(IndexList(count, limit), index));
    var entries := Entries(ids, configs, states);
    var q := ValidIdPositions(count, index, limit);
    var p := EntryPositions(ids, configs, states);
    var f := ByCreatorPositions(entries, creatorFilter);
    var r := ByCreator(entries, creatorFilter);
    assert r == Listed(count, index, configs, states, creatorFilter, limit);
    idx := ComposePositions(count, index, configs, states, ids, entries, r, q, p, f);
    forall i | 0 <= i < |r|
      ensures && count.Finite? && 0 <= idx[i] < count.v && idx[i] in index
              && FetchEntry(index[idx[i]], configs, states) == Some(r[i])
    {
      assert Locates(count, index, configs, states, idx[i], r[i]);
    }
  }

  /** Index position `n` of the auction index holds an id whose auction reads as `e`. */
  ghost predicate Locates(count: Num, index: map<int, string>, configs: map<string, string>,
                          states: map<string, string>, n: int, e: AuctionEntry)
  {
    count.Finite? && 0 <= n < count.v && n in index && FetchEntry(index[n], configs, states) == Some(e)
  }

  /** The three position maps of the listing, followed one after the other. */
  lemma ComposePositions(count: Num, index: map<int, string>, configs: map<string, string>, states: map<string, string>,
                         ids: seq<string>, entries: seq<AuctionEntry>, r: seq<AuctionEntry>,
                         q: seq<int>, p: seq<nat>, f: seq<nat>)
    returns (idx: seq<int>)
    requires |q| == |ids| && |p| == |entries| && |f| == |r|
    requires forall m :: 0 <= m < |ids| ==>
               count.Finite? && 0 <= q[m] < count.v && q[m] in index && index[q[m]] == ids[m]
    requires forall k :: 0 <= k < |entries| ==> p[k] < |ids| && FetchEntry(ids[p[k]], configs, states) == Some(entries[k])
    requires forall i :: 0 <= i < |r| ==> f[i] < |entries| && entries[f[i]] == r[i]
    requires forall i, j :: 0 <= i < j < |q| ==> q[i] > q[j]
    requires forall i, j :: 0 <= i < j < |p| ==> p[i] < p[j]
    requires forall i, j :: 0 <= i < j < |f| ==> f[i] < f[j]
    ensures |idx| == |r|
    ensures forall i :: 0 <= i < |r| ==> Locates(count, index, configs, states, idx[i], r[i])
    ensures forall i, j :: 0 <= i < j < |r| ==> idx[i] > idx[j]
  {
    idx := seq(|r|, i requires 0 <= i < |r| => q[p[f[i]]]);
    forall i | 0 <= i < |r| ensures Locates(count, index, configs, states, idx[i], r[i]) {
      var k := f[i];
      assert k < |entries| && entries[k] == r[i];
      var m := p[k];
      assert m < |ids| && FetchEntry(ids[m], configs, states) == Some(entries[k]);
      assert 0 <= q[m] < count.v && q[m] in index && index[q[m]] == ids[m];
      assert idx[i] == q[m];
    }
    DecreasingThrough(q, p, f);
    forall i, j | 0 <= i < j < |r| ensures idx[i] > idx[j] {
      assert idx[i] == q[p[f[i]]] && idx[j] == q[p[f[j]]];
    }
  }

  /** Following two increasing position maps into a decreasing sequence
      gives a decreasing sequence. */
  lemma DecreasingThrough(q: seq<int>, p: seq<nat>, f: seq<nat>)
    requires forall k :: 0 <= k < |f| ==> f[k] < |p|
    requires forall k :: 0 <= k < |p| ==> p[k] < |q|
    requires forall i, j :: 0 <= i < j < |f| ==> f[i] < f[j]
    requires forall i, j :: 0 <= i < j < |p| ==> p[i] < p[j]
    requires forall i, j :: 0 <= i < j < |q| ==> q[i] > q[j]
    ensures forall i, j :: 0 <= i < j < |f| ==> q[p[f[i]]] > q[p[f[j]]]
  {
    forall i, j | 0 <= i < j < |f| ensures q[p[f[i]]] > q[p[f[j]]] {
      assert p[f[i]] < p[f[j]];
    }
  }

  /** The hook's state. */
  class AuctionList {
    var auctions: seq<AuctionEntry>
    var total: Option<Num>

    constructor()
      ensures auctions == [] && total.None?
    {
      auctions := [];
      total := None;
    }

    /** `fetch`: without the stats value nothing is listed and the total is
        0; otherwise the total is the stats' count and the list is `Listed`,
        with the default limit when the caller sets none. */
    method Fetch(statsRaw: Option<string>, index: map<int, string>, configs: map<string, string>,
                 states: map<string, string>, creatorFilter: string, limit: Option<int>)
      modifies this
      ensures statsRaw.None? || statsRaw.value == "" ==> auctions == [] && total == Some(Finite(0))
      ensures statsRaw.Some? && statsRaw.value != "" ==>
                var count := ParseStats(statsRaw.value).totalAuctions;
                && total == Some(count)
                && auctions == Listed(count, index, configs, states, creatorFilter, LimitOrDefault(limit))
    {
      if statsRaw.None? || statsRaw.value == "" {
        auctions := [];
        total := Some(Finite(0));
        return;
      }
      var count := ParseStats(statsRaw.value).totalAuctions;
      total := Some(count);
      if count == Finite(0) {
        auctions := [];
        return;
      }
      var indices := IndexList(count, LimitOrDefault(limit));
      var validIds := ValidIds(IndexLookups(indices, index));
      var result := Entries(validIds, configs, states);
      if creatorFilter != "" {
        result := CreatedBy(result, creatorFilter);
      }
      auctions := result;
    }
  }
}
