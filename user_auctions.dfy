/** The connected creator's own auctions (src/features/auction/hooks/useUserAuctions.ts):
 *  the per-creator count, the cached id list or a bounded walk back along
 *  the creator's linked list, configurations from the cache first, and the
 *  entries that could be built. The program's mappings are maps. */
module UserAuctions {
  import opened Text
  import opened AuctionTypes
  import opened ConfigCache
  import opened Auctions

  /** The end-of-list marker of `auction_prev_by_creator`. */
  const EndMarker := "0field"

  /** The walk stops at a missing or empty cursor and at the end marker. */
  predicate Stops(cursor: Option<string>)
  {
    cursor.None? || cursor.value == "" || cursor.value == EndMarker
  }

  /** `getAuctionPrevByCreator`. */
  function Prev(prev: map<string, string>, id: string): Option<string>
  {
    if id in prev then Some(prev[id]) else None
  }

  /** The ids collected from `cursor` on, at most `remaining` of them. */
  function Walk(cursor: Option<string>, prev: map<string, string>, remaining: int): (ids: seq<string>)
    decreases remaining
  {
    if Stops(cursor) || remaining <= 0 then []
    else [cursor.value] + Walk(Prev(prev, cursor.value), prev, remaining - 1)
  }

  /** The walk collects at most `remaining` ids, never an empty one or the
      end marker, starting at the cursor and following each id's link. */
  lemma {:induction false} WalkShape(cursor: Option<string>, prev: map<string, string>, remaining: int)
    ensures var ids := Walk(cursor, prev, remaining);
      && |ids| <= Max(0, remaining)
      && (forall i :: 0 <= i < |ids| ==> ids[i] != "" && ids[i] != EndMarker)
      && (ids != [] ==> cursor == Some(ids[0]))
      && (forall i :: 0 <= i < |ids| - 1 ==> Prev(prev, ids[i]) == Some(ids[i + 1]))
    decreases remaining
  {
    if !Stops(cursor) && remaining > 0 {
      var next := Prev(prev, cursor.value);
      WalkShape(next, prev, remaining - 1);
      var rest := Walk(next, prev, remaining - 1);
      assert Walk(cursor, prev, remaining) == [cursor.value] + rest;
      assert forall i :: 1 <= i < |rest| + 1 ==> ([cursor.value] + rest)[i] == rest[i - 1];
      assert rest != [] ==> next == Some(rest[0]);
    }
  }

  /** A linked list whose entries are real ids is walked in full when the
      count is its length: the walk recovers the list exactly. */
  lemma {:induction false} WalkRecoversChain(chain: seq<string>, prev: map<string, string>)
    requires forall i :: 0 <= i < |chain| ==> !Stops(Some(chain[i]))
    requires forall i :: 0 <= i < |chain| - 1 ==> Prev(prev, chain[i]) == Some(chain[i + 1])
    ensures chain != [] ==> Walk(Some(chain[0]), prev, |chain|) == chain
    decreases |chain|
  {
    if |chain| > 1 {
      WalkRecoversChain(chain[1..], prev);
      assert chain[1..][0] == chain[1];
      assert Prev(prev, chain[0]) == Some(chain[1]);
      assert chain == [chain[0]] + chain[1..];
    }
  }

  /** The traversal loop: follow `prev` links from the head while the cursor
      is a real id and fewer than `k` ids are collected. */
  method TraverseCreatorList(head: Option<string>, prev: map<string, string>, k: int) returns (ids: seq<string>)
    ensures ids == Walk(head, prev, k)
  {
    ids := [];
    var cursor := head;
    while !Stops(cursor) && |ids| < k
      invariant ids + Walk(cursor, prev, k - |ids|) == Walk(head, prev, k)
      decreases k - |ids|
    {
      assert Walk(cursor, prev, k - |ids|) == [cursor.value] + Walk(Prev(prev, cursor.value), prev, k - |ids| - 1);
      ids := ids + [cursor.value];
      cursor := Prev(prev, cursor.value);
    }
  }

  /** The newly fetched configurations: the misses whose mapping value exists
      and is not empty. */
  function Fetched(miss: seq<string>, configs: map<string, string>): (r: map<string, string>)
    ensures forall id :: id in r <==> id in miss && id in configs && configs[id] != ""
    ensures forall id :: id in r ==> r[id] == configs[id]
  {
    map id | id in miss && id in configs && configs[id] != "" :: configs[id]
  }

  /** The loop that fills `newlyFetched`. */
  method CollectFetched(miss: seq<string>, configs: map<string, string>) returns (newly: map<string, string>)
    ensures newly == Fetched(miss, configs)
  {
    newly := map[];
    var i := 0;
    while i < |miss|
      invariant 0 <= i <= |miss|
      invariant newly == Fetched(miss[..i], configs)
    {
      assert miss[..i + 1] == miss[..i] + [miss[i]];
      if miss[i] in configs && configs[miss[i]] != "" {
        newly := newly[miss[i] := configs[miss[i]]];
      }
      i := i + 1;
    }
    assert miss[..i] == miss;
  }

  /** The cached hits for a list of ids. */
  function Hits(ids: seq<string>, m: map<string, string>): (r: map<string, string>)
    ensures forall id :: id in r <==> id in ids && IsHit(m, id)
    ensures forall id :: id in r ==> id in m && r[id] == m[id]
  {
    map id | id in ids && IsHit(m, id) :: m[id]
  }

  /** `allConfigRaws`: the cached hits merged with what was fetched. */
  function KnownConfigs(ids: seq<string>, m: map<string, string>, configs: map<string, string>): map<string, string>
  {
    Hits(ids, m) + Fetched(Misses(ids, m), configs)
  }

  /** For each id the cache wins when it holds a non-empty value; otherwise
      the mapping's value is used, and an id with neither has no entry. */
  lemma KnownConfigsPreferCache(ids: seq<string>, m: map<string, string>, configs: map<string, string>, id: string)
    requires id in ids
    ensures var known := KnownConfigs(ids, m, configs);
      && (IsHit(m, id) ==> id in known && known[id] == m[id])
      && (!IsHit(m, id) && id in configs && configs[id] != "" ==> id in known && known[id] == configs[id])
      && (!IsHit(m, id) && (id !in configs || configs[id] == "") ==> id !in known)
  {
    MissesExactly(ids, m);
  }

  /** The hook's state; `cachedIds` stands for the per-creator id list cache,
      and `cache` for the configuration cache. */
  class UserAuctions {
    var auctions: seq<AuctionEntry>
    var count: Option<int>
    var cachedIds: map<string, seq<string>>
    const cache: ConfigCache

    constructor(cache: ConfigCache, cachedIds: map<string, seq<string>>)
      ensures this.cache == cache && this.cachedIds == cachedIds && auctions == [] && count.None?
    {
      this.cache := cache;
      this.cachedIds := cachedIds;
      auctions := [];
      count := None;
    }

    /** The id list: the cached one when its length is the count, otherwise
        a fresh walk, which is then cached. */
    method CreatorIds(publicKey: string, k: int, head: Option<string>, prev: map<string, string>) returns (ids: seq<string>)
      modifies this
      ensures auctions == old(auctions) && count == old(count)
      ensures var reuse := publicKey in old(cachedIds) && |old(cachedIds)[publicKey]| == k;
        && (reuse ==> ids == old(cachedIds)[publicKey] && cachedIds == old(cachedIds))
        && (!reuse ==> ids == Walk(head, prev, k) && cachedIds == old(cachedIds)[publicKey := ids])
    {
      if publicKey in cachedIds && |cachedIds[publicKey]| == k {
        ids := cachedIds[publicKey];
      } else {
        ids := TraverseCreatorList(head, prev, k);
        cachedIds := cachedIds[publicKey := ids];
      }
    }

    /** `fetch`. Without a wallet the list is empty and the count unknown; a
        count of 0 or an empty id list gives an empty list; otherwise the
        misses are fetched and cached, and the entries are built from the
        cache's hits and the fetched values. */
    method Fetch(publicKey: Option<string>, k: int, head: Option<string>, prev: map<string, string>,
                 configs: map<string, string>, states: map<string, string>, fits: bool) returns (ids: seq<string>)
      modifies this, cache
      ensures publicKey.None? || publicKey.value == "" ==>
                auctions == [] && count.None? && ids == []
                && cachedIds == old(cachedIds) && cache.storage == old(cache.storage)
      ensures publicKey.Some? && publicKey.value != "" ==> count == Some(k)
      ensures publicKey.Some? && publicKey.value != "" && k == 0 ==>
                auctions == [] && ids == [] && cachedIds == old(cachedIds) && cache.storage == old(cache.storage)
      ensures publicKey.Some? && publicKey.value != "" && k != 0 ==>
                && (var reuse := publicKey.value in old(cachedIds) && |old(cachedIds)[publicKey.value]| == k;
                    && (reuse ==> ids == old(cachedIds)[publicKey.value] && cachedIds == old(cachedIds))
                    && (!reuse ==> ids == Walk(head, prev, k) && cachedIds == old(cachedIds)[publicKey.value := ids]))
                && (ids == [] ==> auctions == [] && cache.storage == old(cache.storage))
                && (ids != [] ==>
                      var fetched := Fetched(Misses(ids, old(cache.Load())), configs);
                      && auctions == Entries(ids, KnownConfigs(ids, old(cache.Load()), configs), states)
                      && (|fetched| == 0 || !fits ==> cache.storage == old(cache.storage))
                      && (|fetched| > 0 && fits ==> cache.storage == Saved(old(cache.Load()) + fetched)))
    {
      if publicKey.None? || publicKey.value == "" {
        auctions := [];
        count := None;
        return [];
      }
      count := Some(k);
      if k == 0 {
        auctions := [];
        return [];
      }
      ids := CreatorIds(publicKey.value, k, head, prev);
      if ids == [] {
        auctions := [];
        return;
      }
      var hit, miss := cache.PartitionByCache(ids);
      assert hit == Hits(ids, cache.Load());
      var newly := CollectFetched(miss, configs);
      cache.CacheConfigs(newly, fits);
      auctions := Entries(ids, hit + newly, states);
    }
  }
}
