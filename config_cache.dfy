/** The persistent cache of auction configurations
 *  (src/shared/lib/auctionConfigCache.ts). A configuration never changes
 *  once created, so the cache maps auction ids to the raw mapping text and
 *  is only ever added to. The browser's storage slot is a field. */
module ConfigCache {
  import opened Text

  /** What the storage slot holds: nothing, text that does not parse as the
      JSON of a map, or the saved map. */
  datatype Stored = Absent | Corrupt | Saved(entries: map<string, string>)

  /** `load`: a missing or unreadable slot reads as the empty map. */
  function Loaded(s: Stored): (m: map<string, string>)
    ensures s.Saved? ==> m == s.entries
    ensures !s.Saved? ==> m == map[]
  {
    if s.Saved? then s.entries else map[]
  }

  /** A cached value counts as a hit only when it is not empty (`if (map[id])`). */
  predicate IsHit(m: map<string, string>, id: string)
  {
    id in m && m[id] != ""
  }

  /** The ids still to be fetched, in their order. */
  function Misses(ids: seq<string>, m: map<string, string>): (r: seq<string>)
    ensures |r| <= |ids|
  {
    if ids == [] then []
    else if IsHit(m, ids[0]) then Misses(ids[1..], m)
    else [ids[0]] + Misses(ids[1..], m)
  }

  /** The misses are exactly the ids that are not hits. */
  lemma {:induction false} MissesExactly(ids: seq<string>, m: map<string, string>)
    ensures forall id :: id in Misses(ids, m) <==> id in ids && !IsHit(m, id)
  {
    if ids != [] {
      MissesExactly(ids[1..], m);
      assert forall id :: id in ids <==> id == ids[0] || id in ids[1..];
    }
  }

  /** Once every id has been cached with a non-empty value, nothing is missed. */
  lemma {:induction false} CachedIdsHit(ids: seq<string>, m: map<string, string>, entries: map<string, string>)
    requires forall id :: id in ids ==> id in entries && entries[id] != ""
    ensures Misses(ids, m + entries) == []
  {
    if ids != [] {
      assert ids[0] in ids;
      assert IsHit(m + entries, ids[0]);
      assert forall id :: id in ids[1..] ==> id in ids;
      CachedIdsHit(ids[1..], m, entries);
    }
  }

  class ConfigCache {
    var storage: Stored

    constructor(storage: Stored)
      ensures this.storage == storage
    {
      this.storage := storage;
    }

    function Load(): map<string, string>
      reads this
    {
      Loaded(storage)
    }

    /** `getCachedConfig`: the stored text, even an empty one, or None. */
    function GetCachedConfig(id: string): (r: Option<string>)
      reads this
      ensures r.Some? <==> id in Load()
      ensures r.Some? ==> r.value == Load()[id]
      ensures !storage.Saved? ==> r.None?
    {
      if id in Load() then Some(Load()[id]) else None
    }

    /** `partitionByCache`: every id is either a hit, with its cached text,
        or a miss, kept in order; an empty cached text is a miss. */
    method PartitionByCache(ids: seq<string>) returns (hit: map<string, string>, miss: seq<string>)
      ensures forall id :: id in hit <==> id in ids && IsHit(Load(), id)
      ensures forall id :: id in hit ==> id in Load() && hit[id] == Load()[id]
      ensures miss == Misses(ids, Load())
    {
      var m := Load();
      hit := map[];
      miss := [];
      var i := 0;
      while i < |ids|
        invariant 0 <= i <= |ids|
        invariant forall id :: id in hit <==> id in ids[..i] && IsHit(m, id)
        invariant forall id :: id in hit ==> id in m && hit[id] == m[id]
        invariant miss + Misses(ids[i..], m) == Misses(ids, m)
      {
        assert ids[..i + 1] == ids[..i] + [ids[i]];
        assert ids[i..][1..] == ids[i + 1..];
        assert Misses(ids[i..], m) == if IsHit(m, ids[i]) then Misses(ids[i + 1..], m) else [ids[i]] + Misses(ids[i + 1..], m);
        if IsHit(m, ids[i]) {
          hit := hit[ids[i] := m[ids[i]]];
        } else {
          miss := miss + [ids[i]];
        }
        i := i + 1;
      }
      assert ids[..i] == ids;
    }

    /** `save`: a write the storage refuses (a full quota) is skipped. */
    method Save(m: map<string, string>, fits: bool)
      modifies this
      ensures fits ==> storage == Saved(m)
      ensures !fits ==> storage == old(storage)
    {
      if fits {
        storage := Saved(m);
      }
    }

    /** `cacheConfigs`: no entries leave the storage untouched; otherwise the
        entries are merged over what was loaded, new values winning. */
    method CacheConfigs(entries: map<string, string>, fits: bool)
      modifies this
      ensures |entries| == 0 || !fits ==> storage == old(storage)
      ensures |entries| > 0 && fits ==> storage == Saved(old(Load()) + entries)
      ensures |entries| > 0 && fits ==>
                && (forall id :: id in entries ==> id in Load() && Load()[id] == entries[id])
                && (forall id :: id !in entries ==> (id in Load() <==> id in old(Load())))
                && (forall id :: id !in entries && id in Load() ==> Load()[id] == old(Load())[id])
    {
      if |entries| == 0 {
        return;
      }
      var m := Load();
      m := m + entries;
      Save(m, fits);
    }
  }
}
