/**
 * The bounded member cache `MyCoolCache(100)`, keyed by (member_id, guild_id).
 *
 * Only the three members the bot uses are modelled: the dictionary `cache`,
 * `store_cache(key, value)` and `remove_many(guild_id)`. The class's
 * eviction order is not visible, so when a new key arrives at a full cache
 * some resident entry is evicted, and nothing is said about which.
 */
module MemberCaching {
  import opened CacheTypes

  /** The capacity the bot passes to its member cache. */
  const MemberCacheCapacity: nat := 100

  class MemberCache {
    const capacity: nat
    var cache: map<MemberKey, MemberRecord>

    ghost predicate Valid()
      reads this
    {
      0 < capacity && |cache| <= capacity
    }

    constructor (capacity: nat)
      requires 0 < capacity
      ensures Valid() && this.capacity == capacity && cache == map[]
    {
      this.capacity := capacity;
      cache := map[];
    }

    /** Inserts or replaces `key`; at full capacity a new key evicts exactly one other entry. */
    method StoreCache(key: MemberKey, value: MemberRecord)
      requires Valid()
      modifies this
      ensures Valid()
      ensures key in cache && cache[key] == value
      ensures forall k :: k in cache && k != key ==> k in old(cache) && cache[k] == old(cache)[k]
      ensures key in old(cache) || |old(cache)| < capacity ==> cache.Keys == old(cache).Keys + {key}
      ensures key !in old(cache) && |old(cache)| == capacity ==>
                |cache| == capacity &&
                exists victim :: victim in old(cache) && cache.Keys == old(cache).Keys - {victim} + {key}
    {
      if key in cache || |cache| < capacity {
        cache := cache[key := value];
      } else {
        var victim :| victim in cache;
        var rest := cache - {victim};
        assert |rest| == |cache| - 1;
        cache := rest[key := value];
        assert cache.Keys == old(cache).Keys - {victim} + {key};
      }
    }

    /** Removes every resident entry whose guild component is `guildId`. */
    method RemoveMany(guildId: GuildId)
      requires Valid()
      modifies this
      ensures Valid()
      ensures forall k :: k in cache <==> k in old(cache) && k.guildId != guildId
      ensures forall k :: k in cache ==> cache[k] == old(cache)[k]
    {
      var kept := map k | k in cache && k.guildId != guildId :: cache[k];
      assert kept.Keys <= cache.Keys;
      SubsetCard(kept.Keys, cache.Keys);
      cache := kept;
    }
  }

  lemma SubsetCard<T>(a: set<T>, b: set<T>)
    requires a <= b
    ensures |a| <= |b|
  {
    assert b == a + (b - a);
  }
}
