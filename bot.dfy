/**
 * The bot's cache layer: four dictionaries and the bounded member cache,
 * updated in place by the cache methods, the write-through methods and the
 * lifecycle handlers. Every store call is an outcome passed in: `stored`
 * says whether an `execute` succeeded, a `Fetch` is what a query returned.
 * Each handler runs as one step; interleaving at awaits is not modelled.
 */
module EnsoBot {
  import opened Wrappers
  import opened CacheTypes
  import opened CacheState
  import opened MemberCaching
  import opened RowLoading
  import opened RoleIds

  class Bot {
    var ensoCache: map<GuildId, GuildConfig>
    var modmailCache: map<GuildId, ModmailRoute>
    var starboardCache: map<GuildId, StarboardConfig>
    var starboardMessagesCache: map<StarKey, StarMessage>
    const memberCache: MemberCache

    ghost predicate Valid()
      reads this, memberCache
    {
      memberCache.Valid() && memberCache.capacity == MemberCacheCapacity
    }

    /** The four unbounded caches as one value. */
    ghost function State(): Caches
      reads this
    {
      Caches(ensoCache, modmailCache, starboardCache, starboardMessagesCache)
    }

    /** The caches as `__init__` creates them: empty, with a member cache of capacity 100. */
    constructor ()
      ensures Valid() && fresh(memberCache)
      ensures State() == Caches(map[], map[], map[], map[]) && memberCache.cache == map[]
    {
      ensoCache := map[];
      modmailCache := map[];
      starboardCache := map[];
      starboardMessagesCache := map[];
      memberCache := new MemberCache(MemberCacheCapacity);
    }

    /**
     * `startup_cache_log`: each of the four bulk queries either fails (the
     * error is logged and that cache is left as it was) or its rows are
     * stored one by one.
     */
    method StartupCacheLog(guilds: Fetch<seq<GuildRow>>, modmails: Fetch<seq<ModmailRow>>,
                           starboards: Fetch<seq<StarboardRow>>, starMessages: Fetch<seq<StarMessageRow>>)
      modifies this
      ensures State() == Caches(
        if guilds.Fetched? then LoadRows(old(ensoCache), guilds.value, GuildRowKey, GuildRowConfig)
        else old(ensoCache),
        if modmails.Fetched? then LoadRows(old(modmailCache), modmails.value, ModmailRowKey, ModmailRowRoute)
        else old(modmailCache),
        if starboards.Fetched? then LoadRows(old(starboardCache), starboards.value, StarboardRowKey, StarboardRowConfig)
        else old(starboardCache),
        if starMessages.Fetched? then LoadRows(old(starboardMessagesCache), starMessages.value, StarMessageRowKey, StarMessageRowValue)
        else old(starboardMessagesCache))
    {
      if guilds.Fetched? {
        ensoCache := Load(ensoCache, guilds.value, GuildRowKey, GuildRowConfig);
      }
      if modmails.Fetched? {
        modmailCache := Load(modmailCache, modmails.value, ModmailRowKey, ModmailRowRoute);
      }
      if starboards.Fetched? {
        starboardCache := Load(starboardCache, starboards.value, StarboardRowKey, StarboardRowConfig);
      }
      if starMessages.Fetched? {
        starboardMessagesCache := Load(starboardMessagesCache, starMessages.value, StarMessageRowKey, StarMessageRowValue);
      }
    }

    // ------------------------------------------------------------ guild config

    /** `store_cache`: inserts or replaces the guild's whole configuration. */
    method StoreCache(g: GuildId, prefix: Option<string>, modlogs: Option<ChannelId>, rolesPersist: int)
      modifies this
      ensures State() == old(State()).(enso := old(ensoCache)[g := GuildConfig(prefix, modlogs, rolesPersist)])
    {
      ensoCache := ensoCache[g := GuildConfig(prefix, modlogs, rolesPersist)];
    }

    /** `del_cache`: `del enso_cache[g]`, a KeyError when absent. */
    method DelCache(g: GuildId) returns (status: Status)
      modifies this
      ensures status == if g in old(ensoCache) then Done else KeyMissing
      ensures State() == if g in old(ensoCache) then old(State()).(enso := old(ensoCache) - {g}) else old(State())
    {
      if g !in ensoCache {
        return KeyMissing;
      }
      ensoCache := ensoCache - {g};
      status := Done;
    }

    /** The cache step shared by the field updates: `enso_cache[g][field] = value`. */
    method SetGuildField(g: GuildId, f: GuildField) returns (status: Status)
      modifies this
      ensures (State(), status) == (old(State()).(enso := SetField(old(ensoCache), g, f).0), SetField(old(ensoCache), g, f).1)
    {
      if g !in ensoCache {
        return KeyMissing;
      }
      ensoCache := ensoCache[g := Assign(ensoCache[g], f)];
      status := Done;
    }

    /** The store update, then the cache update only when the store call succeeded. */
    method WriteGuildField(g: GuildId, f: GuildField, stored: bool) returns (status: Status)
      modifies this
      ensures (State(), status) == (old(State()).(enso := WriteThrough(old(ensoCache), g, f, stored).0),
                                    WriteThrough(old(ensoCache), g, f, stored).1)
    {
      if !stored {
        return StoreFailed;
      }
      status := SetGuildField(g, f);
    }

    /** `update_role_persist`. */
    method UpdateRolePersist(g: GuildId, value: int, stored: bool) returns (status: Status)
      modifies this
      ensures (State(), status) == (old(State()).(enso := WriteThrough(old(ensoCache), g, RolesPersistField(value), stored).0),
                                    WriteThrough(old(ensoCache), g, RolesPersistField(value), stored).1)
    {
      status := WriteGuildField(g, RolesPersistField(value), stored);
    }

    /** `storage_modlog_for_guild` (the `setup` flag only chooses the reply text). */
    method StorageModlogForGuild(g: GuildId, channel: ChannelId, stored: bool) returns (status: Status)
      modifies this
      ensures (State(), status) == (old(State()).(enso := WriteThrough(old(ensoCache), g, ModlogsField(Some(channel)), stored).0),
                                    WriteThrough(old(ensoCache), g, ModlogsField(Some(channel)), stored).1)
    {
      status := WriteGuildField(g, ModlogsField(Some(channel)), stored);
    }

    /** `remove_modlog_channel`: a cache-only update, called after the store was updated. */
    method RemoveModlogChannel(g: GuildId) returns (status: Status)
      modifies this
      ensures (State(), status) == (old(State()).(enso := SetField(old(ensoCache), g, ModlogsField(None)).0),
                                    SetField(old(ensoCache), g, ModlogsField(None)).1)
    {
      status := SetGuildField(g, ModlogsField(None));
    }

    /** `storage_prefix_for_guild`. */
    method StoragePrefixForGuild(g: GuildId, prefix: string, stored: bool) returns (status: Status)
      modifies this
      ensures (State(), status) == (old(State()).(enso := WriteThrough(old(ensoCache), g, PrefixField(Some(prefix)), stored).0),
                                    WriteThrough(old(ensoCache), g, PrefixField(Some(prefix)), stored).1)
    {
      status := WriteGuildField(g, PrefixField(Some(prefix)), stored);
    }

    // ------------------------------------------------------------ member cache

    /**
     * `check_cache`: a resident record is returned without asking the store.
     * On a miss, `fetched` is the answer of the point query: a store error is
     * logged and None is returned (StoreFailed); no row makes the code index
     * `None` (NoneIndexed); a row is cached under (member, guild) and returned.
     */
    method CheckCache(memberId: MemberId, guildId: GuildId, fetched: Fetch<Option<MemberRecord>>)
      returns (r: Result<MemberRecord, Status>)
      requires Valid()
      modifies memberCache
      ensures Valid()
      ensures var key := MemberKey(memberId, guildId);
        key in old(memberCache.cache) ==> r == Ok(old(memberCache.cache)[key]) && memberCache.cache == old(memberCache.cache)
      ensures var key := MemberKey(memberId, guildId);
        key !in old(memberCache.cache) && fetched == StoreError ==>
          r == Err(StoreFailed) && memberCache.cache == old(memberCache.cache)
      ensures var key := MemberKey(memberId, guildId);
        key !in old(memberCache.cache) && fetched == Fetched(None) ==>
          r == Err(NoneIndexed) && memberCache.cache == old(memberCache.cache)
      ensures var key := MemberKey(memberId, guildId);
        key !in old(memberCache.cache) && fetched.Fetched? && fetched.value.Some? ==>
          && r == Ok(fetched.value.value)
          && (forall k :: k in memberCache.cache && k != key ==> k in old(memberCache.cache) && memberCache.cache[k] == old(memberCache.cache)[k])
          && (|old(memberCache.cache)| < memberCache.capacity ==> memberCache.cache.Keys == old(memberCache.cache).Keys + {key})
      ensures r.Ok? ==> MemberKey(memberId, guildId) in memberCache.cache && memberCache.cache[MemberKey(memberId, guildId)] == r.value
    {
      var key := MemberKey(memberId, guildId);
      if key in memberCache.cache {
        return Ok(memberCache.cache[key]);
      }
      match fetched
      case StoreError =>
        r := Err(StoreFailed);
      case Fetched(None) =>
        r := Err(NoneIndexed);
      case Fetched(Some(row)) =>
        memberCache.StoreCache(key, row);
        r := Ok(memberCache.cache[key]);
    }

    /**
     * The common part of `store_roles` and `clear_roles`: update the store,
     * then load the member through `check_cache` and set `muted_roles` on the
     * record it returns, which is the resident cache entry itself.
     */
    method SetMutedRoles(memberId: MemberId, guildId: GuildId, value: Option<string>,
                         stored: bool, fetched: Fetch<Option<MemberRecord>>) returns (status: Status)
      requires Valid()
      modifies memberCache
      ensures Valid()
      ensures var key := MemberKey(memberId, guildId);
        status == Done <==> stored && (key in old(memberCache.cache) || (fetched.Fetched? && fetched.value.Some?))
      ensures status != Done ==> memberCache.cache == old(memberCache.cache)
      ensures !stored ==> status == StoreFailed
      ensures stored && status != Done ==> status == NoneIndexed
      ensures var key := MemberKey(memberId, guildId);
        status == Done ==>
          && key in memberCache.cache
          && memberCache.cache[key] ==
               (if key in old(memberCache.cache) then old(memberCache.cache)[key] else fetched.value.value).(mutedRoles := value)
          && (forall k :: k in memberCache.cache && k != key ==> k in old(memberCache.cache) && memberCache.cache[k] == old(memberCache.cache)[k])
    {
      if !stored {
        return StoreFailed;
      }
      var key := MemberKey(memberId, guildId);
      var r := CheckCache(memberId, guildId, fetched);
      match r
      case Ok(record) =>
        memberCache.cache := memberCache.cache[key := record.(mutedRoles := value)];
        status := Done;
      case Err(_) =>
        // `check_cache` returned None (store error) or raised (no row): either way a TypeError.
        status := NoneIndexed;
    }

    /** `store_roles`: the muted member's role ids, written as one string. */
    method StoreRoles(roles: seq<Role>, memberId: MemberId, guildId: GuildId,
                      stored: bool, fetched: Fetch<Option<MemberRecord>>) returns (status: Status)
      requires Valid()
      modifies memberCache
      ensures Valid()
      ensures var key := MemberKey(memberId, guildId);
        status == Done <==> stored && (key in old(memberCache.cache) || (fetched.Fetched? && fetched.value.Some?))
      ensures status != Done ==> memberCache.cache == old(memberCache.cache)
      ensures !stored ==> status == StoreFailed
      ensures stored && status != Done ==> status == NoneIndexed
      ensures var key := MemberKey(memberId, guildId);
        status == Done ==>
          && key in memberCache.cache
          && memberCache.cache[key] ==
               (if key in old(memberCache.cache) then old(memberCache.cache)[key] else fetched.value.value)
                 .(mutedRoles := Some(JoinRoleIds(AllRoleIds(roles))))
          && (forall k :: k in memberCache.cache && k != key ==> k in old(memberCache.cache) && memberCache.cache[k] == old(memberCache.cache)[k])
    {
      status := SetMutedRoles(memberId, guildId, Some(JoinRoleIds(AllRoleIds(roles))), stored, fetched);
    }

    /** `clear_roles`: the member was unmuted. */
    method ClearRoles(memberId: MemberId, guildId: GuildId,
                      stored: bool, fetched: Fetch<Option<MemberRecord>>) returns (status: Status)
      requires Valid()
      modifies memberCache
      ensures Valid()
      ensures var key := MemberKey(memberId, guildId);
        status == Done <==> stored && (key in old(memberCache.cache) || (fetched.Fetched? && fetched.value.Some?))
      ensures status != Done ==> memberCache.cache == old(memberCache.cache)
      ensures !stored ==> status == StoreFailed
      ensures stored && status != Done ==> status == NoneIndexed
      ensures var key := MemberKey(memberId, guildId);
        status == Done ==>
          && key in memberCache.cache
          && memberCache.cache[key] ==
               (if key in old(memberCache.cache) then old(memberCache.cache)[key] else fetched.value.value).(mutedRoles := None)
          && (forall k :: k in memberCache.cache && k != key ==> k in old(memberCache.cache) && memberCache.cache[k] == old(memberCache.cache)[k])
    {
      status := SetMutedRoles(memberId, guildId, None, stored, fetched);
    }

    // --------------------------------------------------------------- starboard

    /** `cache_store_starboard`. */
    method CacheStoreStarboard(g: GuildId, channel: ChannelId, minStars: int)
      modifies this
      ensures State() == old(State()).(starboard := old(starboardCache)[g := StarboardConfig(channel, minStars)])
    {
      starboardCache := starboardCache[g := StarboardConfig(channel, minStars)];
    }

    /** `update_starboard_channel`: overwrites the channel of an existing entry. */
    method UpdateStarboardChannel(g: GuildId, channel: ChannelId) returns (status: Status)
      modifies this
      ensures status == if g in old(starboardCache) then Done else KeyMissing
      ensures State() == old(State()).(starboard :=
        if g in old(starboardCache) then old(starboardCache)[g := old(starboardCache)[g].(channelId := channel)]
        else old(starboardCache))
    {
      if g !in starboardCache {
        return KeyMissing;
      }
      starboardCache := starboardCache[g := starboardCache[g].(channelId := channel)];
      status := Done;
    }

    /** `update_starboard_min_stars`: overwrites the threshold of an existing entry. */
    method UpdateStarboardMinStars(g: GuildId, minStars: int) returns (status: Status)
      modifies this
      ensures status == if g in old(starboardCache) then Done else KeyMissing
      ensures State() == old(State()).(starboard :=
        if g in old(starboardCache) then old(starboardCache)[g := old(starboardCache)[g].(minStars := minStars)]
        else old(starboardCache))
    {
      if g !in starboardCache {
        return KeyMissing;
      }
      starboardCache := starboardCache[g := starboardCache[g].(minStars := minStars)];
      status := Done;
    }

    /** `delete_starboard`: `del starboard_cache[g]`. */
    method DeleteStarboard(g: GuildId) returns (status: Status)
      modifies this
      ensures status == if g in old(starboardCache) then Done else KeyMissing
      ensures State() == if g in old(starboardCache) then old(State()).(starboard := old(starboardCache) - {g}) else old(State())
    {
      if g !in starboardCache {
        return KeyMissing;
      }
      starboardCache := starboardCache - {g};
      status := Done;
    }

    /**
     * Collect every key that passes `test`, then pop each collected key:
     * the two loops of `delete_starboard_messages`.
     */
    method RemoveStarKeysWhere(test: StarKey -> bool)
      modifies this
      ensures State() == old(State()).(starMessages :=
        old(starboardMessagesCache) - set k | k in old(starboardMessagesCache) && test(k))
    {
      var cache := starboardMessagesCache;
      var keysToRemove: seq<StarKey> := [];
      var remaining := cache.Keys;
      while remaining != {}
        invariant remaining <= cache.Keys
        invariant forall x :: x in keysToRemove ==> x in cache && x !in remaining && test(x)
        invariant forall x :: x in cache && x !in remaining && test(x) ==> x in keysToRemove
        invariant forall p, q :: 0 <= p < q < |keysToRemove| ==> keysToRemove[p] != keysToRemove[q]
        modifies {}
        decreases remaining
      {
        var key :| key in remaining;
        if test(key) {
          keysToRemove := keysToRemove + [key];
        }
        remaining := remaining - {key};
      }
      for j := 0 to |keysToRemove|
        invariant State() == old(State()).(starMessages := starboardMessagesCache)
        invariant forall x :: x in starboardMessagesCache <==> x in cache && x !in keysToRemove[..j]
        invariant forall x :: x in starboardMessagesCache ==> starboardMessagesCache[x] == cache[x]
      {
        var key := keysToRemove[j];
        assert key !in keysToRemove[..j];
        starboardMessagesCache := starboardMessagesCache - {key};
        assert keysToRemove[..j + 1] == keysToRemove[..j] + [key];
      }
      assert keysToRemove[..|keysToRemove|] == keysToRemove;
      ghost var expected := cache - set k | k in cache && test(k);
      assert forall x :: x in starboardMessagesCache <==> x in expected;
      assert starboardMessagesCache == expected;
    }

    /**
     * `delete_starboard_messages` as written: its loop unpacks each key into
     * `(root_msg_id, guild_id)`, rebinding the parameter, so the guild test
     * compares a key's guild with itself.
     */
    method DeleteStarboardMessagesAsWritten(guildId: GuildId)
      modifies this
      ensures State() == old(State()).(starMessages := PurgeGuildAsWritten(old(starboardMessagesCache), guildId))
    {
      RemoveStarKeysWhere((k: StarKey) => var StarKey(rootMsgId, guildId) := k; guildId == guildId);
    }

    /** `delete_starboard_messages` as intended: removes exactly the keys of guild `guildId`. */
    method DeleteStarboardMessages(guildId: GuildId)
      modifies this
      ensures State() == old(State()).(starMessages := PurgeGuild(old(starboardMessagesCache), guildId))
    {
      RemoveStarKeysWhere((k: StarKey) => k.guildId == guildId);
      ghost var m := old(starboardMessagesCache);
      assert m - (set k | k in m && k.guildId == guildId) == PurgeGuild(m, guildId);
    }

    /** `cache_store_starboard_message`: a new mirror always starts at one star. */
    method CacheStoreStarboardMessage(rootMessageId: MessageId, guildId: GuildId, starMessageId: MessageId)
      modifies this
      ensures State() == old(State()).(starMessages :=
        old(starboardMessagesCache)[StarKey(rootMessageId, guildId) := StarMessage(starMessageId, 1)])
    {
      starboardMessagesCache := starboardMessagesCache[StarKey(rootMessageId, guildId) := StarMessage(starMessageId, 1)];
    }

    /** `update_starboard_message_stars`: the same store as `cache_store_starboard_message`, stars reset to one. */
    method UpdateStarboardMessageStars(rootMessageId: MessageId, guildId: GuildId, starMessageId: MessageId)
      modifies this
      ensures State() == old(State()).(starMessages :=
        old(starboardMessagesCache)[StarKey(rootMessageId, guildId) := StarMessage(starMessageId, 1)])
    {
      CacheStoreStarboardMessage(rootMessageId, guildId, starMessageId);
    }

    /** `update_starboard_message`: overwrites the star count of an existing mirror. */
    method UpdateStarboardMessage(rootMessageId: MessageId, guildId: GuildId, reactions: int) returns (status: Status)
      modifies this
      ensures var key := StarKey(rootMessageId, guildId);
        && status == (if key in old(starboardMessagesCache) then Done else KeyMissing)
        && State() == old(State()).(starMessages :=
             if key in old(starboardMessagesCache)
             then old(starboardMessagesCache)[key := old(starboardMessagesCache)[key].(stars := reactions)]
             else old(starboardMessagesCache))
    {
      var key := StarKey(rootMessageId, guildId);
      if key !in starboardMessagesCache {
        return KeyMissing;
      }
      starboardMessagesCache := starboardMessagesCache[key := starboardMessagesCache[key].(stars := reactions)];
      status := Done;
    }

    /**
     * `check_starboard_messages_cache`: a cached mirror is returned as
     * (star_message_id, stars). On a miss, `fetched` is the point query: a row
     * is cached and returned, no row gives (None, 0), and a store error is
     * logged and the method falls through to return None.
     */
    method CheckStarboardMessagesCache(rootMessageId: MessageId, guildId: GuildId, fetched: Fetch<Option<StarMessage>>)
      returns (r: Option<(Option<MessageId>, int)>)
      modifies this
      ensures var key := StarKey(rootMessageId, guildId);
        key in old(starboardMessagesCache) ==>
          && r == Some((Some(old(starboardMessagesCache)[key].starMessageId), old(starboardMessagesCache)[key].stars))
          && State() == old(State())
      ensures var key := StarKey(rootMessageId, guildId);
        key !in old(starboardMessagesCache) && fetched.Fetched? && fetched.value.Some? ==>
          && r == Some((Some(fetched.value.value.starMessageId), fetched.value.value.stars))
          && State() == old(State()).(starMessages := old(starboardMessagesCache)[key := fetched.value.value])
      ensures var key := StarKey(rootMessageId, guildId);
        key !in old(starboardMessagesCache) && fetched == Fetched(None) ==> r == Some((None, 0)) && State() == old(State())
      ensures var key := StarKey(rootMessageId, guildId);
        key !in old(starboardMessagesCache) && fetched == StoreError ==> r == None && State() == old(State())
    {
      var key := StarKey(rootMessageId, guildId);
      if key in starboardMessagesCache {
        return Some((Some(starboardMessagesCache[key].starMessageId), starboardMessagesCache[key].stars));
      }
      match fetched
      case StoreError =>
        r := None;
      case Fetched(None) =>
        r := Some((None, 0));
      case Fetched(Some(row)) =>
        starboardMessagesCache := starboardMessagesCache[key := row];
        r := Some((Some(starboardMessagesCache[key].starMessageId), starboardMessagesCache[key].stars));
    }

    // ----------------------------------------------------------------- modmail

    /** `cache_store_modmail`. */
    method CacheStoreModmail(g: GuildId, modmailChannel: ChannelId, message: MessageId, loggingChannel: ChannelId)
      modifies this
      ensures State() == old(State()).(modmail := old(modmailCache)[g := ModmailRoute(modmailChannel, message, loggingChannel)])
    {
      modmailCache := modmailCache[g := ModmailRoute(modmailChannel, message, loggingChannel)];
    }

    /** `update_modmail`: overwrites the logging channel of an existing route. */
    method UpdateModmail(g: GuildId, channel: ChannelId) returns (status: Status)
      modifies this
      ensures status == if g in old(modmailCache) then Done else KeyMissing
      ensures State() == old(State()).(modmail :=
        if g in old(modmailCache) then old(modmailCache)[g := old(modmailCache)[g].(loggingChannelId := channel)]
        else old(modmailCache))
    {
      if g !in modmailCache {
        return KeyMissing;
      }
      modmailCache := modmailCache[g := modmailCache[g].(loggingChannelId := channel)];
      status := Done;
    }

    /** `delete_modmail`: `del modmail_cache[g]`. */
    method DeleteModmail(g: GuildId) returns (status: Status)
      modifies this
      ensures status == if g in old(modmailCache) then Done else KeyMissing
      ensures State() == if g in old(modmailCache) then old(State()).(modmail := old(modmailCache) - {g}) else old(State())
    {
      if g !in modmailCache {
        return KeyMissing;
      }
      modmailCache := modmailCache - {g};
      status := Done;
    }

    // --------------------------------------------------------------- lifecycle

    /** `on_guild_join`: the default configuration is cached once the guild row was inserted. */
    method OnGuildJoin(g: GuildId, inserted: bool)
      modifies this
      ensures State() == GuildJoined(old(State()), g, inserted)
    {
      if inserted {
        StoreCache(g, DefaultGuildConfig.prefix, DefaultGuildConfig.modlogs, DefaultGuildConfig.rolesPersist);
      }
    }

    /**
     * `on_guild_remove`, with the outcomes of its three store deletes; `v` picks
     * the `delete_starboard_messages` it calls, and the program as written is
     * `v == AsWritten`.
     */
    method OnGuildRemove(g: GuildId, guildDeleted: bool, membersDeleted: bool, starboardDeleted: bool, v: PurgeVersion)
      returns (status: Status)
      requires Valid()
      modifies this, memberCache
      ensures Valid()
      ensures (State(), memberCache.cache, status)
              == GuildRemoved(old(State()), old(memberCache.cache), g, guildDeleted, membersDeleted, starboardDeleted, v)
    {
      if guildDeleted {
        var deleted := DelCache(g);
        if deleted == KeyMissing {
          return KeyMissing;
        }
      }
      if membersDeleted {
        ghost var before := memberCache.cache;
        memberCache.RemoveMany(g);
        assert memberCache.cache == RemoveMembersOf(before, g);
      }
      if starboardDeleted {
        RemoveStarboardOf(g, v);
      }
      status := Done;
    }

    /** The starboard step of both handlers: only when the guild has a truthy starboard channel. */
    method RemoveStarboardOf(g: GuildId, v: PurgeVersion)
      modifies this
      ensures State() == StarboardRemoved(old(State()), g, v)
    {
      if Truthy(GetStarboardChannel(starboardCache, g)) {
        var _ := DeleteStarboard(g);
        if v.AsWritten? {
          DeleteStarboardMessagesAsWritten(g);
        } else {
          DeleteStarboardMessages(g);
        }
      }
    }

    /**
     * `on_guild_channel_delete` for a channel of guild `g`, with the outcomes of
     * its three store calls; `v` as for `OnGuildRemove`.
     */
    method OnGuildChannelDelete(channel: ChannelId, g: GuildId,
                                modlogCleared: bool, starboardDeleted: bool, modmailDeleted: bool, v: PurgeVersion)
      modifies this
      ensures State() == ChannelDeleted(old(State()), g, channel, modlogCleared, starboardDeleted, modmailDeleted, v)
    {
      var modlogs := GetModlogForGuild(ensoCache, g);
      var starboard := GetStarboardChannel(starboardCache, g);
      var route := GetModmail(modmailCache, g);
      var modmailChannel := if route.Some? then Some(route.value.modmailChannelId) else None;
      var loggingChannel := if route.Some? then Some(route.value.loggingChannelId) else None;
      if Some(channel) == modlogs && modlogCleared {
        var _ := RemoveModlogChannel(g);
      }
      if Some(channel) == starboard && starboardDeleted {
        RemoveStarboardOf(g, v);
      }
      if (Some(channel) == modmailChannel || Some(channel) == loggingChannel) && modmailDeleted {
        var _ := DeleteModmail(g);
      }
    }
  }
}
