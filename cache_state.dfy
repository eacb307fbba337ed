/**
 * The four unbounded caches of the bot as one value, and the functions that
 * specify what each cache operation and lifecycle handler does to them.
 * The `Bot` class (bot.dfy) is proved to update its fields as these say.
 */
module CacheState {
  import opened Wrappers
  import opened CacheTypes

  datatype Caches = Caches(
    enso: map<GuildId, GuildConfig>,
    modmail: map<GuildId, ModmailRoute>,
    starboard: map<GuildId, StarboardConfig>,
    starMessages: map<StarKey, StarMessage>)

  // ------------------------------------------------------------ guild config

  /** One field of a guild's configuration, with its new value. */
  datatype GuildField =
    | PrefixField(prefix: Option<string>)
    | ModlogsField(modlogs: Option<ChannelId>)
    | RolesPersistField(rolesPersist: int)

  /** The configuration with the one field `f` names overwritten. */
  function Assign(c: GuildConfig, f: GuildField): (r: GuildConfig)
    ensures r.prefix == (if f.PrefixField? then f.prefix else c.prefix)
    ensures r.modlogs == (if f.ModlogsField? then f.modlogs else c.modlogs)
    ensures r.rolesPersist == (if f.RolesPersistField? then f.rolesPersist else c.rolesPersist)
  {
    match f
    case PrefixField(p) => c.(prefix := p)
    case ModlogsField(m) => c.(modlogs := m)
    case RolesPersistField(v) => c.(rolesPersist := v)
  }

  /** `enso_cache[g][field] = value`: a KeyError when `g` has no entry. */
  function SetField(enso: map<GuildId, GuildConfig>, g: GuildId, f: GuildField): (map<GuildId, GuildConfig>, Status)
  {
    if g in enso then (enso[g := Assign(enso[g], f)], Done) else (enso, KeyMissing)
  }

  /** A store `UPDATE guilds SET field` followed, only when it succeeded, by the cache update. */
  function WriteThrough(enso: map<GuildId, GuildConfig>, g: GuildId, f: GuildField, stored: bool): (map<GuildId, GuildConfig>, Status)
  {
    if stored then SetField(enso, g, f) else (enso, StoreFailed)
  }

  /**
   * Write-through ordering: on a store error nothing changes; on success exactly
   * one field of exactly one existing entry changes; a missing entry raises and
   * changes nothing.
   */
  lemma WriteThroughChangesOneField(enso: map<GuildId, GuildConfig>, g: GuildId, f: GuildField, stored: bool)
    ensures var (r, status) := WriteThrough(enso, g, f, stored);
      && (!stored ==> r == enso && status == StoreFailed)
      && (stored && g !in enso ==> r == enso && status == KeyMissing)
      && (stored && g in enso ==>
            && status == Done
            && r.Keys == enso.Keys
            && (forall h :: h in enso && h != g ==> r[h] == enso[h])
            && r[g] == Assign(enso[g], f))
      && (status == Done <==> stored && g in enso)
  {
  }

  /** An update puts the written value where a later read finds it. */
  lemma ReadAfterWrite(enso: map<GuildId, GuildConfig>, g: GuildId, p: string)
    requires g in enso && p != ""
    ensures GetPrefixForGuild(WriteThrough(enso, g, PrefixField(Some(p)), true).0, g) == Ok(p)
  {
  }

  /** `get_prefix_for_guild`: indexes the cache directly, so an absent guild raises a KeyError. */
  function GetPrefixForGuild(enso: map<GuildId, GuildConfig>, g: GuildId): (r: Result<string, Status>)
    ensures r.Ok? <==> g in enso
    ensures r.Err? ==> r.error == KeyMissing
    ensures r.Ok? ==> r.value != ""
    ensures r.Ok? ==> (r.value == "." || enso[g].prefix == Some(r.value))
    ensures r.Ok? && enso[g].prefix.Some? && enso[g].prefix.value != "" ==> r.value == enso[g].prefix.value
  {
    if g !in enso then Err(KeyMissing)
    else match enso[g].prefix
      case Some(p) => if p != "" then Ok(p) else Ok(".")
      case None => Ok(".")
  }

  /** The prefix `get_prefix` uses for a message: "." for a direct message, else the guild's. */
  function CommandPrefix(enso: map<GuildId, GuildConfig>, guild: Option<GuildId>): (r: Result<string, Status>)
    ensures guild.None? ==> r == Ok(".")
    ensures r.Ok? ==> r.value != ""
    ensures guild.Some? ==> (r.Ok? <==> guild.value in enso)
  {
    match guild
    case None => Ok(".")
    case Some(g) => GetPrefixForGuild(enso, g)
  }

  /** `get_roles_persist`. */
  function GetRolesPersist(enso: map<GuildId, GuildConfig>, g: GuildId): (r: Option<int>)
    ensures r.Some? <==> g in enso
    ensures r.Some? ==> r.value == enso[g].rolesPersist
  {
    if g in enso then Some(enso[g].rolesPersist) else None
  }

  /** `get_modlog_for_guild`: None both for an absent guild and for a guild without a modlog. */
  function GetModlogForGuild(enso: map<GuildId, GuildConfig>, g: GuildId): (r: Option<ChannelId>)
    ensures g !in enso ==> r == None
    ensures g in enso ==> r == enso[g].modlogs
  {
    if g in enso then enso[g].modlogs else None
  }

  // ------------------------------------------------------- starboard, modmail

  /** `get_starboard_channel`. */
  function GetStarboardChannel(starboard: map<GuildId, StarboardConfig>, g: GuildId): (r: Option<ChannelId>)
    ensures r.Some? <==> g in starboard
    ensures r.Some? ==> r.value == starboard[g].channelId
  {
    if g in starboard then Some(starboard[g].channelId) else None
  }

  /** `get_starboard_min_stars`. */
  function GetStarboardMinStars(starboard: map<GuildId, StarboardConfig>, g: GuildId): (r: Option<int>)
    ensures r.Some? <==> g in starboard
    ensures r.Some? ==> r.value == starboard[g].minStars
  {
    if g in starboard then Some(starboard[g].minStars) else None
  }

  /** `get_modmail`. */
  function GetModmail(modmail: map<GuildId, ModmailRoute>, g: GuildId): (r: Option<ModmailRoute>)
    ensures r.Some? <==> g in modmail
    ensures r.Some? ==> r.value == modmail[g]
  {
    if g in modmail then Some(modmail[g]) else None
  }

  /**
   * What `delete_starboard_messages(g)` keeps, as written: the loop variable
   * `guild_id` shadows the parameter, so the test compares a key's guild with itself.
   */
  function PurgeGuildAsWritten(m: map<StarKey, StarMessage>, g: GuildId): map<StarKey, StarMessage>
  {
    m - set k | k in m && k.guildId == k.guildId
  }

  /** What `delete_starboard_messages(g)` is meant to keep: every key of another guild. */
  function PurgeGuild(m: map<StarKey, StarMessage>, g: GuildId): (r: map<StarKey, StarMessage>)
    ensures forall k :: k in r <==> k in m && k.guildId != g
    ensures forall k :: k in r ==> r[k] == m[k]
  {
    map k | k in m && k.guildId != g :: m[k]
  }

  /** As written, the purge of one guild's starboard messages empties the whole cache. */
  lemma PurgeAsWrittenEmpties(m: map<StarKey, StarMessage>, g: GuildId)
    ensures PurgeGuildAsWritten(m, g) == map[]
  {
    assert PurgeGuildAsWritten(m, g).Keys == {};
  }

  /** A concrete case: purging guild 5 also drops the message of guild 7. */
  lemma PurgeAsWrittenDropsOtherGuild()
    ensures var m := map[StarKey(1, 5) := StarMessage(10, 3), StarKey(2, 7) := StarMessage(20, 4)];
      StarKey(2, 7) !in PurgeGuildAsWritten(m, 5) && StarKey(2, 7) in PurgeGuild(m, 5)
  {
    var m := map[StarKey(1, 5) := StarMessage(10, 3), StarKey(2, 7) := StarMessage(20, 4)];
    PurgeAsWrittenEmpties(m, 5);
  }

  /** The corrected purge is idempotent and leaves nothing of the purged guild. */
  lemma PurgeGuildIdempotent(m: map<StarKey, StarMessage>, g: GuildId)
    ensures PurgeGuild(PurgeGuild(m, g), g) == PurgeGuild(m, g)
    ensures forall k :: k in PurgeGuild(m, g) ==> k.guildId != g
  {
  }

  /**
   * Which `delete_starboard_messages` a handler calls: the method as written
   * (bot/__init__.py:283-297), or the purge its authors evidently intended.
   */
  datatype PurgeVersion = AsWritten | Intended

  /** The starboard messages left by the chosen `delete_starboard_messages(g)`. */
  function Purge(m: map<StarKey, StarMessage>, g: GuildId, v: PurgeVersion): map<StarKey, StarMessage>
  {
    if v.AsWritten? then PurgeGuildAsWritten(m, g) else PurgeGuild(m, g)
  }

  /** `remove_many(g)` on the member cache's entries. */
  function RemoveMembersOf(members: map<MemberKey, MemberRecord>, g: GuildId): (r: map<MemberKey, MemberRecord>)
    ensures forall k :: k in r <==> k in members && k.guildId != g
    ensures forall k :: k in r ==> r[k] == members[k]
  {
    map k | k in members && k.guildId != g :: members[k]
  }

  // -------------------------------------------------------------- lifecycle

  /** `on_guild_join`: the default configuration is cached only when the insert succeeded. */
  function GuildJoined(s: Caches, g: GuildId, inserted: bool): Caches
  {
    if inserted then s.(enso := s.enso[g := DefaultGuildConfig]) else s
  }

  /** The starboard part of a removal: only when the guild had a (truthy) starboard channel. */
  function StarboardRemoved(s: Caches, g: GuildId, v: PurgeVersion): Caches
  {
    if Truthy(GetStarboardChannel(s.starboard, g))
    then s.(starboard := s.starboard - {g}, starMessages := Purge(s.starMessages, g, v))
    else s
  }

  /**
   * `on_guild_remove`, with the outcomes of its three deletes at the store.
   * A KeyError in `del_cache` (guild config deleted at the store but not cached)
   * ends the handler before its member and starboard steps. The program as
   * written is `v == AsWritten`.
   */
  function GuildRemoved(s: Caches, members: map<MemberKey, MemberRecord>, g: GuildId,
                        guildDeleted: bool, membersDeleted: bool, starboardDeleted: bool, v: PurgeVersion)
    : (Caches, map<MemberKey, MemberRecord>, Status)
  {
    if guildDeleted && g !in s.enso then (s, members, KeyMissing)
    else
      var s1 := if guildDeleted then s.(enso := s.enso - {g}) else s;
      var members1 := if membersDeleted then RemoveMembersOf(members, g) else members;
      var s2 := if starboardDeleted then StarboardRemoved(s1, g, v) else s1;
      (s2, members1, Done)
  }

  /**
   * After a fully successful `on_guild_remove`, the guild has no configuration,
   * no member entries and no starboard; its starboard messages are purged only
   * when it had a starboard, and modmail is never touched. As written, the
   * purge then leaves no starboard message of any guild.
   */
  lemma GuildRemovedLeavesNoEntries(s: Caches, members: map<MemberKey, MemberRecord>, g: GuildId, v: PurgeVersion)
    requires g in s.enso
    requires g in s.starboard ==> s.starboard[g].channelId != 0
    ensures var (s', members', status) := GuildRemoved(s, members, g, true, true, true, v);
      && status == Done
      && g !in s'.enso
      && g !in s'.starboard
      && (g in s.starboard ==> forall k :: k in s'.starMessages ==> k.guildId != g)
      && (g in s.starboard && v == AsWritten ==> s'.starMessages == map[])
      && (g !in s.starboard ==> s'.starMessages == s.starMessages)
      && (forall k :: k in members' ==> k.guildId != g)
      && s'.modmail == s.modmail
  {
    if g in s.starboard && v == AsWritten {
      PurgeAsWrittenEmpties(s.starMessages, g);
    }
  }

  /**
   * Whether the starboard step of `on_guild_remove` runs: the guild delete did
   * not raise, the starboard delete succeeded and the guild has a truthy channel.
   */
  predicate GuildRemovePurges(s: Caches, g: GuildId, guildDeleted: bool, starboardDeleted: bool)
  {
    && !(guildDeleted && g !in s.enso)
    && starboardDeleted
    && Truthy(GetStarboardChannel(s.starboard, g))
  }

  /**
   * `on_guild_remove` touches no other guild's configuration, starboard or
   * member entries, and never modmail. The starboard messages are purged by
   * the chosen `delete_starboard_messages` exactly when the starboard step runs.
   */
  lemma GuildRemovedKeepsOtherGuilds(s: Caches, members: map<MemberKey, MemberRecord>, g: GuildId,
                                     guildDeleted: bool, membersDeleted: bool, starboardDeleted: bool,
                                     v: PurgeVersion, h: GuildId)
    requires h != g
    ensures var (s', members', _) := GuildRemoved(s, members, g, guildDeleted, membersDeleted, starboardDeleted, v);
      && (h in s.enso <==> h in s'.enso) && (h in s.enso ==> s'.enso[h] == s.enso[h])
      && (h in s.starboard <==> h in s'.starboard) && (h in s.starboard ==> s'.starboard[h] == s.starboard[h])
      && s'.modmail == s.modmail
      && s'.starMessages == (if GuildRemovePurges(s, g, guildDeleted, starboardDeleted)
                             then Purge(s.starMessages, g, v) else s.starMessages)
      && (forall k: MemberKey :: k.guildId == h ==> (k in members <==> k in members'))
      && (forall k: MemberKey :: k.guildId == h && k in members ==> members'[k] == members[k])
  {
  }

  /** With the intended purge, every starboard message of another guild keeps its presence and value. */
  lemma GuildRemovedIntendedKeepsOtherMessages(s: Caches, members: map<MemberKey, MemberRecord>, g: GuildId,
                                               guildDeleted: bool, membersDeleted: bool, starboardDeleted: bool, h: GuildId)
    requires h != g
    ensures var (s', _, _) := GuildRemoved(s, members, g, guildDeleted, membersDeleted, starboardDeleted, Intended);
      && (forall k: StarKey :: k.guildId == h ==> (k in s.starMessages <==> k in s'.starMessages))
      && (forall k: StarKey :: k.guildId == h && k in s.starMessages ==> s'.starMessages[k] == s.starMessages[k])
  {
    GuildRemovedKeepsOtherGuilds(s, members, g, guildDeleted, membersDeleted, starboardDeleted, Intended, h);
  }

  /** As written, whenever the starboard step runs every guild's starboard messages are gone. */
  lemma GuildRemovedAsWrittenEmptiesMessages(s: Caches, members: map<MemberKey, MemberRecord>, g: GuildId,
                                             guildDeleted: bool, membersDeleted: bool, starboardDeleted: bool)
    requires GuildRemovePurges(s, g, guildDeleted, starboardDeleted)
    ensures GuildRemoved(s, members, g, guildDeleted, membersDeleted, starboardDeleted, AsWritten).0.starMessages == map[]
  {
    PurgeAsWrittenEmpties(s.starMessages, g);
  }

  /**
   * A concrete case: removing guild 5, which has a starboard, drops the starboard
   * message of guild 7 as written, and keeps it with the intended purge.
   */
  lemma GuildRemovedAsWrittenDropsOtherGuild()
    ensures var s := Caches(map[5 := DefaultGuildConfig], map[], map[5 := StarboardConfig(100, 3)],
                            map[StarKey(1, 5) := StarMessage(10, 3), StarKey(2, 7) := StarMessage(20, 4)]);
      && StarKey(2, 7) !in GuildRemoved(s, map[], 5, true, true, true, AsWritten).0.starMessages
      && StarKey(2, 7) in GuildRemoved(s, map[], 5, true, true, true, Intended).0.starMessages
  {
    var s := Caches(map[5 := DefaultGuildConfig], map[], map[5 := StarboardConfig(100, 3)],
                    map[StarKey(1, 5) := StarMessage(10, 3), StarKey(2, 7) := StarMessage(20, 4)]);
    PurgeAsWrittenEmpties(s.starMessages, 5);
  }

  /** On a failed guild delete the guild's configuration stays cached, whatever else happens. */
  lemma GuildRemovedStoreErrorKeepsConfig(s: Caches, members: map<MemberKey, MemberRecord>, g: GuildId,
                                          membersDeleted: bool, starboardDeleted: bool, v: PurgeVersion)
    ensures var (s', members', status) := GuildRemoved(s, members, g, false, membersDeleted, starboardDeleted, v);
      && s'.enso == s.enso && s'.modmail == s.modmail && status == Done
      && (!membersDeleted ==> members' == members)
      && (!starboardDeleted ==> s'.starboard == s.starboard && s'.starMessages == s.starMessages)
  {
  }

  /**
   * `on_guild_channel_delete` for a channel of guild `g`, with the outcomes of
   * its three store calls. Each check uses the values read before any change.
   * The program as written is `v == AsWritten`.
   */
  function ChannelDeleted(s: Caches, g: GuildId, channel: ChannelId,
                          modlogCleared: bool, starboardDeleted: bool, modmailDeleted: bool, v: PurgeVersion): Caches
  {
    var modlogs := GetModlogForGuild(s.enso, g);
    var starboard := GetStarboardChannel(s.starboard, g);
    var route := GetModmail(s.modmail, g);
    var s1 := if Some(channel) == modlogs && modlogCleared
              then s.(enso := SetField(s.enso, g, ModlogsField(None)).0) else s;
    var s2 := if Some(channel) == starboard && starboardDeleted then StarboardRemoved(s1, g, v) else s1;
    if route.Some? && (channel == route.value.modmailChannelId || channel == route.value.loggingChannelId)
       && modmailDeleted
    then s2.(modmail := s2.modmail - {g}) else s2
  }

  /** The modlog is cleared only when it is the deleted channel and the store update succeeded. */
  lemma ChannelDeletedModlog(s: Caches, g: GuildId, channel: ChannelId,
                             modlogCleared: bool, starboardDeleted: bool, modmailDeleted: bool, v: PurgeVersion)
    ensures var s' := ChannelDeleted(s, g, channel, modlogCleared, starboardDeleted, modmailDeleted, v);
      && s'.enso.Keys == s.enso.Keys
      && (forall h :: h in s.enso && h != g ==> s'.enso[h] == s.enso[h])
      && (g in s.enso ==>
            s'.enso[g] == if s.enso[g].modlogs == Some(channel) && modlogCleared
                          then s.enso[g].(modlogs := None) else s.enso[g])
  {
  }

  /** The modmail route goes only when the channel is one of its two channels and the delete succeeded. */
  lemma ChannelDeletedModmail(s: Caches, g: GuildId, channel: ChannelId,
                              modlogCleared: bool, starboardDeleted: bool, modmailDeleted: bool, v: PurgeVersion)
    ensures var s' := ChannelDeleted(s, g, channel, modlogCleared, starboardDeleted, modmailDeleted, v);
      && (g in s'.modmail <==>
            g in s.modmail &&
            !(modmailDeleted && (channel == s.modmail[g].modmailChannelId || channel == s.modmail[g].loggingChannelId)))
      && (forall h :: h != g ==> (h in s'.modmail <==> h in s.modmail))
      && (forall h :: h in s'.modmail ==> s'.modmail[h] == s.modmail[h])
  {
  }

  /** The starboard goes only when it is the deleted (non-zero) channel and the delete succeeded. */
  lemma ChannelDeletedStarboard(s: Caches, g: GuildId, channel: ChannelId,
                                modlogCleared: bool, starboardDeleted: bool, modmailDeleted: bool, v: PurgeVersion)
    ensures var s' := ChannelDeleted(s, g, channel, modlogCleared, starboardDeleted, modmailDeleted, v);
      && (g in s'.starboard <==> g in s.starboard && !ChannelDeletePurges(s, g, channel, starboardDeleted))
      && (forall h :: h in s'.starboard ==> h in s.starboard && s'.starboard[h] == s.starboard[h])
      && (forall h :: h != g ==> (h in s'.starboard <==> h in s.starboard))
      && s'.starMessages == (if ChannelDeletePurges(s, g, channel, starboardDeleted)
                             then Purge(s.starMessages, g, v) else s.starMessages)
  {
  }

  /** Whether the starboard step of `on_guild_channel_delete` runs: the deleted channel is the guild's non-zero starboard channel. */
  predicate ChannelDeletePurges(s: Caches, g: GuildId, channel: ChannelId, starboardDeleted: bool)
  {
    starboardDeleted && g in s.starboard && s.starboard[g].channelId == channel && channel != 0
  }

  /**
   * A deleted channel clears the modlog only when it is the modlog channel,
   * removes the modmail route only when it is one of the route's two channels,
   * and removes the starboard and purges starboard messages only when it is the
   * starboard channel; each only when its store call succeeded. Other guilds'
   * entries keep their presence and value.
   */
  lemma ChannelDeletedEffects(s: Caches, g: GuildId, channel: ChannelId,
                              modlogCleared: bool, starboardDeleted: bool, modmailDeleted: bool, v: PurgeVersion)
    ensures var s' := ChannelDeleted(s, g, channel, modlogCleared, starboardDeleted, modmailDeleted, v);
      && s'.enso.Keys == s.enso.Keys
      && (forall h :: h in s.enso && h != g ==> s'.enso[h] == s.enso[h])
      && (g in s.enso ==>
            s'.enso[g] == if s.enso[g].modlogs == Some(channel) && modlogCleared
                          then s.enso[g].(modlogs := None) else s.enso[g])
      && (g in s'.modmail <==>
            g in s.modmail &&
            !(modmailDeleted && (channel == s.modmail[g].modmailChannelId || channel == s.modmail[g].loggingChannelId)))
      && (forall h :: h != g ==> (h in s'.modmail <==> h in s.modmail))
      && (forall h :: h in s'.modmail ==> s'.modmail[h] == s.modmail[h])
      && (g in s'.starboard <==> g in s.starboard && !ChannelDeletePurges(s, g, channel, starboardDeleted))
      && (forall h :: h in s'.starboard ==> h in s.starboard && s'.starboard[h] == s.starboard[h])
      && (forall h :: h != g ==> (h in s'.starboard <==> h in s.starboard))
      && s'.starMessages == (if ChannelDeletePurges(s, g, channel, starboardDeleted)
                             then Purge(s.starMessages, g, v) else s.starMessages)
  {
    ChannelDeletedModlog(s, g, channel, modlogCleared, starboardDeleted, modmailDeleted, v);
    ChannelDeletedModmail(s, g, channel, modlogCleared, starboardDeleted, modmailDeleted, v);
    ChannelDeletedStarboard(s, g, channel, modlogCleared, starboardDeleted, modmailDeleted, v);
  }

  /** A channel of no configured role changes nothing. */
  lemma UnrelatedChannelDeleteChangesNothing(s: Caches, g: GuildId, channel: ChannelId,
                                             modlogCleared: bool, starboardDeleted: bool, modmailDeleted: bool, v: PurgeVersion)
    requires GetModlogForGuild(s.enso, g) != Some(channel)
    requires GetStarboardChannel(s.starboard, g) != Some(channel)
    requires g in s.modmail ==> channel != s.modmail[g].modmailChannelId && channel != s.modmail[g].loggingChannelId
    ensures ChannelDeleted(s, g, channel, modlogCleared, starboardDeleted, modmailDeleted, v) == s
  {
  }
}
