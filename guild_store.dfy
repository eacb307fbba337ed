/**
 * The `guilds` table of the backing store, as a map from guild id to its
 * (prefix, modlogs, roles_persist) columns, and the statements the bot runs
 * on it. The lemmas show when `enso_cache` stays an exact mirror of the table.
 */
module GuildStore {
  import opened Wrappers
  import opened CacheTypes
  import opened CacheState
  import opened RowLoading

  type GuildTable = map<GuildId, GuildConfig>

  /** `UPDATE guilds SET field = value WHERE guild_id = g`: no row, no change. */
  function StoreUpdate(t: GuildTable, g: GuildId, f: GuildField): GuildTable
  {
    if g in t then t[g := Assign(t[g], f)] else t
  }

  /** `INSERT INTO guilds VALUES (...) ON CONFLICT (guild_id) DO NOTHING`. */
  function StoreInsertIgnore(t: GuildTable, g: GuildId, c: GuildConfig): GuildTable
  {
    if g in t then t else t[g := c]
  }

  /** `DELETE FROM guilds WHERE guild_id = g`. */
  function StoreDelete(t: GuildTable, g: GuildId): GuildTable
  {
    t - {g}
  }

  /** `rows` lists the table: one row per stored guild, each with that guild's columns. */
  ghost predicate ListsTable(rows: seq<GuildRow>, t: GuildTable)
  {
    && (forall j :: 0 <= j < |rows| ==> rows[j].guildId in t && t[rows[j].guildId] == GuildRowConfig(rows[j]))
    && (forall g :: g in t ==> exists j :: 0 <= j < |rows| && rows[j].guildId == g)
  }

  /** Loading every row of the table into an empty cache makes the cache equal to the table. */
  lemma StartupMirrorsTable(rows: seq<GuildRow>, t: GuildTable)
    requires ListsTable(rows, t)
    ensures LoadRows(map[], rows, GuildRowKey, GuildRowConfig) == t
  {
    var c := LoadRows(map[], rows, GuildRowKey, GuildRowConfig);
    forall g ensures (g in c <==> g in t) && (g in t ==> c[g] == t[g]) {
      LoadRowsContents(map[], rows, GuildRowKey, GuildRowConfig, g);
      if g in t {
        var j :| 0 <= j < |rows| && rows[j].guildId == g;
        assert GuildRowKey(rows[j]) == g;
      }
    }
  }

  /** A write-through update keeps a mirrored cache mirrored, whether the store call succeeds or fails. */
  lemma WriteThroughKeepsMirror(cache: GuildTable, t: GuildTable, g: GuildId, f: GuildField, stored: bool)
    requires cache == t
    ensures WriteThrough(cache, g, f, stored).0 == if stored then StoreUpdate(t, g, f) else t
  {
  }

  /**
   * Joining a guild keeps the mirror exactly when the insert failed or did not
   * conflict with a row holding other values: a conflicting row stays in the
   * table while the cache is overwritten with the defaults.
   */
  lemma JoinKeepsMirrorIff(s: Caches, t: GuildTable, g: GuildId, inserted: bool)
    requires s.enso == t
    ensures GuildJoined(s, g, inserted).enso == (if inserted then StoreInsertIgnore(t, g, DefaultGuildConfig) else t)
            <==> !inserted || g !in t || t[g] == DefaultGuildConfig
  {
    if inserted && g in t && t[g] != DefaultGuildConfig {
      assert GuildJoined(s, g, inserted).enso[g] != StoreInsertIgnore(t, g, DefaultGuildConfig)[g];
    }
  }

  /** Removing a guild keeps the mirror, including when the guild was never cached. */
  lemma RemoveKeepsMirror(s: Caches, members: map<MemberKey, MemberRecord>, t: GuildTable, g: GuildId,
                          guildDeleted: bool, membersDeleted: bool, starboardDeleted: bool, v: PurgeVersion)
    requires s.enso == t
    ensures GuildRemoved(s, members, g, guildDeleted, membersDeleted, starboardDeleted, v).0.enso
            == if guildDeleted then StoreDelete(t, g) else t
  {
    if guildDeleted && g !in t {
      assert t - {g} == t;
    }
  }

  /** Clearing the modlog of a deleted channel keeps the mirror. */
  lemma ChannelDeleteKeepsMirror(s: Caches, t: GuildTable, g: GuildId, channel: ChannelId,
                                 modlogCleared: bool, starboardDeleted: bool, modmailDeleted: bool, v: PurgeVersion)
    requires s.enso == t
    ensures ChannelDeleted(s, g, channel, modlogCleared, starboardDeleted, modmailDeleted, v).enso
            == if GetModlogForGuild(t, g) == Some(channel) && modlogCleared
               then StoreUpdate(t, g, ModlogsField(None)) else t
  {
  }
}
