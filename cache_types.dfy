/**
 * The values held by the bot's caches, the rows the backing store returns,
 * and the outcomes of store calls.
 *
 * Discord ids are plain integers; Python's truthiness of an id is `id != 0`.
 */
module CacheTypes {
  import opened Wrappers

  type GuildId = int
  type ChannelId = int
  type MemberId = int
  type MessageId = int

  /** Value of `enso_cache[guild_id]`: {prefix, modlogs, roles_persist}. */
  datatype GuildConfig = GuildConfig(prefix: Option<string>, modlogs: Option<ChannelId>, rolesPersist: int)

  /** The configuration a guild gets when the bot joins it: prefix ".", no modlog, persistence off. */
  const DefaultGuildConfig := GuildConfig(Some("."), None, 0)

  /** Value of `modmail_cache[guild_id]`. */
  datatype ModmailRoute = ModmailRoute(modmailChannelId: ChannelId, messageId: MessageId, loggingChannelId: ChannelId)

  /** Value of `starboard_cache[guild_id]`. */
  datatype StarboardConfig = StarboardConfig(channelId: ChannelId, minStars: int)

  /** Compound key (root_message_id, guild_id) of `starboard_messages_cache`. */
  datatype StarKey = StarKey(rootMessageId: MessageId, guildId: GuildId)

  /** Value of `starboard_messages_cache[key]`. */
  datatype StarMessage = StarMessage(starMessageId: MessageId, stars: int)

  /** Compound key (member_id, guild_id) of the member cache. */
  datatype MemberKey = MemberKey(memberId: MemberId, guildId: GuildId)

  /** Value of the member cache: {married, married_date, muted_roles, roles}. */
  datatype MemberRecord = MemberRecord(married: Option<MemberId>, marriedDate: Option<int>,
                                       mutedRoles: Option<string>, roles: Option<string>)

  /** Rows of the four tables loaded at startup. */
  datatype GuildRow = GuildRow(guildId: GuildId, prefix: Option<string>, modlogs: Option<ChannelId>, rolesPersist: int)
  datatype ModmailRow = ModmailRow(guildId: GuildId, modmailChannelId: ChannelId, messageId: MessageId,
                                   loggingChannelId: ChannelId)
  datatype StarboardRow = StarboardRow(guildId: GuildId, channelId: ChannelId, minStars: int)
  datatype StarMessageRow = StarMessageRow(rootMessageId: MessageId, guildId: GuildId,
                                           starMessageId: MessageId, stars: int)

  /** Key and cached value of each startup row, as `startup_cache_log` stores them. */
  function GuildRowKey(r: GuildRow): GuildId { r.guildId }
  function GuildRowConfig(r: GuildRow): GuildConfig { GuildConfig(r.prefix, r.modlogs, r.rolesPersist) }
  function ModmailRowKey(r: ModmailRow): GuildId { r.guildId }
  function ModmailRowRoute(r: ModmailRow): ModmailRoute { ModmailRoute(r.modmailChannelId, r.messageId, r.loggingChannelId) }
  function StarboardRowKey(r: StarboardRow): GuildId { r.guildId }
  function StarboardRowConfig(r: StarboardRow): StarboardConfig { StarboardConfig(r.channelId, r.minStars) }
  function StarMessageRowKey(r: StarMessageRow): StarKey { StarKey(r.rootMessageId, r.guildId) }
  function StarMessageRowValue(r: StarMessageRow): StarMessage { StarMessage(r.starMessageId, r.stars) }

  /** The answer of a store query: it failed (a PostgresError), or it returned a value. */
  datatype Fetch<+T> = StoreError | Fetched(value: T)

  /** How a cache operation ended. */
  datatype Status =
    | Done          // completed normally
    | StoreFailed   // the store call raised; the error was caught and logged
    | KeyMissing    // a KeyError was raised by indexing an absent cache key
    | NoneIndexed   // a TypeError was raised by indexing `None`

  /** Python truthiness of an optional channel id. */
  predicate Truthy(c: Option<ChannelId>) {
    c.Some? && c.value != 0
  }
}
