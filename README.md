# Ensō~Chan cache layer and MyWaifuList menu, in Dafny

This project models two parts of the Ensō~Chan Discord bot.

**The bot's in-memory cache layer (`bot/__init__.py`).** The `Bot` class
keeps four dictionaries:

- `enso_cache`: guild → prefix, modlogs, roles_persist;
- `modmail_cache`: guild → modmail channel, message, logging channel;
- `starboard_cache`: guild → channel, minimum stars;
- `starboard_messages_cache`: (root message, guild) → star message, stars.

It also keeps a member cache `MyCoolCache(100)` keyed by (member, guild).
The model is the class `EnsoBot.Bot` (bot.dfy), whose fields are these maps.
Its methods update them in place, and each method's contract states the
new state as a pure function of `CacheState` (cache_state.dfy). The lemmas
about those functions state the properties the code promises:

- write-through ordering;
- one-field updates;
- read-through lookups;
- what each lifecycle handler leaves in every cache.

Every call to the PostgreSQL store is an outcome passed in as a parameter.
A `bool` says whether an `execute` succeeded. A `Fetch` value is what a query
returned, either `StoreError` or `Fetched(rows)`. Python exceptions the code
does not catch are a `Status`:

- `KeyMissing` is a `KeyError` from `del` or from indexing a dict;
- `NoneIndexed` is a `TypeError` from indexing `None`;
- `StoreFailed` is a store error that was caught and logged.

`GuildStore` (guild_store.dfy) models the `guilds` table. It proves when
`enso_cache` stays an exact mirror of that table. `RoleIds` (role_ids.dfy)
models the `", "`-joined role-id strings and proves that they parse back.

**The MyWaifuList result menu (`cogs/anime.py`).** `Pagination.MWLMenu`
(pagination.dfy) is the `MWLMenu` class. It keeps the page index `i` and the
author label of each page's embed, and the reaction buttons update both.
`WaifuResults` (waifu_results.dfy) models the name-keyed result dict. This
covers `store_in_dict`/`store_dict` and the type filter of the `search`
command. The dict is modelled with Python's key insertion order, because the
menu pages follow that order.

## Model

| member | source | states |
|---|---|---|
| EnsoBot.Bot.constructor | bot/__init__.py:78-83 | the four caches start empty and the member cache is fresh with capacity 100 |
| EnsoBot.Bot.StartupCacheLog | bot/__init__.py:96-157 | each cache becomes the row-by-row load of its query's rows when the query succeeded, and is left as it was when the query failed |
| RowLoading.Load | bot/__init__.py:108-111 | the `for row in results` loop computes the left-to-right load `LoadRows` |
| RowLoading.LoadRowsDomain | bot/__init__.py:108-111 | a key is present after a load iff it was before or some row has it, and a key no row has keeps its old value |
| RowLoading.LoadRowsLastWins | bot/__init__.py:108-111 | a key takes the value of the last row that has it |
| RowLoading.LoadRowsContents | bot/__init__.py:108-155 | after a load, a key is present iff it was before or some row has it; a row key holds the value of the last row with that key; other keys keep their old value |
| GuildStore.StartupMirrorsTable | bot/__init__.py:102-111 | loading every row of the `guilds` table into an empty cache gives exactly the table |
| EnsoBot.Bot.StoreCache | bot/__init__.py:202-207 | the guild's whole configuration is inserted or replaced; no other cache changes |
| EnsoBot.Bot.DelCache | bot/__init__.py:209-212 | the guild's entry is removed; an absent guild raises KeyError and changes nothing |
| EnsoBot.Bot.CheckCache | bot/__init__.py:214-244 | a hit returns the resident record without a query; a miss with a row caches that record under (member, guild) and returns it; a store error returns None and no row raises TypeError, both leaving the cache unchanged |
| MemberCaching.MemberCache.StoreCache | bot/__init__.py:241 | the key holds the new record; no other entry changes value; below capacity or on an existing key nothing is evicted; at capacity a new key evicts exactly one resident entry and the size stays 100 |
| MemberCaching.MemberCache.RemoveMany | bot/__init__.py:651 | exactly the entries of the given guild are removed, and the others keep their values |
| EnsoBot.Bot.CacheStoreStarboard | bot/__init__.py:250-254 | the guild's starboard is inserted or replaced; nothing else changes |
| CacheState.GetStarboardChannel | bot/__init__.py:256-260 | Some(channel) iff the guild has a starboard, else None |
| CacheState.GetStarboardMinStars | bot/__init__.py:262-266 | Some(min stars) iff the guild has a starboard, else None |
| EnsoBot.Bot.UpdateStarboardChannel | bot/__init__.py:268-271 | only the channel of the existing entry changes; an absent guild raises KeyError and changes nothing |
| EnsoBot.Bot.UpdateStarboardMinStars | bot/__init__.py:273-276 | only the threshold of the existing entry changes; an absent guild raises KeyError and changes nothing |
| EnsoBot.Bot.DeleteStarboard | bot/__init__.py:278-281 | the guild's starboard is removed; an absent guild raises KeyError and changes nothing |
| EnsoBot.Bot.RemoveStarKeysWhere | bot/__init__.py:286-297 | the collect-then-pop loops remove exactly the keys that pass the test and change nothing else |
| EnsoBot.Bot.DeleteStarboardMessagesAsWritten | bot/__init__.py:283-297 | as written, the method empties the whole starboard-messages cache |
| CacheState.PurgeAsWrittenEmpties | bot/__init__.py:289-291 | the shadowed test keeps no key, whatever the guild |
| CacheState.PurgeAsWrittenDropsOtherGuild | bot/__init__.py:289-291 | purging guild 5 drops the message of guild 7 as written, but keeps it in the corrected purge |
| EnsoBot.Bot.DeleteStarboardMessages | bot/__init__.py:283-297 | corrected: exactly the keys of the given guild are removed, and the others keep their values |
| CacheState.PurgeGuildAsWritten | bot/__init__.py:286-297 | the keys the shadowed test `guild_id == guild_id` selects are removed; PurgeAsWrittenEmpties shows that is every key |
| CacheState.PurgeGuild | bot/__init__.py:283-297 | a key survives iff it was present and belongs to another guild, and survivors keep their values |
| CacheState.PurgeGuildIdempotent | bot/__init__.py:283-297 | purging twice is purging once, and nothing of the purged guild is left |
| EnsoBot.Bot.CacheStoreStarboardMessage | bot/__init__.py:299-303 | the mirror is stored with stars = 1 |
| EnsoBot.Bot.UpdateStarboardMessageStars | bot/__init__.py:305-309 | the same store as `cache_store_starboard_message`: stars are reset to 1 |
| EnsoBot.Bot.UpdateStarboardMessage | bot/__init__.py:311-314 | only the star count of the existing mirror changes; an absent key raises KeyError and changes nothing |
| EnsoBot.Bot.CheckStarboardMessagesCache | bot/__init__.py:316-348 | a hit returns (star message, stars) with the cache unchanged; a miss with a row caches and returns it; no row returns (None, 0) and a store error returns None, both with the cache unchanged |
| EnsoBot.Bot.CacheStoreModmail | bot/__init__.py:354-359 | the guild's modmail route is inserted or replaced; nothing else changes |
| CacheState.GetModmail | bot/__init__.py:361-364 | the route iff the guild has one, else None |
| EnsoBot.Bot.UpdateModmail | bot/__init__.py:366-369 | only the logging channel of the existing route changes; an absent guild raises KeyError and changes nothing |
| EnsoBot.Bot.DeleteModmail | bot/__init__.py:371-374 | the route is removed; an absent guild raises KeyError and changes nothing |
| CacheState.GetRolesPersist | bot/__init__.py:380-384 | Some(value) iff the guild is cached, else None |
| CacheState.SetField | bot/__init__.py:404 | `enso_cache[g][field] = value`: one field of an existing entry, a KeyError for an absent guild (proved in WriteThroughChangesOneField) |
| CacheState.WriteThrough | bot/__init__.py:393-404 | the store UPDATE first, the cache update only in its `else` branch (proved in WriteThroughChangesOneField and WriteThroughKeepsMirror) |
| EnsoBot.Bot.UpdateRolePersist | bot/__init__.py:386-404 | the cache changes as the write-through of `roles_persist` says |
| CacheState.WriteThroughChangesOneField | bot/__init__.py:386-404 | a store error changes nothing; on success exactly one field of exactly one existing entry changes; an uncached guild raises KeyError and changes nothing |
| GuildStore.WriteThroughKeepsMirror | bot/__init__.py:393-404 | a mirrored cache stays equal to the table after the UPDATE, whether the store call succeeds or fails |
| EnsoBot.Bot.StorageModlogForGuild | bot/__init__.py:410-438 | the cache changes as the write-through of `modlogs` says |
| EnsoBot.Bot.RemoveModlogChannel | bot/__init__.py:440-443 | the guild's modlog becomes None; an absent guild raises KeyError |
| CacheState.GetModlogForGuild | bot/__init__.py:445-449 | None for an absent guild, else the cached modlog channel (which may itself be None) |
| EnsoBot.Bot.StoragePrefixForGuild | bot/__init__.py:455-477 | the cache changes as the write-through of `prefix` says |
| CacheState.GetPrefixForGuild | bot/__init__.py:479-484 | a KeyError iff the guild is not cached; the result is never empty; it is the stored prefix when that is non-empty, else "." |
| CacheState.ReadAfterWrite | bot/__init__.py:455-484 | after a successful prefix update, the guild's prefix reads back as the value written |
| CacheState.CommandPrefix | bot/__init__.py:45-51 | a direct message uses "."; a guild message uses the guild's prefix, never empty |
| RoleIds.AllRoleIds | bot/__init__.py:508 | the ids of all the muted member's roles, in order |
| EnsoBot.Bot.SetMutedRoles | bot/__init__.py:505-553 | on success only the member's `muted_roles` changes; a store error changes nothing; a record `check_cache` does not return raises TypeError and changes nothing |
| EnsoBot.Bot.StoreRoles | bot/__init__.py:505-528 | Done iff the update succeeded and `check_cache` returned a record; then the member's record is that record with `muted_roles` set to the `", "`-joined ids of its roles, and every other entry keeps its value; otherwise the member cache is unchanged, with StoreFailed or a TypeError |
| EnsoBot.Bot.ClearRoles | bot/__init__.py:530-553 | Done iff the update succeeded and `check_cache` returned a record; then the member's record is that record with `muted_roles` set to None, and every other entry keeps its value; otherwise the member cache is unchanged, with StoreFailed or a TypeError |
| RoleIds.UnmanagedRoleIds | bot/__init__.py:804 | an id is kept iff some role the member holds has it and no integration manages that role |
| RoleIds.Join | bot/__init__.py:508 | `", ".join(pieces)`; SplitJoin and JoinSplit prove it the inverse of `split(", ")` |
| RoleIds.JoinRoleIds | bot/__init__.py:804 | the stored string of a list of ids; RoleIdsRoundTrip proves it parses back to exactly those ids |
| RoleIds.ParseRoleIds | bot/__init__.py:733 | `int(id_) for id_ in s.split(", ") if len(id_)`; RoleIdsRoundTrip proves it inverts JoinRoleIds |
| RoleIds.NonEmpty | bot/__init__.py:733 | `if len(id_)`: a piece is kept iff it is non-empty |
| RoleIds.ParseAll | bot/__init__.py:733 | succeeds iff every piece is a number, and then yields each piece's value, in order |
| Decimal.DecimalString | bot/__init__.py:508 | `str(n)` is a non-empty string of decimal digits |
| Decimal.ParseDecimal | bot/__init__.py:733 | `int(s)` on a plain digit string; DecimalRoundTrip proves it inverts DecimalString |
| RoleIds.Split | bot/__init__.py:733 | `split(", ")` always yields at least one piece |
| RoleIds.JoinSplit | bot/__init__.py:733 | `", ".join(s.split(", "))` is `s` for every string |
| RoleIds.SplitJoin | bot/__init__.py:733 | splitting a `", "`-join of comma-free pieces gives the pieces back |
| Decimal.DecimalRoundTrip | bot/__init__.py:733 | `int(str(n)) == n` for every role id |
| RoleIds.RoleIdsRoundTrip | bot/__init__.py:733 | parsing the stored role string gives back exactly the ids that were joined, in order |
| RoleIds.PersistedRolesRoundTrip | bot/__init__.py:804 | a member who rejoins gets back exactly the ids of their unmanaged roles |
| CacheState.GuildJoined | bot/__init__.py:586-599 | the defaults are cached only when the insert did not raise (JoinKeepsMirrorIff states when that keeps the mirror) |
| EnsoBot.Bot.OnGuildJoin | bot/__init__.py:573-599 | the default configuration (".", None, 0) is cached only when the insert statement succeeded |
| GuildStore.JoinKeepsMirrorIff | bot/__init__.py:586-599 | with ON CONFLICT DO NOTHING, the cache stays a mirror of the table iff the insert failed, the guild was new, or its row already held the defaults |
| EnsoBot.Bot.OnGuildRemove | bot/__init__.py:615-672 | the caches and member cache become `GuildRemoved` of the old state, the three delete outcomes and the purge version; `AsWritten` is the code, whose `delete_starboard_messages` call at line 670 empties every guild's starboard messages |
| EnsoBot.Bot.RemoveStarboardOf | bot/__init__.py:667-670 | the starboard and its messages are removed only when the guild has a truthy starboard channel; the messages go by `delete_starboard_messages` as written or as intended |
| CacheState.GuildRemoved | bot/__init__.py:615-672 | the handler's effect: a KeyError from `del_cache` ends it; otherwise the guild config, member entries and starboard steps each run only when their store delete succeeded (properties in the lemmas below) |
| CacheState.StarboardRemoved | bot/__init__.py:667-670 | the shared starboard step: with a truthy channel the starboard entry goes and the messages are purged by the chosen version, else nothing changes |
| CacheState.Purge | bot/__init__.py:283-297 | the messages left by `delete_starboard_messages(g)`: the shadowed purge as written, or the guild filter as intended |
| CacheState.RemoveMembersOf | bot/__init__.py:651-652 | `remove_many(g)`: an entry survives iff it belongs to another guild, with its old value |
| CacheState.GuildRemovedLeavesNoEntries | bot/__init__.py:615-672 | after three successful deletes the guild has no configuration, no member entries and no starboard; its messages are purged only when it had a starboard, and as written then every message is gone; modmail is untouched |
| CacheState.GuildRemovedKeepsOtherGuilds | bot/__init__.py:615-672 | every configuration, starboard and member entry of another guild keeps its presence and value, modmail is untouched, and the starboard messages are the chosen purge of the old ones exactly when the starboard step runs, else unchanged |
| CacheState.GuildRemovedIntendedKeepsOtherMessages | bot/__init__.py:615-672 | with the intended purge, every starboard message of another guild also keeps its presence and value |
| CacheState.GuildRemovedAsWrittenEmptiesMessages | bot/__init__.py:664-670 | as written, whenever the starboard step runs no starboard message of any guild is left |
| CacheState.GuildRemovedAsWrittenDropsOtherGuild | bot/__init__.py:670 | removing guild 5 with a starboard drops guild 7's message (2, 7) as written, and keeps it with the intended purge |
| CacheState.GuildRemovedStoreErrorKeepsConfig | bot/__init__.py:626-637 | when the guild delete fails, the configuration stays cached and modmail is untouched |
| GuildStore.RemoveKeepsMirror | bot/__init__.py:626-637 | removing a guild keeps a mirrored cache equal to the table |
| EnsoBot.Bot.OnGuildChannelDelete | bot/__init__.py:824-900 | the caches become `ChannelDeleted` of the old state and the purge version, with each check made on values read before any change; `AsWritten` is the code, whose call at line 879 empties every guild's starboard messages |
| CacheState.ChannelDeleted | bot/__init__.py:824-900 | the handler's effect: modlog, starboard and modmail steps, each on values read first and only when its store call succeeded |
| CacheState.ChannelDeletedModlog | bot/__init__.py:840-856 | the modlog is cleared only when it is the deleted channel and the update succeeded; other guilds' configurations keep their values |
| CacheState.ChannelDeletedModmail | bot/__init__.py:885-900 | the route goes only when the channel is one of its two channels and the delete succeeded; other routes stay |
| CacheState.ChannelDeletedStarboard | bot/__init__.py:858-879 | the starboard goes only when it is the deleted non-zero channel and the delete succeeded; other guilds' starboards stay with their values; the messages are the chosen purge exactly then, else unchanged |
| CacheState.ChannelDeletedEffects | bot/__init__.py:824-900 | the modlog is cleared only when it is the deleted channel; the modmail route goes only when the channel is one of its two channels; the starboard goes only when it is the deleted non-zero channel, and the starboard messages are then the chosen purge of the old ones, else unchanged; each only when its store call succeeded; other guilds' configurations, routes and starboards keep their presence and values |
| CacheState.UnrelatedChannelDeleteChangesNothing | bot/__init__.py:824-900 | deleting a channel that is none of the configured ones changes nothing |
| GuildStore.ChannelDeleteKeepsMirror | bot/__init__.py:840-852 | clearing the modlog of a deleted channel keeps a mirrored cache equal to the table |
| WaifuResults.StoreDict | cogs/anime.py:62-65 | one field of the item is copied into its name's entry, and the order is unchanged |
| WaifuResults.StoreItem | cogs/anime.py:55-57 | after `_dict[name] = {}` and the per-field copies, the entry is the whole item, placed as a Python dict places a key |
| WaifuResults.Put | cogs/anime.py:55 | a new key goes last and an existing key keeps its place |
| WaifuResults.PutTwice | cogs/anime.py:55-57 | writing a name twice is the same as writing the second value once |
| WaifuResults.NamedPrefix | cogs/anime.py:53-59 | the items before the first one without a hashable name are the ones stored, because that item ends the loop |
| WaifuResults.PutAll | cogs/anime.py:53-57 | the dict after storing each item under its name in turn; PutAllEntries ties it to the row load and PutAllWellFormed keeps its order well formed |
| WaifuResults.StoreInDict | cogs/anime.py:49-59 | the dict becomes the name-keyed store of the named prefix of the items |
| WaifuResults.StoreInDictContents | cogs/anime.py:49-65 | a name is a key iff it was one or a stored item has it; it then holds the last such item, so a later duplicate replaces the earlier one |
| WaifuResults.PutAllWellFormed | cogs/anime.py:49-65 | the insertion order lists every key exactly once |
| WaifuResults.Search | cogs/anime.py:664-670 | the loop computes `SearchDict`, including its KeyError and TypeError exits |
| WaifuResults.SearchDict | cogs/anime.py:664-670 | the search result: the items of an allowed type stored by name, or the KeyError or TypeError that stops the loop (SearchDictFilters) |
| WaifuResults.Filtered | cogs/anime.py:667 | keeps exactly the items of the five allowed types, in order |
| WaifuResults.SearchDictFilters | cogs/anime.py:664-670 | the search succeeds iff every item has a type and every kept item a hashable name; it then stores only the items of the five allowed types, in order, by name |
| WaifuResults.SearchKeepsOnlyAllowed | cogs/anime.py:667-670 | every stored item has one of Waifu, Husbando, TV, ONA, OVA and is stored under its own name |
| WaifuResults.SearchKeepsAllAllowed | cogs/anime.py:667-670 | every item of an allowed type is stored |
| WaifuResults.SearchPagesKeepType | cogs/anime.py:109-113 | a search page's first label is its type, and every later relabelling keeps that type |
| Pagination.MWLMenu.constructor | cogs/anime.py:279-285 | the menu starts at the given index over the given pages |
| Pagination.MWLMenu.GetPage | cogs/anime.py:300-308 | (i + 1, n), so 1 <= current page <= pages |
| Pagination.MWLMenu.SendInitialMessage | cogs/anime.py:338-347 | the current page is labelled "type \| Page c/p"; with no page at the index the menu does not start |
| Pagination.MWLMenu.ShowCurrentPage | cogs/anime.py:363-366 | the page at the index is relabelled by `set_author_after` with (i + 1, n); the index and the other pages are unchanged |
| Pagination.MWLMenu.OnFirstPageArrow | cogs/anime.py:350-368 | the index becomes 0 and that page is relabelled; nothing happens when already on page 0 or for another user |
| Pagination.MWLMenu.OnLeftArrow | cogs/anime.py:371-385 | the index becomes `(i - 1) % n` and that page is relabelled; nothing happens for another user |
| Pagination.MWLMenu.OnRightArrow | cogs/anime.py:388-402 | the index becomes `(i + 1) % n` and that page is relabelled; nothing happens for another user |
| Pagination.MWLMenu.OnLastPageArrow | cogs/anime.py:405-423 | the index becomes n - 1 and that page is relabelled; nothing happens when already there or for another user |
| Pagination.MWLMenu.OnNumberedPage | cogs/anime.py:426-482 | a typed k with 0 < k <= n moves to index k - 1 and relabels it; a timeout, non-number or out-of-range k changes nothing |
| Pagination.NextIndex | cogs/anime.py:394 | the next index stays in [0, n) and wraps from n - 1 to 0 |
| Pagination.PrevIndex | cogs/anime.py:377 | the previous index stays in [0, n) and wraps from 0 to n - 1 |
| Pagination.PrevUndoesNext | cogs/anime.py:377-394 | the left and right arrows undo each other |
| Pagination.NextTimesIsShift | cogs/anime.py:394 | k presses of the right arrow move to `(i + k) % n`, so n presses come back to the start |
| Pagination.NumberedIndex | cogs/anime.py:460-464 | the new index is k - 1 when 0 < k <= n, and otherwise the old one |
| Pagination.StripLeftSuffix | cogs/anime.py:335 | the left strip keeps a suffix of the string that is empty or starts with a non-space |
| Pagination.StripLeftDropsSpaces | cogs/anime.py:335 | every character the left strip drops is whitespace |
| Pagination.StripRightPrefix | cogs/anime.py:335 | the right strip keeps a prefix of the string that is empty or ends with a non-space |
| Pagination.StripRightDropsSpaces | cogs/anime.py:335 | every character the right strip drops is whitespace |
| Pagination.StripBothEnds | cogs/anime.py:335 | stripping both ends splits the string into a whitespace run, a trimmed middle and a whitespace run |
| Pagination.Strip | cogs/anime.py:335 | `strip()`: the string is a whitespace run, the result, and a whitespace run, and the result has no whitespace at either end |
| Pagination.BeforeBar | cogs/anime.py:334-335 | `split("\|")[0]` is the prefix of the string up to its first bar, or the whole string when it has none |
| Pagination.LabelType | cogs/anime.py:333-335 | the type shown by a label is trimmed and holds no bar |
| Pagination.SetAuthor | cogs/anime.py:311-322 | `set_author` makes the whole previous name the type of a "type \| Page c/p" label (SetAuthorThenAfter states what later relabels show) |
| Pagination.SetAuthorAfter | cogs/anime.py:325-336 | `set_author_after` keeps the label's type and writes the new page (SetAuthorAfterIdempotent) |
| Pagination.LabelTypeOfPageLabel | cogs/anime.py:325-336 | the type of a "type \| Page c/p" label is read back exactly when it is trimmed and has no bar |
| Pagination.SetAuthorAfterIdempotent | cogs/anime.py:325-336 | relabelling keeps the type, so relabelling twice is relabelling once with the later page |
| Pagination.SetAuthorThenAfter | cogs/anime.py:311-336 | a plain type labelled by `set_author` keeps that type under every `set_author_after` |

## Left out

- The asyncpg pool, connections and SQL text are left out. Each statement is an outcome parameter, and the `guilds` table is modelled only for the mirror lemmas.
- Interleaving is left out. Handlers that await can interleave in the bot, but each handler here runs as one atomic step.
- Embeds, replies, prints, reaction removal, `wait_for` timeouts and `asyncio.sleep` are left out. They are I/O; a timeout is the `TimedOut` reply.
- The MyWaifuList HTTP layer (`get_from_api`, the aiohttp session in `search`) is left out. The decoded items are the input.
- Embed construction in `search`, `waifu_embed`, `detailed_waifu_embed` and `user_embed` is left out. Only the author label that the menu rewrites is modelled.
- cogs/anime/interactive.py is left out. It is file reading, random choice, sleeps and message sends.
- `bot/libs/cache.py` is not part of this model. `MyCoolCache` is modelled only through its dictionary `cache`, `store_cache` and `remove_many`.
- MemberCaching.MemberCache.StoreCache: does not say which entry is evicted when the cache is full, because the eviction order of `MyCoolCache` is not visible.
- CacheState.CommandPrefix: models the configured prefix only. The mention prefixes that `when_mentioned_or` adds are left out; they come from the Discord library.
- The member copy in `on_guild_join` (`copy_records_to_table`) is left out. It touches no cache.
- `on_member_join` and `on_member_remove` are modelled only through their role-id strings. Their sends, role edits and store updates touch no cache.
- Decimal.ParseDecimal: accepts plain digit strings only. Python's `int` also accepts signs, surrounding whitespace and underscores, but a stored role string never contains them.
- Pagination.PageReply: the numbered-page reply is modelled after `int(msg.content)`. It is either the number, or `NotANumber` when `int` raised.
- WaifuResults.Json: JSON booleans and floats are left out. Python dict keys identify `True` with `1` and `1.0` with `1`.
- WaifuResults.StoreItem: copies all fields without an order, because only the resulting entry is observable. Python copies them in the item's key order.
- The `on_information` and `on_stop` buttons of `MWLMenu` are left out. They only send or stop the menu.
- `change_status`, `random_colour`, `generate_embed`, `on_message`, `on_ready` and `execute` are left out. They are presence, colour, sending and start-up plumbing.
- The ordering of pages across `search()` is left out. The dict's key order is modelled and kept well formed, but no lemma lists the pages in that order.

Design choices where the model follows what the code does:

- `get_prefix_for_guild` indexes `enso_cache` directly. An uncached guild is therefore a KeyError, not the "." fallback.
- In `store_roles` and `clear_roles`, a `check_cache` that returns `None` (store error) or raises (no row) both end in a TypeError before the cache is touched.
- `update_starboard_message_stars` resets the star count to 1, exactly as written.
- `on_guild_join` caches the defaults whenever the insert statement did not fail, even when ON CONFLICT DO NOTHING kept an existing row.
- With an empty result list, a menu is still created. `send_initial_message` then indexes an empty list. The model reports this as the menu not starting.
- The lifecycle handlers take the version of `delete_starboard_messages` as a parameter. `AsWritten` is the program; `Intended` is the corrected purge of the Findings table.

## Findings

| source | as written | input that shows it | evidently intended | confidence | as-written member | corrected member |
|---|---|---|---|---|---|---|
| bot/__init__.py:289-291 | `for (root_msg_id, guild_id) in self.starboard_messages_cache:` rebinds the parameter `guild_id`, so `if guild_id == guild_id` is always true and every starboard message of every guild is removed | a cache holding keys (1, 5) and (2, 7), and `delete_starboard_messages(5)`: key (2, 7) of guild 7 is removed too | remove exactly the keys whose guild component is the argument | not executed | CacheState.PurgeAsWrittenDropsOtherGuild | EnsoBot.Bot.DeleteStarboardMessages |
| bot/__init__.py:670 | `on_guild_remove` calls the shadowed `delete_starboard_messages`, so removing one guild with a starboard purges every guild's starboard messages; `on_guild_channel_delete` does the same at line 879 | caches with guild 5 (starboard channel 100) and messages (1, 5) and (2, 7), and `on_guild_remove(5)` with all deletes succeeding: (2, 7) is removed | only the removed guild's messages are purged | not executed | CacheState.GuildRemovedAsWrittenDropsOtherGuild | CacheState.GuildRemovedIntendedKeepsOtherMessages |
