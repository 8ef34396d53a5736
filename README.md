# Discord bot control panel — a verified model of its message handling

The system is a Discord bot with a small web control panel. The bot
(`bot/bot.py`) keeps an append-only history of the messages it sees. It
persists the newest hundred, answers "messages after this timestamp", and
rebuilds a table of the guilds and text channels it belongs to. The Flask
routes (`web/routes.py`) serve a channel's messages from a per-channel
cache that is filled from Discord once, filtered by an `after` timestamp,
and refetched when that filter finds nothing. They also check the
parameters of the channel list and of sending a message. In the browser:

- `messageManager.js` keeps a store of messages and shows one guild's
  messages. A merge appends the incoming messages whose timestamp is not
  yet stored; two messages of one batch that share a timestamp are both
  kept. A refresh with a non-empty batch replaces the store;
- `eventHandler.js` tracks the selected guild and channel, guards
  refreshing and sending, and appends the current channel's messages to
  the page;
- `uiManager.js` rebuilds the guild list while keeping the user's choice;
- `language.js` translates labels with a fallback to the key.

The model keeps each file's own form:

- Objects whose fields change become classes:
  - `Store.MessageManager`
  - `BotHistory.DiscordBot`
  - `WebRoutes.Routes`
  - `Events.EventHandler`
  - `I18n.LanguageState`
  - the page, `Dom.Document`
- Their methods carry `modifies` frames.
- Loops stay loops, with invariants that tie them to specification
  functions.
- Pure rules are functions with lemmas about them.

What the outside world supplies comes in as parameters:

- `fetch` replies, as `Reply` values;
- what Discord's `channel.history` yields, and whether `get_channel` or
  `get_guild` finds something;
- the gateway's guild list;
- the stored language;
- ISO-8601 parsing, as `parse: string -> Option<int>`: an abstract, totally
  ordered instant, or `None` where `datetime.fromisoformat` raises
  `ValueError`.

Python dicts whose order the code exposes are entry lists in insertion
order (`PyDict`).

Messages:

- Timestamps are compared as instants by the bot and by the cache filter.
- `sorted(..., key=timestamp)` compares them as strings (`Text.LexLe`,
  code-point order).
- The client's merge skips incoming messages whose timestamp string is
  already stored.
- A message's `channel_id` / `guild_id` is `None` when the record has none.
  `None` is an absent key, which never equals a selected id.

## Model

| member | source | states |
|---|---|---|
| Store.Unseen | web/static/js/messageManager.js:71-72 | the filter keeps exactly the incoming messages whose timestamp is not already known, and adds nothing |
| Store.UnseenAppend | web/static/js/messageManager.js:72 | the filter distributes over concatenation, so it keeps the incoming order |
| Store.RefreshReplaces | web/static/js/messageManager.js:66-75 | a refresh with a non-empty batch makes the store exactly that batch, in its order |
| Store.AppendOnly | web/static/js/messageManager.js:71-75 | without refresh the old store is a prefix of the new one; the rest is the incoming messages with an unknown timestamp, in incoming order |
| Store.MergeIdempotent | web/static/js/messageManager.js:71-75 | repeating the same non-refresh merge appends nothing |
| Store.MergeKeepsKeysUnique | web/static/js/messageManager.js:71-75 | a store with unique timestamps stays so after merging a batch with unique timestamps |
| Store.BatchDuplicatesKept | web/static/js/messageManager.js:71-72 | two messages of one batch that share a timestamp are both added |
| Store.Merged | web/static/js/messageManager.js:61-75 | the merged store holds only messages that were stored before or came in the batch, and is never longer than both together |
| Store.InGuild | web/static/js/messageManager.js:21-23 | the displayed messages are exactly the stored ones whose `guild_id` is the selected guild |
| Store.InGuildAppend | web/static/js/messageManager.js:21-23 | the guild filter distributes over concatenation, so it keeps store order and every copy of a message |
| Store.MessageManager.GetLastMessage | web/static/js/messageManager.js:45-50 | null exactly when the store is empty, else the store's last element |
| Store.MessageManager.DisplayMessages | web/static/js/messageManager.js:10-42 | with pending news, the selected guild's messages are rendered and the flag is cleared; otherwise the placeholder is shown only when that guild has no message; a missing container or select changes nothing |
| Store.MessageManager.UpdateMessages | web/static/js/messageManager.js:53-86 | a non-array or empty batch changes nothing; otherwise the store becomes the merge and the flag is raised iff something was appended or it was already set, then consumed by the display when the page has its elements |
| Store.MessageManager.constructor | web/static/js/messageManager.js:2-7 | the store starts empty with no pending news |
| BotHistory.LastEntries | bot/bot.py:91 | `h[-n:]`: a suffix of the history, of length `min(len, n)` for a positive `n` |
| BotHistory.NewestPersisted | bot/bot.py:98-106 | after an append the persisted list is non-empty, at most `max_messages` long, and ends with the new message |
| BotHistory.DiscordBot.constructor | bot/bot.py:53-61 | the history is what `load_messages` read, the file is taken to hold it, and the guild table is empty |
| BotHistory.DiscordBot.SaveMessages | bot/bot.py:85-96 | the file receives the newest `max_messages` (100) entries; the history itself is not trimmed |
| BotHistory.DiscordBot.AddMessage | bot/bot.py:98-106 | the history is the old one plus the message at the end; then it is saved |
| BotHistory.CleanAfter | bot/bot.py:126-128 | the cleaned `after` (stripped, spaces turned into `+`) contains no space |
| BotHistory.NewerThan | bot/bot.py:136-145 | the filtered history is never longer than the history |
| BotHistory.NewerThanMembers | bot/bot.py:136-145 | exactly the entries whose timestamp parses and is strictly later than `after`; unparseable entries are skipped |
| BotHistory.NewerThanAppend | bot/bot.py:137-142 | the filter keeps history order |
| BotHistory.DiscordBot.FilterNewer | bot/bot.py:136-145 | the loop over the history returns exactly `NewerThan`, the entries strictly later than `after` |
| BotHistory.DiscordBot.GetMessageHistory | bot/bot.py:108-156 | the whole history without `after`; `[]` for an unparseable `after`; otherwise the filter result, in order |
| BotHistory.ChannelTable | bot/bot.py:171-176 | the last text channel's record, typed `text`, is in the channel dict: a later assignment for an id wins |
| BotHistory.GuildTable | bot/bot.py:163-178 | the last guild's record is in the rebuilt table: a later assignment for an id wins |
| BotHistory.ChannelTableShape | bot/bot.py:171-176 | the channel dict has unique keys, exactly the channel ids, each record carrying its own id and type `text` |
| BotHistory.GuildTableShape | bot/bot.py:163-178 | the rebuilt `guilds_info` is keyed by exactly the current guild ids, each once |
| BotHistory.GuildTableRecords | bot/bot.py:164-176 | every record of the rebuilt table carries its own guild id and a channel dict keyed by channel id with every channel typed `text` |
| BotHistory.GuildTableInOrder | bot/bot.py:164-178 | with distinct ids, the table lists each guild once, in gateway order |
| BotHistory.ChannelTableInOrder | bot/bot.py:171-176 | with distinct ids, a guild's channel values are its text channels in order, typed `text` |
| BotHistory.UnknownGuildAbsent | bot/bot.py:220-222 | a guild id not among the current guilds has no record |
| BotHistory.DiscordBot.ChannelDict | bot/bot.py:171-176 | the inner loop builds exactly `ChannelTable` of the guild's text channels |
| BotHistory.DiscordBot.UpdateGuildsInfo | bot/bot.py:158-181 | the table is cleared and becomes `GuildTable` of the current guilds |
| BotHistory.DiscordBot.Summaries | bot/bot.py:194-199 | one `{id, name}` per table entry, in table order |
| BotHistory.DiscordBot.GetGuilds | bot/bot.py:183-204 | rebuilds the table and lists each entry's id and name in table order |
| BotHistory.DiscordBot.GetChannels | bot/bot.py:206-229 | rebuilds the table; `[]` for an unknown guild, else its channel records in dict order |
| PyDict.Find | bot/bot.py:220 | `guild_id in guilds_info`: found exactly when the key is present, at an index holding it |
| PyDict.Put | bot/bot.py:172-178 | assignment adds the key to the key set; a new key is appended last; the new entry is present and no other entry appears |
| PyDict.PutKeepsKeysUnique | bot/bot.py:178 | assignment keeps keys unique |
| PyDict.PutThenGet | bot/bot.py:172-178 | after `d[k] = v`, `d[k]` is `v` and every other key keeps its value |
| PyDict.Values | bot/bot.py:224 | `list(d.values())`: the values in entry order |
| Text.Strip | bot/bot.py:126 | neither end of the result is white space |
| Text.StripSlice | bot/bot.py:126 | the stripped string is the slice of the input that starts after its leading white space, and everything after that slice is white space |
| Text.StripEmptyIff | web/static/js/eventHandler.js:306 | the trimmed string is empty iff every character is white space |
| Text.Replace | bot/bot.py:127-128 | `str.replace` removes every occurrence and leaves a string without the character unchanged |
| Text.ReplaceAppend | bot/bot.py:127-128 | replacing distributes over concatenation: every part is rewritten in place and the order is kept |
| Text.ReplaceOne | bot/bot.py:127-128 | a single character becomes the replacement when it is the pattern and stays otherwise |
| Text.LexLeTotal | web/routes.py:208-209 | any two timestamp strings are comparable, which the sort relies on |
| WebRoutes.IsoNormalize | web/routes.py:79-80 | `replace('Z', '+00:00')` leaves no `Z` |
| WebRoutes.ReadAfter | web/routes.py:76-85 | an absent or empty `after` is no cutoff; it is a bad cutoff exactly when it is non-empty and its normalized text does not parse; a parsed one is the instant its normalized text parses to |
| WebRoutes.Reverse | web/routes.py:119 | the fetched history reversed to oldest first |
| WebRoutes.Filled | web/routes.py:88-132 | an existing entry is used as it is; otherwise the entry is the fetched history reversed, oldest first |
| WebRoutes.LaterThan | web/routes.py:137-147 | exactly the cached messages strictly later than `after` |
| WebRoutes.LaterThanAppend | web/routes.py:141-145 | the filter keeps cache order |
| WebRoutes.UniqueById | web/routes.py:197-200 | exactly the refetched messages whose id is not cached |
| WebRoutes.UniqueByIdAppend | web/routes.py:199-200 | the id filter distributes over concatenation, so it keeps fetched order and every copy of a message |
| WebRoutes.Refetched | web/routes.py:150-200 | an empty entry contributes nothing; otherwise exactly the refetched messages whose id is not cached |
| WebRoutes.Insert | web/routes.py:208-209 | inserting into a sorted list keeps it sorted and adds exactly one element |
| WebRoutes.SortByTimestamp | web/routes.py:208-209 | the reply is sorted by timestamp string and is a permutation of the unique new messages |
| WebRoutes.PrependBreaksOrder | web/routes.py:137-212 | with entry `[a]` not later than the cutoff and a refetched `b` with a new id, the reply is `[b]` and the entry becomes `[b, a]`, out of timestamp order whenever `b` sorts after `a` |
| WebRoutes.CursorStays | web/routes.py:159-204 | after any request with a cutoff, the entry's last message is the one it had, so the next refetch asks after the same id |
| WebRoutes.AfterCutoff | web/routes.py:137-212 | the reply is an error exactly when a cached timestamp does not parse; that error is 500 and leaves the entry as it was |
| WebRoutes.RefetchOfKnownIsEmpty | web/routes.py:197-200 | a refetch of already-cached ids contributes nothing |
| WebRoutes.AfterCutoffEntry | web/routes.py:137-212 | the old entry is always the tail of the new one; replies come from the entry or the refetch; the entry grows only by what the reply carries, and that reply is sorted by timestamp; an empty entry answers `[]` without a refetch |
| WebRoutes.Routes.FilterLater | web/routes.py:139-147 | fails iff a cached timestamp does not parse, else returns the later messages in cache order |
| WebRoutes.Routes.ServeAfter | web/routes.py:137-221 | 500 on an unparseable cached timestamp; the later messages if any; else `[]` when nothing is unique; else the sorted unique messages, prepended to the entry |
| WebRoutes.Routes.GetMessages | web/routes.py:66-228 | 500 for a bad id, 404 for an unknown channel, 400 for a bad `after`, none of which touches the cache; otherwise the entry is filled once from the reversed history and served whole without `after`, or as `ServeAfter` decides |
| WebRoutes.Routes.constructor | web/routes.py:13-16 | the routes start from the message cache they are given |
| WebRoutes.Routes.GetChannels | web/routes.py:44-64 | 500 for a bad id, 404 for an unknown guild, else the text channels' ids and names in order |
| WebRoutes.SendMessage | web/routes.py:230-252 | 500 for a body that is not a JSON object; 400 for a missing or empty `channel_id` or `content`, before any lookup; then 500 for a non-integer `channel_id`, 404 for an unknown channel, or the content sent as given |
| Events.ForChannel | web/static/js/eventHandler.js:361-367 | the channel filter never yields more messages than were fetched |
| Events.ForChannelMembers | web/static/js/eventHandler.js:361-367 | exactly the fetched messages whose `channel_id` equals the current channel |
| Events.ForChannelAppend | web/static/js/eventHandler.js:361-367 | the filter keeps fetched order |
| Events.ForChannelAll | web/static/js/eventHandler.js:361-367 | a batch entirely from the current channel is shown whole |
| Events.SendRequestAccepted | web/static/js/eventHandler.js:305-326 | the body the client posts always passes the route's 400 check and is sent unchanged once the channel is found |
| Events.EventHandler.constructor | web/static/js/eventHandler.js:4-5 | no guild and no channel selected at first |
| Events.EventHandler.ShowError | web/static/js/eventHandler.js:279-288 | the container, when present, holds exactly one error element |
| Events.EventHandler.LoadGuilds | web/static/js/eventHandler.js:25-58 | options rebuilt from the list; a non-empty list selects its first guild and asks for its channels; failures show an error |
| Events.EventHandler.OnGuildChange | web/static/js/eventHandler.js:61-66 | an empty value is ignored; otherwise it becomes the current guild and its channels are loaded next |
| Events.EventHandler.UpdateMessages | web/static/js/eventHandler.js:341-378 | the current channel's messages are appended in fetched order and nothing is cleared; failures show an error; no container, no change |
| Events.EventHandler.UpdateChannels | web/static/js/eventHandler.js:97-145 | placeholder plus channels; a non-empty list makes its first channel current, then that channel's fetched messages are appended, or the update error is shown, or nothing changes without a container; an empty list keeps the current channel; failures show an error |
| Events.EventHandler.OnChannelChange | web/static/js/eventHandler.js:78-93 | a non-empty value becomes the current channel and its messages are appended, or the update error is shown when the fetch fails or is not a list; without a container nothing changes |
| Events.EventHandler.RefreshData | web/static/js/eventHandler.js:190-206 | nothing unless guild and channel are both set; a failed fetch shows an error; else the effective `updateMessages` runs |
| Events.EventHandler.SendMessage | web/static/js/eventHandler.js:305-338 | blank content does nothing; then a missing selection shows an error without a request; else the untrimmed content is posted with both ids, and success schedules a refresh |
| Ui.RestoreSelection | web/static/js/uiManager.js:28-33 | the previous choice is kept when non-empty and still listed, else the first guild; the result is a listed id iff the list is non-empty |
| Ui.RestoreStable | web/static/js/uiManager.js:28-33 | rebuilding twice with the same list keeps the same selection |
| Ui.UpdateGuildList | web/static/js/uiManager.js:4-40 | options rebuilt in guild order, the selection restored, then the message manager redraws for the selected guild |
| Ui.ShowLoading | web/static/js/uiManager.js:43-48 | the container holds only the loading indicator |
| Ui.ShowError | web/static/js/uiManager.js:51-56 | the container holds only the error |
| Ui.UpdateConnectionStatus | web/static/js/uiManager.js:59-64 | `connected`/`已連接` when connected, `disconnected`/`未連接` otherwise |
| I18n.T | web/static/js/language.js:41-45 | a non-empty translation of a known language, else the key itself |
| I18n.SameKeys | web/static/js/language.js:3-34 | the `en` and `zh-TW` tables define the same keys |
| I18n.KnownKeysTranslated | web/static/js/language.js:3-45 | no table entry is empty, so a known language translates every key of its table and only other keys fall back |
| I18n.LanguageState.constructor | web/static/js/language.js:38 | a missing or empty stored language gives `en`; any other is taken as is |
| I18n.LanguageState.SetLanguage | web/static/js/language.js:48-55 | a language with a table becomes current and is stored; any other changes nothing |
| Dom.Options | web/static/js/uiManager.js:21-26 | one option per list entry, value the id and text the name, in list order |

## Left out

- Presentation is not modelled: HTML formatting of a message (`messageFormatter.js`), scrolling, image zoom, attachments, `updateUI` and `document.documentElement.lang`. A rendered message is the message itself.
- Ui.ShowError: the markup difference is not modelled. It inserts its text as HTML into a `div.error`, while the event handler's error element uses `textContent` and class `error-message`. Both are one error node here.
- Transport is not modelled: `fetch`, Flask routing and `jsonify`, `channel.history`/`channel.send`, and `run_coroutine_threadsafe`. Their results are parameters. The client fetches `/messages` while the server only serves `/messages/<channel_id>`; no reply is assumed to succeed.
- Timers and event-loop interleaving are not modelled: `setInterval`, the message input's key and click handlers, and listeners registered twice by the constructor and `init`. The un-awaited `updateChannels` after a guild is picked and `refreshData` after a send are returned as the next step. The un-awaited `updateMessages` at the end of `refreshData` is run in place: what other events do while it waits for its fetch is not modelled.
- The `/guilds` and index routes of `web/routes.py` are not modelled; only the routes named above are.
- File I/O in `load_messages`/`save_messages` is reduced to the list written. Python's naive-versus-aware datetime `TypeError` is not modelled.
- A message's `after` id is not checked: `int(last_message['id'])` on a non-numeric id (which answers 500) is not modelled. The `limit=10`/`limit=50` bounds on Discord's history are not imposed.
- A JSON `null` `channel_id` or `guild_id` (which would equal a `null` selection) is not modelled. Messages have an id or no key at all.
- Lookups that JavaScript resolves through inherited object properties are not modelled (`translations['constructor']`, a key such as `toString`).
- WebRoutes.SortByTimestamp: stability of Python's `sorted` is not proved (only sortedness and permutation), and timestamps are compared by code point.
- BotHistory.DiscordBot.GetMessageHistory: the list returned without `after` is the history itself in Python (an alias). The model returns its value.
- BotHistory.DiscordBot.GetGuilds: the broad `except` that turns any failure into `[]` is not modelled; nothing in the modelled rebuild can raise. The same holds for `GetChannels` and `UpdateGuildsInfo`.
- `lastMessageCount`, `lastUpdateTime` and `currentGuildId` of `MessageManager`, and `lastMessageTimestamp` and `initialized` of `EventHandler`, are never used, so they are not modelled.
- The `<select>` elements' value after their options are rebuilt follows the browser. An empty list leaves the value empty; the placeholder is selected until a channel is chosen.
