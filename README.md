# discord-crawler message-history worker, modelled in Dafny

The discord-crawler keeps a Postgres copy of Discord guilds, channels and
messages. Its message-history worker loops forever. Each pass does the following:

1. It claims one crawlable channel: the one updated least recently, skipping rows
   other workers hold locked.
2. It reads that channel's cursor, the highest `high_message_id` in
   `channel_crawl_log`.
3. It asks the Discord API for the messages after the cursor, using the
   channel's selfbot account.
4. It stores each page and moves the cursor to the page's highest id.
5. It stops on an empty page or an error object. An empty page writes a crawl-log
   row; an error object disables the channel.
6. It stamps `last_update` and commits.

The database layer makes the guild, channel and message writes
`INSERT ... ON CONFLICT DO NOTHING`. The crawl-log write is a plain `INSERT`.
The flag and timestamp writes are `UPDATE`s.

The model has four modules:

- `Wrappers` defines `Option`, `Result` and `Outcome`.
- `Tables` holds the row types, the API documents, and a value `Tables` that is a
  snapshot of the whole store. Keyed tables are maps. The crawl log is a
  sequence. `InsertIfAbsent` and `InsertAll` are first-writer-wins inserts, one
  row and batched.
- `DbOperations` holds the class `Database`, which has the tables as fields and
  one method per database operation that updates them in place:
  - the batched upserts, the single-message upsert, and the flag and timestamp
    updates each have a specification function on table values, covering the
    result and the exception raised, and each method is proved equal to its
    function;
  - the batched upserts are loops over the `executemany` payload;
  - `UpsertGuild` and `UpsertChannel` are specified directly by `InsertIfAbsent`;
  - `GetSelfbots` and `CreateChannelCrawlLog` state their effect in their own
    contracts.
- `MessageHistory` covers the worker:
  - `GetSnowflake` and the cursor query `StartingCursor`;
  - the claim rule `IsClaim`, including Postgres's `NULLS LAST` ordering;
  - the page classifier `Classify`, whose branches follow the `isinstance`/`len`
    chain;
  - the page loop `PageLoop`, the pass `RunPass`, and the methods `CrawlPage`,
    `CrawlPages`, `CrawlPass` and `RunWorker`, which do all of this against the
    `Database`.

How the model treats the outside world:

- **API.** The API is a script of pages: the k-th `get_messages` call of a pass
  returns the k-th page. If the script runs out before the loop ends, the pass is
  interrupted and nothing commits.
- **Transaction.** A pass is one transaction, since the connection is opened with
  `autocommit=False`. Every path that raises rolls the store back to its state
  at the claim.
- **Clocks.** The three clock readings are inputs:
  - `now()` is the transaction's start time;
  - `start_time` comes from the local clock;
  - `end_time` comes from the UTC clock.
- **Row locks.** Locks held by other workers are an input set.

The model follows the code in two places where its behaviour is not deliberate:

- **JSON string response.** The loop tests `isinstance(list)`, then
  `isinstance(dict)`, then `len(...) == 0`. An empty string is therefore logged
  as a finished crawl. A non-empty string matches no branch, so the same cursor
  is fetched again (`Refetch`).
- **Which channel id is stored.** `upsert_messages` stores each message under the
  `channel_id` the message object carries. The `channel_id` argument is only
  logged.

## Model

| member | source | states |
|---|---|---|
| Tables.InsertIfAbsent | discord_crawler/libs/db_operations.py:150-151 | `ON CONFLICT DO NOTHING`: the key set gains the key; old rows stay as they were; an absent key gets the new row |
| Tables.InsertAll | discord_crawler/libs/db_operations.py:174-175 | `executemany` in list order: old rows kept; every payload key present; every new key comes from some payload row with that row's value |
| Tables.InsertAllFirstWins | discord_crawler/libs/db_operations.py:174-175 | a key new to the table gets the row of its first occurrence in the batch |
| Tables.InsertAllAbsorbs | discord_crawler/libs/db_operations.py:174-175 | a batch whose keys are all present leaves the table unchanged |
| Tables.InsertAllIdempotent | discord_crawler/libs/db_operations.py:174-175 | running the same batch twice equals running it once |
| DbOperations.UpsertedChannels | discord_crawler/libs/db_operations.py:110-136 | an empty list is a no-op even with no guild id; otherwise a falsy guild id raises; otherwise every listed channel is present, old rows are unchanged, and each new row is the row a listed channel with that id builds: its name and raw JSON, that guild, and the column defaults |
| DbOperations.UpsertChannelsFirstWins | discord_crawler/libs/db_operations.py:133-136 | a channel new to the table is stored as the row its first occurrence in the list builds |
| DbOperations.UpsertChannelsIdempotent | discord_crawler/libs/db_operations.py:110-136 | repeating a successful `upsert_channels` changes nothing |
| DbOperations.UpsertedMessage | discord_crawler/libs/db_operations.py:139-158 | a non-object is ignored; an object without `id` raises a KeyError; otherwise the message is inserted if absent, under the channel id argument, and old rows are kept; an id already present leaves the table unchanged |
| DbOperations.UpsertedMessages | discord_crawler/libs/db_operations.py:161-183 | an empty list is a no-op; the call raises (KeyError) exactly when some message lacks `id` or `channel_id`, and then nothing is written |
| DbOperations.UpsertMessagesStores | discord_crawler/libs/db_operations.py:171-175 | after a successful call every listed message id is stored; old rows are unchanged; each new row is some listed message under that message's own `channel_id` |
| DbOperations.UpsertMessagesFirstWins | discord_crawler/libs/db_operations.py:171-175 | a message new to the table is stored with the fields of its first occurrence in the list |
| DbOperations.UpsertMessagesIdempotent | discord_crawler/libs/db_operations.py:161-183 | re-storing the same page is a no-op |
| DbOperations.WithCrawlFlag | discord_crawler/libs/db_operations.py:209-210 | the `UPDATE`: only the named channel's `crawl_enabled` changes; no row is added; a missing id changes nothing |
| DbOperations.CrawlFlagSet | discord_crawler/libs/db_operations.py:186-210 | a missing value raises first, then a missing channel id; otherwise exactly the flag update |
| DbOperations.WithLastUpdate | discord_crawler/libs/db_operations.py:225-226 | the `UPDATE`: only the named channel's `last_update` becomes `now`; no row is added |
| DbOperations.LastUpdateMarked | discord_crawler/libs/db_operations.py:213-226 | raises exactly when the channel id is falsy (missing or 0); otherwise exactly the `last_update` update |
| DbOperations.Database.constructor | discord_crawler/message_history.py:40 | the worker's open connection: the store it sees starts as the given tables, with the given column defaults |
| DbOperations.Database.GetSelfbots | discord_crawler/libs/db_operations.py:39-54 | None exactly when the selfbot table is empty, else all its rows |
| DbOperations.Database.UpsertGuild | discord_crawler/libs/db_operations.py:57-79 | the guild table becomes the first-writer-wins insert of the guild under the selfbot; no other table changes |
| DbOperations.Database.UpsertChannel | discord_crawler/libs/db_operations.py:82-108 | the channel table becomes the first-writer-wins insert of the channel under the guild; no other table changes |
| DbOperations.Database.UpsertChannels | discord_crawler/libs/db_operations.py:110-136 | its loop over the payload agrees with `UpsertedChannels` in result and error; nothing changes on error; no other table changes |
| DbOperations.Database.UpsertMessage | discord_crawler/libs/db_operations.py:139-158 | agrees with `UpsertedMessage`; nothing changes on error; no other table changes |
| DbOperations.Database.UpsertMessages | discord_crawler/libs/db_operations.py:161-183 | its loop over the payload agrees with `UpsertedMessages`; nothing is written when a key is missing; no other table changes |
| DbOperations.Database.ChannelCrawlEnabled | discord_crawler/libs/db_operations.py:186-210 | agrees with `CrawlFlagSet`; nothing changes on error; no other table changes |
| DbOperations.Database.ChannelMarkLastUpdate | discord_crawler/libs/db_operations.py:213-226 | agrees with `LastUpdateMarked`; nothing changes on error; no other table changes |
| DbOperations.Database.CreateChannelCrawlLog | discord_crawler/libs/db_operations.py:275-294 | appends exactly one log row with the given times, range and channel; no other table changes |
| DbOperations.Database.Rollback | discord_crawler/message_history.py:40 | an aborted transaction restores every table to the snapshot taken at its start |
| MessageHistory.GetSnowflake | discord_crawler/message_history.py:22-34 | None exactly when no message carries an `id`; otherwise one of the ids, and no smaller than any of them |
| MessageHistory.MaxIdString | discord_crawler/message_history.py:31-34 | the `max(message_ids)` of `get_snowflake` over the id strings the API sends: None exactly for no ids, otherwise one of them; its maximality is `MaxIdStringIsMax` |
| MessageHistory.MaxIdStringIsMax | discord_crawler/message_history.py:31-34 | the string `max` is no less, in Python's string order, than any id in the list |
| MessageHistory.MaxIdStringPicksOlderId | discord_crawler/message_history.py:29-34 | given the ids "99" and "100", the string `max` returns "99" while `GetSnowflake` returns 100 |
| MessageHistory.StartingCursor | discord_crawler/message_history.py:68-74 | `coalesce(max(high_message_id), 0)`: bounds every log row of the channel; is 0 with no rows; otherwise equals one of them |
| MessageHistory.CursorAfterLogging | discord_crawler/message_history.py:68-74 | a new log row moves only its own channel's cursor, to the larger of the old cursor and its high id |
| MessageHistory.CursorNeverDecreases | discord_crawler/message_history.py:68-74 | appending log rows never lowers any channel's cursor |
| MessageHistory.OldestExists | discord_crawler/message_history.py:63-64 | every non-empty candidate set has a channel ordered first by `last_update ASC` (NULLs last) |
| MessageHistory.ClaimChannel | discord_crawler/message_history.py:53-66 | no row exactly when no unlocked channel has both crawl flags set; otherwise an eligible channel updated no later than any other eligible one |
| MessageHistory.Classify | discord_crawler/message_history.py:115-128 | a page is stored exactly when it is a non-empty list whose messages all carry `id` and `channel_id`; a stored page has a max id |
| MessageHistory.ClassifyCases | discord_crawler/message_history.py:115-128 | the loop disables the channel exactly on an object; it ends the crawl exactly on an empty list or empty string; it fetches again exactly on a non-empty string |
| MessageHistory.PageLoop | discord_crawler/message_history.py:110-138 | the loop goes on past exactly the pages before the first terminal page; it stops on that page's verdict; it runs out only when no page is terminal |
| MessageHistory.PageLoopKeepsRows | discord_crawler/message_history.py:116 | no message row present before the loop is removed or overwritten |
| MessageHistory.PageLoopCursor | discord_crawler/message_history.py:117 | the final cursor is the max id of the last page stored, or the starting cursor if none was stored |
| MessageHistory.PageLoopAddsOnlyPages | discord_crawler/message_history.py:115-117 | every row the loop adds is a message of a page it stored, under that message's own `channel_id` |
| MessageHistory.PageLoopStoresPages | discord_crawler/message_history.py:115-117 | every message of every page the loop stored is in the table when it stops |
| MessageHistory.RunPass | discord_crawler/message_history.py:93-141 | every raising or interrupted path leaves the store unchanged; a completed pass changes guilds, channels, log and selfbots exactly as stated (one log row for the range from the starting cursor, the channel's `last_update` stamped); a disabled pass does the same for its changes (flag cleared, stamped); in both, no old message is lost. The message table is pinned down by `PassStoresFetchedMessages` and `PassAddsOnlyFetchedMessages` |
| MessageHistory.PassOutcome | discord_crawler/message_history.py:93-141 | how the page loop's stop decides the pass's end: no client raises a KeyError; pages running out interrupts the pass; a raising page crashes it with that fault; a terminal page with channel id 0 raises a plain `Exception` (`channel_mark_last_update`'s check); an exhausted page completes the pass with the loop's range; an error object disables the channel; a committed pass keeps the loop's message table |
| MessageHistory.CompletedPassLoop | discord_crawler/message_history.py:126-141 | a completed pass stopped its loop on an exhausted page, for a non-zero channel id, and logged the loop's range |
| MessageHistory.DisabledPassLoop | discord_crawler/message_history.py:119-124 | a disabled pass stopped its loop on an error object, for a non-zero channel id |
| MessageHistory.CompletedPassReadsToEnd | discord_crawler/message_history.py:110-138 | a completed pass stored or refetched every page before an empty list or empty string; its high id is the cursor after those pages |
| MessageHistory.DisabledPassStopsOnError | discord_crawler/message_history.py:110-124 | a disabled pass reached a JSON object after pages it stored or refetched |
| MessageHistory.PassStoresFetchedMessages | discord_crawler/message_history.py:115-141 | every message of every stored page is in the committed message table |
| MessageHistory.PassAddsOnlyFetchedMessages | discord_crawler/message_history.py:115-141 | every message a pass adds belongs to a page it stored, and is stored as that message under its own `channel_id` |
| MessageHistory.EmptyFirstPass | discord_crawler/message_history.py:104-141 | a first pass that receives an empty list logs the range (0, 0) and stamps `last_update`, and nothing else changes |
| MessageHistory.PassProgresses | discord_crawler/message_history.py:51-141 | any pass keeps guilds, selfbots and the set of channels; it only appends to the log and only adds messages; it never lowers a cursor |
| MessageHistory.ProgressedTransitive | discord_crawler/message_history.py:51-141 | progress over two passes is progress |
| MessageHistory.CursorsKept | discord_crawler/message_history.py:68-74 | progress never lowers any channel's cursor |
| MessageHistory.CrawlPage | discord_crawler/message_history.py:111-138 | one loop iteration does what `Classify` decides: store and advance, refetch unchanged, log the range, disable the channel, or raise with nothing written |
| MessageHistory.CrawlPages | discord_crawler/message_history.py:104-138 | the loop on the database stops where `PageLoop` stops, with its messages and cursor; it logs or disables exactly as the terminal page demands |
| MessageHistory.CrawlPass | discord_crawler/message_history.py:51-141 | the claim satisfies the claim rule, and the pass's outcome and final store are exactly `RunPass` for that claim |
| MessageHistory.ClientRegistry | discord_crawler/message_history.py:47-49 | building the clients raises exactly when some selfbot's token is empty; otherwise there is one client per selfbot username |
| MessageHistory.Passes | discord_crawler/message_history.py:51-141 | the worker loop as a fold of `RunPass`: each pass starts from the store the previous one committed, and the loop stops at the first pass that neither completes nor disables |
| MessageHistory.RunWorker | discord_crawler/message_history.py:37-51 | it exits for no selfbots exactly when the table is empty, and for a missing token exactly when some selfbot has an empty token; a startup failure changes nothing; otherwise its exit and final store are `Passes` over the passes it ran, each claim satisfying the claim rule on the store the passes before it left, every iteration run unless a pass stopped the loop; every run keeps the store's history and never lowers a cursor |

## Left out

- The HTTP layer (`libs/api.py`) is not modelled. Each response is a value of `Page`, and the page script does not depend on the `after` cursor sent with the request.
- A 429 response is a `TooManyRequests` page, which raises. A body that is not JSON is `NotJson`, which raises `JSONDecodeError`.
- The worker pool, real row locks and the Postgres transaction machinery are not modelled. The locks are an input set, and a rollback restores the snapshot taken at the claim.
- Logging is not modelled. `json.dumps` is not modelled either: the `raw_data` column is an opaque string.
- `get_db_conn` is not modelled, because it connects to a server. `get_channels_with_no_messages` is not modelled, because the worker never calls it.
- The refresh scripts, `settings.py` and the playground scripts are not part of this model.
- The schema is not part of this model. The defaults of `crawl_enabled` and `last_update` are a `ColumnDefaults` parameter of `Database`. The `crawl_priority` column is not represented.
- The worker's `while True` runs over a finite sequence of iterations, and the final `db_conn.close()` is unreachable.
- MessageHistory.GetSnowflake: ids are unbounded naturals compared numerically, as intended. The string comparison the code actually does is recorded under "## Findings". 64-bit width is not modelled.
- DbOperations.Database.UpsertGuild: the guild document is assumed to carry `id` and `name`. The KeyError a malformed document would raise is not modelled.
- DbOperations.Database.UpsertChannel: the channel document is assumed to carry `id` and `name`. The KeyError is not modelled.
- DbOperations.Database.UpsertChannels: the channel documents are assumed to carry `id` and `name`. The KeyError is not modelled.
- DbOperations.UpsertedMessages: a list element that is not a JSON object makes `m['id']` raise a TypeError, not a KeyError. The model represents such an element as an object with both keys missing, so it reports `MissingKey`. The batch is aborted and the pass rolled back in both cases; only the exception's name differs.
- MessageHistory.ClientRegistry: it keeps the set of usernames. When two selfbots share a username, the dictionary keeps the later token, and the model does not say which.
- MessageHistory.ClaimChannel: among channels tied on `last_update`, Postgres picks an unspecified one. The model picks any of them.

## Findings

| source | as written | input that shows it | evidently intended | confidence | as-written member | corrected member |
|---|---|---|---|---|---|---|
| discord_crawler/message_history.py:29-32 | the API sends each `id` as a decimal string, so `max(message_ids)` compares strings | a page with ids "999999999999999999" and "1000000000000000000" (an 18-digit and a 19-digit snowflake); the same happens with "99" and "100" | the highest id, the newest message, as the docstring's summary at message_history.py:24 says (its `:return:` line at :27 says "lowest", contradicting it; the caller uses the result as the next `after` cursor) | high that the comparison is on strings; not executed | MessageHistory.MaxIdString, MessageHistory.MaxIdStringIsMax, MessageHistory.MaxIdStringPicksOlderId | MessageHistory.GetSnowflake |

The rest of the model uses the numeric `GetSnowflake`. With the string `max`, a page that straddles a digit-count boundary moves the cursor to an older id than the page's newest. The next request then fetches messages that are already stored.
