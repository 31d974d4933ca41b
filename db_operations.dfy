/**
 * The table operations of the crawler's database layer, as methods of
 * `Database` that update its tables in place. The batched upserts, the
 * single-message upsert and the flag and timestamp updates each have a
 * specification function over table values, stating what the operation does to
 * the one table it touches and which exception it raises, and the method is
 * proved to agree with it. `UpsertGuild` and `UpsertChannel` are specified
 * directly by `InsertIfAbsent`; `GetSelfbots` and `CreateChannelCrawlLog` state
 * their effect in their own contracts.
 */
module DbOperations {
  import opened Wrappers
  import opened Tables

  /** The exceptions the operations raise: a KeyError on a message object, and argument checks that raise a plain `Exception`. */
  datatype DbError = MissingKey | GuildIdRequired | ValueRequired | ChannelIdRequired

  /** The argument of `upsert_message`, which may not be a JSON object at all. */
  datatype Payload = Object(doc: MessageDoc) | NonObject

  /** Python truthiness of an optional id: None and 0 are false. */
  predicate Falsy(id: Option<Id>) {
    id.None? || id.value == 0
  }

  function NewGuild(guild: GuildDoc, selfbotId: Id, defaults: ColumnDefaults): (row: Guild) {
    Guild(guild.name, guild.raw, selfbotId, defaults.guildCrawlEnabled)
  }

  function NewChannel(channel: ChannelDoc, guildId: Id, defaults: ColumnDefaults): (row: Channel) {
    Channel(channel.name, channel.raw, guildId, defaults.channelCrawlEnabled, defaults.channelLastUpdate)
  }

  /** The parameter tuples `upsert_channels` hands to `executemany`. */
  function ChannelPayload(channelList: seq<ChannelDoc>, guildId: Id, defaults: ColumnDefaults): (p: seq<(Id, Channel)>)
    ensures |p| == |channelList|
    ensures forall i :: 0 <= i < |p| ==> p[i] == (channelList[i].id, NewChannel(channelList[i], guildId, defaults))
  {
    seq(|channelList|, i requires 0 <= i < |channelList| => (channelList[i].id, NewChannel(channelList[i], guildId, defaults)))
  }

  /**
   * `upsert_channels`: an empty list is a no-op whatever the guild id; otherwise
   * a falsy guild id raises; otherwise every absent channel is inserted under
   * that guild and existing rows are left alone.
   */
  function UpsertedChannels(table: map<Id, Channel>, channelList: seq<ChannelDoc>, guildId: Option<Id>, defaults: ColumnDefaults)
    : (r: Result<map<Id, Channel>, DbError>)
    ensures channelList == [] ==> r == Ok(table)
    ensures channelList != [] && Falsy(guildId) ==> r == Err(GuildIdRequired)
    ensures channelList != [] && !Falsy(guildId) ==> r.Ok?
    ensures r.Ok? ==> forall i :: 0 <= i < |channelList| ==> channelList[i].id in r.value
    ensures r.Ok? ==> forall k :: k in table ==> k in r.value && r.value[k] == table[k]
    ensures r.Ok? ==> forall k :: k in r.value && k !in table ==>
      exists i :: 0 <= i < |channelList| && channelList[i].id == k && r.value[k] == NewChannel(channelList[i], guildId.value, defaults)
  {
    if channelList == [] then Ok(table)
    else if Falsy(guildId) then Err(GuildIdRequired)
    else Ok(InsertAll(table, ChannelPayload(channelList, guildId.value, defaults)))
  }

  /** A second `upsert_channels` with the same arguments changes nothing. */
  lemma UpsertChannelsIdempotent(table: map<Id, Channel>, channelList: seq<ChannelDoc>, guildId: Option<Id>, defaults: ColumnDefaults)
    requires UpsertedChannels(table, channelList, guildId, defaults).Ok?
    ensures var once := UpsertedChannels(table, channelList, guildId, defaults).value;
      UpsertedChannels(once, channelList, guildId, defaults) == Ok(once)
  {
    if channelList != [] {
      InsertAllIdempotent(table, ChannelPayload(channelList, guildId.value, defaults));
    }
  }

  /** A channel new to the table is stored with the fields of its first occurrence in the list. */
  lemma UpsertChannelsFirstWins(table: map<Id, Channel>, channelList: seq<ChannelDoc>, guildId: Option<Id>, defaults: ColumnDefaults, i: nat)
    requires UpsertedChannels(table, channelList, guildId, defaults).Ok?
    requires i < |channelList| && channelList[i].id !in table
    requires forall j :: 0 <= j < i ==> channelList[j].id != channelList[i].id
    ensures UpsertedChannels(table, channelList, guildId, defaults).value[channelList[i].id]
      == NewChannel(channelList[i], guildId.value, defaults)
  {
    InsertAllFirstWins(table, ChannelPayload(channelList, guildId.value, defaults), i);
  }

  /** Both keys the payload of `upsert_messages` reads are present. */
  predicate HasKeys(doc: MessageDoc) {
    doc.id.Some? && doc.channelId.Some?
  }

  /** The parameter tuples `upsert_messages` hands to `executemany`: each message under its OWN channel id. */
  function MessagePayload(messageList: seq<MessageDoc>): (p: seq<(Id, Message)>)
    requires forall i :: 0 <= i < |messageList| ==> HasKeys(messageList[i])
    ensures |p| == |messageList|
    ensures forall i :: 0 <= i < |p| ==>
      HasKeys(messageList[i]) && p[i] == (messageList[i].id.value, Message(messageList[i].raw, messageList[i].channelId.value))
  {
    seq(|messageList|, i requires 0 <= i < |messageList| && HasKeys(messageList[i]) =>
      (messageList[i].id.value, Message(messageList[i].raw, messageList[i].channelId.value)))
  }

  /**
   * `upsert_message`: a non-object is ignored; an object without `id` raises;
   * otherwise the message is inserted, if absent, under the channel id ARGUMENT.
   */
  function UpsertedMessage(table: map<Id, Message>, message: Payload, channelId: Id): (r: Result<map<Id, Message>, DbError>)
    ensures message.NonObject? ==> r == Ok(table)
    ensures message.Object? ==> (r.Err? <==> message.doc.id.None?)
    ensures r.Err? ==> r.error == MissingKey
    ensures r.Ok? && message.Object? ==> message.doc.id.value in r.value
    ensures r.Ok? ==> forall k :: k in table ==> k in r.value && r.value[k] == table[k]
    ensures r.Ok? && message.Object? && message.doc.id.value !in table ==>
      r.value == table[message.doc.id.value := Message(message.doc.raw, channelId)]
    ensures message.Object? && message.doc.id.Some? && message.doc.id.value in table ==> r == Ok(table)
  {
    match message
    case NonObject => Ok(table)
    case Object(doc) =>
      if doc.id.None? then Err(MissingKey)
      else Ok(InsertIfAbsent(table, doc.id.value, Message(doc.raw, channelId)))
  }

  /**
   * `upsert_messages`: an empty list is a no-op; a message lacking `id` or
   * `channel_id` raises before anything is written; otherwise the batch is
   * inserted (see `UpsertMessagesStores` for what that stores).
   */
  function UpsertedMessages(table: map<Id, Message>, messageList: seq<MessageDoc>): (r: Result<map<Id, Message>, DbError>)
    ensures messageList == [] ==> r == Ok(table)
    ensures r.Err? <==> exists i :: 0 <= i < |messageList| && !HasKeys(messageList[i])
    ensures r.Err? ==> r.error == MissingKey
  {
    if messageList == [] then Ok(table)
    else if exists i :: 0 <= i < |messageList| && !HasKeys(messageList[i]) then Err(MissingKey)
    else Ok(InsertAll(table, MessagePayload(messageList)))
  }

  /**
   * What a successful `upsert_messages` stores: every message of the list,
   * each new row under the `channel_id` the message carries itself, and every
   * row that was there before left as it was.
   */
  lemma UpsertMessagesStores(table: map<Id, Message>, messageList: seq<MessageDoc>)
    requires UpsertedMessages(table, messageList).Ok?
    ensures var r := UpsertedMessages(table, messageList).value;
      && (forall i :: 0 <= i < |messageList| ==> HasKeys(messageList[i]) && messageList[i].id.value in r)
      && (forall k :: k in table ==> k in r && r[k] == table[k])
      && (forall k :: k in r && k !in table ==>
            exists i :: 0 <= i < |messageList| && messageList[i].id == Some(k) && HasKeys(messageList[i]) &&
              r[k] == Message(messageList[i].raw, messageList[i].channelId.value))
  {
    if messageList != [] {
      var p := MessagePayload(messageList);
      var r := InsertAll(table, p);
      forall k | k in r && k !in table
        ensures exists i :: 0 <= i < |messageList| && messageList[i].id == Some(k) && HasKeys(messageList[i])
                            && r[k] == Message(messageList[i].raw, messageList[i].channelId.value)
      {
        var i :| 0 <= i < |p| && p[i].0 == k && r[k] == p[i].1;
        assert messageList[i].id == Some(k);
      }
    }
  }

  /** A message new to the table is stored with the fields of its first occurrence in the list. */
  lemma UpsertMessagesFirstWins(table: map<Id, Message>, messageList: seq<MessageDoc>, i: nat)
    requires UpsertedMessages(table, messageList).Ok?
    requires i < |messageList| && messageList[i].id.value !in table
    requires forall j :: 0 <= j < i ==> messageList[j].id != messageList[i].id
    ensures UpsertedMessages(table, messageList).value[messageList[i].id.value]
      == Message(messageList[i].raw, messageList[i].channelId.value)
  {
    InsertAllFirstWins(table, MessagePayload(messageList), i);
  }

  /** A second `upsert_messages` of the same list changes nothing. */
  lemma UpsertMessagesIdempotent(table: map<Id, Message>, messageList: seq<MessageDoc>)
    requires UpsertedMessages(table, messageList).Ok?
    ensures var once := UpsertedMessages(table, messageList).value;
      UpsertedMessages(once, messageList) == Ok(once)
  {
    if messageList != [] {
      InsertAllIdempotent(table, MessagePayload(messageList));
    }
  }

  /** `UPDATE channel SET crawl_enabled = value WHERE id = channelId`. */
  function WithCrawlFlag(table: map<Id, Channel>, channelId: Id, value: bool): (r: map<Id, Channel>)
    ensures r.Keys == table.Keys
    ensures channelId in table ==> r[channelId] == table[channelId].(crawlEnabled := value)
    ensures forall k :: k in table && k != channelId ==> r[k] == table[k]
  {
    if channelId in table then table[channelId := table[channelId].(crawlEnabled := value)] else table
  }

  /** `channel_crawl_enabled`: a missing value raises first, then a missing channel id. */
  function CrawlFlagSet(table: map<Id, Channel>, channelId: Option<Id>, value: Option<bool>): (r: Result<map<Id, Channel>, DbError>)
    ensures value.None? ==> r == Err(ValueRequired)
    ensures value.Some? && channelId.None? ==> r == Err(ChannelIdRequired)
    ensures value.Some? && channelId.Some? ==> r == Ok(WithCrawlFlag(table, channelId.value, value.value))
  {
    if value.None? then Err(ValueRequired)
    else if channelId.None? then Err(ChannelIdRequired)
    else Ok(WithCrawlFlag(table, channelId.value, value.value))
  }

  /** `UPDATE channel SET last_update = now() WHERE id = channelId`. */
  function WithLastUpdate(table: map<Id, Channel>, channelId: Id, now: nat): (r: map<Id, Channel>)
    ensures r.Keys == table.Keys
    ensures channelId in table ==> r[channelId] == table[channelId].(lastUpdate := Some(now))
    ensures forall k :: k in table && k != channelId ==> r[k] == table[k]
  {
    if channelId in table then table[channelId := table[channelId].(lastUpdate := Some(now))] else table
  }

  /** `channel_mark_last_update`: a falsy channel id (None or 0) raises. */
  function LastUpdateMarked(table: map<Id, Channel>, channelId: Option<Id>, now: nat): (r: Result<map<Id, Channel>, DbError>)
    ensures Falsy(channelId) <==> r.Err?
    ensures r.Err? ==> r.error == ChannelIdRequired
    ensures r.Ok? ==> r.value == WithLastUpdate(table, channelId.value, now)
  {
    if Falsy(channelId) then Err(ChannelIdRequired) else Ok(WithLastUpdate(table, channelId.value, now))
  }

  /** The database the worker is connected to, its tables updated in place. */
  class Database {
    const defaults: ColumnDefaults
    var guilds: map<Id, Guild>
    var channels: map<Id, Channel>
    var messages: map<Id, Message>
    var crawlLog: seq<CrawlLogEntry>
    var selfbots: map<Id, Selfbot>

    function Snapshot(): (t: Tables)
      reads this
    {
      Tables(guilds, channels, messages, crawlLog, selfbots)
    }

    constructor (defaults: ColumnDefaults, initial: Tables)
      ensures this.defaults == defaults && Snapshot() == initial
    {
      this.defaults := defaults;
      guilds, channels, messages := initial.guilds, initial.channels, initial.messages;
      crawlLog, selfbots := initial.crawlLog, initial.selfbots;
    }

    /** `get_selfbots`: every selfbot row, or None when the table is empty. */
    method GetSelfbots() returns (rows: Option<map<Id, Selfbot>>)
      ensures rows.None? <==> selfbots == map[]
      ensures rows.Some? ==> rows.value == selfbots
    {
      if selfbots == map[] {
        rows := None;
      } else {
        rows := Some(selfbots);
      }
    }

    method UpsertGuild(guild: GuildDoc, selfbotId: Id)
      modifies this
      ensures guilds == InsertIfAbsent(old(guilds), guild.id, NewGuild(guild, selfbotId, defaults))
      ensures Snapshot() == old(Snapshot()).(guilds := guilds)
    {
      guilds := InsertIfAbsent(guilds, guild.id, NewGuild(guild, selfbotId, defaults));
    }

    method UpsertChannel(channel: ChannelDoc, guildId: Id)
      modifies this
      ensures channels == InsertIfAbsent(old(channels), channel.id, NewChannel(channel, guildId, defaults))
      ensures Snapshot() == old(Snapshot()).(channels := channels)
    {
      channels := InsertIfAbsent(channels, channel.id, NewChannel(channel, guildId, defaults));
    }

    method UpsertChannels(channelList: seq<ChannelDoc>, guildId: Option<Id>) returns (r: Outcome<DbError>)
      modifies this
      ensures UpsertedChannels(old(channels), channelList, guildId, defaults) == if r.Pass? then Ok(channels) else Err(r.error)
      ensures r.Fail? ==> channels == old(channels)
      ensures Snapshot() == old(Snapshot()).(channels := channels)
    {
      if channelList == [] {
        return Pass;
      }
      if Falsy(guildId) {
        return Fail(GuildIdRequired);
      }
      var payload := ChannelPayload(channelList, guildId.value, defaults);
      for i := 0 to |payload|
        invariant channels == InsertAll(old(channels), payload[..i])
        invariant Snapshot() == old(Snapshot()).(channels := channels)
      {
        InsertAllStep(old(channels), payload, i);
        channels := InsertIfAbsent(channels, payload[i].0, payload[i].1);
      }
      assert payload[..|payload|] == payload;
      r := Pass;
    }

    method UpsertMessage(message: Payload, channelId: Id) returns (r: Outcome<DbError>)
      modifies this
      ensures UpsertedMessage(old(messages), message, channelId) == if r.Pass? then Ok(messages) else Err(r.error)
      ensures r.Fail? ==> messages == old(messages)
      ensures Snapshot() == old(Snapshot()).(messages := messages)
    {
      if message.NonObject? {
        return Pass;
      }
      if message.doc.id.None? {
        return Fail(MissingKey);
      }
      messages := InsertIfAbsent(messages, message.doc.id.value, Message(message.doc.raw, channelId));
      r := Pass;
    }

    /** `channelId` is only logged: each message is stored under its own `channel_id`. */
    method UpsertMessages(messageList: seq<MessageDoc>, channelId: Id) returns (r: Outcome<DbError>)
      modifies this
      ensures UpsertedMessages(old(messages), messageList) == if r.Pass? then Ok(messages) else Err(r.error)
      ensures r.Fail? ==> messages == old(messages)
      ensures Snapshot() == old(Snapshot()).(messages := messages)
    {
      if messageList == [] {
        return Pass;
      }
      if exists i :: 0 <= i < |messageList| && !HasKeys(messageList[i]) {
        return Fail(MissingKey);
      }
      var payload := MessagePayload(messageList);
      for i := 0 to |payload|
        invariant messages == InsertAll(old(messages), payload[..i])
        invariant Snapshot() == old(Snapshot()).(messages := messages)
      {
        InsertAllStep(old(messages), payload, i);
        messages := InsertIfAbsent(messages, payload[i].0, payload[i].1);
      }
      assert payload[..|payload|] == payload;
      r := Pass;
    }

    method ChannelCrawlEnabled(channelId: Option<Id>, value: Option<bool>) returns (r: Outcome<DbError>)
      modifies this
      ensures CrawlFlagSet(old(channels), channelId, value) == if r.Pass? then Ok(channels) else Err(r.error)
      ensures r.Fail? ==> channels == old(channels)
      ensures Snapshot() == old(Snapshot()).(channels := channels)
    {
      if value.None? {
        return Fail(ValueRequired);
      }
      if channelId.None? {
        return Fail(ChannelIdRequired);
      }
      channels := WithCrawlFlag(channels, channelId.value, value.value);
      r := Pass;
    }

    /** `now` is the database's transaction timestamp, which `now()` returns. */
    method ChannelMarkLastUpdate(channelId: Option<Id>, now: nat) returns (r: Outcome<DbError>)
      modifies this
      ensures LastUpdateMarked(old(channels), channelId, now) == if r.Pass? then Ok(channels) else Err(r.error)
      ensures r.Fail? ==> channels == old(channels)
      ensures Snapshot() == old(Snapshot()).(channels := channels)
    {
      if Falsy(channelId) {
        return Fail(ChannelIdRequired);
      }
      channels := WithLastUpdate(channels, channelId.value, now);
      r := Pass;
    }

    method CreateChannelCrawlLog(channelId: Id, lowId: Id, highId: Id, startTime: nat, endTime: nat)
      modifies this
      ensures crawlLog == old(crawlLog) + [CrawlLogEntry(startTime, endTime, lowId, highId, channelId)]
      ensures Snapshot() == old(Snapshot()).(crawlLog := crawlLog)
    {
      crawlLog := crawlLog + [CrawlLogEntry(startTime, endTime, lowId, highId, channelId)];
    }

    /** The end of an aborted transaction: every table is back to its state at `to`. */
    method Rollback(to: Tables)
      modifies this
      ensures Snapshot() == to
    {
      guilds, channels, messages := to.guilds, to.channels, to.messages;
      crawlLog, selfbots := to.crawlLog, to.selfbots;
    }
  }
}
