/**
 * The relational store the crawler writes to: one datatype per row kind, the
 * API documents those rows are built from, and `Tables`, a snapshot of all the
 * tables the core reads or writes. Primary-keyed tables are maps from id to row;
 * the crawl log, which has no key the core uses, is an append-only sequence.
 */
module Tables {
  import opened Wrappers

  /** Snowflakes and primary keys. */
  type Id = nat

  /** The `raw_data` column: the JSON text of an API object, opaque to the core. */
  type RawData = string

  /** A guild object from the API, as `upsert_guild` reads it. */
  datatype GuildDoc = GuildDoc(id: Id, name: string, raw: RawData)

  /** A channel object from the API, as `upsert_channel(s)` reads it. */
  datatype ChannelDoc = ChannelDoc(id: Id, name: string, raw: RawData)

  /**
   * A message object from the API. Either key may be missing from the JSON
   * object. A list element that is not an object at all is represented with
   * both keys missing: indexing it raises a TypeError rather than a KeyError,
   * but either exception aborts the batch and rolls back the pass the same way.
   */
  datatype MessageDoc = MessageDoc(id: Option<Id>, channelId: Option<Id>, raw: RawData)

  datatype Guild = Guild(name: string, rawData: RawData, selfbotId: Id, crawlEnabled: bool)

  /** `lastUpdate` is None while the column is NULL. */
  datatype Channel = Channel(name: string, rawData: RawData, guildId: Id, crawlEnabled: bool, lastUpdate: Option<nat>)

  datatype Message = Message(rawData: RawData, channelId: Id)

  datatype CrawlLogEntry = CrawlLogEntry(startedAt: nat, endedAt: nat, lowMessageId: Id, highMessageId: Id, channelId: Id)

  datatype Selfbot = Selfbot(username: string, token: string)

  /**
   * Values the schema gives to the columns the upserts leave out. The schema is
   * not part of the model, so these are a parameter of the store.
   */
  datatype ColumnDefaults = ColumnDefaults(guildCrawlEnabled: bool, channelCrawlEnabled: bool, channelLastUpdate: Option<nat>)

  datatype Tables = Tables(
    guilds: map<Id, Guild>,
    channels: map<Id, Channel>,
    messages: map<Id, Message>,
    crawlLog: seq<CrawlLogEntry>,
    selfbots: map<Id, Selfbot>)

  /** `INSERT ... ON CONFLICT DO NOTHING` of one row: the first writer wins. */
  function InsertIfAbsent<V>(table: map<Id, V>, key: Id, row: V): (r: map<Id, V>)
    ensures r.Keys == table.Keys + {key}
    ensures forall k :: k in table ==> r[k] == table[k]
    ensures key !in table ==> r[key] == row
  {
    if key in table then table else table[key := row]
  }

  /**
   * `executemany` of an `ON CONFLICT DO NOTHING` insert: the rows are inserted
   * one after the other, in list order.
   */
  function InsertAll<V>(table: map<Id, V>, rows: seq<(Id, V)>): (r: map<Id, V>)
    ensures forall k :: k in table ==> k in r && r[k] == table[k]
    ensures forall i :: 0 <= i < |rows| ==> rows[i].0 in r
    ensures forall k :: k in r && k !in table ==> exists i :: 0 <= i < |rows| && rows[i].0 == k && r[k] == rows[i].1
    decreases |rows|
  {
    if rows == [] then table
    else
      var last := rows[|rows| - 1];
      InsertIfAbsent(InsertAll(table, rows[..|rows| - 1]), last.0, last.1)
  }

  /** Batching one more row inserts that row after the rows before it. */
  lemma InsertAllStep<V>(table: map<Id, V>, rows: seq<(Id, V)>, i: nat)
    requires i < |rows|
    ensures InsertAll(table, rows[..i + 1]) == InsertIfAbsent(InsertAll(table, rows[..i]), rows[i].0, rows[i].1)
  {
    assert rows[..i + 1][..i] == rows[..i];
  }

  /** A key that is new to the table gets the row of its FIRST occurrence in the batch. */
  lemma {:induction false} InsertAllFirstWins<V>(table: map<Id, V>, rows: seq<(Id, V)>, i: nat)
    requires i < |rows| && rows[i].0 !in table
    requires forall j :: 0 <= j < i ==> rows[j].0 != rows[i].0
    ensures InsertAll(table, rows)[rows[i].0] == rows[i].1
    decreases |rows|
  {
    var prefix := rows[..|rows| - 1];
    if i < |rows| - 1 {
      InsertAllFirstWins(table, prefix, i);
    }
  }

  /** A batch whose keys are all present already changes nothing. */
  lemma {:induction false} InsertAllAbsorbs<V>(table: map<Id, V>, rows: seq<(Id, V)>)
    requires forall i :: 0 <= i < |rows| ==> rows[i].0 in table
    ensures InsertAll(table, rows) == table
    decreases |rows|
  {
    if rows != [] {
      InsertAllAbsorbs(table, rows[..|rows| - 1]);
    }
  }

  /** Re-running the same batch is a no-op. */
  lemma {:induction false} InsertAllIdempotent<V>(table: map<Id, V>, rows: seq<(Id, V)>)
    ensures InsertAll(InsertAll(table, rows), rows) == InsertAll(table, rows)
  {
    InsertAllAbsorbs(InsertAll(table, rows), rows);
  }
}
