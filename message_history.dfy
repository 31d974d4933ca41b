/**
 * The message-history worker: which channel a pass claims, where its cursor
 * starts, how each fetched page is classified and persisted, which records each
 * way of ending a pass writes, and the worker's endless claim-and-crawl loop.
 *
 * The remote API is a script of pages: the k-th call to `get_messages` in a
 * pass returns the k-th page. When the script runs out the pass is cut off
 * before it commits, which is how the model expresses an interrupted worker.
 */
module MessageHistory {
  import opened Wrappers
  import opened Tables
  import opened DbOperations

  /** What one call to `get_messages` can come back with. */
  datatype Page =
    | Messages(items: seq<MessageDoc>)  // a JSON array
    | ErrorObject                       // a JSON object, such as {"message": "Missing Access"}
    | JsonString(text: string)          // a JSON string, on which `len` succeeds
    | JsonScalar                        // a JSON number, boolean or null, on which `len` raises
    | TooManyRequests                   // HTTP 429, raised by the API wrapper
    | NotJson                           // a body that does not decode as JSON

  /** Why a pass died with an exception. */
  datatype Fault = RateLimited | TypeError | DecodeError | Db(error: DbError)

  /** Why the page loop stopped. */
  datatype Stop = Exhausted | ErrorResponse | Crash(fault: Fault) | OutOfPages

  /** What the loop does with one page: store it and move on, fetch again unchanged, or stop. */
  datatype Step = Persist | Refetch | Halt(stop: Stop)

  /** The readings of the three clocks a pass uses. */
  datatype Clock = Clock(
    now: nat,        // the database's `now()`: the start of the transaction
    startedAt: nat,  // the worker's local clock when the pass starts
    endedAt: nat)    // the worker's UTC clock when the history is exhausted

  /** How a pass ended. Only `Completed` and `Disabled` commit. */
  datatype PassEnd =
    | Completed(low: Id, high: Id)
    | Disabled
    | NoEligibleChannel
    | NoClient
    | Crashed(fault: Fault)
    | Interrupted

  /** The state of the page loop when it stops. */
  datatype LoopResult = LoopResult(messages: map<Id, Message>, cursor: Id, stop: Stop, continued: nat)

  /** `get_snowflake`: the highest id among the messages that carry one. */
  function GetSnowflake(messageList: seq<MessageDoc>): (r: Option<Id>)
    ensures r.None? <==> forall i :: 0 <= i < |messageList| ==> messageList[i].id.None?
    ensures r.Some? ==> exists i :: 0 <= i < |messageList| && messageList[i].id == r
    ensures forall i :: 0 <= i < |messageList| && messageList[i].id.Some? ==> r.Some? && messageList[i].id.value <= r.value
    decreases |messageList|
  {
    if messageList == [] then None
    else
      var rest := GetSnowflake(messageList[..|messageList| - 1]);
      var last := messageList[|messageList| - 1].id;
      if last.None? then rest
      else if rest.Some? && last.value <= rest.value then rest
      else last
  }

  /** Python's `<` on `str`: the first differing character decides, and a proper prefix comes first. */
  predicate StrLess(a: string, b: string)
    decreases |a|
  {
    if a == [] then b != []
    else if b == [] then false
    else if a[0] != b[0] then a[0] < b[0]
    else StrLess(a[1..], b[1..])
  }

  /**
   * The `max(message_ids)` of `get_snowflake`, as written, over the ids the
   * comprehension kept: the API sends each `id` as a decimal string, so `max`
   * compares the strings, keeping the first of equal maxima.
   */
  function MaxIdString(ids: seq<string>): (r: Option<string>)
    ensures r.None? <==> ids == []
    ensures r.Some? ==> exists i :: 0 <= i < |ids| && ids[i] == r.value
    decreases |ids|
  {
    if ids == [] then None
    else
      var rest := MaxIdString(ids[..|ids| - 1]);
      var last := ids[|ids| - 1];
      if rest.Some? && !StrLess(rest.value, last) then rest else Some(last)
  }

  /** No string is below itself. */
  lemma {:induction false} StrLessIrreflexive(a: string)
    ensures !StrLess(a, a)
    decreases |a|
  {
    if a != [] {
      StrLessIrreflexive(a[1..]);
    }
  }

  lemma {:induction false} StrLessTransitive(a: string, b: string, c: string)
    requires StrLess(a, b) && StrLess(b, c)
    ensures StrLess(a, c)
    decreases |a|
  {
    if a != [] && a[0] == b[0] && b[0] == c[0] {
      StrLessTransitive(a[1..], b[1..], c[1..]);
    }
  }

  /** The string `max` is a maximum under Python's string order: no id is above it. */
  lemma {:induction false} MaxIdStringIsMax(ids: seq<string>)
    ensures var r := MaxIdString(ids);
      r.Some? ==> forall i :: 0 <= i < |ids| ==> !StrLess(r.value, ids[i])
    decreases |ids|
  {
    if ids != [] {
      var prefix := ids[..|ids| - 1];
      var rest := MaxIdString(prefix);
      var last := ids[|ids| - 1];
      MaxIdStringIsMax(prefix);
      StrLessIrreflexive(last);
      forall i | 0 <= i < |ids|
        ensures !StrLess(MaxIdString(ids).value, ids[i])
      {
        if i < |ids| - 1 {
          assert ids[i] == prefix[i];
          if rest.Some? && StrLess(rest.value, last) && StrLess(last, ids[i]) {
            StrLessTransitive(rest.value, last, ids[i]);
          }
        }
      }
    }
  }

  /** The number a decimal id string stands for. */
  function DecimalValue(s: string): (n: nat)
    decreases |s|
  {
    if s == [] then 0
    else
      var c := s[|s| - 1];
      DecimalValue(s[..|s| - 1]) * 10 + (if '0' <= c <= '9' then c as int - '0' as int else 0)
  }

  /**
   * On a page whose ids differ in digit count, such as an 18-digit and a
   * 19-digit snowflake, the code as written picks the OLDER message as the
   * cursor, while `GetSnowflake` picks the newest. Shown here on "99" and "100".
   */
  lemma MaxIdStringPicksOlderId()
    ensures MaxIdString(["99", "100"]) == Some("99")
    ensures DecimalValue("99") == 99 && DecimalValue("100") == 100
    ensures GetSnowflake([MessageDoc(Some(99), Some(1), ""), MessageDoc(Some(100), Some(1), "")]) == Some(100)
  {
    var older, newer := "99", "100";
    assert [older, newer][..1] == [older];
    assert !StrLess(older, newer);
    assert older[..1] == "9" && newer[..2] == "10" && newer[..1] == "1" && "9"[..0] == "" && "1"[..0] == "";
    var a, b := MessageDoc(Some(99), Some(1), ""), MessageDoc(Some(100), Some(1), "");
    assert [a, b][..1] == [a];
  }

  /** The cursor query: the highest `high_message_id` logged for the channel, or 0 (`coalesce`). */
  function StartingCursor(log: seq<CrawlLogEntry>, channelId: Id): (r: Id)
    ensures forall i :: 0 <= i < |log| && log[i].channelId == channelId ==> log[i].highMessageId <= r
    ensures (forall i :: 0 <= i < |log| ==> log[i].channelId != channelId) ==> r == 0
    ensures (exists i :: 0 <= i < |log| && log[i].channelId == channelId) ==>
      exists i :: 0 <= i < |log| && log[i].channelId == channelId && log[i].highMessageId == r
    decreases |log|
  {
    if log == [] then 0
    else
      var rest := StartingCursor(log[..|log| - 1], channelId);
      var last := log[|log| - 1];
      if last.channelId == channelId && rest <= last.highMessageId then last.highMessageId
      else rest
  }

  /** Logging one more pass moves the channel's cursor to the larger of the two. */
  lemma CursorAfterLogging(log: seq<CrawlLogEntry>, entry: CrawlLogEntry, channelId: Id)
    ensures StartingCursor(log + [entry], channelId) ==
      if entry.channelId != channelId then StartingCursor(log, channelId)
      else if entry.highMessageId < StartingCursor(log, channelId) then StartingCursor(log, channelId)
      else entry.highMessageId
  {
    assert (log + [entry])[..|log|] == log;
  }

  /** Appending to the crawl log never lowers any channel's cursor. */
  lemma {:induction false} CursorNeverDecreases(log: seq<CrawlLogEntry>, longer: seq<CrawlLogEntry>, channelId: Id)
    requires log <= longer
    ensures StartingCursor(log, channelId) <= StartingCursor(longer, channelId)
    decreases |longer|
  {
    if |longer| > |log| {
      var prefix := longer[..|longer| - 1];
      assert log <= prefix;
      CursorNeverDecreases(log, prefix, channelId);
      assert prefix + [longer[|longer| - 1]] == longer;
      CursorAfterLogging(prefix, longer[|longer| - 1], channelId);
    } else {
      assert log == longer;
    }
  }

  /** The WHERE clause and the row lock: both crawl flags true, and not locked by another worker. */
  predicate Eligible(t: Tables, locked: set<Id>, channelId: Id) {
    && channelId in t.channels
    && channelId !in locked
    && t.channels[channelId].crawlEnabled
    && t.channels[channelId].guildId in t.guilds
    && t.guilds[t.channels[channelId].guildId].crawlEnabled
  }

  /** `ORDER BY last_update ASC`, where NULL sorts after every timestamp. */
  predicate UpdatedNoLater(a: Option<nat>, b: Option<nat>) {
    b.None? || (a.Some? && a.value <= b.value)
  }

  /** The claim query's answer: no row when nothing is eligible, else an eligible channel updated least recently. */
  predicate IsClaim(t: Tables, locked: set<Id>, claimed: Option<Id>) {
    match claimed
    case None => forall c :: c in t.channels ==> !Eligible(t, locked, c)
    case Some(c) =>
      Eligible(t, locked, c) &&
      forall d :: d in t.channels && Eligible(t, locked, d) ==> UpdatedNoLater(t.channels[c].lastUpdate, t.channels[d].lastUpdate)
  }

  /** Every non-empty set of channels has one updated no later than all the others. */
  lemma {:induction false} OldestExists(channels: map<Id, Channel>, ids: set<Id>)
    requires ids != {} && ids <= channels.Keys
    ensures exists c :: c in ids && forall d :: d in ids ==> UpdatedNoLater(channels[c].lastUpdate, channels[d].lastUpdate)
    decreases ids
  {
    var y :| y in ids;
    var rest := ids - {y};
    if rest == {} {
      forall d | d in ids ensures UpdatedNoLater(channels[y].lastUpdate, channels[d].lastUpdate) {
        assert d !in rest;
      }
    } else {
      OldestExists(channels, rest);
      var x :| x in rest && forall d :: d in rest ==> UpdatedNoLater(channels[x].lastUpdate, channels[d].lastUpdate);
      var winner := if UpdatedNoLater(channels[x].lastUpdate, channels[y].lastUpdate) then x else y;
      forall d | d in ids ensures UpdatedNoLater(channels[winner].lastUpdate, channels[d].lastUpdate) {
        if d != y {
          assert d in rest;
        }
      }
    }
  }

  /** The claim query (`... ORDER BY c.last_update ASC LIMIT 1 FOR UPDATE OF c SKIP LOCKED`). */
  method ClaimChannel(db: Database, locked: set<Id>) returns (claimed: Option<Id>)
    ensures IsClaim(db.Snapshot(), locked, claimed)
  {
    var t := db.Snapshot();
    var eligible := set c | c in t.channels && Eligible(t, locked, c);
    if eligible == {} {
      assert forall c :: c in t.channels ==> c !in eligible;
      return None;
    }
    OldestExists(t.channels, eligible);
    var c :| c in eligible && forall d :: d in eligible ==> UpdatedNoLater(t.channels[c].lastUpdate, t.channels[d].lastUpdate);
    return Some(c);
  }

  /** The selfbot name the claim query joins onto the channel, NULL when a join finds no row. */
  function SelfbotName(t: Tables, channelId: Id): (name: Option<string>) {
    if channelId in t.channels && t.channels[channelId].guildId in t.guilds
       && t.guilds[t.channels[channelId].guildId].selfbotId in t.selfbots
    then Some(t.selfbots[t.guilds[t.channels[channelId].guildId].selfbotId].username)
    else None
  }

  /**
   * The three-way test of the page loop, with the exceptions on the way: a
   * non-empty list is stored (unless a message in it lacks a key), an object
   * disables the channel, an empty list (or an empty string, which `len` also
   * measures as 0) ends the history; a non-empty string matches no branch.
   */
  function Classify(page: Page): (s: Step)
    ensures s.Persist? <==> page.Messages? && |page.items| > 0 && forall i :: 0 <= i < |page.items| ==> HasKeys(page.items[i])
    ensures s.Persist? ==> GetSnowflake(page.items).Some?
    ensures s.Halt? ==> !s.stop.OutOfPages?
  {
    match page
    case Messages(items) =>
      if |items| == 0 then Halt(Exhausted)
      else if forall i :: 0 <= i < |items| ==> HasKeys(items[i]) then Persist
      else Halt(Crash(Db(MissingKey)))
    case ErrorObject => Halt(ErrorResponse)
    case JsonString(text) => if |text| == 0 then Halt(Exhausted) else Refetch
    case JsonScalar => Halt(Crash(TypeError))
    case TooManyRequests => Halt(Crash(RateLimited))
    case NotJson => Halt(Crash(DecodeError))
  }

  /** Which pages end the loop normally, disable the channel, or are fetched again. */
  lemma ClassifyCases(page: Page)
    ensures Classify(page) == Halt(ErrorResponse) <==> page.ErrorObject?
    ensures Classify(page) == Halt(Exhausted) <==> page == Messages([]) || page == JsonString("")
    ensures Classify(page).Refetch? <==> page.JsonString? && page.text != ""
  {
  }

  /** The message table after `upsert_messages` of a page that is stored. */
  function StoredPage(messages: map<Id, Message>, page: Page): (after: map<Id, Message>)
    requires Classify(page).Persist?
  {
    UpsertedMessages(messages, page.items).value
  }

  /** The max id of a page that is stored. */
  function PageMax(page: Page): (max: Id)
    requires Classify(page).Persist?
  {
    GetSnowflake(page.items).value
  }

  function Continue(r: LoopResult): (next: LoopResult) {
    r.(continued := r.continued + 1)
  }

  /**
   * The `while more_messages` loop from cursor `cursor` over the page script.
   * `continued` counts the pages after which the loop went on; the page after
   * them, if any, is the one that stopped it.
   */
  function PageLoop(messages: map<Id, Message>, cursor: Id, pages: seq<Page>): (r: LoopResult)
    ensures r.continued <= |pages|
    ensures r.stop.OutOfPages? <==> r.continued == |pages|
    ensures forall j :: 0 <= j < r.continued ==> !Classify(pages[j]).Halt?
    ensures r.continued < |pages| ==> Classify(pages[r.continued]) == Halt(r.stop)
    decreases |pages|
  {
    if pages == [] then LoopResult(messages, cursor, OutOfPages, 0)
    else
      var page := pages[0];
      match Classify(page)
      case Halt(stop) => LoopResult(messages, cursor, stop, 0)
      case Refetch => Continue(PageLoop(messages, cursor, pages[1..]))
      case Persist => Continue(PageLoop(StoredPage(messages, page), PageMax(page), pages[1..]))
  }

  /** One step of `PageLoop`, by what the first page is. */
  lemma PageLoopUnfold(messages: map<Id, Message>, cursor: Id, pages: seq<Page>)
    requires pages != []
    ensures var step := Classify(pages[0]);
      && (step.Halt? ==> PageLoop(messages, cursor, pages) == LoopResult(messages, cursor, step.stop, 0))
      && (step.Refetch? ==> PageLoop(messages, cursor, pages) == Continue(PageLoop(messages, cursor, pages[1..])))
      && (step.Persist? ==>
            PageLoop(messages, cursor, pages) == Continue(PageLoop(StoredPage(messages, pages[0]), PageMax(pages[0]), pages[1..])))
  {
  }

  /** A row present before the loop is still there, unchanged, when it stops: the first writer wins. */
  lemma {:induction false} PageLoopKeepsRows(messages: map<Id, Message>, cursor: Id, pages: seq<Page>)
    ensures var r := PageLoop(messages, cursor, pages);
      forall k :: k in messages ==> k in r.messages && r.messages[k] == messages[k]
    decreases |pages|
  {
    if pages != [] {
      var page := pages[0];
      match Classify(page)
      case Halt(_) =>
      case Refetch => PageLoopKeepsRows(messages, cursor, pages[1..]);
      case Persist =>
        UpsertMessagesStores(messages, page.items);
        PageLoopKeepsRows(StoredPage(messages, page), PageMax(page), pages[1..]);
    }
  }

  /** Reference definition of the cursor: the max id of the LAST stored page, else the starting cursor. */
  function CursorAfter(cursor: Id, pages: seq<Page>): (after: Id)
    decreases |pages|
  {
    if pages == [] then cursor
    else if Classify(pages[|pages| - 1]).Persist? then PageMax(pages[|pages| - 1])
    else CursorAfter(cursor, pages[..|pages| - 1])
  }

  lemma {:induction false} CursorAfterFirst(cursor: Id, page: Page, pages: seq<Page>)
    ensures CursorAfter(cursor, [page] + pages) ==
      CursorAfter(if Classify(page).Persist? then PageMax(page) else cursor, pages)
    decreases |pages|
  {
    if pages == [] {
      assert [page] + pages == [page];
      assert [page][..0] == [];
    } else {
      assert ([page] + pages)[..|pages|] == [page] + pages[..|pages| - 1];
      CursorAfterFirst(cursor, page, pages[..|pages| - 1]);
    }
  }

  lemma PrefixSplit<T>(s: seq<T>, n: nat)
    requires 0 < n <= |s|
    ensures s[..n] == [s[0]] + s[1..][..n - 1]
  {
  }

  /** The loop's final cursor is the max id of the last page it stored, or the starting cursor. */
  lemma {:induction false} PageLoopCursor(messages: map<Id, Message>, cursor: Id, pages: seq<Page>)
    ensures var r := PageLoop(messages, cursor, pages); r.cursor == CursorAfter(cursor, pages[..r.continued])
    decreases |pages|
  {
    var r := PageLoop(messages, cursor, pages);
    if pages == [] || Classify(pages[0]).Halt? {
      assert pages[..r.continued] == [];
    } else {
      var page := pages[0];
      var persisted := Classify(page).Persist?;
      var next := if persisted then PageMax(page) else cursor;
      var after := if persisted then StoredPage(messages, page) else messages;
      var rest := PageLoop(after, next, pages[1..]);
      assert r == Continue(rest);
      PageLoopCursor(after, next, pages[1..]);
      CursorAfterContinue(cursor, pages, rest);
    }
  }

  /** The cursor claim survives going on past a page that does not stop the loop. */
  lemma CursorAfterContinue(cursor: Id, pages: seq<Page>, rest: LoopResult)
    requires pages != [] && rest.continued <= |pages| - 1
    requires rest.cursor == CursorAfter(if Classify(pages[0]).Persist? then PageMax(pages[0]) else cursor, pages[1..][..rest.continued])
    ensures Continue(rest).cursor == CursorAfter(cursor, pages[..Continue(rest).continued])
  {
    var n := rest.continued + 1;
    PrefixSplit(pages, n);
    CursorAfterFirst(cursor, pages[0], pages[1..][..n - 1]);
  }

  /** Every message of every page the loop went past is in the table when it stops. */
  lemma {:induction false} PageLoopStoresPages(messages: map<Id, Message>, cursor: Id, pages: seq<Page>, j: nat, i: nat)
    requires j < PageLoop(messages, cursor, pages).continued
    requires Classify(pages[j]).Persist? && i < |pages[j].items|
    ensures pages[j].items[i].id.Some? && pages[j].items[i].id.value in PageLoop(messages, cursor, pages).messages
    decreases j
  {
    var page := pages[0];
    assert !Classify(page).Halt?;
    var next := if Classify(page).Persist? then PageMax(page) else cursor;
    var after := if Classify(page).Persist? then StoredPage(messages, page) else messages;
    var rest := PageLoop(after, next, pages[1..]);
    assert PageLoop(messages, cursor, pages).messages == rest.messages;
    if j == 0 {
      UpsertMessagesStores(messages, page.items);
      assert page.items[i].id.value in after;
      PageLoopKeepsRows(after, next, pages[1..]);
    } else {
      assert pages[j] == pages[1..][j - 1];
      PageLoopStoresPages(after, next, pages[1..], j - 1, i);
    }
  }

  /** `row` is what storing message `i` of page `j`, one of the first `n` pages, writes under key `k`. */
  ghost predicate StoredFrom(pages: seq<Page>, n: nat, k: Id, row: Message) {
    exists j, i :: 0 <= j < n && j < |pages| && Classify(pages[j]).Persist? && 0 <= i < |pages[j].items|
                   && pages[j].items[i].id == Some(k) && row == Message(pages[j].items[i].raw, pages[j].items[i].channelId.value)
  }

  /** Every row the loop adds is a message of a page it stored, under that message's own `channel_id`. */
  lemma {:induction false} PageLoopAddsOnlyPages(messages: map<Id, Message>, cursor: Id, pages: seq<Page>)
    ensures var r := PageLoop(messages, cursor, pages);
      forall k :: k in r.messages && k !in messages ==> StoredFrom(pages, r.continued, k, r.messages[k])
    decreases |pages|
  {
    var r := PageLoop(messages, cursor, pages);
    if pages != [] && !Classify(pages[0]).Halt? {
      var page := pages[0];
      var persisted := Classify(page).Persist?;
      var next := if persisted then PageMax(page) else cursor;
      var after := if persisted then StoredPage(messages, page) else messages;
      var rest := PageLoop(after, next, pages[1..]);
      assert r == Continue(rest);
      PageLoopAddsOnlyPages(after, next, pages[1..]);
      PageLoopKeepsRows(after, next, pages[1..]);
      forall k | k in r.messages && k !in messages
        ensures StoredFrom(pages, r.continued, k, r.messages[k])
      {
        if k in after {
          StoredFromFirst(messages, pages, r.continued, k);
        } else {
          StoredFromLater(pages, r.continued, k, r.messages[k]);
        }
      }
    }
  }

  lemma StoredFromFirst(messages: map<Id, Message>, pages: seq<Page>, n: nat, k: Id)
    requires 0 < n <= |pages| && Classify(pages[0]).Persist?
    requires k in StoredPage(messages, pages[0]) && k !in messages
    ensures StoredFrom(pages, n, k, StoredPage(messages, pages[0])[k])
  {
    var page := pages[0];
    UpsertMessagesStores(messages, page.items);
    var i :| 0 <= i < |page.items| && page.items[i].id == Some(k) && HasKeys(page.items[i])
             && StoredPage(messages, page)[k] == Message(page.items[i].raw, page.items[i].channelId.value);
    assert pages[0].items[i].id == Some(k);
  }

  lemma StoredFromLater(pages: seq<Page>, n: nat, k: Id, row: Message)
    requires 0 < n && pages != [] && StoredFrom(pages[1..], n - 1, k, row)
    ensures StoredFrom(pages, n, k, row)
  {
    var j, i :| 0 <= j < n - 1 && j < |pages[1..]| && Classify(pages[1..][j]).Persist? && 0 <= i < |pages[1..][j].items|
                && pages[1..][j].items[i].id == Some(k) && row == Message(pages[1..][j].items[i].raw, pages[1..][j].items[i].channelId.value);
    assert pages[1..][j] == pages[j + 1];
  }

  /**
   * One pass for the claimed channel, from the state at the start of the
   * transaction to the committed state: the tables unchanged on every path
   * that raises or is cut off, since the transaction is then rolled back.
   */
  function RunPass(t: Tables, claimed: Option<Id>, clients: set<string>, pages: seq<Page>, clock: Clock): (r: (PassEnd, Tables))
    ensures !(r.0.Completed? || r.0.Disabled?) ==> r.1 == t
    ensures claimed.None? <==> r.0.NoEligibleChannel?
    ensures r.0.Completed? ==> claimed.Some? && r.0.low == StartingCursor(t.crawlLog, claimed.value)
    ensures r.0.Completed? ==> r.1 == t.(messages := r.1.messages,
      crawlLog := t.crawlLog + [CrawlLogEntry(clock.startedAt, clock.endedAt, r.0.low, r.0.high, claimed.value)],
      channels := WithLastUpdate(t.channels, claimed.value, clock.now))
    ensures r.0.Disabled? ==> claimed.Some? && r.1 == t.(messages := r.1.messages,
      channels := WithLastUpdate(WithCrawlFlag(t.channels, claimed.value, false), claimed.value, clock.now))
    ensures forall k :: k in t.messages ==> k in r.1.messages && r.1.messages[k] == t.messages[k]
  {
    match claimed
    case None => (NoEligibleChannel, t)
    case Some(channelId) =>
      var bot := SelfbotName(t, channelId);
      if bot.None? || bot.value !in clients then (NoClient, t)
      else
        var low := StartingCursor(t.crawlLog, channelId);
        var loop := PageLoop(t.messages, low, pages);
        PageLoopKeepsRows(t.messages, low, pages);
        match loop.stop
        case OutOfPages => (Interrupted, t)
        case Crash(fault) => (Crashed(fault), t)
        case Exhausted =>
          var logged := t.(messages := loop.messages,
            crawlLog := t.crawlLog + [CrawlLogEntry(clock.startedAt, clock.endedAt, low, loop.cursor, channelId)]);
          Commit(t, logged, channelId, clock.now, Completed(low, loop.cursor))
        case ErrorResponse =>
          var disabled := t.(messages := loop.messages, channels := WithCrawlFlag(t.channels, channelId, false));
          Commit(t, disabled, channelId, clock.now, Disabled)
  }

  /** `channel_mark_last_update` and `commit`; the first raises for channel id 0, rolling back to `t`. */
  function Commit(t: Tables, pending: Tables, channelId: Id, now: nat, end: PassEnd): (r: (PassEnd, Tables)) {
    match LastUpdateMarked(pending.channels, Some(channelId), now)
    case Err(e) => (Crashed(Db(e)), t)
    case Ok(channels) => (end, pending.(channels := channels))
  }

  /**
   * The converse of the commit clauses of `RunPass`: how the pass ends follows
   * from whether a client exists, the channel id, and why the page loop stopped.
   * A page loop that stops on an empty page or an error object commits.
   */
  lemma PassOutcome(t: Tables, channelId: Id, clients: set<string>, pages: seq<Page>, clock: Clock)
    ensures var r := RunPass(t, Some(channelId), clients, pages, clock);
      var bot := SelfbotName(t, channelId);
      var low := StartingCursor(t.crawlLog, channelId);
      var loop := PageLoop(t.messages, low, pages);
      && (bot.None? || bot.value !in clients ==> r.0 == NoClient)
      && (bot.Some? && bot.value in clients ==>
            && (loop.stop.OutOfPages? ==> r.0 == Interrupted)
            && (loop.stop.Crash? ==> r.0 == Crashed(loop.stop.fault))
            && ((loop.stop == Exhausted || loop.stop == ErrorResponse) && channelId == 0 ==> r.0 == Crashed(Db(ChannelIdRequired)))
            && (loop.stop == Exhausted && channelId != 0 ==> r.0 == Completed(low, loop.cursor))
            && (loop.stop == ErrorResponse && channelId != 0 ==> r.0 == Disabled)
            && (r.0.Completed? || r.0.Disabled? ==> r.1.messages == loop.messages))
  {
  }

  /** How a completed pass used its loop: it stopped on an exhausted page, and logged the loop's range. */
  lemma CompletedPassLoop(t: Tables, channelId: Id, clients: set<string>, pages: seq<Page>, clock: Clock)
    requires RunPass(t, Some(channelId), clients, pages, clock).0.Completed?
    ensures var end := RunPass(t, Some(channelId), clients, pages, clock).0;
      var loop := PageLoop(t.messages, StartingCursor(t.crawlLog, channelId), pages);
      && channelId != 0 && loop.stop == Exhausted
      && end == Completed(StartingCursor(t.crawlLog, channelId), loop.cursor)
  {
  }

  /** How a disabling pass used its loop: it stopped on an error object. */
  lemma DisabledPassLoop(t: Tables, channelId: Id, clients: set<string>, pages: seq<Page>, clock: Clock)
    requires RunPass(t, Some(channelId), clients, pages, clock).0.Disabled?
    ensures channelId != 0
    ensures PageLoop(t.messages, StartingCursor(t.crawlLog, channelId), pages).stop == ErrorResponse
  {
  }

  /**
   * A completed pass read every page up to an empty one (an empty list, or an
   * empty string), and logged as its high id the max id of the last page it
   * stored, or its low id if it stored none.
   */
  lemma CompletedPassReadsToEnd(t: Tables, channelId: Id, clients: set<string>, pages: seq<Page>, clock: Clock)
    requires RunPass(t, Some(channelId), clients, pages, clock).0.Completed?
    ensures var end := RunPass(t, Some(channelId), clients, pages, clock).0;
      var n := PageLoop(t.messages, end.low, pages).continued;
      && n < |pages|
      && (pages[n] == Messages([]) || pages[n] == JsonString(""))
      && (forall j :: 0 <= j < n ==> Classify(pages[j]).Persist? || Classify(pages[j]).Refetch?)
      && end.high == CursorAfter(end.low, pages[..n])
  {
    CompletedPassLoop(t, channelId, clients, pages, clock);
    var loop := PageLoop(t.messages, StartingCursor(t.crawlLog, channelId), pages);
    ClassifyCases(pages[loop.continued]);
    PageLoopCursor(t.messages, StartingCursor(t.crawlLog, channelId), pages);
  }

  /** A disabling pass read every page up to an error object. */
  lemma DisabledPassStopsOnError(t: Tables, channelId: Id, clients: set<string>, pages: seq<Page>, clock: Clock)
    requires RunPass(t, Some(channelId), clients, pages, clock).0.Disabled?
    ensures var n := PageLoop(t.messages, StartingCursor(t.crawlLog, channelId), pages).continued;
      && n < |pages| && pages[n].ErrorObject?
      && forall j :: 0 <= j < n ==> Classify(pages[j]).Persist? || Classify(pages[j]).Refetch?
  {
    DisabledPassLoop(t, channelId, clients, pages, clock);
    ClassifyCases(pages[PageLoop(t.messages, StartingCursor(t.crawlLog, channelId), pages).continued]);
  }

  /** Every message of every page stored during a committed pass is in the committed message table. */
  lemma PassStoresFetchedMessages(t: Tables, claimed: Option<Id>, clients: set<string>, pages: seq<Page>, clock: Clock, j: nat, i: nat)
    requires RunPass(t, claimed, clients, pages, clock).0.Completed? || RunPass(t, claimed, clients, pages, clock).0.Disabled?
    requires j < PageLoop(t.messages, StartingCursor(t.crawlLog, claimed.value), pages).continued
    requires Classify(pages[j]).Persist? && i < |pages[j].items|
    ensures pages[j].items[i].id.Some? && pages[j].items[i].id.value in RunPass(t, claimed, clients, pages, clock).1.messages
  {
    PageLoopStoresPages(t.messages, StartingCursor(t.crawlLog, claimed.value), pages, j, i);
  }

  /**
   * The other direction: every message a pass adds was in a page it stored,
   * and is stored as that message under its own `channel_id`.
   */
  lemma PassAddsOnlyFetchedMessages(t: Tables, claimed: Option<Id>, clients: set<string>, pages: seq<Page>, clock: Clock)
    ensures var u := RunPass(t, claimed, clients, pages, clock).1;
      forall k :: k in u.messages && k !in t.messages ==>
        claimed.Some? && StoredFrom(pages, PageLoop(t.messages, StartingCursor(t.crawlLog, claimed.value), pages).continued, k, u.messages[k])
  {
    if claimed.Some? {
      PageLoopAddsOnlyPages(t.messages, StartingCursor(t.crawlLog, claimed.value), pages);
    }
  }

  /** A first pass over an empty history logs the range (0, 0) and stamps `last_update`. */
  lemma EmptyFirstPass(t: Tables, channelId: Id, clients: set<string>, pages: seq<Page>, clock: Clock)
    requires channelId != 0 && SelfbotName(t, channelId).Some? && SelfbotName(t, channelId).value in clients
    requires forall i :: 0 <= i < |t.crawlLog| ==> t.crawlLog[i].channelId != channelId
    requires |pages| > 0 && pages[0] == Messages([])
    ensures RunPass(t, Some(channelId), clients, pages, clock) ==
      (Completed(0, 0), t.(crawlLog := t.crawlLog + [CrawlLogEntry(clock.startedAt, clock.endedAt, 0, 0, channelId)],
                          channels := WithLastUpdate(t.channels, channelId, clock.now)))
  {
    assert PageLoop(t.messages, 0, pages) == LoopResult(t.messages, 0, Exhausted, 0);
  }

  /** What a pass may do to the store: only append to the log, only add messages, keep the set of rows. */
  ghost predicate Progressed(t: Tables, u: Tables) {
    && u.guilds == t.guilds
    && u.selfbots == t.selfbots
    && u.channels.Keys == t.channels.Keys
    && t.crawlLog <= u.crawlLog
    && forall k :: k in t.messages ==> k in u.messages && u.messages[k] == t.messages[k]
  }

  lemma ProgressedTransitive(t: Tables, u: Tables, v: Tables)
    requires Progressed(t, u) && Progressed(u, v)
    ensures Progressed(t, v)
  {
  }

  /** Every pass keeps the store's history: no log row, message or cursor is ever lost. */
  lemma PassProgresses(t: Tables, claimed: Option<Id>, clients: set<string>, pages: seq<Page>, clock: Clock, channelId: Id)
    ensures Progressed(t, RunPass(t, claimed, clients, pages, clock).1)
    ensures StartingCursor(t.crawlLog, channelId) <= StartingCursor(RunPass(t, claimed, clients, pages, clock).1.crawlLog, channelId)
  {
    var u := RunPass(t, claimed, clients, pages, clock).1;
    CursorNeverDecreases(t.crawlLog, u.crawlLog, channelId);
  }

  /**
   * One page of the `more_messages` loop: store a page of messages and move
   * the cursor to its max id, log the crawl range on an exhausted page,
   * disable the channel on an error object, or raise.
   */
  method CrawlPage(db: Database, channelId: Id, lowId: Id, snowflake: Id, page: Page, clock: Clock)
    returns (stop: Option<Stop>, next: Id)
    modifies db
    ensures stop.None? <==> !Classify(page).Halt?
    ensures stop.Some? ==> stop.value == Classify(page).stop && next == snowflake
    ensures Classify(page).Persist? ==>
      next == PageMax(page) && db.Snapshot() == old(db.Snapshot()).(messages := StoredPage(old(db.messages), page))
    ensures Classify(page).Refetch? ==> next == snowflake && db.Snapshot() == old(db.Snapshot())
    ensures Classify(page) == Halt(Exhausted) ==> db.Snapshot() == old(db.Snapshot()).(
      crawlLog := old(db.crawlLog) + [CrawlLogEntry(clock.startedAt, clock.endedAt, lowId, snowflake, channelId)])
    ensures Classify(page) == Halt(ErrorResponse) ==>
      db.Snapshot() == old(db.Snapshot()).(channels := WithCrawlFlag(old(db.channels), channelId, false))
    ensures Classify(page).Halt? && Classify(page).stop.Crash? ==> db.Snapshot() == old(db.Snapshot())
  {
    next := snowflake;
    stop := None;
    match page {
      case Messages(items) =>
        if |items| > 0 {
          var r := db.UpsertMessages(items, channelId);
          if r.Fail? {
            stop := Some(Crash(Db(r.error)));
          } else {
            next := GetSnowflake(items).value;
          }
        } else {
          stop := Some(Exhausted);
          db.CreateChannelCrawlLog(channelId, lowId, snowflake, clock.startedAt, clock.endedAt);
        }
      case ErrorObject =>
        var r := db.ChannelCrawlEnabled(Some(channelId), Some(false));
        stop := Some(ErrorResponse);
      case JsonString(text) =>
        if |text| == 0 {
          stop := Some(Exhausted);
          db.CreateChannelCrawlLog(channelId, lowId, snowflake, clock.startedAt, clock.endedAt);
        }
      case JsonScalar =>
        stop := Some(Crash(TypeError));
      case TooManyRequests =>
        stop := Some(Crash(RateLimited));
      case NotJson =>
        stop := Some(Crash(DecodeError));
    }
  }

  /**
   * The `more_messages` loop over the fetched pages, proved against
   * `PageLoop`: it stops where `PageLoop` stops, with the same messages and
   * cursor, having logged or disabled exactly as the terminal page demands.
   * `None` means the pages ran out with the loop still running.
   */
  method CrawlPages(db: Database, channelId: Id, lowId: Id, pages: seq<Page>, clock: Clock)
    returns (stop: Option<Stop>, highId: Id)
    modifies db
    ensures var r := PageLoop(old(db.messages), lowId, pages);
      && (stop.None? <==> r.stop.OutOfPages?)
      && (stop.Some? ==> stop.value == r.stop)
      && (r.stop == Exhausted ==> highId == r.cursor && db.Snapshot() == old(db.Snapshot()).(messages := r.messages,
            crawlLog := old(db.crawlLog) + [CrawlLogEntry(clock.startedAt, clock.endedAt, lowId, r.cursor, channelId)]))
      && (r.stop == ErrorResponse ==>
            db.Snapshot() == old(db.Snapshot()).(messages := r.messages, channels := WithCrawlFlag(old(db.channels), channelId, false)))
  {
    ghost var start := db.Snapshot();
    ghost var whole := PageLoop(start.messages, lowId, pages);
    var snowflake := lowId;
    var i := 0;
    // `more_messages` holds on every iteration: a page that clears it returns at once
    while i < |pages|
      invariant 0 <= i <= |pages|
      invariant db.Snapshot() == start.(messages := db.messages)
      invariant whole == LoopTail(PageLoop(db.messages, snowflake, pages[i..]), i)
      decreases |pages| - i
    {
      var page := pages[i];
      assert pages[i..][0] == page && pages[i..][1..] == pages[i + 1..];
      PageLoopUnfold(db.messages, snowflake, pages[i..]);
      var next;
      stop, next := CrawlPage(db, channelId, lowId, snowflake, page, clock);
      i := i + 1;
      if stop.Some? {
        highId := snowflake;
        return;
      }
      snowflake := next;
    }
    assert pages[i..] == [];
    stop, highId := None, lowId;
  }

  /**
   * One iteration of the worker's `while True`: claim a channel, read its
   * cursor, crawl pages until a terminal page, stamp `last_update`, commit.
   */
  method CrawlPass(db: Database, locked: set<Id>, clients: set<string>, pages: seq<Page>, clock: Clock)
    returns (claimed: Option<Id>, end: PassEnd)
    modifies db
    ensures IsClaim(old(db.Snapshot()), locked, claimed)
    ensures (end, db.Snapshot()) == RunPass(old(db.Snapshot()), claimed, clients, pages, clock)
  {
    var start := db.Snapshot();
    claimed := ClaimChannel(db, locked);
    if claimed.None? {
      // `channel['channel_id']` on the missing row raises
      return claimed, NoEligibleChannel;
    }
    var channelId := claimed.value;
    var snowflake := StartingCursor(db.crawlLog, channelId);
    var bot := SelfbotName(start, channelId);
    if bot.None? || bot.value !in clients {
      // `discord_apis[...]` raises before the first fetch
      return claimed, NoClient;
    }
    var lowId := snowflake;
    var stop, highId := CrawlPages(db, channelId, lowId, pages, clock);
    PageLoopKeepsRows(start.messages, lowId, pages);
    if stop.None? {
      db.Rollback(start);
      return claimed, Interrupted;
    }
    if stop.value.Crash? {
      db.Rollback(start);
      return claimed, Crashed(stop.value.fault);
    }
    var marked := db.ChannelMarkLastUpdate(Some(channelId), clock.now);
    if marked.Fail? {
      db.Rollback(start);
      return claimed, Crashed(Db(marked.error));
    }
    // `db_conn.commit()`
    end := if stop.value == Exhausted then Completed(lowId, highId) else Disabled;
  }

  /** The loop result seen from `skipped` pages earlier. */
  function LoopTail(r: LoopResult, skipped: nat): (tail: LoopResult) {
    r.(continued := r.continued + skipped)
  }

  /** The inputs of one iteration of the worker loop. */
  datatype Iteration = Iteration(locked: set<Id>, pages: seq<Page>, clock: Clock)

  /** How the worker process ends. */
  datatype WorkerExit =
    | NoSelfbots              // `exit(1)` at startup
    | TokenRequired           // a selfbot with an empty token: the API client refuses it
    | Stopped(end: PassEnd)   // an exception ended `while True`
    | StillRunning            // the iterations given to the model ran out

  /** The API clients built at startup, keyed by selfbot username; an empty token raises. */
  function ClientRegistry(rows: map<Id, Selfbot>): (r: Result<set<string>, WorkerExit>)
    ensures r.Err? <==> exists id :: id in rows && rows[id].token == ""
    ensures r.Err? ==> r.error == TokenRequired
    ensures r.Ok? ==> forall name :: name in r.value <==> exists id :: id in rows && rows[id].username == name
  {
    if exists id :: id in rows && rows[id].token == "" then Err(TokenRequired)
    else Ok(set id | id in rows :: rows[id].username)
  }

  /**
   * The passes of the worker loop, from store `t`, given what each pass
   * claimed: each pass is `RunPass` on the store the previous one committed,
   * until one does not commit, which ends the loop with `Stopped`.
   */
  function Passes(t: Tables, clients: set<string>, iterations: seq<Iteration>, claims: seq<Option<Id>>): (r: (WorkerExit, Tables))
    requires |claims| == |iterations|
    ensures r.0.StillRunning? || (r.0.Stopped? && !(r.0.end.Completed? || r.0.end.Disabled?))
    decreases |iterations|
  {
    if iterations == [] then (StillRunning, t)
    else
      var n := |iterations| - 1;
      var prev := Passes(t, clients, iterations[..n], claims[..n]);
      if !prev.0.StillRunning? then prev
      else
        var pass := RunPass(prev.1, claims[n], clients, iterations[n].pages, iterations[n].clock);
        (if pass.0.Completed? || pass.0.Disabled? then StillRunning else Stopped(pass.0), pass.1)
  }

  /** Each pass that runs claims by the claim rule, on the store the passes before it committed. */
  ghost predicate ClaimsValid(t: Tables, clients: set<string>, iterations: seq<Iteration>, claims: seq<Option<Id>>)
    requires |claims| == |iterations|
    decreases |iterations|
  {
    iterations != [] ==>
      var n := |iterations| - 1;
      var prev := Passes(t, clients, iterations[..n], claims[..n]);
      && ClaimsValid(t, clients, iterations[..n], claims[..n])
      && (prev.0.StillRunning? ==> IsClaim(prev.1, iterations[n].locked, claims[n]))
  }

  /** One more pass after passes that all committed. */
  lemma PassesExtend(t: Tables, clients: set<string>, iterations: seq<Iteration>, claims: seq<Option<Id>>, claimed: Option<Id>)
    requires |claims| < |iterations|
    requires Passes(t, clients, iterations[..|claims|], claims).0.StillRunning?
    ensures var i := |claims|;
      var pass := RunPass(Passes(t, clients, iterations[..i], claims).1, claimed, clients, iterations[i].pages, iterations[i].clock);
      Passes(t, clients, iterations[..i + 1], claims + [claimed])
        == (if pass.0.Completed? || pass.0.Disabled? then StillRunning else Stopped(pass.0), pass.1)
  {
    var i := |claims|;
    var its, cs := iterations[..i + 1], claims + [claimed];
    assert its[..i] == iterations[..i] && cs[..i] == claims && its[i] == iterations[i] && cs[i] == claimed;
  }

  /** The claim of that one more pass is checked against the store the earlier passes left. */
  lemma ClaimsValidExtend(t: Tables, clients: set<string>, iterations: seq<Iteration>, claims: seq<Option<Id>>, claimed: Option<Id>)
    requires |claims| < |iterations|
    requires Passes(t, clients, iterations[..|claims|], claims).0.StillRunning?
    requires ClaimsValid(t, clients, iterations[..|claims|], claims)
    requires IsClaim(Passes(t, clients, iterations[..|claims|], claims).1, iterations[|claims|].locked, claimed)
    ensures ClaimsValid(t, clients, iterations[..|claims| + 1], claims + [claimed])
  {
    var i := |claims|;
    var its, cs := iterations[..i + 1], claims + [claimed];
    assert its[..i] == iterations[..i] && cs[..i] == claims && its[i] == iterations[i] && cs[i] == claimed;
  }

  /**
   * The worker: startup, then claim-and-crawl passes until one raises.
   * `claims` records what each pass that ran claimed.
   */
  method RunWorker(db: Database, iterations: seq<Iteration>) returns (exit: WorkerExit, ghost claims: seq<Option<Id>>)
    modifies db
    ensures exit.NoSelfbots? <==> old(db.selfbots) == map[]
    ensures exit.TokenRequired? <==>
      old(db.selfbots) != map[] && exists id :: id in old(db.selfbots) && old(db.selfbots)[id].token == ""
    ensures exit.NoSelfbots? || exit.TokenRequired? ==> db.Snapshot() == old(db.Snapshot())
    ensures exit.Stopped? ==> !(exit.end.Completed? || exit.end.Disabled?)
    ensures exit.StillRunning? ==> |claims| == |iterations|
    ensures exit.Stopped? || exit.StillRunning? ==>
      && ClientRegistry(old(db.selfbots)).Ok?
      && |claims| <= |iterations|
      && ClaimsValid(old(db.Snapshot()), ClientRegistry(old(db.selfbots)).value, iterations[..|claims|], claims)
      && (exit, db.Snapshot()) == Passes(old(db.Snapshot()), ClientRegistry(old(db.selfbots)).value, iterations[..|claims|], claims)
    ensures Progressed(old(db.Snapshot()), db.Snapshot())
    ensures forall c :: StartingCursor(old(db.crawlLog), c) <= StartingCursor(db.crawlLog, c)
  {
    claims := [];
    var rows := db.GetSelfbots();
    if rows.None? {
      return NoSelfbots, claims;
    }
    var registry := ClientRegistry(rows.value);
    if registry.Err? {
      return registry.error, claims;
    }
    var clients := registry.value;
    ghost var t0 := db.Snapshot();
    var i := 0;
    while i < |iterations|
      invariant 0 <= i <= |iterations| && |claims| == i
      invariant Progressed(t0, db.Snapshot())
      invariant db.selfbots == t0.selfbots
      invariant ClaimsValid(t0, clients, iterations[..i], claims)
      invariant Passes(t0, clients, iterations[..i], claims) == (StillRunning, db.Snapshot())
    {
      ghost var before := db.Snapshot();
      var claimed, end := CrawlPass(db, iterations[i].locked, clients, iterations[i].pages, iterations[i].clock);
      PassesExtend(t0, clients, iterations, claims, claimed);
      ClaimsValidExtend(t0, clients, iterations, claims, claimed);
      claims := claims + [claimed];
      PassProgresses(before, claimed, clients, iterations[i].pages, iterations[i].clock, 0);
      ProgressedTransitive(t0, before, db.Snapshot());
      if !(end.Completed? || end.Disabled?) {
        exit := Stopped(end);
        CursorsKept(t0, db.Snapshot());
        return;
      }
      i := i + 1;
    }
    assert iterations[..i] == iterations;
    CursorsKept(t0, db.Snapshot());
    exit := StillRunning;
  }

  lemma CursorsKept(t: Tables, u: Tables)
    requires Progressed(t, u)
    ensures forall c :: StartingCursor(t.crawlLog, c) <= StartingCursor(u.crawlLog, c)
  {
    forall c ensures StartingCursor(t.crawlLog, c) <= StartingCursor(u.crawlLog, c) {
      CursorNeverDecreases(t.crawlLog, u.crawlLog, c);
    }
  }
}
