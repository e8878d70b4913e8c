/** The application's persistent state: the `conversations` table, the
    `message_stats` table keyed uniquely by (stat_date, channel), and the
    per-conversation message log. `Db` is its value; `Store` is the mutable
    database that the services change in place. */
module Storage {
  import opened Php

  /** A point in time in whole seconds; every operation is handed its "now". */
  type Time = int

  const SecondsPerDay := 86400

  /** The calendar day a time falls on (Carbon::today(), whereDate, isToday). */
  function DayOf(t: Time): int {
    t / SecondsPerDay
  }

  /** The optional `$extraData` of findOrCreateConversation. */
  datatype Seed = Seed(telegramUserId: Option<string>, telegramUsername: Option<string>)

  const NoSeed := Seed(None, None)

  /** A row of `conversations`; `extraData` is the free-form settings document. */
  datatype Conversation = Conversation(
    id: nat,
    channel: string,
    userIdentifier: string,
    telegramUserId: Option<string>,
    telegramUsername: Option<string>,
    lastMessageAt: Time,
    createdAt: Time,
    extraData: Value)

  /** One logged turn of a conversation. */
  datatype Message = Message(role: string, content: string, createdAt: Time)

  datatype StatKey = StatKey(statDate: int, channel: string)

  /** A row of `message_stats`. */
  datatype Stat = Stat(messageCount: nat, conversationCount: nat)

  datatype Counter = MessageCount | ConversationCount

  /** `where('channel', ..)->where('user_identifier', ..)`, optionally
      `->whereDate('created_at', day)`. */
  datatype ConversationQuery = ConversationQuery(channel: string, userIdentifier: string, createdOn: Option<int>)

  function OwnedBy(channel: string, userIdentifier: string): ConversationQuery {
    ConversationQuery(channel, userIdentifier, None)
  }

  predicate Matches(c: Conversation, q: ConversationQuery) {
    && c.channel == q.channel
    && c.userIdentifier == q.userIdentifier
    && (q.createdOn.Some? ==> DayOf(c.createdAt) == q.createdOn.value)
  }

  /** `->first()`: the position of the first row, in table order, that the query matches. */
  function FirstMatch(rows: seq<Conversation>, q: ConversationQuery): (r: Option<nat>)
    ensures r.Some? ==> r.value < |rows| && Matches(rows[r.value], q)
    ensures r.Some? ==> forall j :: 0 <= j < r.value ==> !Matches(rows[j], q)
    ensures r.None? ==> forall j :: 0 <= j < |rows| ==> !Matches(rows[j], q)
  {
    if rows == [] then None
    else if Matches(rows[0], q) then Some(0)
    else match FirstMatch(rows[1..], q)
      case None => None
      case Some(i) => Some(i + 1)
  }

  /** Rows that agree on which of them match a query have the same first match. */
  lemma FirstMatchAgrees(rows: seq<Conversation>, rows': seq<Conversation>, q: ConversationQuery)
    requires |rows| == |rows'|
    requires forall i :: 0 <= i < |rows| ==> (Matches(rows[i], q) <==> Matches(rows'[i], q))
    ensures FirstMatch(rows, q) == FirstMatch(rows', q)
  {
  }

  /** `$conversation->update([...])`: every row with that id gets a new `last_message_at`. */
  function TouchRows(rows: seq<Conversation>, id: nat, now: Time): (r: seq<Conversation>)
    ensures |r| == |rows|
    ensures forall i :: 0 <= i < |r| ==> r[i] == if rows[i].id == id then rows[i].(lastMessageAt := now) else rows[i]
  {
    seq(|rows|, i requires 0 <= i < |rows| =>
      if rows[i].id == id then rows[i].(lastMessageAt := now) else rows[i])
  }

  /** `$conversation->update(['extra_data' => ...])` on the row with that id. */
  function SetExtraData(rows: seq<Conversation>, id: nat, doc: Value): (r: seq<Conversation>)
    ensures |r| == |rows|
    ensures forall i :: 0 <= i < |r| ==> r[i] == if rows[i].id == id then rows[i].(extraData := doc) else rows[i]
  {
    seq(|rows|, i requires 0 <= i < |rows| =>
      if rows[i].id == id then rows[i].(extraData := doc) else rows[i])
  }

  function CounterOf(s: Stat, c: Counter): nat {
    match c
    case MessageCount => s.messageCount
    case ConversationCount => s.conversationCount
  }

  function OtherCounter(c: Counter): Counter {
    match c
    case MessageCount => ConversationCount
    case ConversationCount => MessageCount
  }

  /** The value of a counter; a row that does not exist yet counts zero. */
  function CountIn(stats: map<StatKey, Stat>, key: StatKey, c: Counter): nat {
    if key in stats then CounterOf(stats[key], c) else 0
  }

  /** `MessageStat::firstOrCreate($key, zeros)->increment($counter)`. */
  function Incremented(stats: map<StatKey, Stat>, key: StatKey, c: Counter): (r: map<StatKey, Stat>)
    ensures key in r
    ensures CountIn(r, key, c) == CountIn(stats, key, c) + 1
    ensures CountIn(r, key, OtherCounter(c)) == CountIn(stats, key, OtherCounter(c))
    ensures forall k :: k != key ==> (k in r <==> k in stats)
    ensures forall k :: k != key && k in stats ==> r[k] == stats[k]
  {
    var row := if key in stats then stats[key] else Stat(0, 0);
    match c
    case MessageCount => stats[key := row.(messageCount := row.messageCount + 1)]
    case ConversationCount => stats[key := row.(conversationCount := row.conversationCount + 1)]
  }

  datatype Db = Db(conversations: seq<Conversation>, stats: map<StatKey, Stat>, logs: map<nat, seq<Message>>)
  {
    /** Row i carries the auto-increment id i + 1 (rows are never deleted). */
    ghost predicate Valid() {
      forall i :: 0 <= i < |conversations| ==> conversations[i].id == i + 1
    }

    /** At most one row per (channel, user_identifier). */
    ghost predicate Unique() {
      forall i, j :: 0 <= i < j < |conversations| ==>
        !Matches(conversations[j], OwnedBy(conversations[i].channel, conversations[i].userIdentifier))
    }

    /** Every log belongs to a conversation that exists. */
    ghost predicate LogsOwned() {
      forall id :: id in logs ==> 0 < id <= |conversations|
    }

    /** The invariants every state the application reaches keeps. */
    ghost predicate Consistent() {
      Valid() && Unique() && LogsOwned()
    }

    /** The message log of a conversation; a missing log reads as empty. */
    function Log(id: nat): seq<Message> {
      if id in logs then logs[id] else []
    }

    function Count(day: int, channel: string, c: Counter): nat {
      CountIn(stats, StatKey(day, channel), c)
    }
  }

  const EmptyDb := Db([], map[], map[])

  /** The empty database, where the application starts, is consistent; the
      operations' preservation lemmas carry this to every reachable state. */
  lemma EmptyDbConsistent()
    ensures EmptyDb.Consistent()
  {
  }

  /** Rows rewritten in place with their ids and owners kept, counters
      changed at will, and logs added only for existing rows: the invariants
      carry over. */
  lemma ConsistentAfterUpdate(db: Db, db': Db)
    requires db.Consistent()
    requires |db'.conversations| == |db.conversations|
    requires forall i :: 0 <= i < |db.conversations| ==>
               && db'.conversations[i].id == db.conversations[i].id
               && db'.conversations[i].channel == db.conversations[i].channel
               && db'.conversations[i].userIdentifier == db.conversations[i].userIdentifier
    requires forall id :: id in db'.logs ==> id in db.logs || 0 < id <= |db.conversations|
    ensures db'.Consistent()
  {
    var rows, rows' := db.conversations, db'.conversations;
    forall i, j | 0 <= i < j < |rows'|
      ensures !Matches(rows'[j], OwnedBy(rows'[i].channel, rows'[i].userIdentifier))
    {
      assert !Matches(rows[j], OwnedBy(rows[i].channel, rows[i].userIdentifier));
    }
  }

  class Store {
    var conversations: seq<Conversation>
    var stats: map<StatKey, Stat>
    var logs: map<nat, seq<Message>>

    function State(): Db
      reads this
    {
      Db(conversations, stats, logs)
    }

    constructor ()
      ensures State() == EmptyDb
    {
      conversations, stats, logs := [], map[], map[];
    }

    /** The query's `->first()`. */
    method First(q: ConversationQuery) returns (r: Option<nat>)
      ensures r == FirstMatch(conversations, q)
    {
      var i := 0;
      while i < |conversations|
        invariant 0 <= i <= |conversations|
        invariant forall j :: 0 <= j < i ==> !Matches(conversations[j], q)
      {
        if Matches(conversations[i], q) {
          return Some(i);
        }
        i := i + 1;
      }
      return None;
    }

    /** `Conversation::create([...])`. */
    method Insert(c: Conversation)
      modifies this
      ensures State() == old(State()).(conversations := old(conversations) + [c])
    {
      conversations := conversations + [c];
    }

    method Touch(id: nat, now: Time)
      modifies this
      ensures State() == old(State()).(conversations := TouchRows(old(conversations), id, now))
    {
      conversations := TouchRows(conversations, id, now);
    }

    method UpdateExtraData(id: nat, doc: Value)
      modifies this
      ensures State() == old(State()).(conversations := SetExtraData(old(conversations), id, doc))
    {
      conversations := SetExtraData(conversations, id, doc);
    }

    /** `MessageStat::firstOrCreate($key, ['message_count' => 0, 'conversation_count' => 0])`. */
    method FirstOrCreateStat(key: StatKey)
      modifies this
      ensures key in stats
      ensures State() == old(State()).(stats := if key in old(stats) then old(stats) else old(stats)[key := Stat(0, 0)])
    {
      if key !in stats {
        stats := stats[key := Stat(0, 0)];
      }
    }

    /** `$stat->increment($counter)` on an existing row. */
    method Increment(key: StatKey, c: Counter)
      requires key in stats
      modifies this
      ensures State() == old(State()).(stats := Incremented(old(stats), key, c))
    {
      var row := stats[key];
      match c
      case MessageCount => stats := stats[key := row.(messageCount := row.messageCount + 1)];
      case ConversationCount => stats := stats[key := row.(conversationCount := row.conversationCount + 1)];
    }

    /** Appends one entry to a conversation's log. */
    method Append(id: nat, m: Message)
      modifies this
      ensures State() == old(State()).(logs := old(logs)[id := old(State()).Log(id) + [m]])
    {
      var log := if id in logs then logs[id] else [];
      logs := logs[id := log + [m]];
    }

    /** Deletes a conversation's log outright. */
    method DeleteLog(id: nat)
      modifies this
      ensures State() == old(State()).(logs := old(logs) - {id})
    {
      logs := logs - {id};
    }
  }
}
