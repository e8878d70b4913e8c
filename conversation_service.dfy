/** The conversation orchestrator shared by the web chat and the Telegram bot:
    it finds or creates the conversation of a (channel, user identifier),
    logs each turn, asks the completion client about the newest turns and
    keeps the daily counters of `message_stats`. Each operation is a method on
    the `Store`, specified by a function on `Db` of the same behaviour. */
module ConversationService {
  import opened Php
  import opened Storage
  import GeminiService

  /** getConversationHistory's default `$limit`. */
  const DefaultHistoryLimit: nat := 20

  /** incrementMessageCount / incrementConversationCount: the (today, channel)
      row, created with both counters at zero if absent, gets one counter raised. */
  function Counted(db: Db, channel: string, now: Time, c: Counter): Db {
    db.(stats := Incremented(db.stats, StatKey(DayOf(now), channel), c))
  }

  /** The row findOrCreateConversation inserts for a never-seen identifier. */
  function NewConversation(db: Db, channel: string, userIdentifier: string, seed: Seed, now: Time): Conversation {
    Conversation(|db.conversations| + 1, channel, userIdentifier,
      seed.telegramUserId, seed.telegramUsername, now, now, Null)
  }

  /** findOrCreateConversation: the state afterwards and the conversation returned. */
  function FindOrCreate(db: Db, channel: string, userIdentifier: string, seed: Seed, now: Time): (r: (Db, Conversation))
    ensures Matches(r.1, OwnedBy(channel, userIdentifier))
  {
    match FirstMatch(db.conversations, OwnedBy(channel, userIdentifier))
    case Some(i) => (db, db.conversations[i])
    case None =>
      var c := NewConversation(db, channel, userIdentifier, seed, now);
      (Counted(db.(conversations := db.conversations + [c]), channel, now, ConversationCount), c)
  }

  /** storeMessage: one entry appended to the log, `last_message_at` set, and
      `message_count` of the conversation's channel raised. */
  function Stored(db: Db, conv: Conversation, role: string, content: string, now: Time): Db {
    var logged := db.(logs := db.logs[conv.id := db.Log(conv.id) + [Message(role, content, now)]]);
    Counted(logged.(conversations := TouchRows(logged.conversations, conv.id, now)), conv.channel, now, MessageCount)
  }

  function Reverse<T>(s: seq<T>): (r: seq<T>)
    ensures |r| == |s|
  {
    if s == [] then [] else Reverse(s[1..]) + [s[0]]
  }

  lemma {:induction false} ReverseAt<T>(s: seq<T>)
    ensures forall i :: 0 <= i < |s| ==> Reverse(s)[i] == s[|s| - 1 - i]
  {
    if s != [] {
      ReverseAt(s[1..]);
    }
  }

  function Min(a: nat, b: nat): nat {
    if a < b then a else b
  }

  /** The `map` to {role, content}: timestamps are dropped. */
  function Project(ms: seq<Message>): (r: seq<GeminiService.Turn>)
    ensures |r| == |ms|
  {
    seq(|ms|, i requires 0 <= i < |ms| => GeminiService.Turn(ms[i].role, ms[i].content))
  }

  /** getConversationHistory: newest first, `limit` of them, reversed back,
      projected to role and content. */
  function ConversationHistory(log: seq<Message>, limit: nat): seq<GeminiService.Turn> {
    var newestFirst := Reverse(log);
    var window := newestFirst[..Min(limit, |log|)];
    Project(Reverse(window))
  }

  /** The history is the last min(n, limit) logged turns, in the order they
      were logged. */
  lemma {:induction false} ConversationHistoryIsNewestWindow(log: seq<Message>, limit: nat)
    ensures ConversationHistory(log, limit) == Project(log[|log| - Min(limit, |log|)..])
  {
    var k := Min(limit, |log|);
    var window := Reverse(log)[..k];
    ReverseAt(log);
    ReverseAt(window);
    assert Reverse(window) == log[|log| - k..];
  }

  /** The history handed to the completion client once the user's turn is logged. */
  function Context(db: Db, conv: Conversation, text: string, now: Time): seq<GeminiService.Turn> {
    ConversationHistory(Stored(db, conv, "user", text, now).Log(conv.id), DefaultHistoryLimit)
  }

  /** processMessage: the state afterwards and the answer returned. */
  function Processed(db: Db, conv: Conversation, text: string, now: Time, backend: GeminiService.Backend): (Db, Option<string>) {
    var withUser := Stored(db, conv, "user", text, now);
    var answer := GeminiService.Generated(backend, Context(db, conv, text, now));
    if Truthy(answer) then (Stored(withUser, conv, "assistant", answer.value, now), answer)
    else (withUser, answer)
  }

  // ---------------------------------------------------------------------------
  // Properties

  /** A second call for the same (channel, identifier) returns the conversation
      the first returned, and changes nothing, whatever its seed and time. */
  lemma FindOrCreateIdempotent(db: Db, channel: string, userIdentifier: string,
                               seed: Seed, now: Time, seed': Seed, now': Time)
    ensures var (db1, c1) := FindOrCreate(db, channel, userIdentifier, seed, now);
            FindOrCreate(db1, channel, userIdentifier, seed', now') == (db1, c1)
  {
    var q := OwnedBy(channel, userIdentifier);
    var (db1, c1) := FindOrCreate(db, channel, userIdentifier, seed, now);
    if FirstMatch(db.conversations, q).None? {
      assert db1.conversations == db.conversations + [c1];
      var again := FirstMatch(db1.conversations, q);
      assert again == Some(|db.conversations|) by {
        assert db1.conversations[|db.conversations|] == c1;
      }
    }
  }

  /** `conversation_count` of (today, channel) rises by one exactly when a
      conversation is created; no other counter or row changes. */
  lemma FindOrCreateCountsCreation(db: Db, channel: string, userIdentifier: string, seed: Seed, now: Time)
    ensures var db1 := FindOrCreate(db, channel, userIdentifier, seed, now).0;
            var created := FirstMatch(db.conversations, OwnedBy(channel, userIdentifier)).None?;
            && db1.Count(DayOf(now), channel, ConversationCount)
               == db.Count(DayOf(now), channel, ConversationCount) + (if created then 1 else 0)
            && db1.Count(DayOf(now), channel, MessageCount) == db.Count(DayOf(now), channel, MessageCount)
            && (forall k :: k != StatKey(DayOf(now), channel) ==> (k in db1.stats <==> k in db.stats))
            && (forall k :: k != StatKey(DayOf(now), channel) && k in db.stats ==> db1.stats[k] == db.stats[k])
            && db1.logs == db.logs
  {
  }

  /** The seed is read only on creation: an existing conversation is returned
      as stored, and a new one carries the seed and the creation time. */
  lemma SeedOnlyOnCreation(db: Db, channel: string, userIdentifier: string, seed: Seed, now: Time)
    ensures var c := FindOrCreate(db, channel, userIdentifier, seed, now).1;
            match FirstMatch(db.conversations, OwnedBy(channel, userIdentifier))
            case Some(i) => c == db.conversations[i]
            case None =>
              && c.telegramUserId == seed.telegramUserId && c.telegramUsername == seed.telegramUsername
              && c.createdAt == now && c.lastMessageAt == now && c.extraData == Null
  {
  }

  /** findOrCreate keeps ids sequential and (channel, identifier) unique, and
      the conversation it returns is a row of the table afterwards. */
  lemma FindOrCreatePreservesInvariants(db: Db, channel: string, userIdentifier: string, seed: Seed, now: Time)
    requires db.Valid() && db.Unique()
    ensures var (db1, c) := FindOrCreate(db, channel, userIdentifier, seed, now);
            && db1.Valid() && db1.Unique() && 0 < c.id <= |db1.conversations| && db1.conversations[c.id - 1] == c
            && (db.LogsOwned() ==> db1.LogsOwned())
  {
    var q := OwnedBy(channel, userIdentifier);
    var (db1, c) := FindOrCreate(db, channel, userIdentifier, seed, now);
    if FirstMatch(db.conversations, q).None? {
      assert db1.conversations == db.conversations + [c];
      forall i, j | 0 <= i < j < |db1.conversations|
        ensures !Matches(db1.conversations[j], OwnedBy(db1.conversations[i].channel, db1.conversations[i].userIdentifier))
      {
        if j == |db.conversations| {
          assert !Matches(db.conversations[i], q);
        }
      }
    }
  }

  /** Storing a turn in an existing conversation keeps the invariants. */
  lemma StoredPreservesInvariants(db: Db, conv: Conversation, role: string, content: string, now: Time)
    requires db.Consistent() && 0 < conv.id <= |db.conversations|
    ensures var db1 := Stored(db, conv, role, content, now);
            db1.Consistent() && |db1.conversations| == |db.conversations|
  {
    ConsistentAfterUpdate(db, Stored(db, conv, role, content, now));
  }

  /** processMessage on an existing conversation keeps the invariants. */
  lemma ProcessedPreservesInvariants(db: Db, conv: Conversation, text: string, now: Time, backend: GeminiService.Backend)
    requires db.Consistent() && 0 < conv.id <= |db.conversations|
    ensures Processed(db, conv, text, now, backend).0.Consistent()
  {
    StoredPreservesInvariants(db, conv, "user", text, now);
    var answer := GeminiService.Generated(backend, Context(db, conv, text, now));
    if Truthy(answer) {
      StoredPreservesInvariants(Stored(db, conv, "user", text, now), conv, "assistant", answer.value, now);
    }
  }

  /** storeMessage appends exactly one entry to this conversation's log and
      leaves every other log alone; it moves only this conversation's
      `last_message_at` and only the (today, channel) `message_count`. */
  lemma StoredEffect(db: Db, conv: Conversation, role: string, content: string, now: Time)
    ensures var db1 := Stored(db, conv, role, content, now);
            && db1.Log(conv.id) == db.Log(conv.id) + [Message(role, content, now)]
            && (forall id :: id != conv.id ==> db1.Log(id) == db.Log(id))
            && |db1.conversations| == |db.conversations|
            && (forall i :: 0 <= i < |db.conversations| ==>
                 db1.conversations[i] == if db.conversations[i].id == conv.id
                                         then db.conversations[i].(lastMessageAt := now)
                                         else db.conversations[i])
            && db1.Count(DayOf(now), conv.channel, MessageCount) == db.Count(DayOf(now), conv.channel, MessageCount) + 1
            && db1.Count(DayOf(now), conv.channel, ConversationCount) == db.Count(DayOf(now), conv.channel, ConversationCount)
            && (forall k :: k != StatKey(DayOf(now), conv.channel) && k in db.stats ==> k in db1.stats && db1.stats[k] == db.stats[k])
  {
  }

  /** The last turn the completion client sees is the user's new message, and
      it sees at most the default limit of turns. */
  lemma ContextEndsWithUserTurn(db: Db, conv: Conversation, text: string, now: Time)
    ensures var ctx := Context(db, conv, text, now);
            && |ctx| == Min(DefaultHistoryLimit, |db.Log(conv.id)| + 1)
            && ctx[|ctx| - 1] == GeminiService.Turn("user", text)
  {
    var log := Stored(db, conv, "user", text, now).Log(conv.id);
    StoredEffect(db, conv, "user", text, now);
    ConversationHistoryIsNewestWindow(log, DefaultHistoryLimit);
  }

  /** processMessage logs the user's turn, and the assistant's turn exactly when
      the answer is truthy; the answer returned is the client's, unchanged. */
  lemma ProcessedLog(db: Db, conv: Conversation, text: string, now: Time, backend: GeminiService.Backend)
    ensures var (db1, answer) := Processed(db, conv, text, now, backend);
            && answer == GeminiService.Generated(backend, Context(db, conv, text, now))
            && db1.Log(conv.id) == db.Log(conv.id) + [Message("user", text, now)]
                 + (if Truthy(answer) then [Message("assistant", answer.value, now)] else [])
            && db1.Count(DayOf(now), conv.channel, MessageCount)
               == db.Count(DayOf(now), conv.channel, MessageCount) + (if Truthy(answer) then 2 else 1)
            && (forall id :: id != conv.id ==> db1.Log(id) == db.Log(id))
  {
    var withUser := Stored(db, conv, "user", text, now);
    StoredEffect(db, conv, "user", text, now);
    var answer := GeminiService.Generated(backend, Context(db, conv, text, now));
    if Truthy(answer) {
      StoredEffect(withUser, conv, "assistant", answer.value, now);
    }
  }

  /** processMessage creates no conversation and touches no creation data: the
      rows keep their ids, owners, creation times and settings. */
  lemma ProcessedKeepsRows(db: Db, conv: Conversation, text: string, now: Time, backend: GeminiService.Backend)
    ensures var db1 := Processed(db, conv, text, now, backend).0;
            && |db1.conversations| == |db.conversations|
            && (forall i :: 0 <= i < |db.conversations| ==>
                 db1.conversations[i] == db.conversations[i].(lastMessageAt := db1.conversations[i].lastMessageAt))
            && (forall d, ch :: db1.Count(d, ch, ConversationCount) == db.Count(d, ch, ConversationCount))
  {
    var withUser := Stored(db, conv, "user", text, now);
    StoredEffect(db, conv, "user", text, now);
    var answer := GeminiService.Generated(backend, Context(db, conv, text, now));
    if Truthy(answer) {
      StoredEffect(withUser, conv, "assistant", answer.value, now);
    }
    forall d, ch ensures Processed(db, conv, text, now, backend).0.Count(d, ch, ConversationCount) == db.Count(d, ch, ConversationCount) {
    }
  }

  // ---------------------------------------------------------------------------
  // The service's methods, on the mutable store

  method IncrementMessageCount(db: Store, channel: string, now: Time)
    modifies db
    ensures db.State() == Counted(old(db.State()), channel, now, MessageCount)
  {
    var key := StatKey(DayOf(now), channel);
    db.FirstOrCreateStat(key);
    db.Increment(key, MessageCount);
  }

  method IncrementConversationCount(db: Store, channel: string, now: Time)
    modifies db
    ensures db.State() == Counted(old(db.State()), channel, now, ConversationCount)
  {
    var key := StatKey(DayOf(now), channel);
    db.FirstOrCreateStat(key);
    db.Increment(key, ConversationCount);
  }

  method FindOrCreateConversation(db: Store, channel: string, userIdentifier: string, seed: Seed, now: Time)
    returns (c: Conversation)
    modifies db
    ensures (db.State(), c) == FindOrCreate(old(db.State()), channel, userIdentifier, seed, now)
  {
    var found := db.First(OwnedBy(channel, userIdentifier));
    if found.Some? {
      return db.conversations[found.value];
    }
    c := Conversation(|db.conversations| + 1, channel, userIdentifier,
      seed.telegramUserId, seed.telegramUsername, now, now, Null);
    db.Insert(c);
    IncrementConversationCount(db, channel, now);
  }

  method StoreMessage(db: Store, conv: Conversation, role: string, content: string, now: Time)
    returns (m: Message)
    modifies db
    ensures m == Message(role, content, now)
    ensures db.State() == Stored(old(db.State()), conv, role, content, now)
  {
    m := Message(role, content, now);
    db.Append(conv.id, m);
    db.Touch(conv.id, now);
    IncrementMessageCount(db, conv.channel, now);
  }

  method ProcessMessage(db: Store, conv: Conversation, text: string, now: Time, backend: GeminiService.Backend)
    returns (answer: Option<string>)
    modifies db
    ensures (db.State(), answer) == Processed(old(db.State()), conv, text, now, backend)
  {
    var userTurn := StoreMessage(db, conv, "user", text, now);
    var history := ConversationHistory(db.State().Log(conv.id), DefaultHistoryLimit);
    answer := GeminiService.GenerateResponse(history, backend);
    if Truthy(answer) {
      var assistantTurn := StoreMessage(db, conv, "assistant", answer.value, now);
    }
  }
}
