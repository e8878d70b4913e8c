/** The counting both statistics middlewares perform after a successful
    request: the (today, channel) row of `message_stats` is created with zero
    counters if absent, its `message_count` is raised, and its
    `conversation_count` too when a conversation of that user identifier was
    created today. */
module DailyStatistics {
  import opened Php
  import opened Storage

  /** `$isNewConversation`: a conversation of the channel and identifier has
      today's creation date. An identifier with no string form matches no row. */
  predicate CreatedToday(db: Db, channel: string, identifier: Option<string>, now: Time) {
    identifier.Some?
    && FirstMatch(db.conversations, ConversationQuery(channel, identifier.value, Some(DayOf(now)))).Some?
  }

  /** trackStatistics once the identifier is known to be truthy. */
  function Tracked(db: Db, channel: string, identifier: Option<string>, now: Time): Db {
    var key := StatKey(DayOf(now), channel);
    var counted := db.(stats := Incremented(db.stats, key, MessageCount));
    if CreatedToday(db, channel, identifier, now) then counted.(stats := Incremented(counted.stats, key, ConversationCount))
    else counted
  }

  /** The "new conversation" test holds exactly when some row of the channel
      and identifier was created on today's date, however many requests
      came before today's. */
  lemma CreatedTodayMeans(db: Db, channel: string, identifier: string, now: Time)
    ensures CreatedToday(db, channel, Some(identifier), now) <==>
      exists i :: 0 <= i < |db.conversations|
        && db.conversations[i].channel == channel && db.conversations[i].userIdentifier == identifier
        && DayOf(db.conversations[i].createdAt) == DayOf(now)
  {
    var q := ConversationQuery(channel, identifier, Some(DayOf(now)));
    if CreatedToday(db, channel, Some(identifier), now) {
      var i := FirstMatch(db.conversations, q).value;
      assert Matches(db.conversations[i], q);
    }
  }

  /** Tracking raises today's `message_count` of the channel by one, and its
      `conversation_count` by one exactly when a conversation was created
      today; the row exists afterwards, every other row is untouched, and no
      conversation or log changes. */
  lemma TrackedEffect(db: Db, channel: string, identifier: Option<string>, now: Time)
    ensures var db1 := Tracked(db, channel, identifier, now);
            var key := StatKey(DayOf(now), channel);
            && db1.conversations == db.conversations && db1.logs == db.logs
            && key in db1.stats
            && db1.Count(DayOf(now), channel, MessageCount) == db.Count(DayOf(now), channel, MessageCount) + 1
            && db1.Count(DayOf(now), channel, ConversationCount)
               == db.Count(DayOf(now), channel, ConversationCount) + (if CreatedToday(db, channel, identifier, now) then 1 else 0)
            && (forall k :: k != key ==> (k in db1.stats <==> k in db.stats))
            && (forall k :: k != key && k in db.stats ==> db1.stats[k] == db.stats[k])
  {
  }

  /** Counting touches only `message_stats`, so the invariants are kept. */
  lemma TrackedPreservesInvariants(db: Db, channel: string, identifier: Option<string>, now: Time)
    requires db.Consistent()
    ensures Tracked(db, channel, identifier, now).Consistent()
  {
    ConsistentAfterUpdate(db, Tracked(db, channel, identifier, now));
  }

  /** The counting, on the mutable store. */
  method Track(db: Store, channel: string, identifier: Option<string>, now: Time)
    modifies db
    ensures db.State() == Tracked(old(db.State()), channel, identifier, now)
  {
    var isNewConversation := false;
    if identifier.Some? {
      var conversation := db.First(ConversationQuery(channel, identifier.value, Some(DayOf(now))));
      isNewConversation := conversation.Some?;
    }
    var key := StatKey(DayOf(now), channel);
    db.FirstOrCreateStat(key);
    db.Increment(key, MessageCount);
    if isNewConversation {
      db.Increment(key, ConversationCount);
    }
  }
}
