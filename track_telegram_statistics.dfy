/** The webhook middleware of the bot: after a successful update it counts the
    update's chat in today's telegram statistics. The chat is the one of the
    message, or else of the callback query's message. The response passes
    through as is. */
module TrackTelegramStatistics {
  import opened Php
  import opened Storage
  import opened Http
  import opened DailyStatistics

  const MessageChatId := [Named("message"), Named("chat"), Named("id")]
  const CallbackChatId := [Named("callback_query"), Named("message"), Named("chat"), Named("id")]

  /** `$payload['message']['chat']['id'] ?? $payload['callback_query']['message']['chat']['id'] ?? null` */
  function ChatIdOf(payload: Value): Value {
    Coalesce(Path(payload, MessageChatId), Path(payload, CallbackChatId))
  }

  /** handle: the state after the middleware, given the update's payload and
      the response the webhook handler produced. */
  function TelegramTracked(db: Db, payload: Value, response: Response, now: Time): Db {
    var chatId := ChatIdOf(payload);
    if !IsSuccessful(response.status) || !ValueTruthy(chatId) then db
    else Tracked(db, "telegram", ScalarString(chatId), now)
  }

  /** An update whose message is in chat `id`. */
  function MessageUpdate(id: int, text: string): Value {
    Object(map["message" := Object(map["chat" := Object(map["id" := Int(id)]), "text" := Str(text)])])
  }

  /** A button press on a message in chat `id`. */
  function CallbackUpdate(id: int, data: string): Value {
    Object(map["callback_query" := Object(map["data" := Str(data), "message" := Object(map["chat" := Object(map["id" := Int(id)])])])])
  }

  /** A message update is counted under its chat, a callback query under the
      chat of the message it came from, and an update with neither has no
      chat id. */
  lemma ChatIdSources(id: int, text: string, data: string)
    ensures ChatIdOf(MessageUpdate(id, text)) == Int(id)
    ensures ChatIdOf(CallbackUpdate(id, data)) == Int(id)
    ensures ChatIdOf(Object(map["edited_message" := MessageUpdate(id, text)])) == Null
  {
    var m := MessageUpdate(id, text);
    assert Path(m, MessageChatId) == Int(id) by {
      assert MessageChatId[1..] == [Named("chat"), Named("id")];
    }
    var c := CallbackUpdate(id, data);
    assert Path(c, MessageChatId) == Null by {
      assert Get(c, Named("message")) == Null;
      assert MessageChatId[1..] == [Named("chat"), Named("id")];
      assert MessageChatId[1..][1..] == [Named("id")];
    }
    assert Path(c, CallbackChatId) == Int(id) by {
      assert CallbackChatId[1..] == [Named("message"), Named("chat"), Named("id")];
      assert CallbackChatId[1..][1..] == [Named("chat"), Named("id")];
    }
    var e := Object(map["edited_message" := m]);
    assert Path(e, MessageChatId) == Null by {
      assert MessageChatId[1..] == [Named("chat"), Named("id")];
      assert MessageChatId[1..][1..] == [Named("id")];
    }
    assert Path(e, CallbackChatId) == Null by {
      assert CallbackChatId[1..] == [Named("message"), Named("chat"), Named("id")];
      assert CallbackChatId[1..][1..] == [Named("chat"), Named("id")];
      assert CallbackChatId[1..][1..][1..] == [Named("id")];
    }
  }

  /** Only a successful update with a truthy chat id changes anything, and
      then it raises today's telegram `message_count` by one and its
      `conversation_count` by one exactly when that chat's conversation was
      created today; no other row, conversation or log changes. */
  lemma TelegramTrackingCounts(db: Db, payload: Value, response: Response, now: Time)
    ensures var db1 := TelegramTracked(db, payload, response, now);
            var chatId := ChatIdOf(payload);
            var tracked := IsSuccessful(response.status) && ValueTruthy(chatId);
            var key := StatKey(DayOf(now), "telegram");
            && (!tracked ==> db1 == db)
            && db1.conversations == db.conversations && db1.logs == db.logs
            && db1.Count(DayOf(now), "telegram", MessageCount)
               == db.Count(DayOf(now), "telegram", MessageCount) + (if tracked then 1 else 0)
            && db1.Count(DayOf(now), "telegram", ConversationCount)
               == db.Count(DayOf(now), "telegram", ConversationCount)
                  + (if tracked && CreatedToday(db, "telegram", ScalarString(chatId), now) then 1 else 0)
            && (forall k :: k != key ==> (k in db1.stats <==> k in db.stats))
            && (forall k :: k != key && k in db.stats ==> db1.stats[k] == db.stats[k])
  {
    TrackedEffect(db, "telegram", ScalarString(ChatIdOf(payload)), now);
  }

  /** A message update from chat `id` is looked up under the chat id's
      decimal string, the identifier the bot's conversations carry. */
  lemma MessageUpdateIdentifier(id: int, text: string)
    requires id != 0
    ensures ValueTruthy(ChatIdOf(MessageUpdate(id, text)))
    ensures ScalarString(ChatIdOf(MessageUpdate(id, text))) == Some(IntToString(id))
  {
    ChatIdSources(id, text, "");
  }

  lemma TelegramTrackedPreservesInvariants(db: Db, payload: Value, response: Response, now: Time)
    requires db.Consistent()
    ensures TelegramTracked(db, payload, response, now).Consistent()
  {
    TrackedPreservesInvariants(db, "telegram", ScalarString(ChatIdOf(payload)), now);
  }

  /** handle, with `$next($request)` already run and answered `response`. */
  method Handle(db: Store, payload: Value, response: Response, now: Time) returns (r: Response)
    modifies db
    ensures r == response
    ensures db.State() == TelegramTracked(old(db.State()), payload, response, now)
  {
    if IsSuccessful(response.status) {
      TrackStatistics(db, payload, now);
    }
    return response;
  }

  method TrackStatistics(db: Store, payload: Value, now: Time)
    modifies db
    ensures db.State() == if ValueTruthy(ChatIdOf(payload))
                          then Tracked(old(db.State()), "telegram", ScalarString(ChatIdOf(payload)), now)
                          else old(db.State())
  {
    var chatId := Coalesce(Path(payload, MessageChatId), Path(payload, CallbackChatId));
    if !ValueTruthy(chatId) {
      return;
    }
    Track(db, "telegram", ScalarString(chatId), now);
  }
}
