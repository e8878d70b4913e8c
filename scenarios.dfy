/** End-to-end behaviour of the web chat: the send route (validation, then the
    controller) wrapped by the statistics middleware, and the history route,
    driven by a completion client that always answers the same text. */
module Scenarios {
  import opened Php
  import opened Storage
  import opened Http
  import ConversationService
  import GeminiService
  import SendMessageRequest
  import ChatController
  import DailyStatistics
  import TrackChatStatistics

  /** A completion API that answers every request with `answer`. */
  function Canned(answer: string): GeminiService.Backend {
    _ => GeminiService.Received(Response(200, GeminiService.CandidateBody(answer)))
  }

  lemma CannedAnswer(answer: string, turns: seq<GeminiService.Turn>)
    ensures GeminiService.Generated(Canned(answer), turns) == Some(answer)
  {
    GeminiService.ExtractRoundTrip(answer, 200);
  }

  /** The JSON body of a send request. */
  function SendInput(message: string, sessionId: string): Value {
    Object(map["message" := Str(message), "session_id" := Str(sessionId)])
  }

  /** POST /api/chat/send, with the statistics middleware around it. */
  function WebSend(db: Db, input: Value, now: Time, backend: GeminiService.Backend): (Db, Response) {
    var (db1, r) := ChatController.Dispatched(db, input, now, backend);
    (TrackChatStatistics.WebTracked(db1, "chat.send", input, r, now), r)
  }

  /** Every row keeps its owner and creation time. */
  ghost predicate SameOwners(rows: seq<Conversation>, rows': seq<Conversation>) {
    |rows'| == |rows|
    && forall i :: 0 <= i < |rows| ==>
         rows'[i].channel == rows[i].channel && rows'[i].userIdentifier == rows[i].userIdentifier
         && rows'[i].createdAt == rows[i].createdAt
  }

  /** Queries see the same rows in tables with the same owners. */
  lemma SameOwnersSameMatches(rows: seq<Conversation>, rows': seq<Conversation>, q: ConversationQuery)
    requires SameOwners(rows, rows')
    ensures FirstMatch(rows, q) == FirstMatch(rows', q)
  {
    FirstMatchAgrees(rows, rows', q);
  }

  /** A request carrying two acceptable strings passes validation with them. */
  lemma AcceptableInputPasses(message: string, sessionId: string)
    requires SendMessageRequest.Acceptable(Str(message), SendMessageRequest.MessageMax)
    requires SendMessageRequest.Acceptable(Str(sessionId), SendMessageRequest.SessionIdMax)
    ensures SendMessageRequest.Validate(SendInput(message, sessionId)) == SendMessageRequest.Passed(message, sessionId)
  {
    var input := SendInput(message, sessionId);
    assert Get(input, Named("message")) == Str(message);
    assert Get(input, Named("session_id")) == Str(sessionId);
  }

  /** sendMessage with an answering client: 200, the two turns counted, and
      the conversation created and counted when the session is new; every
      earlier row keeps its owner and creation time. */
  lemma AnsweredSend(db: Db, message: string, sessionId: string, answer: string, now: Time)
    requires Truthy(Some(answer))
    ensures var (db2, r) := ChatController.Sent(db, sessionId, message, now, Canned(answer));
            var created := FirstMatch(db.conversations, OwnedBy("web", sessionId)).None?;
            var day := DayOf(now);
            && r.status == 200
            && |db2.conversations| == |db.conversations| + (if created then 1 else 0)
            && SameOwners(db.conversations, db2.conversations[..|db.conversations|])
            && (created ==> Matches(db2.conversations[|db.conversations|], ConversationQuery("web", sessionId, Some(day))))
            && db2.Count(day, "web", MessageCount) == db.Count(day, "web", MessageCount) + 2
            && db2.Count(day, "web", ConversationCount) == db.Count(day, "web", ConversationCount) + (if created then 1 else 0)
  {
    var backend := Canned(answer);
    var (db1, c) := ConversationService.FindOrCreate(db, "web", sessionId, NoSeed, now);
    ConversationService.FindOrCreateCountsCreation(db, "web", sessionId, NoSeed, now);
    ConversationService.SeedOnlyOnCreation(db, "web", sessionId, NoSeed, now);
    CannedAnswer(answer, ConversationService.Context(db1, c, message, now));
    ConversationService.ProcessedLog(db1, c, message, now, backend);
    ConversationService.ProcessedKeepsRows(db1, c, message, now, backend);
    var db2 := ChatController.Sent(db, sessionId, message, now, backend).0;
    assert SameOwners(db1.conversations, db2.conversations);
    if FirstMatch(db.conversations, OwnedBy("web", sessionId)).None? {
      assert db1.conversations[..|db.conversations|] == db.conversations;
      assert db1.conversations[|db.conversations|] == c;
    }
  }

  /** After a send, the middleware's "created today" test holds when the send
      created the conversation, and otherwise exactly when it held before. */
  lemma CreatedTodayAfterSend(db: Db, db2: Db, sessionId: string, now: Time, created: bool)
    requires |db2.conversations| == |db.conversations| + (if created then 1 else 0)
    requires SameOwners(db.conversations, db2.conversations[..|db.conversations|])
    requires created ==> Matches(db2.conversations[|db.conversations|], ConversationQuery("web", sessionId, Some(DayOf(now))))
    ensures DailyStatistics.CreatedToday(db2, "web", Some(sessionId), now)
            == (created || DailyStatistics.CreatedToday(db, "web", Some(sessionId), now))
  {
    var q := ConversationQuery("web", sessionId, Some(DayOf(now)));
    if created {
      DailyStatistics.CreatedTodayMeans(db2, "web", sessionId, now);
    } else {
      assert db2.conversations[..|db.conversations|] == db2.conversations;
      SameOwnersSameMatches(db.conversations, db2.conversations, q);
    }
  }

  /** One valid, answered send through the middleware: the user's and the
      assistant's turns are counted by the service and the request once more
      by the middleware; a new session's conversation is counted by both, and
      an existing one by the middleware whenever it was created today. */
  lemma OneSend(db: Db, message: string, sessionId: string, answer: string, now: Time)
    requires SendMessageRequest.Acceptable(Str(message), SendMessageRequest.MessageMax)
    requires SendMessageRequest.Acceptable(Str(sessionId), SendMessageRequest.SessionIdMax)
    requires sessionId != "0" && Truthy(Some(answer))
    ensures var (db1, r) := WebSend(db, SendInput(message, sessionId), now, Canned(answer));
            var created := FirstMatch(db.conversations, OwnedBy("web", sessionId)).None?;
            var day := DayOf(now);
            && r.status == 200
            && |db1.conversations| == |db.conversations| + (if created then 1 else 0)
            && SameOwners(db.conversations, db1.conversations[..|db.conversations|])
            && (created ==> Matches(db1.conversations[|db.conversations|], ConversationQuery("web", sessionId, Some(day))))
            && db1.Count(day, "web", MessageCount) == db.Count(day, "web", MessageCount) + 3
            && db1.Count(day, "web", ConversationCount)
               == db.Count(day, "web", ConversationCount) + (if created then 2
                  else if DailyStatistics.CreatedToday(db, "web", Some(sessionId), now) then 1 else 0)
  {
    var input := SendInput(message, sessionId);
    AcceptableInputPasses(message, sessionId);
    AnsweredSend(db, message, sessionId, answer, now);
    var (db2, r) := ChatController.Sent(db, sessionId, message, now, Canned(answer));
    var created := FirstMatch(db.conversations, OwnedBy("web", sessionId)).None?;
    CreatedTodayAfterSend(db, db2, sessionId, now, created);
    TrackChatStatistics.WebTrackingCounts(db2, "chat.send", input, r, now);
  }

  /** Two answered sends from a new session on the same day: the service
      creates one conversation and counts it once, but the middleware counts
      it again on each request whose conversation was created today, so
      `conversation_count` rises by 3 for one conversation; `message_count`
      rises by 6 for four logged turns. */
  lemma SameDaySendsOvercount(db: Db, first: string, second: string, sessionId: string, answer: string, now: Time, later: Time)
    requires SendMessageRequest.Acceptable(Str(first), SendMessageRequest.MessageMax)
    requires SendMessageRequest.Acceptable(Str(second), SendMessageRequest.MessageMax)
    requires SendMessageRequest.Acceptable(Str(sessionId), SendMessageRequest.SessionIdMax)
    requires sessionId != "0" && Truthy(Some(answer))
    requires FirstMatch(db.conversations, OwnedBy("web", sessionId)).None?
    requires DayOf(later) == DayOf(now)
    ensures var db1 := WebSend(db, SendInput(first, sessionId), now, Canned(answer)).0;
            var db2 := WebSend(db1, SendInput(second, sessionId), later, Canned(answer)).0;
            var day := DayOf(now);
            && |db2.conversations| == |db.conversations| + 1
            && db2.Count(day, "web", ConversationCount) == db.Count(day, "web", ConversationCount) + 3
            && db2.Count(day, "web", MessageCount) == db.Count(day, "web", MessageCount) + 6
  {
    OneSend(db, first, sessionId, answer, now);
    var db1 := WebSend(db, SendInput(first, sessionId), now, Canned(answer)).0;
    var n := |db.conversations|;
    assert Matches(db1.conversations[n], OwnedBy("web", sessionId));
    assert FirstMatch(db1.conversations, OwnedBy("web", sessionId)).Some?;
    DailyStatistics.CreatedTodayMeans(db1, "web", sessionId, later);
    OneSend(db1, second, sessionId, answer, later);
  }

  lemma GreetingIsAcceptable()
    ensures SendMessageRequest.Acceptable(Str("Hello, AI!"), SendMessageRequest.MessageMax)
    ensures SendMessageRequest.Acceptable(Str("test_session_123"), SendMessageRequest.SessionIdMax)
  {
    assert !SendMessageRequest.TrimmedChar("Hello, AI!"[0]);
    assert !SendMessageRequest.TrimmedChar("test_session_123"[0]);
  }

  /** A first message from a new browser session: it is answered with the
      client's text, the session's web conversation is the first row, its log
      holds the user's and the assistant's turns, and today's web statistics
      row counts both the messages and the conversation. */
  lemma FirstMessageFromNewSession(now: Time)
    ensures var input := SendInput("Hello, AI!", "test_session_123");
            var (db1, r) := WebSend(EmptyDb, input, now, Canned("This is a test AI response"));
            && r == Response(200, Object(map["success" := Bool(true), "message" := Str("This is a test AI response")]))
            && FirstMatch(db1.conversations, OwnedBy("web", "test_session_123")) == Some(0)
            && db1.Log(1) == [Message("user", "Hello, AI!", now), Message("assistant", "This is a test AI response", now)]
            && StatKey(DayOf(now), "web") in db1.stats
            && db1.Count(DayOf(now), "web", MessageCount) > 0
            && db1.Count(DayOf(now), "web", ConversationCount) > 0
  {
    var sessionId := "test_session_123";
    var answer := "This is a test AI response";
    var input := SendInput("Hello, AI!", sessionId);
    GreetingIsAcceptable();
    AcceptableInputPasses("Hello, AI!", sessionId);
    FirstSendFromNewSession(now);
    var (db2, r) := ChatController.Sent(EmptyDb, sessionId, "Hello, AI!", now, Canned(answer));
    TrackChatStatistics.WebTrackingCounts(db2, "chat.send", input, r, now);
  }

  /** The controller's part of the first send: the answer, and the session's
      conversation, first in the table, holding both turns. */
  lemma FirstSendFromNewSession(now: Time)
    ensures var (db2, r) := ChatController.Sent(EmptyDb, "test_session_123", "Hello, AI!", now, Canned("This is a test AI response"));
            && r == Response(200, Object(map["success" := Bool(true), "message" := Str("This is a test AI response")]))
            && FirstMatch(db2.conversations, OwnedBy("web", "test_session_123")) == Some(0)
            && db2.Log(1) == [Message("user", "Hello, AI!", now), Message("assistant", "This is a test AI response", now)]
  {
    var sessionId := "test_session_123";
    var answer := "This is a test AI response";
    var (db0, c) := ConversationService.FindOrCreate(EmptyDb, "web", sessionId, NoSeed, now);
    CannedAnswer(answer, ConversationService.Context(db0, c, "Hello, AI!", now));
    ChatController.SendExchange(EmptyDb, sessionId, "Hello, AI!", now, Canned(answer));
    var db2 := ChatController.Sent(EmptyDb, sessionId, "Hello, AI!", now, Canned(answer)).0;
    assert c.id == 1;
    assert Matches(db2.conversations[0], OwnedBy("web", sessionId));
  }

  /** A conversation with a logged exchange: its history lists the user's turn
      and then the assistant's, with their texts. */
  lemma HistoryOfLoggedExchange(now: Time)
    ensures var sessionId := "test_session_456";
            var c := Conversation(1, "web", sessionId, None, None, now, now, Null);
            var withUser := ConversationService.Stored(EmptyDb.(conversations := [c]), c, "user", "First message", now);
            var db := ConversationService.Stored(withUser, c, "assistant", "First response", now);
            var (db1, r) := ChatController.HistoryView(db, sessionId, now);
            var items := Get(r.body, Named("messages")).items;
            && db1 == db && r.status == 200
            && |items| == 2
            && Get(items[0], Named("role")) == Str("user") && Get(items[0], Named("content")) == Str("First message")
            && Get(items[1], Named("role")) == Str("assistant") && Get(items[1], Named("content")) == Str("First response")
  {
    var sessionId := "test_session_456";
    var c := Conversation(1, "web", sessionId, None, None, now, now, Null);
    var db0 := EmptyDb.(conversations := [c]);
    var withUser := ConversationService.Stored(db0, c, "user", "First message", now);
    ConversationService.StoredEffect(db0, c, "user", "First message", now);
    var db := ConversationService.Stored(withUser, c, "assistant", "First response", now);
    ConversationService.StoredEffect(withUser, c, "assistant", "First response", now);
    assert FirstMatch(db.conversations, OwnedBy("web", sessionId)) == Some(0) by {
      assert Matches(db.conversations[0], OwnedBy("web", sessionId));
    }
    ChatController.HistoryIsWholeLog(db, sessionId, now);
    ConversationService.ConversationHistoryIsNewestWindow(db.Log(1), 2);
    assert db.Log(1) == [Message("user", "First message", now), Message("assistant", "First response", now)];
  }

  /** A request without `message` is answered 422 with an error on
      `message`, and changes nothing. */
  lemma MissingMessageRejected(db: Db, now: Time, backend: GeminiService.Backend)
    ensures var (db1, r) := ChatController.Dispatched(db, Object(map["session_id" := Str("test_session")]), now, backend);
            db1 == db && r.status == 422 && "message" in Get(r.body, Named("errors")).fields
  {
    SendMessageRequest.MissingFieldsReported("Hello", "test_session");
    ChatController.RejectedRequest(db, Object(map["session_id" := Str("test_session")]), now, backend);
  }

  /** A request without `session_id` is answered 422 with an error on
      `session_id`, and changes nothing. */
  lemma MissingSessionIdRejected(db: Db, now: Time, backend: GeminiService.Backend)
    ensures var (db1, r) := ChatController.Dispatched(db, Object(map["message" := Str("Hello")]), now, backend);
            db1 == db && r.status == 422 && "session_id" in Get(r.body, Named("errors")).fields
  {
    SendMessageRequest.MissingFieldsReported("Hello", "test_session");
    ChatController.RejectedRequest(db, Object(map["message" := Str("Hello")]), now, backend);
  }

  /** A 2001-character message is answered 422 with an error on `message`,
      and changes nothing. */
  lemma LongMessageRejected(db: Db, now: Time, backend: GeminiService.Backend)
    ensures var (db1, r) := ChatController.Dispatched(db, SendInput(SendMessageRequest.Repeat('a', 2001), "test_session"), now, backend);
            db1 == db && r.status == 422 && "message" in Get(r.body, Named("errors")).fields
  {
    assert !SendMessageRequest.TrimmedChar("test_session"[0]);
    SendMessageRequest.MessageLengthBoundary("test_session");
    ChatController.RejectedRequest(db, SendInput(SendMessageRequest.Repeat('a', 2001), "test_session"), now, backend);
  }

  /** The session id "0" passes validation, so its messages are answered and
      logged, but it is falsy to the middleware, which never counts them. */
  lemma ZeroSessionIdNotCounted(db: Db, message: string, now: Time, backend: GeminiService.Backend)
    ensures SendMessageRequest.Acceptable(Str("0"), SendMessageRequest.SessionIdMax)
    ensures WebSend(db, SendInput(message, "0"), now, backend).0
            == ChatController.Dispatched(db, SendInput(message, "0"), now, backend).0
  {
    assert !SendMessageRequest.TrimmedChar("0"[0]);
    assert Get(SendInput(message, "0"), Named("session_id")) == Str("0");
  }
}
