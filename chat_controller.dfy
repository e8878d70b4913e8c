/** The web chat's JSON endpoints: `send` runs a validated message through the
    conversation service under the browser's session id and shapes the
    outcome; `history` returns the session's whole log, oldest first. */
module ChatController {
  import opened Php
  import opened Storage
  import opened Http
  import ConversationService
  import GeminiService
  import SendMessageRequest

  const FailureText := "Failed to get AI response. Please try again."

  /** The JSON response sendMessage builds from processMessage's result. */
  function SendResponse(answer: Option<string>): Response {
    if !Truthy(answer) then
      Response(500, Object(map["success" := Bool(false), "message" := Str(FailureText)]))
    else
      Response(200, Object(map["success" := Bool(true), "message" := Str(answer.value)]))
  }

  /** sendMessage: the state afterwards and the response, for the validated
      `session_id` and `message`. */
  function Sent(db: Db, sessionId: string, message: string, now: Time, backend: GeminiService.Backend): (Db, Response) {
    var (db1, conversation) := ConversationService.FindOrCreate(db, "web", sessionId, NoSeed, now);
    var (db2, answer) := ConversationService.Processed(db1, conversation, message, now, backend);
    (db2, SendResponse(answer))
  }

  /** The error texts of one field, in the order its rules failed. */
  function FieldTexts(errors: seq<SendMessageRequest.Failure>, field: string): (r: seq<Value>)
    ensures r != [] <==> exists f :: f in errors && f.field == field
  {
    if errors == [] then []
    else
      var rest := FieldTexts(errors[1..], field);
      assert forall f :: f in errors[1..] ==> f in errors;
      if errors[0].field == field then [Str(SendMessageRequest.ErrorText(errors[0]))] + rest else rest
  }

  /** The `errors` object of a 422 response: each failing field's texts. */
  function ErrorFields(errors: seq<SendMessageRequest.Failure>): map<string, Value> {
    var m := FieldTexts(errors, "message");
    var s := FieldTexts(errors, "session_id");
    (if m == [] then map[] else map["message" := List(m)])
      + (if s == [] then map[] else map["session_id" := List(s)])
  }

  /** The `errors` object has an entry for a field exactly when some failure
      names it, and only the two request fields can appear. */
  lemma ErrorFieldsNameFailures(errors: seq<SendMessageRequest.Failure>)
    ensures var fields := ErrorFields(errors);
            && ("message" in fields <==> exists f :: f in errors && f.field == "message")
            && ("session_id" in fields <==> exists f :: f in errors && f.field == "session_id")
            && (forall k :: k in fields ==> k == "message" || k == "session_id")
  {
  }

  /** The send route: the request is validated first, and only valid data
      reaches sendMessage; invalid data is answered with 422. */
  function Dispatched(db: Db, input: Value, now: Time, backend: GeminiService.Backend): (Db, Response) {
    match SendMessageRequest.Validate(input)
    case Failed(errors) => (db, Response(422, Object(map["errors" := Object(ErrorFields(errors))])))
    case Passed(message, sessionId) => Sent(db, sessionId, message, now, backend)
  }

  /** One element of the `messages` array of the history response. */
  function HistoryEntry(m: Message): Value {
    Object(map["role" := Str(m.role), "content" := Str(m.content), "created_at" := Int(m.createdAt)])
  }

  function HistoryEntries(log: seq<Message>): (r: seq<Value>)
    ensures |r| == |log|
  {
    seq(|log|, i requires 0 <= i < |log| => HistoryEntry(log[i]))
  }

  /** history: the state afterwards (find-or-create may insert the session's
      conversation) and the response listing its log. */
  function HistoryView(db: Db, sessionId: string, now: Time): (Db, Response) {
    var (db1, conversation) := ConversationService.FindOrCreate(db, "web", sessionId, NoSeed, now);
    (db1, Response(200, Object(map["success" := Bool(true), "messages" := List(HistoryEntries(db1.Log(conversation.id)))])))
  }

  // ---------------------------------------------------------------------------
  // Properties

  /** The outcome is a 2xx exactly when the answer is truthy; `success` says
      the same, and `message` is then the answer verbatim, else the fixed
      failure text with status 500. */
  lemma SendResponseOutcome(answer: Option<string>)
    ensures var r := SendResponse(answer);
            && (IsSuccessful(r.status) <==> Truthy(answer))
            && (!Truthy(answer) ==> r.status == 500)
            && Get(r.body, Named("success")) == Bool(Truthy(answer))
            && Get(r.body, Named("message")) == Str(if Truthy(answer) then answer.value else FailureText)
  {
  }

  /** Invalid data changes nothing and gets a 422 whose `errors` name exactly
      the fields that are not acceptable. */
  lemma RejectedRequest(db: Db, input: Value, now: Time, backend: GeminiService.Backend)
    requires SendMessageRequest.Validate(input).Failed?
    ensures var (db1, r) := Dispatched(db, input, now, backend);
            var fields := Get(r.body, Named("errors")).fields;
            && db1 == db && r.status == 422
            && ("message" in fields <==> !SendMessageRequest.Acceptable(Get(input, Named("message")), SendMessageRequest.MessageMax))
            && ("session_id" in fields <==> !SendMessageRequest.Acceptable(Get(input, Named("session_id")), SendMessageRequest.SessionIdMax))
            && (forall k :: k in fields ==> k == "message" || k == "session_id")
  {
    ErrorFieldsNameFailures(SendMessageRequest.Validate(input).errors);
    SendMessageRequest.FailuresNameTheField(input);
  }

  /** A send logs the user's turn, and the answer when truthy, in the web
      conversation owned by the session id; the response carries that same
      answer; no other conversation's log changes. */
  lemma SendExchange(db: Db, sessionId: string, message: string, now: Time, backend: GeminiService.Backend)
    ensures var (db1, c) := ConversationService.FindOrCreate(db, "web", sessionId, NoSeed, now);
            var answer := GeminiService.Generated(backend, ConversationService.Context(db1, c, message, now));
            var (db2, r) := Sent(db, sessionId, message, now, backend);
            && c.channel == "web" && c.userIdentifier == sessionId
            && r == SendResponse(answer)
            && db2.Log(c.id) == db1.Log(c.id) + [Message("user", message, now)]
                 + (if Truthy(answer) then [Message("assistant", answer.value, now)] else [])
            && (forall id :: id != c.id ==> db2.Log(id) == db.Log(id))
  {
    var (db1, c) := ConversationService.FindOrCreate(db, "web", sessionId, NoSeed, now);
    ConversationService.ProcessedLog(db1, c, message, now, backend);
    ConversationService.FindOrCreateCountsCreation(db, "web", sessionId, NoSeed, now);
  }

  /** The history lists every logged turn, oldest first: the role and content
      of entry i are those of the service's unbounded history, and its
      created_at is the turn's time. */
  lemma {:induction false} HistoryIsWholeLog(db: Db, sessionId: string, now: Time)
    ensures var (db1, c) := ConversationService.FindOrCreate(db, "web", sessionId, NoSeed, now);
            var log := db1.Log(c.id);
            var turns := ConversationService.ConversationHistory(log, |log|);
            var items := Get(HistoryView(db, sessionId, now).1.body, Named("messages")).items;
            && |items| == |log| == |turns|
            && (forall i :: 0 <= i < |items| ==>
                 && Get(items[i], Named("role")) == Str(turns[i].role)
                 && Get(items[i], Named("content")) == Str(turns[i].content)
                 && Get(items[i], Named("created_at")) == Int(log[i].createdAt))
  {
    var (db1, c) := ConversationService.FindOrCreate(db, "web", sessionId, NoSeed, now);
    var log := db1.Log(c.id);
    EntriesFollowHistory(log);
    assert Get(HistoryView(db, sessionId, now).1.body, Named("messages")).items == HistoryEntries(log);
  }

  /** Entry i of the listing carries turn i of the whole history of `log`. */
  lemma EntriesFollowHistory(log: seq<Message>)
    ensures var turns := ConversationService.ConversationHistory(log, |log|);
            var items := HistoryEntries(log);
            && |turns| == |log|
            && (forall i :: 0 <= i < |items| ==>
                 && Get(items[i], Named("role")) == Str(turns[i].role)
                 && Get(items[i], Named("content")) == Str(turns[i].content)
                 && Get(items[i], Named("created_at")) == Int(log[i].createdAt))
  {
    ConversationService.ConversationHistoryIsNewestWindow(log, |log|);
    assert log[|log| - ConversationService.Min(|log|, |log|)..] == log;
  }

  /** The history of a session never seen before is an empty list, yet asking
      for it creates the session's conversation and counts it in today's
      `conversation_count`. */
  lemma HistoryOfUnseenSession(db: Db, sessionId: string, now: Time)
    requires db.Valid() && db.LogsOwned()
    requires FirstMatch(db.conversations, OwnedBy("web", sessionId)).None?
    ensures var (db1, r) := HistoryView(db, sessionId, now);
            && r.status == 200
            && Get(r.body, Named("messages")) == List([])
            && |db1.conversations| == |db.conversations| + 1
            && db1.Count(DayOf(now), "web", ConversationCount) == db.Count(DayOf(now), "web", ConversationCount) + 1
  {
    var (db1, c) := ConversationService.FindOrCreate(db, "web", sessionId, NoSeed, now);
    ConversationService.FindOrCreateCountsCreation(db, "web", sessionId, NoSeed, now);
    assert c.id == |db.conversations| + 1;
    assert c.id !in db1.logs;
  }

  /** Reading the history of a known session changes nothing. */
  lemma HistoryOfKnownSessionIsReadOnly(db: Db, sessionId: string, now: Time)
    requires FirstMatch(db.conversations, OwnedBy("web", sessionId)).Some?
    ensures HistoryView(db, sessionId, now).0 == db
  {
  }

  /** A send, a dispatched request and a history read keep the invariants. */
  lemma SentPreservesInvariants(db: Db, sessionId: string, message: string, now: Time, backend: GeminiService.Backend)
    requires db.Consistent()
    ensures Sent(db, sessionId, message, now, backend).0.Consistent()
  {
    var (db1, c) := ConversationService.FindOrCreate(db, "web", sessionId, NoSeed, now);
    ConversationService.FindOrCreatePreservesInvariants(db, "web", sessionId, NoSeed, now);
    ConversationService.ProcessedPreservesInvariants(db1, c, message, now, backend);
  }

  lemma DispatchedPreservesInvariants(db: Db, input: Value, now: Time, backend: GeminiService.Backend)
    requires db.Consistent()
    ensures Dispatched(db, input, now, backend).0.Consistent()
  {
    var v := SendMessageRequest.Validate(input);
    if v.Passed? {
      SentPreservesInvariants(db, v.sessionId, v.message, now, backend);
    }
  }

  lemma HistoryViewPreservesInvariants(db: Db, sessionId: string, now: Time)
    requires db.Consistent()
    ensures HistoryView(db, sessionId, now).0.Consistent()
  {
    ConversationService.FindOrCreatePreservesInvariants(db, "web", sessionId, NoSeed, now);
  }

  // ---------------------------------------------------------------------------
  // The controller's actions, on the mutable store

  method SendMessage(db: Store, sessionId: string, message: string, now: Time, backend: GeminiService.Backend)
    returns (r: Response)
    modifies db
    ensures (db.State(), r) == Sent(old(db.State()), sessionId, message, now, backend)
  {
    var conversation := ConversationService.FindOrCreateConversation(db, "web", sessionId, NoSeed, now);
    var aiResponse := ConversationService.ProcessMessage(db, conversation, message, now, backend);
    if !Truthy(aiResponse) {
      return Response(500, Object(map["success" := Bool(false), "message" := Str(FailureText)]));
    }
    return Response(200, Object(map["success" := Bool(true), "message" := Str(aiResponse.value)]));
  }

  /** The send route: validation, then the controller. */
  method Dispatch(db: Store, input: Value, now: Time, backend: GeminiService.Backend) returns (r: Response)
    modifies db
    ensures (db.State(), r) == Dispatched(old(db.State()), input, now, backend)
  {
    var validation := SendMessageRequest.Validate(input);
    if validation.Failed? {
      return Response(422, Object(map["errors" := Object(ErrorFields(validation.errors))]));
    }
    r := SendMessage(db, validation.sessionId, validation.message, now, backend);
  }

  method History(db: Store, sessionId: string, now: Time) returns (r: Response)
    modifies db
    ensures (db.State(), r) == HistoryView(old(db.State()), sessionId, now)
  {
    var conversation := ConversationService.FindOrCreateConversation(db, "web", sessionId, NoSeed, now);
    var messages := HistoryEntries(db.State().Log(conversation.id));
    return Response(200, Object(map["success" := Bool(true), "messages" := List(messages)]));
  }
}
