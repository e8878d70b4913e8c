# Support chat: conversation orchestration, in Dafny

This project models the core of a Laravel support-chat application. The
application answers visitors of a web chat and users of a Telegram bot with a
generative-AI completion API, and keeps statistics about both channels.

The model covers these parts:

- **The conversation service.** It finds or creates the conversation of a
  (channel, user identifier), logs each user and assistant turn, and sends the
  newest twenty turns to the completion client. It also keeps the daily
  `message_stats` counters.
- **The completion client.** It formats the turns for the API and reads the
  answer back from the response.
- **The web side.** This is the validation of a send request, the send and
  history actions of the chat controller, and the statistics middleware
  around them.
- **The Telegram side.** This is the webhook handler (plain messages, the
  quick-settings labels, commands), the command provider, the /settings
  handler, and the webhook statistics middleware.

The database is a `Storage.Store` object holding the `conversations` rows,
the `message_stats` rows keyed by (date, channel), and each conversation's
message log. Every operation that changes state is a method on that store.
Its `ensures` ties the new state to a function of the old state, and the
properties are lemmas about those functions. A Telegram chat is a
`Telegraph.Chat` object that records the messages sent to it in order.
Each request is handed one current time, `now`. The day a time falls on is
`now / 86400`.

`Scenarios` puts the pieces together. It runs the send route and then the
statistics middleware, with a completion client that always gives the same
answer. The main result is `Scenarios.SameDaySendsOvercount`: a new web session
sends two messages on the same day. The service creates one conversation and
counts it once. The middleware counts it again on every request whose
conversation was created today. So `conversation_count` rises by 3 for one
conversation.

## Model

| member | source | states |
|---|---|---|
| Php.IntToStringInjective | app/Telegram/Middleware/TrackTelegramStatistics.php:51 | distinct integer chat ids cast to distinct strings, so the string identifier still identifies the chat |
| Php.NatToString | app/Telegram/Middleware/TrackTelegramStatistics.php:51 | the decimal form of a natural number is non-empty, has one character exactly below 10, and has only digits |
| Php.NotContainsByChar | app/Telegram/SupportBotHandler.php:60-65 | `str_contains` is false when the needle has a character the haystack lacks |
| Storage.FirstMatch | app/Services/ConversationService.php:21-24 | `->first()` gives the first row in table order that matches the query, or none when no row matches |
| Storage.Store.First | app/Services/ConversationService.php:21-24 | the scan over the table returns exactly `FirstMatch` |
| Storage.Incremented | app/Services/ConversationService.php:107-123 | firstOrCreate-then-increment: the row exists afterwards, one counter rises by one, the other is kept, and other rows are untouched |
| Storage.Store.Insert | app/Services/ConversationService.php:27-33 | `Conversation::create` appends one row and changes nothing else |
| Storage.Store.Touch | app/Services/ConversationService.php:74-76 | `update(['last_message_at' => now()])` changes only that column of that row |
| Storage.Store.Append | app/Services/ConversationService.php:68-72 | storing a message appends it to its conversation's log only |
| Storage.Store.FirstOrCreateStat | app/Services/ConversationService.php:111-120 | a missing (date, channel) row is created with both counters at zero, and an existing row is kept |
| Storage.Store.Increment | app/Services/ConversationService.php:122 | `increment` raises one counter of one row and changes nothing else |
| Storage.Store.UpdateExtraData | app/Telegram/SettingsCommandBotHandler.php:297-299 | `update(['extra_data' => ...])` changes only that column of that row |
| Storage.EmptyDbConsistent | app/Services/ConversationService.php:21-33 | an empty store has sequential ids, unique owners, and logs only for existing rows |
| Storage.ConsistentAfterUpdate | app/Services/ConversationService.php:74-76 | a step that keeps every row's id, channel and user identifier, and adds logs only for existing rows, keeps all three invariants |
| Storage.Store.DeleteLog | app/Telegram/SettingsCommandBotHandler.php:104-117 | deleting a conversation's messages removes its log and nothing else |
| GeminiService.FormattedAt | app/Services/GeminiService.php:77-93 | formatting gives one content entry per turn, in order |
| GeminiService.FormattedRoundTrip | app/Services/GeminiService.php:81-89 | formatting loses only which non-"assistant" role a turn had: reading the request back gives every turn's content, with "assistant" kept and every other role read as "user" |
| GeminiService.FormattedRoundTripExact | app/Services/GeminiService.php:81-89 | turns whose roles are "user" or "assistant" read back unchanged from their formatted form |
| GeminiService.FormatMessagesForGemini | app/Services/GeminiService.php:77-93 | the loop builds exactly the formatted contents |
| GeminiService.ResponseText | app/Services/GeminiService.php:50-68 | a text comes only from a successful response; an error status or an exception gives null |
| GeminiService.ExtractRoundTrip | app/Services/GeminiService.php:50-53 | a successful reply with one candidate text yields exactly that text |
| GeminiService.ResponseTextReadsPath | app/Services/GeminiService.php:50-53 | for any successful body, a string at `candidates.0.content.parts.0.text` is the result, and a missing entry gives null |
| GeminiService.NoCandidateNoText | app/Services/GeminiService.php:50-53 | a successful reply with an empty `candidates` list gives null |
| GeminiService.GenerateResponse | app/Services/GeminiService.php:29-69 | the call returns the text the backend's answer to the formatted turns carries |
| ConversationService.FindOrCreate | app/Services/ConversationService.php:19-39 | the conversation returned belongs to the channel and user identifier asked for |
| ConversationService.FindOrCreateIdempotent | app/Services/ConversationService.php:19-39 | a second call for the same owner returns the same conversation and changes nothing, whatever its seed and time |
| ConversationService.FindOrCreateCountsCreation | app/Services/ConversationService.php:26-36 | today's `conversation_count` of the channel rises by one exactly when a conversation is created; message counts, other rows and logs are kept |
| ConversationService.SeedOnlyOnCreation | app/Services/ConversationService.php:27-33 | an existing conversation is returned as stored; a new one carries the seed's Telegram id and username and the current time |
| ConversationService.FindOrCreatePreservesInvariants | app/Services/ConversationService.php:19-39 | ids stay sequential, owners stay unique, logs stay owned by existing rows, and the conversation returned is the row with its id |
| ConversationService.StoredEffect | app/Services/ConversationService.php:66-81 | storing appends exactly one entry to this conversation's log, moves only its `last_message_at`, and raises only today's `message_count` of its channel |
| ConversationService.StoredPreservesInvariants | app/Services/ConversationService.php:66-81 | storing a message in an existing conversation keeps ids sequential, owners unique and logs owned, and adds no row |
| ConversationService.ProcessedPreservesInvariants | app/Services/ConversationService.php:44-61 | processing a message keeps ids sequential, owners unique and logs owned, and adds no row |
| ConversationService.ConversationHistoryIsNewestWindow | app/Services/ConversationService.php:88-102 | the history is the last min(limit, n) logged turns in logged order, as role and content |
| ConversationService.ContextEndsWithUserTurn | app/Services/ConversationService.php:47-50 | the client sees at most 20 turns, and the last one is the user's new message |
| ConversationService.ProcessedLog | app/Services/ConversationService.php:44-61 | the user's turn is always logged, and the assistant's exactly when the answer is truthy; the answer returned is the client's; the message count rises by 1 or 2 accordingly |
| ConversationService.ProcessedKeepsRows | app/Services/ConversationService.php:44-61 | processing creates no conversation, changes no row except `last_message_at`, and leaves every `conversation_count` alone |
| ConversationService.IncrementMessageCount | app/Services/ConversationService.php:107-123 | the store afterwards is the old one with today's `message_count` of the channel counted |
| ConversationService.IncrementConversationCount | app/Services/ConversationService.php:128-144 | the store afterwards is the old one with today's `conversation_count` of the channel counted |
| ConversationService.FindOrCreateConversation | app/Services/ConversationService.php:19-39 | the method's new state and result are those of `FindOrCreate` |
| ConversationService.StoreMessage | app/Services/ConversationService.php:66-81 | the method's new state is `Stored` of the old one, and it returns the stored message |
| ConversationService.ProcessMessage | app/Services/ConversationService.php:44-61 | the method's new state and answer are those of `Processed` |
| SendMessageRequest.Validate | app/Http/Requests/SendMessageRequest.php:22-28 | the data passes exactly when both fields are non-blank strings within 2000 and 255 characters, and then it yields those strings |
| SendMessageRequest.FailuresNameTheField | app/Http/Requests/SendMessageRequest.php:22-28 | a rejected request has a failure on a field exactly when that field is not acceptable, and every failure names `message` or `session_id` |
| SendMessageRequest.FieldFailuresExact | app/Http/Requests/SendMessageRequest.php:22-28 | a field's failures all name it, and there are none exactly when the field is acceptable |
| SendMessageRequest.MissingFieldFailsRequiredOnly | app/Http/Requests/SendMessageRequest.php:22-28 | a missing or blank field fails `required` alone |
| SendMessageRequest.MessageLengthBoundary | app/Http/Requests/SendMessageRequest.php:25 | a 2000-character message passes; a 2001-character one fails `max` on `message` alone, with the custom length text |
| SendMessageRequest.MissingFieldsReported | app/Http/Requests/SendMessageRequest.php:35-42 | a missing `message` or `session_id` fails `required` on that field, with its custom text |
| SendMessageRequest.LongSessionIdRejected | app/Http/Requests/SendMessageRequest.php:26 | a 256-character `session_id` fails `max` on `session_id` alone, and that failure has no custom text, so it carries the default key `validation.max.string` |
| ChatController.FieldTexts | app/Http/Requests/SendMessageRequest.php:35-42 | a field has error texts exactly when some failure names it |
| ChatController.SendResponseOutcome | app/Http/Controllers/ChatController.php:40-50 | the status is 2xx exactly when the answer is truthy, and 500 otherwise; `success` says the same; `message` is the answer itself, or else the fixed failure text |
| ChatController.RejectedRequest | app/Http/Requests/SendMessageRequest.php:22-28 | invalid data changes nothing and is answered 422, and its `errors` name exactly the fields that are not acceptable |
| ChatController.SendExchange | app/Http/Controllers/ChatController.php:28-51 | a send works in the web conversation of the session id, logs the user's turn and the truthy answer, replies with that answer, and leaves other logs alone |
| ChatController.HistoryIsWholeLog | app/Http/Controllers/ChatController.php:63-75 | the history lists every logged turn oldest first, with the role, content and time of each |
| ChatController.EntriesFollowHistory | app/Http/Controllers/ChatController.php:63-75 | entry i of the listing has the role, content and time of logged turn i, and the history has one turn per logged message |
| ChatController.HistoryOfUnseenSession | app/Http/Controllers/ChatController.php:56-76 | an unseen session's history is an empty list, yet the request creates its conversation and counts it in today's `conversation_count` |
| ChatController.HistoryOfKnownSessionIsReadOnly | app/Http/Controllers/ChatController.php:58-61 | reading a known session's history changes nothing |
| ChatController.ErrorFieldsNameFailures | app/Http/Requests/SendMessageRequest.php:22-28 | the `errors` object has an entry for `message` exactly when some failure names it, the same for `session_id`, and no other entry |
| ChatController.SentPreservesInvariants | app/Http/Controllers/ChatController.php:28-51 | a send keeps ids sequential, owners unique and logs owned |
| ChatController.DispatchedPreservesInvariants | app/Http/Controllers/ChatController.php:28 | a request, valid or not, keeps ids sequential, owners unique and logs owned |
| ChatController.HistoryViewPreservesInvariants | app/Http/Controllers/ChatController.php:56-76 | reading a history keeps ids sequential, owners unique and logs owned |
| ChatController.SendMessage | app/Http/Controllers/ChatController.php:28-51 | the action's new state and response are those of `Sent` |
| ChatController.Dispatch | app/Http/Controllers/ChatController.php:28 | validation runs first, and only valid data reaches the action |
| ChatController.History | app/Http/Controllers/ChatController.php:56-76 | the action's new state and response are those of `HistoryView` |
| DailyStatistics.CreatedTodayMeans | app/Http/Middleware/TrackChatStatistics.php:46-52 | the "new conversation" test holds exactly when a row of that channel and identifier was created on today's date |
| DailyStatistics.TrackedEffect | app/Http/Middleware/TrackChatStatistics.php:55-72 | tracking raises today's `message_count` by one, and `conversation_count` by one exactly when a conversation was created today; the row exists afterwards, other rows, conversations and logs are kept |
| DailyStatistics.TrackedPreservesInvariants | app/Http/Middleware/TrackChatStatistics.php:55-72 | counting keeps ids sequential, owners unique and logs owned |
| DailyStatistics.Track | app/Http/Middleware/TrackChatStatistics.php:34-73 | the method's new state is `Tracked` of the old one |
| TrackChatStatistics.WebTrackingCounts | app/Http/Middleware/TrackChatStatistics.php:19-73 | only a 2xx from `chat.send` with a truthy `session_id` changes anything; it then adds one message and, when the conversation was created today, one conversation, and touches no other row |
| TrackChatStatistics.WebTrackedPreservesInvariants | app/Http/Middleware/TrackChatStatistics.php:19-73 | the web middleware keeps ids sequential, owners unique and logs owned |
| TrackChatStatistics.Handle | app/Http/Middleware/TrackChatStatistics.php:19-29 | the response passes through unchanged, and the new state is `WebTracked` of the old one |
| TrackChatStatistics.TrackStatistics | app/Http/Middleware/TrackChatStatistics.php:34-73 | a falsy session id changes nothing; otherwise the counting is done for the web channel |
| TrackTelegramStatistics.ChatIdSources | app/Telegram/Middleware/TrackTelegramStatistics.php:37-40 | a message update is counted under its chat, a callback query under its message's chat, and an update with neither has no chat id |
| TrackTelegramStatistics.MessageUpdateIdentifier | app/Telegram/Middleware/TrackTelegramStatistics.php:42-53 | a message update from a non-zero chat id is tracked, under the chat id's decimal string |
| TrackTelegramStatistics.TelegramTrackingCounts | app/Telegram/Middleware/TrackTelegramStatistics.php:17-76 | only a 2xx with a truthy chat id changes anything; it then adds one message and, when that chat's conversation was created today, one conversation, and touches no other row |
| TrackTelegramStatistics.TelegramTrackedPreservesInvariants | app/Telegram/Middleware/TrackTelegramStatistics.php:17-76 | the webhook middleware keeps ids sequential, owners unique and logs owned |
| TrackTelegramStatistics.Handle | app/Telegram/Middleware/TrackTelegramStatistics.php:17-27 | the response passes through unchanged, and the new state is `TelegramTracked` of the old one |
| TrackTelegramStatistics.TrackStatistics | app/Telegram/Middleware/TrackTelegramStatistics.php:32-76 | an absent or falsy chat id changes nothing; otherwise the counting is done for the telegram channel |
| TelegramCommands.FirstSupporting | app/Services/TelegramCommandProvider.php:16-27 | the position found is the first handler supporting the command; none means that no handler supports it |
| TelegramCommands.RegisteredResolution | app/Providers/TelegramServiceProvider.php:17-21 | with the registered handlers, "start", "help" and "settings" resolve to their own handler and every other string to null |
| TelegramCommands.TelegramCommandProvider.Provide | app/Services/TelegramCommandProvider.php:16-27 | the loop returns the first handler in registration order whose `supportCommand` holds, or null |
| TelegramCommands.TelegramCommandProvider.constructor | app/Services/TelegramCommandProvider.php:11-14 | the provider keeps the tagged handlers in their order |
| Telegraph.Chat.Send | app/Telegram/SupportBotHandler.php:52 | sending appends the messages to the chat's outbox in order |
| SupportBotHandler.ChatExchange | app/Telegram/SupportBotHandler.php:22-58 | a plain message is logged in the chat's conversation with the truthy answer, and the answer is replied verbatim; a falsy answer gets the apology and only the user's turn is logged |
| SupportBotHandler.SettingsMessageStaysLocal | app/Telegram/SupportBotHandler.php:27-31 | a message mentioning a settings menu changes nothing and never reaches the completion client |
| SupportBotHandler.QuickSettingsLabelsAreSettingsMessages | app/Telegram/SupportBotHandler.php:60-79 | every quick-settings label is a settings message; "❌ Close Settings" closes the keyboard and the others are echoed back |
| SupportBotHandler.RegisteredCommands | app/Telegram/SupportBotHandler.php:81-94 | /start greets, /help explains, /settings shows the two settings menus, and any other command gets the unknown-command notice |
| SupportBotHandler.ChatReactionPreservesInvariants | app/Telegram/SupportBotHandler.php:22-58 | handling a chat message keeps ids sequential, owners unique and logs owned |
| SupportBotHandler.Run | app/Telegram/StartCommandBotHandler.php:16-19 | running a handler sends exactly its output |
| SupportBotHandler.HandleCommand | app/Telegram/SupportBotHandler.php:81-94 | the resolved handler runs, or else the unknown-command notice is sent |
| SupportBotHandler.HandleChatMessage | app/Telegram/SupportBotHandler.php:22-58 | the handler's new state and messages sent are those of `ChatReaction` |
| SettingsCommandBotHandler.MenuActionFor | app/Telegram/SettingsCommandBotHandler.php:126-133 | a message is a selection exactly when it is none of the five quick-settings labels, and the selection carries the message |
| SettingsCommandBotHandler.ClassifiedCases | app/Telegram/SettingsCommandBotHandler.php:196-252 | a message is saved exactly when it has a keyword of some group, and only as one of the listed choices; "Back to Settings" reopens the menu only when no keyword matched; anything else is ignored |
| SettingsCommandBotHandler.SavesGroupValue | app/Telegram/SettingsCommandBotHandler.php:202-240 | the first group whose keyword matches decides the setting, and the value is that group's first matching pick |
| SettingsCommandBotHandler.OtherIsGender | app/Telegram/SettingsCommandBotHandler.php:202-209 | any message containing "Other" is saved as a gender |
| SettingsCommandBotHandler.LocationOtherUnreachable | app/Telegram/SettingsCommandBotHandler.php:231-240 | the location arm never saves "Other", because its one message, "🌍 Other", already matches the gender keyword |
| SettingsCommandBotHandler.GenderMenuButtons | app/Telegram/SettingsCommandBotHandler.php:136-148 | each gender button saves its own gender, and its back button reopens the settings |
| SettingsCommandBotHandler.LanguageMenuButtons | app/Telegram/SettingsCommandBotHandler.php:150-163 | each language button saves its own language, and its back button reopens the settings |
| SettingsCommandBotHandler.TopicMenuButtons | app/Telegram/SettingsCommandBotHandler.php:165-178 | each topic button saves its own support topic, and its back button reopens the settings |
| SettingsCommandBotHandler.LocationMenuButtons | app/Telegram/SettingsCommandBotHandler.php:180-194 | each country button saves its location, "🌍 Other" saves gender "Other", and its back button reopens the settings |
| SettingsCommandBotHandler.ListFields | app/Telegram/SettingsCommandBotHandler.php:276-292 | a list read as an array has the keys "0", "1", … for its items |
| SettingsCommandBotHandler.ListFieldsAt | app/Telegram/SettingsCommandBotHandler.php:276-292 | item i of a list sits under the key "i" |
| SettingsCommandBotHandler.MergedSettingsEffect | app/Telegram/SettingsCommandBotHandler.php:276-299 | saving sets that one setting; other settings and other top-level entries are kept, and a list's items stay under their indices; a document that is not an array is read as empty, and so is a `settings` entry that is not an array; a list-valued `settings` keeps its items under their indices |
| SettingsCommandBotHandler.MergedSettingsLastWins | app/Telegram/SettingsCommandBotHandler.php:294-299 | saving the same setting twice keeps only the second value |
| SettingsCommandBotHandler.MergedSettingsCommute | app/Telegram/SettingsCommandBotHandler.php:294-299 | saving two different settings gives the same document in either order |
| SettingsCommandBotHandler.SavedSettingStored | app/Telegram/SettingsCommandBotHandler.php:261-300 | after a save the chat's conversation holds the merged document; ids stay sequential, owners unique, and logs untouched |
| SettingsCommandBotHandler.ClearedEffect | app/Telegram/SettingsCommandBotHandler.php:104-117 | clearing empties exactly the chat's log, and keeps every other log and the rows find-or-create left |
| SettingsCommandBotHandler.StatsViewReport | app/Telegram/SettingsCommandBotHandler.php:86-99 | a known chat gets its log size and first-contact time with no change of state; a new chat is registered and reports no messages, member since now |
| SettingsCommandBotHandler.ReactionChangesOnlyOnSave | app/Telegram/SettingsCommandBotHandler.php:122-134 | only a saved selection changes the state, and it is confirmed with exactly one message |
| SettingsCommandBotHandler.SavedSettingPreservesInvariants | app/Telegram/SettingsCommandBotHandler.php:261-300 | saving a setting keeps ids sequential, owners unique and logs owned |
| SettingsCommandBotHandler.ClearedPreservesInvariants | app/Telegram/SettingsCommandBotHandler.php:104-117 | clearing the history keeps ids sequential, owners unique and logs owned |
| SettingsCommandBotHandler.StatsViewPreservesInvariants | app/Telegram/SettingsCommandBotHandler.php:86-99 | showing the stats keeps ids sequential, owners unique and logs owned |
| SettingsCommandBotHandler.ReactionPreservesInvariants | app/Telegram/SettingsCommandBotHandler.php:122-134 | reacting to a menu message keeps ids sequential, owners unique and logs owned |
| SettingsCommandBotHandler.Settings | app/Telegram/SettingsCommandBotHandler.php:44-72 | the action keyboard is sent, then the quick-settings keyboard |
| SettingsCommandBotHandler.ContactSupport | app/Telegram/SettingsCommandBotHandler.php:77-81 | the contact text is sent |
| SettingsCommandBotHandler.ViewStats | app/Telegram/SettingsCommandBotHandler.php:86-99 | the new state and the report sent are those of `StatsView` |
| SettingsCommandBotHandler.ClearHistory | app/Telegram/SettingsCommandBotHandler.php:104-117 | the new state is `Cleared` of the old one, and the confirmation is sent |
| SettingsCommandBotHandler.SaveUserSetting | app/Telegram/SettingsCommandBotHandler.php:261-300 | the new state is `SavedSetting` of the old one |
| SettingsCommandBotHandler.HandleChatMessage | app/Telegram/SettingsCommandBotHandler.php:122-134 | the new state and the messages sent are those of `Reaction` |
| Scenarios.CannedAnswer | app/Services/GeminiService.php:50-53 | a client that always answers a text makes generation return that text |
| Scenarios.AcceptableInputPasses | app/Http/Requests/SendMessageRequest.php:22-28 | a request with two acceptable strings passes validation with them |
| Scenarios.AnsweredSend | app/Http/Controllers/ChatController.php:28-51 | an answered send returns 200 and counts two messages, plus one conversation when the session is new; earlier rows keep their owners and creation times |
| Scenarios.CreatedTodayAfterSend | app/Http/Middleware/TrackChatStatistics.php:46-52 | after a send, the "created today" test holds if the send created the conversation, and otherwise exactly when it held before |
| Scenarios.OneSend | app/Http/Middleware/TrackChatStatistics.php:19-73 | a valid, answered send through the middleware counts three messages; a new session's conversation is counted twice, an existing one once more whenever it was created today |
| Scenarios.SameDaySendsOvercount | app/Http/Middleware/TrackChatStatistics.php:46-72 | two same-day sends from a new session create one conversation, yet `conversation_count` rises by 3 and `message_count` by 6 |
| Scenarios.FirstMessageFromNewSession | tests/Feature/ChatTest.php:25-67 | a first message is answered with the client's text, creates the session's web conversation, logs both turns, and is counted in today's web statistics |
| Scenarios.FirstSendFromNewSession | tests/Feature/ChatTest.php:25-67 | the first send from a new session answers with the client's text, makes the session's conversation the first row, and logs the two turns |
| Scenarios.HistoryOfLoggedExchange | tests/Feature/ChatTest.php:97-124 | a logged exchange is listed user turn first, then the assistant's, with their texts |
| Scenarios.MissingMessageRejected | tests/Feature/ChatTest.php:69-76 | a request without `message` gets 422 with an error on `message`, and changes nothing |
| Scenarios.MissingSessionIdRejected | tests/Feature/ChatTest.php:78-85 | a request without `session_id` gets 422 with an error on `session_id`, and changes nothing |
| Scenarios.LongMessageRejected | tests/Feature/ChatTest.php:87-95 | a 2001-character message gets 422 with an error on `message`, and changes nothing |
| Scenarios.ZeroSessionIdNotCounted | app/Http/Middleware/TrackChatStatistics.php:37-41 | the session id "0" passes validation, but the middleware finds it falsy and never counts its requests |

## Left out

- The HTTP call to the completion API is left out: its URL, API key, timeout, headers and generation settings (temperature and the other floats). The API is a function `Backend` from the request contents to a response or an exception.
- Logging of API errors and exceptions is left out; it does not affect the result.
- The message log is a map from conversation id to a sequence of messages. The `Message` model and its storage are not part of this model.
- The log is read in the order it was appended. The model takes that as the order by `created_at`. Turns stored with the same timestamp are assumed to keep their order.
- There is no expiry (time to live) on the history.
- Concurrency is left out. Each request runs alone against the store, so the read-modify-write races of find-or-create, of the counters and of `extra_data` are not modelled.
- Time is one whole-second `now` per request. Time zones are left out; the day of a time is `now / 86400`.
- Dates are not formatted. `created_at` in the history is the stored time, not its ISO 8601 text. The stats report carries the creation time, not the 'M d, Y' text.
- The Telegram library is reduced to an outbox of `Outgoing` values. The layout of the buttons is left out, and so are HTML parse mode, `parseCommand`, and the library's text for an unknown command (the notice carries the command text).
- Inertia page rendering (`index`) and route wiring are left out. The route name reaches the web middleware as a parameter.
- The middlewares' `$next($request)` is represented by the response it returned. The scenarios run the controller first and then the middleware. The registration of the middleware on the routes is not part of this model.
- `authorize` of the send request always returns true, so the model has no authorization step.
- The framework's default validation texts come from its language files, which are not part of this model. `ErrorText` names them by their translation key, which for the size rule `max` on a string field is `validation.max.string`. The 422 body keeps only the `errors` object.
- The 422 answer to a failed validation is the answer to a JSON request, which is how the feature tests send it (`postJson`). A request that does not ask for JSON is redirected back with a 302 instead; the state is unchanged either way, and the statistics middleware counts neither.
- The framework middlewares that trim strings and turn empty strings into null run before validation. They are not part of this model; validation sees the data as sent.
- ChatController.SendMessage: the data is checked by validation first, so the controller is given the two strings and not the request object.
- DailyStatistics.CreatedToday: a session id or chat id that is an array has no string form. It is taken to match no conversation. PHP would compare against its first element (web) or raise an array-to-string error (Telegram).
- SettingsCommandBotHandler.MergedSettings: `array_merge` renumbers integer-like keys of a stored map; the model keeps them as they are.
- The Eloquent attribute casts of the `Conversation` model are not part of this model; `extra_data` is held as the decoded document.
- The menu handler and the support handler are modelled separately. Which of them receives a given webhook is decided by configuration that is not part of this model.
- Gemini text values that are arrays (no string form) are read as null, where PHP would fail on the `?string` return type.
- Php.Value has no float case: a JSON number with a fraction or an exponent (in a request body, a Telegram update or a completion reply) is not represented.
