/** The bot's webhook handler: plain text goes to the conversation service and
    the answer (or an apology) is replied; texts naming a settings menu are
    answered locally; commands are dispatched through the command provider. */
module SupportBotHandler {
  import opened Php
  import opened Storage
  import opened Telegraph
  import opened TelegramCommands
  import ConversationService
  import GeminiService
  import SettingsCommandBotHandler

  const ApologyText := "Sorry, I encountered an error processing your message. Please try again later."
  const SettingsSelectedPrefix := "Settings menu selected: "
  const StartText := "Hello! I am your AI support assistant. How can I help you today?"
  const HelpText := "I'm an AI support bot powered by Gemini. Just send me a message and I'll do my best to help you!"

  /** isSettingsMessage: the text mentions one of the quick-settings menus. */
  predicate IsSettingsMessage(message: string) {
    || StrContains(message, "Gender") || StrContains(message, "Language")
    || StrContains(message, "Support Topic") || StrContains(message, "Location")
    || StrContains(message, "Close Settings")
  }

  /** handleSettingsMessage */
  function SettingsMessageReply(message: string): Outgoing {
    if StrContains(message, "Close Settings") then Post(SettingsCommandBotHandler.SettingsClosedText, RemoveReplyKeyboard)
    else Reply(SettingsSelectedPrefix + message)
  }

  /** The reply to an answered message: the answer itself when truthy. */
  function AnswerReply(answer: Option<string>): Outgoing {
    Reply(if Truthy(answer) then answer.value else ApologyText)
  }

  /** handleChatMessage: the state afterwards and the messages sent. */
  function ChatReaction(db: Db, chatId: string, from: Sender, message: string, now: Time,
                        backend: GeminiService.Backend): (Db, seq<Outgoing>) {
    if IsSettingsMessage(message) then (db, [SettingsMessageReply(message)])
    else
      var (db1, conversation) := ConversationService.FindOrCreate(db, "telegram", chatId, SeedOf(from), now);
      var (db2, answer) := ConversationService.Processed(db1, conversation, message, now, backend);
      (db2, [AnswerReply(answer)])
  }

  /** A plain message is logged in the chat's conversation with the answer
      when there is one, and the answer is replied verbatim; a falsy answer
      ("", "0" or none) gets the apology and leaves only the user's turn. */
  lemma ChatExchange(db: Db, chatId: string, from: Sender, message: string, now: Time, backend: GeminiService.Backend)
    requires !IsSettingsMessage(message)
    ensures var (db1, c) := ConversationService.FindOrCreate(db, "telegram", chatId, SeedOf(from), now);
            var answer := GeminiService.Generated(backend, ConversationService.Context(db1, c, message, now));
            var (db2, out) := ChatReaction(db, chatId, from, message, now, backend);
            && out == [Reply(if Truthy(answer) then answer.value else ApologyText)]
            && db2.Log(c.id) == db1.Log(c.id) + [Message("user", message, now)]
                 + (if Truthy(answer) then [Message("assistant", answer.value, now)] else [])
            && (forall id :: id != c.id ==> db2.Log(id) == db.Log(id))
  {
    var (db1, c) := ConversationService.FindOrCreate(db, "telegram", chatId, SeedOf(from), now);
    ConversationService.ProcessedLog(db1, c, message, now, backend);
    ConversationService.FindOrCreateCountsCreation(db, "telegram", chatId, SeedOf(from), now);
  }

  /** Handling a chat message keeps the invariants. */
  lemma ChatReactionPreservesInvariants(db: Db, chatId: string, from: Sender, message: string, now: Time,
                                        backend: GeminiService.Backend)
    requires db.Consistent()
    ensures ChatReaction(db, chatId, from, message, now, backend).0.Consistent()
  {
    if !IsSettingsMessage(message) {
      var (db1, c) := ConversationService.FindOrCreate(db, "telegram", chatId, SeedOf(from), now);
      ConversationService.FindOrCreatePreservesInvariants(db, "telegram", chatId, SeedOf(from), now);
      ConversationService.ProcessedPreservesInvariants(db1, c, message, now, backend);
    }
  }

  /** A settings message changes nothing and is never sent to the completion client. */
  lemma SettingsMessageStaysLocal(db: Db, chatId: string, from: Sender, message: string, now: Time, backend: GeminiService.Backend)
    requires IsSettingsMessage(message)
    ensures ChatReaction(db, chatId, from, message, now, backend) == (db, [SettingsMessageReply(message)])
  {
  }

  /** Each quick-settings button is a settings message: "❌ Close Settings"
      closes the keyboard, the other four are echoed back. */
  lemma QuickSettingsLabelsAreSettingsMessages(button: string)
    requires button in SettingsCommandBotHandler.QuickSettingsLabels
    ensures IsSettingsMessage(button)
    ensures SettingsMessageReply(button) ==
      if button == SettingsCommandBotHandler.CloseLabel
      then Post(SettingsCommandBotHandler.SettingsClosedText, RemoveReplyKeyboard)
      else Reply(SettingsSelectedPrefix + button)
  {
    if button == SettingsCommandBotHandler.GenderLabel { GenderLabelIsMenu(button); }
    else if button == SettingsCommandBotHandler.LanguageLabel { LanguageLabelIsMenu(button); }
    else if button == SettingsCommandBotHandler.TopicLabel { TopicLabelIsMenu(button); }
    else if button == SettingsCommandBotHandler.LocationLabel { LocationLabelIsMenu(button); }
    else { CloseLabelCloses(button); }
  }

  lemma GenderLabelIsMenu(button: string)
    requires button == SettingsCommandBotHandler.GenderLabel
    ensures StrContains(button, "Gender") && !StrContains(button, "Close Settings")
  {
    ContainsAfter("👤 ", "Gender");
    assert "👤 " + "Gender" == button;
    NotContainsByChar(button, "Close Settings", 'C');
  }

  lemma LanguageLabelIsMenu(button: string)
    requires button == SettingsCommandBotHandler.LanguageLabel
    ensures StrContains(button, "Language") && !StrContains(button, "Close Settings")
  {
    ContainsAfter("🌍 ", "Language");
    assert "🌍 " + "Language" == button;
    NotContainsByChar(button, "Close Settings", 'C');
  }

  lemma TopicLabelIsMenu(button: string)
    requires button == SettingsCommandBotHandler.TopicLabel
    ensures StrContains(button, "Support Topic") && !StrContains(button, "Close Settings")
  {
    ContainsAfter("📋 ", "Support Topic");
    assert "📋 " + "Support Topic" == button;
    NotContainsByChar(button, "Close Settings", 'C');
  }

  lemma LocationLabelIsMenu(button: string)
    requires button == SettingsCommandBotHandler.LocationLabel
    ensures StrContains(button, "Location") && !StrContains(button, "Close Settings")
  {
    ContainsAfter("📍 ", "Location");
    assert "📍 " + "Location" == button;
    NotContainsByChar(button, "Close Settings", 'C');
  }

  lemma CloseLabelCloses(button: string)
    requires button == SettingsCommandBotHandler.CloseLabel
    ensures StrContains(button, "Close Settings")
  {
    ContainsAfter("❌ ", "Close Settings");
    assert "❌ " + "Close Settings" == button;
  }

  // ---------------------------------------------------------------------------
  // Commands

  /** What a command handler's `run` sends. */
  function RunOutput(h: Handler): seq<Outgoing> {
    match h
    case StartHandler => [Reply(StartText)]
    case HelpHandler => [Reply(HelpText)]
    case SettingsHandler => SettingsCommandBotHandler.SettingsMenu
  }

  /** handleCommand: the handler's output, or the unknown-command notice. */
  function CommandOutput(handler: Option<Handler>, text: string): seq<Outgoing> {
    match handler
    case None => [UnknownCommandNotice(text)]
    case Some(h) => RunOutput(h)
  }

  /** With the registered handlers: /start greets, /help explains, /settings
      shows the settings menu, and anything else is an unknown command. */
  lemma RegisteredCommands(command: string, text: string)
    ensures CommandOutput(Resolved(Registered, command), text) ==
      if command == "start" then [Reply(StartText)]
      else if command == "help" then [Reply(HelpText)]
      else if command == "settings" then SettingsCommandBotHandler.SettingsMenu
      else [UnknownCommandNotice(text)]
  {
    RegisteredResolution(command);
  }

  method Run(h: Handler, chat: Chat)
    modifies chat
    ensures chat.sent == old(chat.sent) + RunOutput(h)
  {
    match h
    case StartHandler => chat.Send([Reply(StartText)]);
    case HelpHandler => chat.Send([Reply(HelpText)]);
    case SettingsHandler => SettingsCommandBotHandler.Settings(chat);
  }

  /** `command` is the name parseCommand extracted from `text`. */
  method HandleCommand(provider: TelegramCommandProvider, chat: Chat, text: string, command: string)
    modifies chat
    ensures chat.sent == old(chat.sent) + CommandOutput(Resolved(provider.handlers, command), text)
  {
    var handler := provider.Provide(command);
    if handler.None? {
      chat.Send([UnknownCommandNotice(text)]);
      return;
    }
    Run(handler.value, chat);
  }

  method HandleChatMessage(db: Store, chat: Chat, from: Sender, message: string, now: Time, backend: GeminiService.Backend)
    modifies db, chat
    ensures db.State() == ChatReaction(old(db.State()), chat.chatId, from, message, now, backend).0
    ensures chat.sent == old(chat.sent) + ChatReaction(old(db.State()), chat.chatId, from, message, now, backend).1
  {
    if IsSettingsMessage(message) {
      chat.Send([SettingsMessageReply(message)]);
      return;
    }
    var conversation := ConversationService.FindOrCreateConversation(db, "telegram", chat.chatId, SeedOf(from), now);
    var aiResponse := ConversationService.ProcessMessage(db, conversation, message, now, backend);
    if Truthy(aiResponse) {
      chat.Send([Reply(aiResponse.value)]);
      return;
    }
    chat.Send([Reply(ApologyText)]);
  }
}
