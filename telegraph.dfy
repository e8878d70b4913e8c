/** The part of the Telegram client library the handlers use: the chat a
    webhook update belongs to, and the messages sent to it, recorded in order
    instead of being delivered. */
module Telegraph {
  import opened Php
  import opened Storage

  /** The keyboard attached to an outgoing message; the buttons' layout is not modelled. */
  datatype Keyboard =
    | NoKeyboard
    | SettingsActions      // inline: visit website, contact support, view stats, clear history
    | QuickSettings        // reply: gender, language, support topic, location, close settings
    | GenderChoices
    | LanguageChoices
    | TopicChoices
    | LocationChoices
    | RemoveReplyKeyboard

  datatype Outgoing =
    | Reply(text: string)                          // $this->reply($text)
    | Post(text: string, keyboard: Keyboard)       // $this->chat->message($text)->...->send()
    | StatsReport(messageCount: nat, memberSince: Time)
    | UnknownCommandNotice(text: string)           // the library's handleUnknownCommand

  /** The author of the incoming message: `$this->message->from()`. */
  datatype Sender = Sender(id: int, username: Option<string>)

  /** The `extraData` seed the bot passes to findOrCreateConversation. */
  function SeedOf(from: Sender): Seed {
    Seed(Some(IntToString(from.id)), from.username)
  }

  class Chat {
    /** `$this->chat->chat_id`, stored by the library as a string. */
    const chatId: string
    var sent: seq<Outgoing>

    constructor (chatId: string)
      ensures this.chatId == chatId && sent == []
    {
      this.chatId := chatId;
      sent := [];
    }

    method Send(out: seq<Outgoing>)
      modifies this
      ensures sent == old(sent) + out
    {
      sent := sent + out;
    }
  }
}
