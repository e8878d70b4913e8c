/** The /settings command handler: the settings menus, the keyword classifier
    that turns a pressed reply button into a saved setting, the read-modify-write
    of the conversation's `extra_data`, and the inline-button callbacks. */
module SettingsCommandBotHandler {
  import opened Php
  import opened Storage
  import opened Telegraph
  import ConversationService

  // Texts. PHP's single-quoted '\n' is a backslash and an `n`, not a newline.
  const BotSettingsText := "⚙️ <b>Bot Settings</b>\\n\\nChoose an option:"
  const QuickSettingsText := "Or use quick settings below:"
  const ContactSupportText := "📞 <b>Contact Support</b>\\n\\nYou can reach us at:\\n📧 support@example.com\\n📱 +1 234 567 8900"
  const HistoryClearedText := "🗑️ <b>History Cleared</b>\\n\\nYour conversation history has been deleted."
  const SettingsClosedText := "⚙️ Settings closed."
  const GenderPrompt := "👤 Select your gender:"
  const LanguagePrompt := "🌍 Select your language:"
  const TopicPrompt := "📋 Select your preferred support topic:"
  const LocationPrompt := "📍 Select your location:"

  // The quick-settings reply keyboard.
  const GenderLabel := "👤 Gender"
  const LanguageLabel := "🌍 Language"
  const TopicLabel := "📋 Support Topic"
  const LocationLabel := "📍 Location"
  const CloseLabel := "❌ Close Settings"
  const QuickSettingsLabels := [GenderLabel, LanguageLabel, TopicLabel, LocationLabel, CloseLabel]

  /** settings(): the inline action keyboard, then the quick-settings reply keyboard. */
  const SettingsMenu := [Post(BotSettingsText, SettingsActions), Post(QuickSettingsText, QuickSettings)]

  // ---------------------------------------------------------------------------
  // handleChatMessage: exact quick-settings labels open a menu

  datatype MenuAction = ShowGender | ShowLanguage | ShowTopic | ShowLocation | CloseSettings | Select(message: string)

  /** The `match` on the whole message: one of the five labels, or a selection. */
  function MenuActionFor(message: string): (r: MenuAction)
    ensures r.Select? <==> message !in QuickSettingsLabels
    ensures r.Select? ==> r.message == message
  {
    if message == GenderLabel then ShowGender
    else if message == LanguageLabel then ShowLanguage
    else if message == TopicLabel then ShowTopic
    else if message == LocationLabel then ShowLocation
    else if message == CloseLabel then CloseSettings
    else Select(message)
  }

  /** What a menu action other than a selection sends. */
  function MenuPost(a: MenuAction): Outgoing
    requires !a.Select?
  {
    match a
    case ShowGender => Post(GenderPrompt, GenderChoices)
    case ShowLanguage => Post(LanguagePrompt, LanguageChoices)
    case ShowTopic => Post(TopicPrompt, TopicChoices)
    case ShowLocation => Post(LocationPrompt, LocationChoices)
    case CloseSettings => Post(SettingsClosedText, RemoveReplyKeyboard)
  }

  // ---------------------------------------------------------------------------
  // handleSettingSelection: keyword classification, as written

  predicate GenderKeyword(m: string) {
    StrContains(m, "Male") || StrContains(m, "Female") || StrContains(m, "Other")
  }

  predicate LanguageKeyword(m: string) {
    StrContains(m, "English") || StrContains(m, "Spanish") || StrContains(m, "French") || StrContains(m, "German")
  }

  predicate TopicKeyword(m: string) {
    StrContains(m, "Technical") || StrContains(m, "Billing") || StrContains(m, "Product") || StrContains(m, "General")
  }

  predicate LocationKeyword(m: string) {
    || StrContains(m, "United States") || StrContains(m, "United Kingdom")
    || StrContains(m, "Canada") || StrContains(m, "Australia") || m == "🌍 Other"
  }

  predicate AnyKeyword(m: string) {
    GenderKeyword(m) || LanguageKeyword(m) || TopicKeyword(m) || LocationKeyword(m)
  }

  // The four `match (true)` blocks: the first keyword of the group that occurs
  // picks the value; none occurring gives null.

  function GenderValue(m: string): Option<string> {
    if StrContains(m, "Male") then Some("Male")
    else if StrContains(m, "Female") then Some("Female")
    else if StrContains(m, "Other") then Some("Other")
    else None
  }

  function LanguageValue(m: string): Option<string> {
    if StrContains(m, "English") then Some("English")
    else if StrContains(m, "Spanish") then Some("Spanish")
    else if StrContains(m, "French") then Some("French")
    else if StrContains(m, "German") then Some("German")
    else None
  }

  function TopicValue(m: string): Option<string> {
    if StrContains(m, "Technical") then Some("Technical Support")
    else if StrContains(m, "Billing") then Some("Billing")
    else if StrContains(m, "Product") then Some("Product Info")
    else if StrContains(m, "General") then Some("General Help")
    else None
  }

  function LocationValue(m: string): Option<string> {
    if StrContains(m, "United States") then Some("United States")
    else if StrContains(m, "United Kingdom") then Some("United Kingdom")
    else if StrContains(m, "Canada") then Some("Canada")
    else if StrContains(m, "Australia") then Some("Australia")
    else if m == "🌍 Other" then Some("Other")
    else None
  }

  /** Which arm of the if/elseif chain a message takes, with the value its
      `match (true)` picks. */
  datatype Branch = Group(setting: string, value: Option<string>) | BackToSettings | NoBranch

  function BranchOf(m: string): Branch {
    if GenderKeyword(m) then Group("gender", GenderValue(m))
    else if LanguageKeyword(m) then Group("language", LanguageValue(m))
    else if TopicKeyword(m) then Group("support_topic", TopicValue(m))
    else if LocationKeyword(m) then Group("location", LocationValue(m))
    else if StrContains(m, "Back to Settings") then BackToSettings
    else NoBranch
  }

  /** What handleSettingSelection does with a message. */
  datatype Selection = Save(setting: string, value: string) | ShowSettings | Ignore

  function Classified(m: string): Selection {
    match BranchOf(m)
    case BackToSettings => ShowSettings
    case NoBranch => Ignore
    case Group(setting, value) =>
      if Truthy(Some(setting)) && Truthy(value) then Save(setting, value.value) else Ignore
  }

  /** The (setting, value) pairs the four `match (true)` blocks can produce. */
  const Choices: set<(string, string)> := {
    ("gender", "Male"), ("gender", "Female"), ("gender", "Other"),
    ("language", "English"), ("language", "Spanish"), ("language", "French"), ("language", "German"),
    ("support_topic", "Technical Support"), ("support_topic", "Billing"),
    ("support_topic", "Product Info"), ("support_topic", "General Help"),
    ("location", "United States"), ("location", "United Kingdom"), ("location", "Canada"),
    ("location", "Australia"), ("location", "Other")
  }

  /** A message is saved exactly when it has a keyword of some group, and then
      as one of the listed choices; "Back to Settings" reopens the menu only when
      no keyword matched; every other message is ignored. */
  lemma ClassifiedCases(m: string)
    ensures Classified(m).Save? <==> AnyKeyword(m)
    ensures Classified(m).Save? ==> (Classified(m).setting, Classified(m).value) in Choices
    ensures Classified(m) == ShowSettings <==> !AnyKeyword(m) && StrContains(m, "Back to Settings")
    ensures Classified(m) == Ignore <==> !AnyKeyword(m) && !StrContains(m, "Back to Settings")
  {
  }

  /** Any message containing "Other" is a gender choice, whichever menu it came from. */
  lemma OtherIsGender(m: string)
    requires StrContains(m, "Other")
    ensures Classified(m).Save? && Classified(m).setting == "gender"
  {
  }

  /** The location arm's "Other" can never be saved: the only message that
      reaches it, "🌍 Other", already contains the gender keyword. */
  lemma LocationOtherUnreachable(m: string)
    ensures Classified(m) != Save("location", "Other")
  {
    if BranchOf(m) == Group("location", Some("Other")) {
      ContainsAt("🌍 Other", "Other", 2);
      assert false;
    }
  }

  /** Within the group that matched, the saved value is that group's pick. */
  lemma SavesGroupValue(m: string)
    ensures GenderKeyword(m) ==> GenderValue(m).Some? && Classified(m) == Save("gender", GenderValue(m).value)
    ensures !GenderKeyword(m) && LanguageKeyword(m) ==>
              LanguageValue(m).Some? && Classified(m) == Save("language", LanguageValue(m).value)
    ensures !GenderKeyword(m) && !LanguageKeyword(m) && TopicKeyword(m) ==>
              TopicValue(m).Some? && Classified(m) == Save("support_topic", TopicValue(m).value)
    ensures !GenderKeyword(m) && !LanguageKeyword(m) && !TopicKeyword(m) && LocationKeyword(m) ==>
              LocationValue(m).Some? && Classified(m) == Save("location", LocationValue(m).value)
  {
  }

  // ---------------------------------------------------------------------------
  // saveUserSetting: the read-modify-write of `extra_data`

  /** A list's items as an associative array under the keys "0", "1", ... */
  function ListFields(items: seq<Value>): (r: map<string, Value>)
    ensures forall i :: 0 <= i < |items| ==> NatToString(i) in r
  {
    if items == [] then map[]
    else ListFields(items[..|items| - 1])[NatToString(|items| - 1) := items[|items| - 1]]
  }

  /** A decoded document as the handler reads it: an array (a map, or a list
      with its integer keys) as it is, anything else as the empty array. */
  function ArrayOrEmpty(v: Value): map<string, Value> {
    match v
    case Object(fields) => fields
    case List(items) => ListFields(items)
    case _ => map[]
  }

  /** The `extra_data` that saving `key` = `value` writes, given the one read. */
  function MergedSettings(extra: Value, key: string, value: string): Value {
    var extraData := ArrayOrEmpty(extra);
    var settings := if "settings" in extraData then ArrayOrEmpty(extraData["settings"]) else map[];
    Object(extraData["settings" := Object(settings[key := Str(value)])])
  }

  /** `$extra['settings'][$key] ?? null` */
  function SettingOf(extra: Value, key: string): Value {
    Get(Get(extra, Named("settings")), Named(key))
  }

  /** Every key of a list read as an array is a string of decimal digits. */
  lemma {:induction false} ListFieldsDigitKeys(items: seq<Value>)
    ensures forall k :: k in ListFields(items) ==> |k| > 0 && k[0] in "0123456789"
  {
    if items != [] {
      ListFieldsDigitKeys(items[..|items| - 1]);
    }
  }

  lemma {:induction false} ListFieldsAt(items: seq<Value>)
    ensures forall i :: 0 <= i < |items| ==> ListFields(items)[NatToString(i)] == items[i]
  {
    if items != [] {
      var init := items[..|items| - 1];
      ListFieldsAt(init);
      forall i | 0 <= i < |items| - 1
        ensures ListFields(items)[NatToString(i)] == items[i]
      {
        if NatToString(i) == NatToString(|items| - 1) {
          NatToStringInjective(i, |items| - 1);
        }
        assert init[i] == items[i];
      }
    }
  }

  /** Saving sets that one setting; every other setting and every other
      top-level entry of the document is kept, and a list's items stay under
      their indices. A document that is not an array is read as an empty one,
      and so is a `settings` entry that is missing or not an array. */
  lemma MergedSettingsEffect(extra: Value, key: string, value: string)
    ensures var r := MergedSettings(extra, key, value);
            && SettingOf(r, key) == Str(value)
            && (extra.Object? ==> forall k :: k != "settings" ==> Get(r, Named(k)) == Get(extra, Named(k)))
            && (extra.List? ==> forall i :: 0 <= i < |extra.items| ==> Get(r, At(i)) == extra.items[i])
            && (extra.Object? && Get(extra, Named("settings")).Object? ==>
                  forall k :: k != key ==> SettingOf(r, k) == SettingOf(extra, k))
    ensures var r := MergedSettings(extra, key, value);
            var settings := Get(extra, Named("settings"));
            && (!extra.Object? && !extra.List? ==> r == Object(map["settings" := Object(map[key := Str(value)])]))
            && (extra.List? ==> Get(r, Named("settings")) == Object(map[key := Str(value)]))
            && (extra.Object? && !settings.Object? && !settings.List? ==>
                  Get(r, Named("settings")) == Object(map[key := Str(value)]))
            && (extra.Object? && settings.List? ==>
                  forall i :: 0 <= i < |settings.items| && NatToString(i) != key ==>
                    Get(Get(r, Named("settings")), At(i)) == settings.items[i])
  {
    if extra.List? {
      ListFieldsAt(extra.items);
      forall i | 0 <= i < |extra.items|
        ensures Get(MergedSettings(extra, key, value), At(i)) == extra.items[i]
      {
        var digits := NatToString(i);
        assert digits != "settings" by {
          assert digits[0] in "0123456789";
        }
      }
      ListFieldsDigitKeys(extra.items);
    }
    var settings := Get(extra, Named("settings"));
    if extra.Object? && settings.List? {
      ListFieldsAt(settings.items);
    }
  }

  /** Saving the same setting twice keeps only the second value. */
  lemma MergedSettingsLastWins(extra: Value, key: string, v1: string, v2: string)
    ensures MergedSettings(MergedSettings(extra, key, v1), key, v2) == MergedSettings(extra, key, v2)
  {
    var extraData := ArrayOrEmpty(extra);
    var settings := if "settings" in extraData then ArrayOrEmpty(extraData["settings"]) else map[];
    assert settings[key := Str(v1)][key := Str(v2)] == settings[key := Str(v2)];
    var s1 := Object(settings[key := Str(v1)]);
    var s2 := Object(settings[key := Str(v2)]);
    assert extraData["settings" := s1]["settings" := s2] == extraData["settings" := s2];
  }

  /** Saving two different settings gives the same document in either order. */
  lemma MergedSettingsCommute(extra: Value, k1: string, v1: string, k2: string, v2: string)
    requires k1 != k2
    ensures MergedSettings(MergedSettings(extra, k1, v1), k2, v2)
         == MergedSettings(MergedSettings(extra, k2, v2), k1, v1)
  {
    var extraData := ArrayOrEmpty(extra);
    var settings := if "settings" in extraData then ArrayOrEmpty(extraData["settings"]) else map[];
    var both := settings[k1 := Str(v1)][k2 := Str(v2)];
    assert both == settings[k2 := Str(v2)][k1 := Str(v1)];
    assert extraData["settings" := Object(settings[k1 := Str(v1)])]["settings" := Object(both)]
        == extraData["settings" := Object(settings[k2 := Str(v2)])]["settings" := Object(both)];
  }

  /** saveUserSetting: find or create the chat's conversation (seeded with the
      sender), then store the merged document on it. */
  function SavedSetting(db: Db, chatId: string, from: Sender, key: string, value: string, now: Time): Db {
    var (db1, c) := ConversationService.FindOrCreate(db, "telegram", chatId, SeedOf(from), now);
    db1.(conversations := SetExtraData(db1.conversations, c.id, MergedSettings(c.extraData, key, value)))
  }

  /** The `extra_data` the chat's conversation has before a save: a new one has none. */
  function PriorExtra(db: Db, chatId: string): Value {
    match FirstMatch(db.conversations, OwnedBy("telegram", chatId))
    case Some(i) => db.conversations[i].extraData
    case None => Null
  }

  /** After a save, the chat's conversation (found again by its owner) holds
      the merged document; ids stay sequential, owners unique, logs untouched. */
  lemma SavedSettingStored(db: Db, chatId: string, from: Sender, key: string, value: string, now: Time)
    requires db.Valid() && db.Unique()
    ensures var db2 := SavedSetting(db, chatId, from, key, value, now);
            && db2.Valid() && db2.Unique() && db2.logs == db.logs
            && PriorExtra(db2, chatId) == MergedSettings(PriorExtra(db, chatId), key, value)
  {
    var q := OwnedBy("telegram", chatId);
    var (db1, c) := ConversationService.FindOrCreate(db, "telegram", chatId, SeedOf(from), now);
    ConversationService.FindOrCreatePreservesInvariants(db, "telegram", chatId, SeedOf(from), now);
    ConversationService.SeedOnlyOnCreation(db, "telegram", chatId, SeedOf(from), now);
    var db2 := SavedSetting(db, chatId, from, key, value, now);
    FirstMatchAgrees(db1.conversations, db2.conversations, q);
    ConversationService.FindOrCreateIdempotent(db, "telegram", chatId, SeedOf(from), now, SeedOf(from), now);
    assert FirstMatch(db1.conversations, q) == Some(c.id - 1);
  }

  /** A save keeps the invariants, logs included. */
  lemma SavedSettingPreservesInvariants(db: Db, chatId: string, from: Sender, key: string, value: string, now: Time)
    requires db.Consistent()
    ensures SavedSetting(db, chatId, from, key, value, now).Consistent()
  {
    var (db1, c) := ConversationService.FindOrCreate(db, "telegram", chatId, SeedOf(from), now);
    ConversationService.FindOrCreatePreservesInvariants(db, "telegram", chatId, SeedOf(from), now);
    ConsistentAfterUpdate(db1, SavedSetting(db, chatId, from, key, value, now));
  }

  // ---------------------------------------------------------------------------
  // The inline-button callbacks

  /** clear_history: find or create the chat's conversation, then delete its log. */
  function Cleared(db: Db, chatId: string, now: Time): Db {
    var (db1, c) := ConversationService.FindOrCreate(db, "telegram", chatId, NoSeed, now);
    db1.(logs := db1.logs - {c.id})
  }

  /** Clearing empties exactly the chat's log: conversations and counters are
      as finding the conversation left them, and every other log is kept. */
  lemma ClearedEffect(db: Db, chatId: string, now: Time)
    ensures var (db1, c) := ConversationService.FindOrCreate(db, "telegram", chatId, NoSeed, now);
            var db2 := Cleared(db, chatId, now);
            && db2.Log(c.id) == []
            && (forall id :: id != c.id ==> db2.Log(id) == db.Log(id))
            && db2.conversations == db1.conversations && db2.stats == db1.stats
  {
  }

  /** Clearing a chat's history keeps the invariants. */
  lemma ClearedPreservesInvariants(db: Db, chatId: string, now: Time)
    requires db.Consistent()
    ensures Cleared(db, chatId, now).Consistent()
  {
    var (db1, c) := ConversationService.FindOrCreate(db, "telegram", chatId, NoSeed, now);
    ConversationService.FindOrCreatePreservesInvariants(db, "telegram", chatId, NoSeed, now);
    ConsistentAfterUpdate(db1, Cleared(db, chatId, now));
  }

  /** view_stats: the number of logged turns and the creation time of the chat's conversation. */
  function StatsView(db: Db, chatId: string, now: Time): (Db, Outgoing) {
    var (db1, c) := ConversationService.FindOrCreate(db, "telegram", chatId, NoSeed, now);
    (db1, StatsReport(|db1.Log(c.id)|, c.createdAt))
  }

  /** A chat seen before gets the size of its log and its first contact time,
      without any change to the state; a new chat is registered and reports no
      messages, member since now. */
  lemma StatsViewReport(db: Db, chatId: string, now: Time)
    requires db.Valid() && db.LogsOwned()
    ensures var (db1, report) := StatsView(db, chatId, now);
            match FirstMatch(db.conversations, OwnedBy("telegram", chatId))
            case Some(i) =>
              db1 == db && report == StatsReport(|db.Log(db.conversations[i].id)|, db.conversations[i].createdAt)
            case None =>
              report == StatsReport(0, now)
  {
    var i := FirstMatch(db.conversations, OwnedBy("telegram", chatId));
    if i.None? {
      assert |db.conversations| + 1 !in db.logs;
    }
  }

  lemma StatsViewPreservesInvariants(db: Db, chatId: string, now: Time)
    requires db.Consistent()
    ensures StatsView(db, chatId, now).0.Consistent()
  {
    ConversationService.FindOrCreatePreservesInvariants(db, "telegram", chatId, NoSeed, now);
  }

  // ---------------------------------------------------------------------------
  // handleChatMessage as a whole

  /** "✅ {$setting} set to: {$value}" */
  function Confirmation(setting: string, value: string): string {
    "✅ " + setting + " set to: " + value
  }

  /** The state afterwards and the messages sent, for one text message. */
  function Reaction(db: Db, chatId: string, from: Sender, message: string, now: Time): (Db, seq<Outgoing>) {
    var action := MenuActionFor(message);
    if !action.Select? then (db, [MenuPost(action)])
    else match Classified(message)
      case Save(setting, value) => (SavedSetting(db, chatId, from, setting, value, now), [Post(Confirmation(setting, value), NoKeyboard)])
      case ShowSettings => (db, SettingsMenu)
      case Ignore => (db, [])
  }

  /** Only a saved selection changes the state, and it is confirmed with
      exactly one message; everything else changes nothing. */
  lemma ReactionChangesOnlyOnSave(db: Db, chatId: string, from: Sender, message: string, now: Time)
    ensures var (db1, out) := Reaction(db, chatId, from, message, now);
            if message !in QuickSettingsLabels && Classified(message).Save? then
              var sel := Classified(message);
              && db1 == SavedSetting(db, chatId, from, sel.setting, sel.value, now)
              && out == [Post(Confirmation(sel.setting, sel.value), NoKeyboard)]
            else db1 == db
  {
  }

  lemma ReactionPreservesInvariants(db: Db, chatId: string, from: Sender, message: string, now: Time)
    requires db.Consistent()
    ensures Reaction(db, chatId, from, message, now).0.Consistent()
  {
    if MenuActionFor(message).Select? && Classified(message).Save? {
      var sel := Classified(message);
      SavedSettingPreservesInvariants(db, chatId, from, sel.setting, sel.value, now);
    }
  }

  // ---------------------------------------------------------------------------
  // The handler's methods

  /** settings(), also what `run` does for the /settings command. */
  method Settings(chat: Chat)
    modifies chat
    ensures chat.sent == old(chat.sent) + SettingsMenu
  {
    chat.Send([Post(BotSettingsText, SettingsActions)]);
    chat.Send([Post(QuickSettingsText, QuickSettings)]);
  }

  method ContactSupport(chat: Chat)
    modifies chat
    ensures chat.sent == old(chat.sent) + [Post(ContactSupportText, NoKeyboard)]
  {
    chat.Send([Post(ContactSupportText, NoKeyboard)]);
  }

  method ViewStats(db: Store, chat: Chat, now: Time)
    modifies db, chat
    ensures db.State() == StatsView(old(db.State()), chat.chatId, now).0
    ensures chat.sent == old(chat.sent) + [StatsView(old(db.State()), chat.chatId, now).1]
  {
    var conversation := ConversationService.FindOrCreateConversation(db, "telegram", chat.chatId, NoSeed, now);
    var messages := db.State().Log(conversation.id);
    chat.Send([StatsReport(|messages|, conversation.createdAt)]);
  }

  method ClearHistory(db: Store, chat: Chat, now: Time)
    modifies db, chat
    ensures db.State() == Cleared(old(db.State()), chat.chatId, now)
    ensures chat.sent == old(chat.sent) + [Post(HistoryClearedText, NoKeyboard)]
  {
    var conversation := ConversationService.FindOrCreateConversation(db, "telegram", chat.chatId, NoSeed, now);
    db.DeleteLog(conversation.id);
    chat.Send([Post(HistoryClearedText, NoKeyboard)]);
  }

  method SaveUserSetting(db: Store, chat: Chat, from: Sender, key: string, value: string, now: Time)
    modifies db
    ensures db.State() == SavedSetting(old(db.State()), chat.chatId, from, key, value, now)
  {
    var conversation := ConversationService.FindOrCreateConversation(db, "telegram", chat.chatId, SeedOf(from), now);
    db.UpdateExtraData(conversation.id, MergedSettings(conversation.extraData, key, value));
  }

  method HandleChatMessage(db: Store, chat: Chat, from: Sender, message: string, now: Time)
    modifies db, chat
    ensures db.State() == Reaction(old(db.State()), chat.chatId, from, message, now).0
    ensures chat.sent == old(chat.sent) + Reaction(old(db.State()), chat.chatId, from, message, now).1
  {
    var action := MenuActionFor(message);
    if !action.Select? {
      chat.Send([MenuPost(action)]);
      return;
    }
    match Classified(message)
    case Save(setting, value) =>
      SaveUserSetting(db, chat, from, setting, value, now);
      chat.Send([Post(Confirmation(setting, value), NoKeyboard)]);
    case ShowSettings =>
      Settings(chat);
    case Ignore =>
  }

  // ---------------------------------------------------------------------------
  // The sub-menu keyboards, button by button

  const BackLabel := "🔙 Back to Settings"

  /** The gender keyboard's buttons and what pressing each one does. */
  const GenderMenu: map<string, Selection> := map[
    "👨 Male" := Save("gender", "Male"),
    "👩 Female" := Save("gender", "Female"),
    "⚧️ Other" := Save("gender", "Other"),
    BackLabel := ShowSettings]

  /** The language keyboard's buttons and what pressing each one does. */
  const LanguageMenu: map<string, Selection> := map[
    "🇺🇸 English" := Save("language", "English"),
    "🇪🇸 Spanish" := Save("language", "Spanish"),
    "🇫🇷 French" := Save("language", "French"),
    "🇩🇪 German" := Save("language", "German"),
    BackLabel := ShowSettings]

  /** The support-topic keyboard's buttons and what pressing each one does. */
  const TopicMenu: map<string, Selection> := map[
    "💻 Technical Support" := Save("support_topic", "Technical Support"),
    "💰 Billing" := Save("support_topic", "Billing"),
    "📦 Product Info" := Save("support_topic", "Product Info"),
    "❓ General Help" := Save("support_topic", "General Help"),
    BackLabel := ShowSettings]

  /** The location keyboard's buttons and what pressing each one does: its
      "🌍 Other" button records the gender, not the location. */
  const LocationMenu: map<string, Selection> := map[
    "🇺🇸 United States" := Save("location", "United States"),
    "🇬🇧 United Kingdom" := Save("location", "United Kingdom"),
    "🇨🇦 Canada" := Save("location", "Canada"),
    "🇦🇺 Australia" := Save("location", "Australia"),
    "🌍 Other" := Save("gender", "Other"),
    BackLabel := ShowSettings]

  lemma GenderMenuButtons(m: string)
    requires m in GenderMenu
    ensures Classified(m) == GenderMenu[m]
  {
    if m == "👨 Male" { MaleButton(m); }
    else if m == "👩 Female" { FemaleButton(m); }
    else if m == "⚧️ Other" { OtherButton(m); }
    else { BackButton(m); }
  }

  lemma LanguageMenuButtons(m: string)
    requires m in LanguageMenu
    ensures Classified(m) == LanguageMenu[m]
  {
    if m == "🇺🇸 English" { EnglishButton(m); }
    else if m == "🇪🇸 Spanish" { SpanishButton(m); }
    else if m == "🇫🇷 French" { FrenchButton(m); }
    else if m == "🇩🇪 German" { GermanButton(m); }
    else { BackButton(m); }
  }

  lemma TopicMenuButtons(m: string)
    requires m in TopicMenu
    ensures Classified(m) == TopicMenu[m]
  {
    if m == "💻 Technical Support" { TechnicalButton(m); }
    else if m == "💰 Billing" { BillingButton(m); }
    else if m == "📦 Product Info" { ProductButton(m); }
    else if m == "❓ General Help" { GeneralButton(m); }
    else { BackButton(m); }
  }

  lemma LocationMenuButtons(m: string)
    requires m in LocationMenu
    ensures Classified(m) == LocationMenu[m]
  {
    if m == "🇺🇸 United States" { UnitedStatesButton(m); }
    else if m == "🇬🇧 United Kingdom" { UnitedKingdomButton(m); }
    else if m == "🇨🇦 Canada" { CanadaButton(m); }
    else if m == "🇦🇺 Australia" { AustraliaButton(m); }
    else if m == "🌍 Other" { GlobeOtherButton(m); }
    else { BackButton(m); }
  }

  // One pair of lemmas per button: the facts about its label (the keywords of
  // earlier arms are absent, each lacking a character the label lacks, and the
  // button's own keyword occurs), then the classification that follows.

  lemma MaleButton(m: string)
    requires m == "👨 Male"
    ensures Classified(m) == Save("gender", "Male")
  {
    ContainsAt(m, "Male", 2);
    SavesGroupValue(m);
  }

  lemma FemaleLacks(m: string)
    requires m == "👩 Female"
    ensures !StrContains(m, "Male")
  {
    NotContainsByChar(m, "Male", 'M');
  }

  lemma FemaleButton(m: string)
    requires m == "👩 Female"
    ensures Classified(m) == Save("gender", "Female")
  {
    FemaleLacks(m);
    ContainsAt(m, "Female", 2);
    SavesGroupValue(m);
  }

  lemma OtherLacks(m: string)
    requires m == "⚧️ Other"
    ensures !StrContains(m, "Male") && !StrContains(m, "Female")
  {
    NotContainsByChar(m, "Male", 'M');
    NotContainsByChar(m, "Female", 'F');
  }

  lemma OtherButton(m: string)
    requires m == "⚧️ Other"
    ensures Classified(m) == Save("gender", "Other")
  {
    OtherLacks(m);
    ContainsAt(m, "Other", 3);
    SavesGroupValue(m);
  }

  lemma EnglishLacks(m: string)
    requires m == "🇺🇸 English"
    ensures !StrContains(m, "Male") && !StrContains(m, "Female") && !StrContains(m, "Other")
  {
    NotContainsByChar(m, "Male", 'M');
    NotContainsByChar(m, "Female", 'F');
    NotContainsByChar(m, "Other", 'O');
  }

  lemma EnglishButton(m: string)
    requires m == "🇺🇸 English"
    ensures Classified(m) == Save("language", "English")
  {
    EnglishLacks(m);
    ContainsAt(m, "English", 3);
    SavesGroupValue(m);
  }

  lemma SpanishLacks(m: string)
    requires m == "🇪🇸 Spanish"
    ensures !StrContains(m, "Male") && !StrContains(m, "Female") && !StrContains(m, "Other")
    ensures !StrContains(m, "English")
  {
    NotContainsByChar(m, "Male", 'M');
    NotContainsByChar(m, "Female", 'F');
    NotContainsByChar(m, "Other", 'O');
    NotContainsByChar(m, "English", 'E');
  }

  lemma SpanishButton(m: string)
    requires m == "🇪🇸 Spanish"
    ensures Classified(m) == Save("language", "Spanish")
  {
    SpanishLacks(m);
    ContainsAt(m, "Spanish", 3);
    SavesGroupValue(m);
  }

  lemma FrenchLacks1(m: string)
    requires m == "🇫🇷 French"
    ensures !StrContains(m, "Male") && !StrContains(m, "Female") && !StrContains(m, "Other")
    ensures !StrContains(m, "English")
  {
    NotContainsByChar(m, "Male", 'M');
    NotContainsByChar(m, "Female", 'm');
    NotContainsByChar(m, "Other", 'O');
    NotContainsByChar(m, "English", 'E');
  }

  lemma FrenchLacks2(m: string)
    requires m == "🇫🇷 French"
    ensures !StrContains(m, "Spanish")
  {
    NotContainsByChar(m, "Spanish", 'S');
  }

  lemma FrenchButton(m: string)
    requires m == "🇫🇷 French"
    ensures Classified(m) == Save("language", "French")
  {
    FrenchLacks1(m);
    FrenchLacks2(m);
    ContainsAt(m, "French", 3);
    SavesGroupValue(m);
  }

  lemma GermanLacks1(m: string)
    requires m == "🇩🇪 German"
    ensures !StrContains(m, "Male") && !StrContains(m, "Female") && !StrContains(m, "Other")
    ensures !StrContains(m, "English")
  {
    NotContainsByChar(m, "Male", 'M');
    NotContainsByChar(m, "Female", 'F');
    NotContainsByChar(m, "Other", 'O');
    NotContainsByChar(m, "English", 'E');
  }

  lemma GermanLacks2(m: string)
    requires m == "🇩🇪 German"
    ensures !StrContains(m, "Spanish") && !StrContains(m, "French")
  {
    NotContainsByChar(m, "Spanish", 'S');
    NotContainsByChar(m, "French", 'F');
  }

  lemma GermanButton(m: string)
    requires m == "🇩🇪 German"
    ensures Classified(m) == Save("language", "German")
  {
    GermanLacks1(m);
    GermanLacks2(m);
    ContainsAt(m, "German", 3);
    SavesGroupValue(m);
  }

  lemma TechnicalLacks1(m: string)
    requires m == "💻 Technical Support"
    ensures !StrContains(m, "Male") && !StrContains(m, "Female") && !StrContains(m, "Other")
    ensures !StrContains(m, "English")
  {
    NotContainsByChar(m, "Male", 'M');
    NotContainsByChar(m, "Female", 'F');
    NotContainsByChar(m, "Other", 'O');
    NotContainsByChar(m, "English", 'E');
  }

  lemma TechnicalLacks2(m: string)
    requires m == "💻 Technical Support"
    ensures !StrContains(m, "Spanish") && !StrContains(m, "French") && !StrContains(m, "German")
  {
    NotContainsByChar(m, "Spanish", 's');
    NotContainsByChar(m, "French", 'F');
    NotContainsByChar(m, "German", 'G');
  }

  lemma TechnicalButton(m: string)
    requires m == "💻 Technical Support"
    ensures Classified(m) == Save("support_topic", "Technical Support")
  {
    TechnicalLacks1(m);
    TechnicalLacks2(m);
    ContainsAt(m, "Technical", 2);
    SavesGroupValue(m);
  }

  lemma BillingLacks1(m: string)
    requires m == "💰 Billing"
    ensures !StrContains(m, "Male") && !StrContains(m, "Female") && !StrContains(m, "Other")
    ensures !StrContains(m, "English")
  {
    NotContainsByChar(m, "Male", 'M');
    NotContainsByChar(m, "Female", 'F');
    NotContainsByChar(m, "Other", 'O');
    NotContainsByChar(m, "English", 'E');
  }

  lemma BillingLacks2(m: string)
    requires m == "💰 Billing"
    ensures !StrContains(m, "Spanish") && !StrContains(m, "French") && !StrContains(m, "German")
    ensures !StrContains(m, "Technical")
  {
    NotContainsByChar(m, "Spanish", 'S');
    NotContainsByChar(m, "French", 'F');
    NotContainsByChar(m, "German", 'G');
    NotContainsByChar(m, "Technical", 'T');
  }

  lemma BillingButton(m: string)
    requires m == "💰 Billing"
    ensures Classified(m) == Save("support_topic", "Billing")
  {
    BillingLacks1(m);
    BillingLacks2(m);
    ContainsAt(m, "Billing", 2);
    SavesGroupValue(m);
  }

  lemma ProductLacks1(m: string)
    requires m == "📦 Product Info"
    ensures !StrContains(m, "Male") && !StrContains(m, "Female") && !StrContains(m, "Other")
    ensures !StrContains(m, "English")
  {
    NotContainsByChar(m, "Male", 'M');
    NotContainsByChar(m, "Female", 'F');
    NotContainsByChar(m, "Other", 'O');
    NotContainsByChar(m, "English", 'E');
  }

  lemma ProductLacks2(m: string)
    requires m == "📦 Product Info"
    ensures !StrContains(m, "Spanish") && !StrContains(m, "French") && !StrContains(m, "German")
    ensures !StrContains(m, "Technical")
  {
    NotContainsByChar(m, "Spanish", 's');
    NotContainsByChar(m, "French", 'F');
    NotContainsByChar(m, "German", 'G');
    NotContainsByChar(m, "Technical", 'T');
  }

  lemma ProductLacks3(m: string)
    requires m == "📦 Product Info"
    ensures !StrContains(m, "Billing")
  {
    NotContainsByChar(m, "Billing", 'B');
  }

  lemma ProductButton(m: string)
    requires m == "📦 Product Info"
    ensures Classified(m) == Save("support_topic", "Product Info")
  {
    ProductLacks1(m);
    ProductLacks2(m);
    ProductLacks3(m);
    ContainsAt(m, "Product", 2);
    SavesGroupValue(m);
  }

  lemma GeneralLacks1(m: string)
    requires m == "❓ General Help"
    ensures !StrContains(m, "Male") && !StrContains(m, "Female") && !StrContains(m, "Other")
    ensures !StrContains(m, "English")
  {
    NotContainsByChar(m, "Male", 'M');
    NotContainsByChar(m, "Female", 'F');
    NotContainsByChar(m, "Other", 'O');
    NotContainsByChar(m, "English", 'E');
  }

  lemma GeneralLacks2(m: string)
    requires m == "❓ General Help"
    ensures !StrContains(m, "Spanish") && !StrContains(m, "French") && !StrContains(m, "German")
    ensures !StrContains(m, "Technical")
  {
    NotContainsByChar(m, "Spanish", 'S');
    NotContainsByChar(m, "French", 'F');
    NotContainsByChar(m, "German", 'm');
    NotContainsByChar(m, "Technical", 'T');
  }

  lemma GeneralLacks3(m: string)
    requires m == "❓ General Help"
    ensures !StrContains(m, "Billing") && !StrContains(m, "Product")
  {
    NotContainsByChar(m, "Billing", 'B');
    NotContainsByChar(m, "Product", 'P');
  }

  lemma GeneralButton(m: string)
    requires m == "❓ General Help"
    ensures Classified(m) == Save("support_topic", "General Help")
  {
    GeneralLacks1(m);
    GeneralLacks2(m);
    GeneralLacks3(m);
    ContainsAt(m, "General", 2);
    SavesGroupValue(m);
  }

  lemma UnitedStatesLacks1(m: string)
    requires m == "🇺🇸 United States"
    ensures !StrContains(m, "Male") && !StrContains(m, "Female") && !StrContains(m, "Other")
    ensures !StrContains(m, "English")
  {
    NotContainsByChar(m, "Male", 'M');
    NotContainsByChar(m, "Female", 'F');
    NotContainsByChar(m, "Other", 'O');
    NotContainsByChar(m, "English", 'E');
  }

  lemma UnitedStatesLacks2(m: string)
    requires m == "🇺🇸 United States"
    ensures !StrContains(m, "Spanish") && !StrContains(m, "French") && !StrContains(m, "German")
    ensures !StrContains(m, "Technical")
  {
    NotContainsByChar(m, "Spanish", 'p');
    NotContainsByChar(m, "French", 'F');
    NotContainsByChar(m, "German", 'G');
    NotContainsByChar(m, "Technical", 'T');
  }

  lemma UnitedStatesLacks3(m: string)
    requires m == "🇺🇸 United States"
    ensures !StrContains(m, "Billing") && !StrContains(m, "Product") && !StrContains(m, "General")
  {
    NotContainsByChar(m, "Billing", 'B');
    NotContainsByChar(m, "Product", 'P');
    NotContainsByChar(m, "General", 'G');
  }

  lemma UnitedStatesButton(m: string)
    requires m == "🇺🇸 United States"
    ensures Classified(m) == Save("location", "United States")
  {
    UnitedStatesLacks1(m);
    UnitedStatesLacks2(m);
    UnitedStatesLacks3(m);
    ContainsAt(m, "United States", 3);
    SavesGroupValue(m);
  }

  lemma UnitedKingdomLacks1(m: string)
    requires m == "🇬🇧 United Kingdom"
    ensures !StrContains(m, "Male") && !StrContains(m, "Female") && !StrContains(m, "Other")
    ensures !StrContains(m, "English")
  {
    NotContainsByChar(m, "Male", 'M');
    NotContainsByChar(m, "Female", 'F');
    NotContainsByChar(m, "Other", 'O');
    NotContainsByChar(m, "English", 'E');
  }

  lemma UnitedKingdomLacks2(m: string)
    requires m == "🇬🇧 United Kingdom"
    ensures !StrContains(m, "Spanish") && !StrContains(m, "French") && !StrContains(m, "German")
    ensures !StrContains(m, "Technical")
  {
    NotContainsByChar(m, "Spanish", 'p');
    NotContainsByChar(m, "French", 'F');
    NotContainsByChar(m, "German", 'G');
    NotContainsByChar(m, "Technical", 'T');
  }

  lemma UnitedKingdomLacks3(m: string)
    requires m == "🇬🇧 United Kingdom"
    ensures !StrContains(m, "Billing") && !StrContains(m, "Product") && !StrContains(m, "General")
    ensures !StrContains(m, "United States")
  {
    NotContainsByChar(m, "Billing", 'B');
    NotContainsByChar(m, "Product", 'P');
    NotContainsByChar(m, "General", 'G');
    NotContainsByChar(m, "United States", 'S');
  }

  lemma UnitedKingdomButton(m: string)
    requires m == "🇬🇧 United Kingdom"
    ensures Classified(m) == Save("location", "United Kingdom")
  {
    UnitedKingdomLacks1(m);
    UnitedKingdomLacks2(m);
    UnitedKingdomLacks3(m);
    ContainsAt(m, "United Kingdom", 3);
    SavesGroupValue(m);
  }

  lemma CanadaLacks1(m: string)
    requires m == "🇨🇦 Canada"
    ensures !StrContains(m, "Male") && !StrContains(m, "Female") && !StrContains(m, "Other")
    ensures !StrContains(m, "English")
  {
    NotContainsByChar(m, "Male", 'M');
    NotContainsByChar(m, "Female", 'F');
    NotContainsByChar(m, "Other", 'O');
    NotContainsByChar(m, "English", 'E');
  }

  lemma CanadaLacks2(m: string)
    requires m == "🇨🇦 Canada"
    ensures !StrContains(m, "Spanish") && !StrContains(m, "French") && !StrContains(m, "German")
    ensures !StrContains(m, "Technical")
  {
    NotContainsByChar(m, "Spanish", 'p');
    NotContainsByChar(m, "French", 'F');
    NotContainsByChar(m, "German", 'G');
    NotContainsByChar(m, "Technical", 'T');
  }

  lemma CanadaLacks3(m: string)
    requires m == "🇨🇦 Canada"
    ensures !StrContains(m, "Billing") && !StrContains(m, "Product") && !StrContains(m, "General")
    ensures !StrContains(m, "United States")
  {
    NotContainsByChar(m, "Billing", 'B');
    NotContainsByChar(m, "Product", 'P');
    NotContainsByChar(m, "General", 'G');
    NotContainsByChar(m, "United States", 'U');
  }

  lemma CanadaLacks4(m: string)
    requires m == "🇨🇦 Canada"
    ensures !StrContains(m, "United Kingdom")
  {
    NotContainsByChar(m, "United Kingdom", 'U');
  }

  lemma CanadaButton(m: string)
    requires m == "🇨🇦 Canada"
    ensures Classified(m) == Save("location", "Canada")
  {
    CanadaLacks1(m);
    CanadaLacks2(m);
    CanadaLacks3(m);
    CanadaLacks4(m);
    ContainsAt(m, "Canada", 3);
    SavesGroupValue(m);
  }

  lemma AustraliaLacks1(m: string)
    requires m == "🇦🇺 Australia"
    ensures !StrContains(m, "Male") && !StrContains(m, "Female") && !StrContains(m, "Other")
    ensures !StrContains(m, "English")
  {
    NotContainsByChar(m, "Male", 'M');
    NotContainsByChar(m, "Female", 'F');
    NotContainsByChar(m, "Other", 'O');
    NotContainsByChar(m, "English", 'E');
  }

  lemma AustraliaLacks2(m: string)
    requires m == "🇦🇺 Australia"
    ensures !StrContains(m, "Spanish") && !StrContains(m, "French") && !StrContains(m, "German")
    ensures !StrContains(m, "Technical")
  {
    NotContainsByChar(m, "Spanish", 'p');
    NotContainsByChar(m, "French", 'F');
    NotContainsByChar(m, "German", 'G');
    NotContainsByChar(m, "Technical", 'T');
  }

  lemma AustraliaLacks3(m: string)
    requires m == "🇦🇺 Australia"
    ensures !StrContains(m, "Billing") && !StrContains(m, "Product") && !StrContains(m, "General")
    ensures !StrContains(m, "United States")
  {
    NotContainsByChar(m, "Billing", 'B');
    NotContainsByChar(m, "Product", 'P');
    NotContainsByChar(m, "General", 'G');
    NotContainsByChar(m, "United States", 'U');
  }

  lemma AustraliaLacks4(m: string)
    requires m == "🇦🇺 Australia"
    ensures !StrContains(m, "United Kingdom") && !StrContains(m, "Canada")
  {
    NotContainsByChar(m, "United Kingdom", 'U');
    NotContainsByChar(m, "Canada", 'C');
  }

  lemma AustraliaButton(m: string)
    requires m == "🇦🇺 Australia"
    ensures Classified(m) == Save("location", "Australia")
  {
    AustraliaLacks1(m);
    AustraliaLacks2(m);
    AustraliaLacks3(m);
    AustraliaLacks4(m);
    ContainsAt(m, "Australia", 3);
    SavesGroupValue(m);
  }

  lemma GlobeOtherLacks(m: string)
    requires m == "🌍 Other"
    ensures !StrContains(m, "Male") && !StrContains(m, "Female")
  {
    NotContainsByChar(m, "Male", 'M');
    NotContainsByChar(m, "Female", 'F');
  }

  lemma GlobeOtherButton(m: string)
    requires m == "🌍 Other"
    ensures Classified(m) == Save("gender", "Other")
  {
    GlobeOtherLacks(m);
    ContainsAt(m, "Other", 2);
    SavesGroupValue(m);
  }

  lemma BackLacks1(m: string)
    requires m == BackLabel
    ensures !StrContains(m, "Male") && !StrContains(m, "Female") && !StrContains(m, "Other")
    ensures !StrContains(m, "English")
  {
    NotContainsByChar(m, "Male", 'M');
    NotContainsByChar(m, "Female", 'F');
    NotContainsByChar(m, "Other", 'O');
    NotContainsByChar(m, "English", 'E');
  }

  lemma BackLacks2(m: string)
    requires m == BackLabel
    ensures !StrContains(m, "Spanish") && !StrContains(m, "French") && !StrContains(m, "German")
    ensures !StrContains(m, "Technical")
  {
    NotContainsByChar(m, "Spanish", 'p');
    NotContainsByChar(m, "French", 'F');
    NotContainsByChar(m, "German", 'G');
    NotContainsByChar(m, "Technical", 'T');
  }

  lemma BackLacks3(m: string)
    requires m == BackLabel
    ensures !StrContains(m, "Billing") && !StrContains(m, "Product") && !StrContains(m, "General")
    ensures !StrContains(m, "United States")
  {
    NotContainsByChar(m, "Billing", 'l');
    NotContainsByChar(m, "Product", 'P');
    NotContainsByChar(m, "General", 'G');
    NotContainsByChar(m, "United States", 'U');
  }

  lemma BackLacks4(m: string)
    requires m == BackLabel
    ensures !StrContains(m, "United Kingdom") && !StrContains(m, "Canada") && !StrContains(m, "Australia")
  {
    NotContainsByChar(m, "United Kingdom", 'U');
    NotContainsByChar(m, "Canada", 'C');
    NotContainsByChar(m, "Australia", 'A');
  }

  lemma BackButton(m: string)
    requires m == BackLabel
    ensures Classified(m) == ShowSettings
  {
    BackLacks1(m);
    BackLacks2(m);
    BackLacks3(m);
    BackLacks4(m);
    ContainsAt(m, "Back to Settings", 2);
  }
}
