/** Bot commands: the command names, the three registered command handlers and
    the provider that picks the first handler supporting a command. */
module TelegramCommands {
  import opened Php

  /** The names of the bot's commands. */
  datatype TelegramCommand = Start | Help | Settings
  {
    function Value(): string {
      match this
      case Start => "start"
      case Help => "help"
      case Settings => "settings"
    }
  }

  /** The command handlers of the bot. */
  datatype Handler = StartHandler | HelpHandler | SettingsHandler
  {
    function Command(): TelegramCommand {
      match this
      case StartHandler => Start
      case HelpHandler => Help
      case SettingsHandler => Settings
    }

    /** supportCommand: the command string is exactly the handler's command name. */
    predicate SupportCommand(command: string) {
      command == Command().Value()
    }
  }

  /** The handlers in the order the service provider tags them. */
  const Registered: seq<Handler> := [HelpHandler, StartHandler, SettingsHandler]

  /** Position of the first handler that supports the command. */
  function FirstSupporting(handlers: seq<Handler>, command: string): (r: Option<nat>)
    ensures r.Some? ==> r.value < |handlers| && handlers[r.value].SupportCommand(command)
    ensures r.Some? ==> forall j :: 0 <= j < r.value ==> !handlers[j].SupportCommand(command)
    ensures r.None? ==> forall j :: 0 <= j < |handlers| ==> !handlers[j].SupportCommand(command)
  {
    if handlers == [] then None
    else if handlers[0].SupportCommand(command) then Some(0)
    else match FirstSupporting(handlers[1..], command)
      case None => None
      case Some(i) => Some(i + 1)
  }

  /** provide($command): that first handler, or null. */
  function Resolved(handlers: seq<Handler>, command: string): Option<Handler> {
    match FirstSupporting(handlers, command)
    case None => None
    case Some(i) => Some(handlers[i])
  }

  /** With the registered handlers, each command name resolves to its own
      handler and every other string to null. */
  lemma RegisteredResolution(command: string)
    ensures Resolved(Registered, command) ==
      if command == "start" then Some(StartHandler)
      else if command == "help" then Some(HelpHandler)
      else if command == "settings" then Some(SettingsHandler)
      else None
  {
    var r := FirstSupporting(Registered, command);
    if command == "help" {
      assert Registered[0].SupportCommand(command);
    } else if command == "start" {
      assert Registered[1].SupportCommand(command);
    } else if command == "settings" {
      assert Registered[2].SupportCommand(command);
    }
  }

  class TelegramCommandProvider {
    var handlers: seq<Handler>

    constructor (handlers: seq<Handler>)
      ensures this.handlers == handlers
    {
      this.handlers := handlers;
    }

    /** The first handler, in registration order, whose supportCommand holds. */
    method Provide(command: string) returns (r: Option<Handler>)
      ensures r == Resolved(handlers, command)
    {
      for i := 0 to |handlers|
        invariant forall j :: 0 <= j < i ==> !handlers[j].SupportCommand(command)
      {
        if handlers[i].SupportCommand(command) {
          return Some(handlers[i]);
        }
      }
      return None;
    }
  }
}
