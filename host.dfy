/**
 * The host object itself. Its fields are the ones `DestinyHost` keeps (the
 * three clients, the current history file and the language); the oracle
 * queues stand in for the prompt session and the clients, and the ghost log
 * records every call made to them. Each method is proved to do exactly
 * what the specification function of the same step says, on the snapshot
 * of the object before and after the call.
 */
module Host {
  import opened Wrappers
  import opened Ascii
  import opened Poetry
  import opened Confirmation
  import opened SessionModel
  import opened Marker
  import SubstitutionSpec
  import SetupSpec
  import SessionSpec

  class DestinyHost {
    /** The collaborators' fixed behaviour. */
    const world: World

    var llm: bool                  // llm_client is set
    var manager: bool              // mcp_manager is set
    var processor: bool            // mcp_processor is set
    var historyFile: Option<string>  // current_history_file
    var language: Language

    // What the prompt session and the clients will answer, in order.
    var input: seq<Reply>
    var picks: seq<Pick>
    var chats: seq<ChatReply>
    var selections: seq<Selection>
    var saves: seq<SaveReply>

    /** Every prompt and every call to a collaborator, in order. */
    ghost var log: seq<Event>

    /** The object as a value of the model. */
    ghost function Snapshot(): State
      reads this
    {
      State(llm, manager, processor, historyFile, language, input, picks, chats, selections, saves, log)
    }

    /** `DestinyHost(...)`: no client yet, no history file, English. */
    constructor(w: World, input: seq<Reply>, picks: seq<Pick>, chats: seq<ChatReply>,
                selections: seq<Selection>, saves: seq<SaveReply>)
      ensures world == w && SessionSpec.Fresh(Snapshot())
      ensures Snapshot() == State(false, false, false, None, English, input, picks, chats, selections, saves, [])
    {
      world := w;
      llm, manager, processor := false, false, false;
      historyFile := None;
      language := English;
      this.input, this.picks, this.chats := input, picks, chats;
      this.selections, this.saves := selections, saves;
      log := [];
    }

    // -------------------------------------------------------------------
    // The collaborators

    /** `session.prompt_async(...)`: the next reply, or an EOF once the input is exhausted. */
    method Prompt(kind: PromptKind) returns (reply: Reply)
      modifies this
      ensures (reply, Snapshot()) == Read(old(Snapshot()), kind)
    {
      log := log + [Asked(kind)];
      if input == [] {
        reply := EndOfFile;
      } else {
        reply := input[0];
        input := input[1..];
      }
    }

    /** `mcp_processor.process_mcp_command()`. */
    method ProcessMcpCommand() returns (pick: Pick)
      modifies this
      ensures (pick, Snapshot()) == NextPick(old(Snapshot()))
    {
      log := log + [McpCommand];
      if picks == [] {
        pick := Declined;
      } else {
        pick := picks[0];
        picks := picks[1..];
      }
    }

    /** `llm_client.chat_cli(message=...)`. */
    method ChatCli(message: string) returns (reply: ChatReply)
      modifies this
      ensures (reply, Snapshot()) == NextChat(old(Snapshot()), message)
    {
      log := log + [Chat(message)];
      if chats == [] {
        reply := Responded;
      } else {
        reply := chats[0];
        chats := chats[1..];
      }
    }

    /** `mcp_manager.select_mcp_client(...)`, with the chosen client's tool list and run. */
    method SelectMcpClient() returns (selection: Selection)
      modifies this
      ensures (selection, Snapshot()) == NextSelection(old(Snapshot()))
    {
      log := log + [SelectClient];
      if selections == [] {
        selection := NoClient;
      } else {
        selection := selections[0];
        selections := selections[1..];
      }
    }

    /** `llm_client.save_chat_history(file)`, or `save_chat_history()` without a file. */
    method SaveWithClient(file: Option<string>) returns (reply: SaveReply)
      modifies this
      ensures (reply, Snapshot()) == NextSave(old(Snapshot()), file)
    {
      log := log + [SaveHistory(file)];
      if saves == [] {
        reply := SaveReturned(false, "");
      } else {
        reply := saves[0];
        saves := saves[1..];
      }
    }

    // -------------------------------------------------------------------
    // process_mcp_input

    /**
     * `process_mcp_input(initial, allow_empty=allowEmpty)`: `Accepted` is
     * `(text, True)`, `Rejected` is `("", False)` and `Raised(e)` the
     * exception `e` from the resolver.
     */
    method ProcessMcpInput(initial: string, allowEmpty: bool) returns (r: SubstitutionSpec.Entry)
      modifies this
      ensures (r, Snapshot()) == SubstitutionSpec.Pipeline(world, old(Snapshot()), initial, allowEmpty)
    {
      if initial == "" {
        r := PromptForInput(allowEmpty);
        return;
      }
      SubstitutionSpec.InitialRound(world, Snapshot(), initial, allowEmpty);
      if SubstitutionSpec.Blank(initial) && !allowEmpty {
        return SubstitutionSpec.Rejected;
      }
      if SubstitutionSpec.IsQuit(initial) {
        return SubstitutionSpec.Rejected;
      }
      r := ResolveMarkers(initial);
    }

    /**
     * The outer `while True` of `process_mcp_input` without an initial
     * input: prompt until a line is not blank (or blank is allowed), then
     * refuse the exit literals or resolve the line's markers.
     */
    method PromptForInput(allowEmpty: bool) returns (r: SubstitutionSpec.Entry)
      modifies this
      ensures (r, Snapshot()) == SubstitutionSpec.Interactive(world, old(Snapshot()), allowEmpty)
    {
      while true
        invariant SubstitutionSpec.Interactive(world, old(Snapshot()), allowEmpty)
          == SubstitutionSpec.Interactive(world, Snapshot(), allowEmpty)
        decreases |input|
      {
        ghost var before := Snapshot();
        var reply := Prompt(UserPrompt);
        if !reply.Submitted() {
          return SubstitutionSpec.Rejected;
        }
        var userInput := reply.Line("");
        SubstitutionSpec.InteractiveRound(world, before, allowEmpty);
        if SubstitutionSpec.Blank(userInput) && !allowEmpty {
          continue;
        }
        if SubstitutionSpec.IsQuit(userInput) {
          return SubstitutionSpec.Rejected;
        }
        r := ResolveMarkers(userInput);
        return;
      }
    }

    /**
     * The inner `while True` of `process_mcp_input`: resolve the first
     * standalone marker until none is left or the resolver declines, then
     * the final `process_text` pass.
     */
    method ResolveMarkers(line: string) returns (r: SubstitutionSpec.Entry)
      modifies this
      ensures (r, Snapshot()) == SubstitutionSpec.Resolve(world, old(Snapshot()), line)
    {
      var userInput := line;
      while true
        invariant SubstitutionSpec.Resolve(world, old(Snapshot()), line)
          == SubstitutionSpec.Resolve(world, Snapshot(), userInput)
        decreases |input|
      {
        var found := FindMarker(userInput);
        if found.None? {
          break;
        }
        if !processor {
          return SubstitutionSpec.Rejected;
        }
        var (start, stop) := found.value;
        var prefix, suffix := userInput[..start], userInput[stop..];
        var pick := ProcessMcpCommand();
        if pick.PickFailed? {
          return SubstitutionSpec.Raised(pick.exc);
        }
        if !pick.Truthy() {
          break;
        }
        var reply := Prompt(EditPrompt);
        if !reply.Submitted() {
          return SubstitutionSpec.Rejected;
        }
        userInput := reply.Line(prefix + pick.text + suffix);
      }
      if processor {
        log := log + [ProcessText(userInput)];
        r := SubstitutionSpec.Accepted(world.processText(userInput));
      } else {
        r := SubstitutionSpec.Accepted(userInput);
      }
    }

    // -------------------------------------------------------------------
    // Saving and releasing

    /**
     * `ask_save_with_timeout()`: whatever way the race between the
     * question and the timer ends, only an answer of `n` declines.
     */
    method AskSaveWithTimeout() returns (save: bool)
      modifies this
      ensures save == SaveVerdict(world.saveRace)
      ensures Snapshot() == Log(old(Snapshot()), AskSave)
    {
      log := log + [AskSave];
      if world.saveRace.Failed? {
        return true;
      }
      var answer := if world.saveRace.Answered? then world.saveRace.answer else DefaultAnswer;
      save := Lower(answer) != "n";
    }

    /** `save_chat_history()`: save to the current file, then export what the client names. */
    method SaveChatHistory()
      modifies this
      ensures Snapshot() == SessionSpec.SaveChatHistory(old(Snapshot()))
    {
      if llm {
        var reply := SaveWithClient(SessionSpec.SaveTarget(historyFile));
        if reply.SaveReturned? && reply.success && reply.newFile != "" {
          log := log + [ExportHistory(reply.newFile)];
        }
      }
    }

    /** `cleanup_resources()`: release the tool clients when there is a manager. */
    method CleanupResources()
      modifies this
      ensures Snapshot() == SessionSpec.CleanupResources(old(Snapshot()))
    {
      if manager {
        log := log + [CleanupAll];
      }
    }

    // -------------------------------------------------------------------
    // Initialisation

    /** `init_clients()`: the model client, then `init_mcp()`. */
    method InitClients() returns (ok: bool)
      modifies this
      ensures (ok, Snapshot()) == SessionSpec.InitClients(world, old(Snapshot()))
    {
      log := log + [InitLlm];
      if !world.llmInitOk {
        return false;
      }
      llm := true;
      ok := InitMcp();
    }

    /** `init_mcp()`: the manager, then the processor that uses it. */
    method InitMcp() returns (ok: bool)
      modifies this
      ensures (ok, Snapshot()) == SessionSpec.InitMcp(world, old(Snapshot()))
    {
      log := log + [InitManager];
      if !world.managerInitOk {
        return false;
      }
      manager := true;
      log := log + [InitProcessor];
      if !world.processorInitOk {
        return false;
      }
      processor := true;
      return true;
    }

    // -------------------------------------------------------------------
    // Setup

    /** `setup_llm()`: list the models, read a number (default `1`), set the one it names. */
    method SetupLlm() returns (r: Outcome<bool>)
      modifies this
      ensures (r, Snapshot()) == SetupSpec.SetupLlm(world, old(Snapshot()))
    {
      if !llm {
        return Raise(Error);
      }
      log := log + [ListModels];
      if world.models == [] {
        return Return(false);
      }
      var reply := Prompt(ModelPrompt);
      if !reply.Submitted() {
        return Raise(reply.Exception());
      }
      r := SelectModel(reply.Line("1"));
    }

    /**
     * The `try` of `setup_llm()`: `int(choice) - 1`, and `set_model` when it
     * is in range; its `ValueError` counts as a bad choice.
     */
    method SelectModel(choice: string) returns (selected: Outcome<bool>)
      modifies this
      ensures (selected, Snapshot()) == SetupSpec.SelectModel(world, old(Snapshot()), choice)
    {
      match ParseInt(choice)
      case Some(k) =>
        var index := k - 1;
        if 0 <= index < |world.models| {
          selected := ApplyModel(world.models[index]);
          return;
        }
        return Return(false);
      case None =>
        return Return(false);
    }

    /** `set_model(...)`: a `ValueError` is a failed selection, any other exception propagates. */
    method ApplyModel(model: ModelEntry) returns (selected: Outcome<bool>)
      modifies this
      ensures (selected, Snapshot()) == SetupSpec.ApplyModel(world, old(Snapshot()), model)
    {
      log := log + [SetModel(model)];
      var fault := world.setModelFault(model);
      if fault.None? {
        return Return(true);
      } else if fault.value.BadValue? {
        return Return(false);
      }
      return Raise(fault.value.exc);
    }

    /** `setup_system_prompt()`: a prompt through the pipeline, installed when non-empty. */
    method SetupSystemPrompt() returns (r: Outcome<bool>)
      modifies this
      ensures (r, Snapshot()) == SetupSpec.SetupSystemPrompt(world, old(Snapshot()))
    {
      var e := ProcessMcpInput("", true);
      match e
      case Raised(exc) =>
        return Raise(exc);
      case Rejected =>
        return Return(false);
      case Accepted(content) =>
        if content != "" {
          log := log + [SetSystemPrompt(content)];
        }
        return Return(true);
    }

    /** `load_chat_history()`: read a number and make the file it names current when it loads. */
    method LoadChatHistory() returns (r: Outcome<bool>)
      modifies this
      ensures (r, Snapshot()) == SetupSpec.LoadChatHistory(world, old(Snapshot()))
    {
      if !llm {
        return Raise(Error);
      }
      log := log + [ListHistories];
      if world.histories == [] {
        return Return(false);
      }
      var reply := Prompt(HistoryPrompt);
      if !reply.Submitted() {
        return Raise(reply.Exception());
      }
      r := SelectHistory(reply.Line(""));
    }

    /** The `try` of `load_chat_history()`: `int(choice) - 1`, and a load when it is in range. */
    method SelectHistory(choice: string) returns (loaded: Outcome<bool>)
      modifies this
      ensures (loaded, Snapshot()) == SetupSpec.SelectHistory(world, old(Snapshot()), choice)
    {
      match ParseInt(choice)
      case Some(k) =>
        var index := k - 1;
        if 0 <= index < |world.histories| {
          loaded := LoadFromFile(world.histories[index]);
          return;
        }
        return Return(false);
      case None =>
        return Return(false);
    }

    /**
     * `load_chat_history_from_file(path)`, recording the path as current
     * when it loads; an exception other than `ValueError` and `IndexError`
     * propagates.
     */
    method LoadFromFile(path: string) returns (loaded: Outcome<bool>)
      modifies this
      ensures loaded == (match world.loadFault(path)
                         case Some(e) => Raise(e)
                         case None => Return(path in world.loadable))
      ensures Snapshot() == SetupSpec.LoadedState(old(Snapshot()), path, loaded == Return(true))
    {
      log := log + [LoadHistory(path)];
      if world.loadFault(path).Some? {
        return Raise(world.loadFault(path).value);
      }
      loaded := Return(path in world.loadable);
      if path in world.loadable {
        historyFile := Some(path);
      }
    }

    /** `setup_chat_mode()`: a model, then one of the three starts (default `2`). */
    method SetupChatMode() returns (r: Outcome<bool>)
      modifies this
      ensures (r, Snapshot()) == SetupSpec.SetupChatMode(world, old(Snapshot()))
    {
      r := SetupLlm();
      if r != Return(true) {
        return;
      }
      var reply := Prompt(StartPrompt);
      if !reply.Submitted() {
        return Raise(reply.Exception());
      }
      var choice := reply.Line("2");
      if choice == "3" {
        r := LoadChatHistory();
      } else if choice == "1" {
        r := SetupSystemPrompt();
      } else {
        r := Return(true);
      }
    }

    /**
     * The body of the `try` in `setup_tool_mode`'s loop, for the chosen
     * client: `Some(r)` leaves the loop with `r`, `None` goes on with the
     * next client (no tools, an error, or an end of input at the question);
     * Ctrl+C in the listing or the run escapes the inner `except Exception`.
     */
    method UseClient(listing: Listing, runFault: Option<Exc>) returns (exit: Option<Outcome<bool>>)
      modifies this
      ensures (exit, Snapshot()) == SetupSpec.UseClient(world, old(Snapshot()), listing, runFault)
    {
      log := log + [ListTools];
      if listing.ListFailed? {
        return if listing.exc == KeyboardInterrupt then Some(Raise(KeyboardInterrupt)) else None;
      }
      if listing.names == [] {
        return None;
      }
      log := log + [RunTool(listing.names)];
      if runFault.Some? {
        return if runFault.value == KeyboardInterrupt then Some(Raise(KeyboardInterrupt)) else None;
      }
      exit := AskContinue();
    }

    /** "Continue using tools?": only `y`/`Y` goes on; an end of input also goes on. */
    method AskContinue() returns (exit: Option<Outcome<bool>>)
      modifies this
      ensures (exit, Snapshot()) == SetupSpec.AskContinue(old(Snapshot()))
    {
      var reply := Prompt(ContinuePrompt);
      if reply.CtrlC? {
        return Some(Raise(KeyboardInterrupt));
      }
      if reply.EndOfFile? {
        return None;
      }
      if Lower(reply.Line("n")) != "y" {
        return Some(Return(false));
      }
      return None;
    }

    /** `setup_tool_mode()`: pick clients and use them until one of them ends the loop. */
    method SetupToolMode() returns (r: Outcome<bool>)
      modifies this
      ensures (r, Snapshot()) == SetupSpec.SetupToolMode(world, old(Snapshot()))
    {
      if !manager {
        return Return(false);
      }
      while true
        invariant SetupSpec.ToolRounds(world, old(Snapshot())) == SetupSpec.ToolRounds(world, Snapshot())
        decreases |selections|
      {
        var selection := SelectMcpClient();
        if selection.SelectFailed? && selection.exc == KeyboardInterrupt {
          return Raise(KeyboardInterrupt);
        }
        if !selection.Chosen? {
          return Return(false);
        }
        var exit := UseClient(selection.listing, selection.runFault);
        if exit.Some? {
          return exit.value;
        }
      }
    }

    /**
     * `setup_mode()`: ask for the mode (default `1`); `2` runs the tool
     * sub-flow and asks again on a falsy result, anything else runs the
     * chat setup and ends with chat mode or none.
     */
    method SetupMode() returns (r: Outcome<Option<SetupSpec.Mode>>)
      modifies this
      ensures (r, Snapshot()) == SetupSpec.SetupMode(world, old(Snapshot()))
    {
      while true
        invariant SetupSpec.SetupMode(world, old(Snapshot())) == SetupSpec.SetupMode(world, Snapshot())
        decreases |input|
      {
        var reply := Prompt(ModePrompt);
        if !reply.Submitted() {
          return Raise(reply.Exception());
        }
        if reply.Line("1") == "2" {
          var toolResult := SetupToolMode();
          if toolResult.Raise? {
            return Raise(toolResult.exc);
          }
          if toolResult.value {
            return Return(Some(SetupSpec.ToolMode));
          }
          continue;
        }
        var chat := SetupChatMode();
        if chat.Raise? {
          return Raise(chat.exc);
        }
        return Return(if chat.value then Some(SetupSpec.ChatMode) else None);
      }
    }

    // -------------------------------------------------------------------
    // The chat loop and run

    /**
     * `chat_loop()`: the iterations, then its `finally`: ask once, save on
     * a yes, release the clients; an interrupt still propagates afterwards.
     */
    method ChatLoop() returns (exit: Outcome<()>)
      modifies this
      ensures (exit, Snapshot()) == SessionSpec.ChatLoop(world, old(Snapshot()))
    {
      exit := ChatIterations();
      var save := AskSaveWithTimeout();
      if save {
        SaveChatHistory();
      }
      CleanupResources();
    }

    /**
     * The `while True` of `chat_loop`: a refused line leaves normally, an
     * error is reported and the loop goes on, Ctrl+C during the resolver or
     * the model call leaves by raising.
     */
    method ChatIterations() returns (exit: Outcome<()>)
      modifies this
      ensures (exit, Snapshot()) == SessionSpec.ChatIterations(world, old(Snapshot()))
    {
      while true
        invariant SessionSpec.ChatIterations(world, old(Snapshot()))
          == SessionSpec.ChatIterations(world, Snapshot())
        decreases |input|
      {
        var e := ProcessMcpInput("", false);
        if e.Rejected? {
          return Return(());
        }
        if e.Raised? && e.exc == KeyboardInterrupt {
          return Raise(KeyboardInterrupt);
        }
        if e.Accepted? {
          var reply := ChatCli(e.text);
          if reply.ChatInterrupted? {
            return Raise(KeyboardInterrupt);
          }
        }
      }
    }

    /**
     * `run()`: the header with a poem in the host's language, the clients
     * (their result ignored), the mode, the chat loop in chat mode, and a
     * release of the clients in `finally`. An error is swallowed; Ctrl+C
     * propagates after the release.
     */
    method Run() returns (r: Outcome<()>)
      modifies this
      ensures (r, Snapshot()) == SessionSpec.Run(world, old(Snapshot()))
    {
      log := log + [ShowHeader(language)];
      var _ := InitClients();
      var mode := SetupMode();
      r := AfterSetup(mode);
      CleanupResources();
    }

    /** The rest of `run`'s `try`: chat mode runs the chat loop; an error is swallowed. */
    method AfterSetup(mode: Outcome<Option<SetupSpec.Mode>>) returns (r: Outcome<()>)
      modifies this
      ensures (r, Snapshot()) == SessionSpec.AfterSetup(world, mode, old(Snapshot()))
    {
      r := Return(());
      if mode == Return(Some(SetupSpec.ChatMode)) {
        r := ChatLoop();
      } else if mode == Raise(KeyboardInterrupt) {
        r := Raise(KeyboardInterrupt);
      }
    }

    // -------------------------------------------------------------------
    // Slash commands

    /**
     * `_handle_command(command)`: `Some(true)` to stop, `Some(false)` for a
     * handled command, `None` for anything else.
     */
    method HandleCommand(command: string) returns (r: Option<bool>)
      modifies this
      ensures (r, Snapshot()) == SessionSpec.HandleCommand(old(Snapshot()), command)
    {
      if command == "/exit" || command == "/quit" {
        SaveChatHistory();
        return Some(true);
      } else if command == "/clear" {
        if llm {
          log := log + [ClearHistory];
        }
        return Some(false);
      } else if command == "/save" {
        SaveChatHistory();
        return Some(false);
      } else if command == "/help" {
        return Some(false);
      } else if StartsWith(command, "/lang") {
        SwitchLanguage(command);
        return Some(false);
      }
      return None;
    }

    /** The `/lang` branch: the second word, lower-cased, names the new language. */
    method SwitchLanguage(command: string)
      modifies this`language
      ensures language == SessionSpec.LangSetting(command).GetOr(old(language))
    {
      var parts := Words(command);
      if |parts| > 1 {
        var langCode := Lower(parts[1]);
        if langCode == "en" || langCode == "english" {
          language := English;
        } else if langCode == "cn" || langCode == "chinese" {
          language := Chinese;
        }
      }
    }
  }
}
