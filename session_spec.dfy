/**
 * The top of the host: saving the conversation, releasing the clients,
 * the chat loop with its `finally` region, `run`, and the slash-command
 * dispatcher `_handle_command` (which nothing in the host calls).
 */
module SessionSpec {
  import opened Wrappers
  import opened Ascii
  import opened Poetry
  import opened Confirmation
  import opened SessionModel
  import opened SubstitutionSpec
  import opened SetupSpec
  import opened Marker

  /**
   * `save_chat_history`: with a client, save to the current file (or to a
   * new one when there is none) and export the file the client names,
   * when it reports success and names one. A failure is caught.
   */
  function SaveChatHistory(st: State): State {
    if !st.llm then st
    else
      var (reply, st1) := NextSave(st, SaveTarget(st.historyFile));
      st1.(log := st1.log + ExportEvents(reply))
  }

  /**
   * The file the save goes to: the current history file when it is truthy,
   * that is set and non-empty; otherwise none, and the client picks a new one.
   */
  function SaveTarget(file: Option<string>): Option<string> {
    if file.Some? && file.value != "" then file else None
  }

  /** The export that follows a save: only after a success that names a file. */
  function ExportEvents(reply: SaveReply): seq<Event> {
    match reply
    case SaveRaised => []
    case SaveReturned(ok, newFile) => if ok && newFile != "" then [ExportHistory(newFile)] else []
  }

  /** The events `save_chat_history` logs. */
  function SavedEvents(st: State): seq<Event> {
    if !st.llm then []
    else [SaveHistory(SaveTarget(st.historyFile))] + ExportEvents(NextSave(st, SaveTarget(st.historyFile)).0)
  }

  /** `cleanup_resources`: release the tool clients when there is a manager; failures are caught. */
  function CleanupResources(st: State): State {
    if st.manager then Log(st, CleanupAll) else st
  }

  /** The `finally` of `chat_loop`: ask once, save on a yes, then release the clients. */
  function ChatFinally(w: World, st: State): State {
    var st1 := Log(st, AskSave);
    var st2 := if SaveVerdict(w.saveRace) then SaveChatHistory(st1) else st1;
    CleanupResources(st2)
  }

  /** What an iteration of the chat loop may change: the queues and the log, outside the teardown. */
  predicate LoopStep(st: State, st2: State) {
    && Consumed(st, st2) && SameHost(st, st2) && NoTeardown(st, st2)
    && st2.selections == st.selections && st2.saves == st.saves
  }

  lemma LoopStepTransitive(st: State, st1: State, st2: State)
    requires LoopStep(st, st1) && LoopStep(st1, st2)
    ensures LoopStep(st, st2)
  {
    forall i | |st.log| <= i < |st2.log| ensures !st2.log[i].Teardown() {
      if i < |st1.log| {
        assert st2.log[i] == st1.log[i];
      }
    }
  }

  lemma PipelineIsLoopStep(st: State, st2: State)
    requires PipelineStep(st, st2)
    ensures LoopStep(st, st2)
  {
  }

  lemma ChatIsLoopStep(st: State, message: string)
    ensures LoopStep(st, NextChat(st, message).1) && NextChat(st, message).1.input == st.input
  {
    SuffixSelf(st.input);
    SuffixSelf(st.picks);
    SuffixSelf(st.selections);
    SuffixSelf(st.saves);
    if st.chats == [] {
      SuffixSelf(st.chats);
    } else {
      SuffixTail(st.chats);
    }
  }

  /**
   * The `while True` of `chat_loop`: read a line through the pipeline; a
   * refused line leaves the loop, a resolver error is reported and the
   * loop goes on while a resolver Ctrl+C leaves it by raising; an accepted line goes to the model, whose failure is
   * reported and the loop goes on, and whose Ctrl+C leaves the loop by
   * raising.
   */
  function ChatIterations(w: World, st: State): (r: (Outcome<()>, State))
    ensures LoopStep(st, r.1)
    ensures r.0 == Return(()) || r.0 == Raise(KeyboardInterrupt)
    decreases |st.input|
  {
    var (e, st1) := Pipeline(w, st, "", false);
    PipelineIsLoopStep(st, st1);
    match e
    case Rejected => (Return(()), st1)
    case Raised(exc) =>
      if exc == KeyboardInterrupt then (Raise(KeyboardInterrupt), st1)
      else
        var r := ChatIterations(w, st1);
        LoopStepTransitive(st, st1, r.1);
        r
    case Accepted(message) =>
      var (reply, st2) := NextChat(st1, message);
      ChatIsLoopStep(st1, message);
      LoopStepTransitive(st, st1, st2);
      if reply.ChatInterrupted? then (Raise(KeyboardInterrupt), st2)
      else
        var r := ChatIterations(w, st2);
        LoopStepTransitive(st, st2, r.1);
        r
  }

  /** `chat_loop`: the iterations, then the `finally` region, whatever way they ended. */
  function ChatLoop(w: World, st: State): (Outcome<()>, State) {
    var (exit, st1) := ChatIterations(w, st);
    (exit, ChatFinally(w, st1))
  }

  /**
   * `init_clients`: the model client first; when it fails nothing else is
   * built, otherwise `init_mcp` decides the result.
   */
  function InitClients(w: World, st: State): (bool, State) {
    var st1 := Log(st, InitLlm);
    if !w.llmInitOk then (false, st1) else InitMcp(w, st1.(llm := true))
  }

  /**
   * `init_mcp`: the tool-client manager, then the processor; a failure
   * stops the rest, and what was built before it stays.
   */
  function InitMcp(w: World, st: State): (bool, State) {
    var st1 := Log(st, InitManager);
    if !w.managerInitOk then (false, st1)
    else
      var st2 := Log(st1.(manager := true), InitProcessor);
      if !w.processorInitOk then (false, st2) else (true, st2.(processor := true))
  }

  /**
   * `run`: the header (which shows a poem in the host's language), the
   * clients (whatever `init_clients` returns), the mode, the chat loop in
   * chat mode, and a release of the clients in `finally`. An error is
   * reported and swallowed; Ctrl+C propagates after the release.
   */
  function Run(w: World, st: State): (Outcome<()>, State) {
    var st2 := InitClients(w, Log(st, ShowHeader(st.language))).1;
    var setup := SetupMode(w, st2);
    var body := AfterSetup(w, setup.0, setup.1);
    (body.0, CleanupResources(body.1))
  }

  /**
   * The rest of `run`'s `try`: an error from the setup is reported and
   * swallowed, Ctrl+C propagates, and chat mode runs the chat loop.
   */
  function AfterSetup(w: World, mode: Outcome<Option<Mode>>, st: State): (Outcome<()>, State) {
    if mode == Return(Some(ChatMode)) then ChatLoop(w, st)
    else if mode == Raise(KeyboardInterrupt) then (Raise(KeyboardInterrupt), st)
    else (Return(()), st)
  }

  /** A host before `run`: no client, no history file, English. */
  predicate Fresh(st: State) {
    !st.llm && !st.manager && !st.processor && st.historyFile.None? && st.language == English
  }

  /**
   * `_handle_command`: `Some(true)` to stop, `Some(false)` for a handled
   * command, `None` for anything else. `/lang <code>` switches the
   * language for `en`/`english` and `cn`/`chinese`, in any case.
   */
  function HandleCommand(st: State, command: string): (Option<bool>, State) {
    if command == "/exit" || command == "/quit" then (Some(true), SaveChatHistory(st))
    else if command == "/clear" then (Some(false), if st.llm then Log(st, ClearHistory) else st)
    else if command == "/save" then (Some(false), SaveChatHistory(st))
    else if command == "/help" then (Some(false), st)
    else if StartsWith(command, "/lang") then
      match LangSetting(command)
      case Some(language) => (Some(false), st.(language := language))
      case None => (Some(false), st)
    else (None, st)
  }

  /** The language a `/lang` command names, if its second word is a known code. */
  function LangSetting(command: string): Option<Language> {
    match LangCode(command)
    case None => None
    case Some(code) =>
      if code == "en" || code == "english" then Some(English)
      else if code == "cn" || code == "chinese" then Some(Chinese)
      else None
  }

  /** `command.split()[1].lower()`, when there is a second word. */
  function LangCode(command: string): Option<string> {
    var parts := Words(command);
    if |parts| > 1 then Some(Lower(parts[1])) else None
  }

  // ---------------------------------------------------------------------
  // Teardown

  /** `save_chat_history` appends its events, and changes nothing else but the save queue. */
  lemma SaveLog(st: State)
    ensures SaveChatHistory(st).log == st.log + SavedEvents(st)
    ensures SameHost(st, SaveChatHistory(st)) && SaveChatHistory(st).input == st.input
  {
  }

  /**
   * A save is logged exactly when there is a client, and then it goes to
   * the current history file when that is set and non-empty, to a new file
   * otherwise (an empty path is falsy), and is at most followed by one export.
   */
  lemma SavedEventsShape(st: State)
    ensures SavedEvents(st) != [] <==> st.llm
    ensures st.llm ==> SavedEvents(st)[0].SaveHistory?
    ensures st.llm && st.historyFile.Some? && st.historyFile.value != "" ==>
      SavedEvents(st)[0] == SaveHistory(st.historyFile)
    ensures st.llm && (st.historyFile.None? || st.historyFile == Some("")) ==>
      SavedEvents(st)[0] == SaveHistory(None)
    ensures |SavedEvents(st)| <= 2
    ensures forall e :: e in SavedEvents(st) ==> !e.Teardown()
  {
  }

  /**
   * The `finally` of `chat_loop` logs the save question once, then the
   * save's events exactly when the verdict is yes, then the release of the
   * clients when there is a manager.
   */
  lemma FinallyLog(w: World, st: State)
    ensures ChatFinally(w, st).log ==
      st.log + [AskSave] + (if SaveVerdict(w.saveRace) then SavedEvents(st) else [])
      + (if st.manager then [CleanupAll] else [])
    ensures SameHost(st, ChatFinally(w, st))
  {
    var st1 := Log(st, AskSave);
    SaveLog(st1);
    assert SavedEvents(st1) == SavedEvents(st);
  }

  /**
   * Whatever way the chat loop ends, the save question is asked exactly
   * once, after every message sent to the model: the loop's own events
   * contain no teardown event, and after the question come only the save's
   * events (on a yes) and the release of the clients.
   */
  lemma ChatLoopAsksOnce(w: World, st: State)
    ensures var (_, it) := ChatIterations(w, st);
      && NoTeardown(st, it) && SameHost(st, it)
      && ChatLoop(w, st).1.log ==
           it.log + [AskSave] + (if SaveVerdict(w.saveRace) then SavedEvents(it) else [])
           + (if st.manager then [CleanupAll] else [])
  {
    var (_, it) := ChatIterations(w, st);
    FinallyLog(w, it);
  }

  /** A refused save question (the answer `n`) logs no save. */
  lemma NoSaveOnNo(w: World, st: State)
    requires w.saveRace == Answered("n") || w.saveRace == Answered("N")
    ensures ChatFinally(w, st).log == st.log + [AskSave] + (if st.manager then [CleanupAll] else [])
  {
    FinallyLog(w, st);
  }

  /** A timed-out question saves whenever there is a client. */
  lemma TimeoutSaves(w: World, st: State)
    requires w.saveRace == TimedOut && st.llm
    ensures SaveHistory(SaveTarget(st.historyFile)) in ChatFinally(w, st).log[|st.log| + 1..]
  {
    FinallyLog(w, st);
    SavedEventsShape(st);
    var tail := ChatFinally(w, st).log[|st.log| + 1..];
    assert tail == SavedEvents(st) + (if st.manager then [CleanupAll] else []);
    assert tail[0] == SaveHistory(SaveTarget(st.historyFile));
  }

  // ---------------------------------------------------------------------
  // The chat loop

  /** An error raised by the resolver is reported and the loop reads the next line. */
  lemma ResolverFailureContinues(w: World, st: State)
    requires Pipeline(w, st, "", false).0 == Raised(Error)
    ensures ChatIterations(w, st) == ChatIterations(w, Pipeline(w, st, "", false).1)
  {
  }

  /**
   * Ctrl+C inside the resolver is re-raised: the loop ends at once, and the
   * chat loop raises it after its `finally` region.
   */
  lemma ResolverInterruptEndsLoop(w: World, st: State)
    requires Pipeline(w, st, "", false).0 == Raised(KeyboardInterrupt)
    ensures ChatIterations(w, st) == (Raise(KeyboardInterrupt), Pipeline(w, st, "", false).1)
    ensures ChatLoop(w, st).0 == Raise(KeyboardInterrupt)
  {
  }

  /** A failure of the model call is reported and the loop reads the next line. */
  lemma ChatFailureContinues(w: World, st: State)
    requires Pipeline(w, st, "", false).0.Accepted?
    requires var st1 := Pipeline(w, st, "", false).1; st1.chats != [] && st1.chats[0] == ChatFailed
    ensures var (e, st1) := Pipeline(w, st, "", false);
      ChatIterations(w, st) == ChatIterations(w, NextChat(st1, e.text).1)
  {
  }

  /** A refused line (end of input, Ctrl+C at the prompt, `exit`) leaves the loop normally. */
  lemma RefusedLineEndsLoop(w: World, st: State)
    requires Pipeline(w, st, "", false).0.Rejected?
    ensures ChatIterations(w, st) == (Return(()), Pipeline(w, st, "", false).1)
  {
  }

  /** An exhausted input ends the loop after one prompt, with nothing sent to the model. */
  lemma ExhaustedInputEndsLoop(w: World, st: State)
    requires st.input == []
    ensures ChatIterations(w, st) == (Return(()), Log(st, Asked(UserPrompt)))
  {
  }

  /**
   * The loop never runs a slash command: `/lang cn` typed at the prompt is
   * sent to the model as a message and the language stays.
   */
  lemma SlashLineIsChatted(w: World, st: State)
    requires !st.processor && st.input != [] && st.input[0] == Typed("/lang cn")
    ensures var (e, st1) := Pipeline(w, st, "", false);
      e == Accepted("/lang cn") && st1.language == st.language
      && NextChat(st1, "/lang cn").1.log[|NextChat(st1, "/lang cn").1.log| - 1] == Chat("/lang cn")
  {
    SlashLangIsPlain();
    PlainLineIsChatted(w, st, "/lang cn");
  }

  /** A typed line without a marker, without a processor, is sent to the model as typed. */
  lemma PlainLineIsChatted(w: World, st: State, line: string)
    requires !st.processor && st.input != [] && st.input[0] == Typed(line)
    requires !Blank(line) && !IsQuit(line) && FindMarker(line).None?
    ensures var (e, st1) := Pipeline(w, st, "", false);
      e == Accepted(line) && st1.language == st.language
      && NextChat(st1, line).1.log[|NextChat(st1, line).1.log| - 1] == Chat(line)
  {
    TypedPlainLineAccepted(w, st, line, false);
    var st1 := Pipeline(w, st, "", false).1;
    NextChatLogs(st1, line);
  }

  /** `chat(message)` logs the message last. */
  lemma NextChatLogs(st: State, message: string)
    ensures var log := NextChat(st, message).1.log; |log| > 0 && log[|log| - 1] == Chat(message)
  {
  }

  /** `/lang cn` is neither blank nor `exit`/`quit`, and holds no marker. */
  lemma SlashLangIsPlain()
    ensures !Blank("/lang cn") && !IsQuit("/lang cn") && FindMarker("/lang cn").None?
  {
    var s := "/lang cn";
    NotBlank(s);
    NotQuit(s);
    assert '-' !in s;
    NoDashNoMarker(s);
  }

  // ---------------------------------------------------------------------
  // run

  /** The clients `init_clients` leaves behind, whatever it returns. */
  lemma InitClientsFields(w: World, st: State)
    ensures var (ok, st2) := InitClients(w, st);
      && (ok <==> w.llmInitOk && w.managerInitOk && w.processorInitOk)
      && (st2.llm <==> st.llm || w.llmInitOk)
      && (st2.manager <==> st.manager || (w.llmInitOk && w.managerInitOk))
      && (st2.processor <==> st.processor || ok)
      && st2.input == st.input && st2.language == st.language && st2.historyFile == st.historyFile
      && st2.log[..|st.log|] == st.log && st2.log[|st.log|] == InitLlm
  {
  }

  /** The mode question is the first event of `setup_mode`. */
  lemma ModeAskedFirst(w: World, st: State)
    ensures |SetupMode(w, st).1.log| > |st.log| && SetupMode(w, st).1.log[|st.log|] == Asked(ModePrompt)
  {
    var st1 := Read(st, ModePrompt).1;
    assert st1.log[|st.log|] == Asked(ModePrompt);
  }

  /** What follows the setup only appends to the log. */
  lemma AfterSetupExtends(w: World, mode: Outcome<Option<Mode>>, st: State)
    ensures st.log <= AfterSetup(w, mode, st).1.log
  {
    if mode == Return(Some(ChatMode)) {
      ChatLoopExtends(w, st);
      assert AfterSetup(w, mode, st) == ChatLoop(w, st);
    }
  }

  lemma ChatLoopExtends(w: World, st: State)
    ensures st.log <= ChatLoop(w, st).1.log
  {
    var it := ChatIterations(w, st).1;
    FinallyExtends(w, st, it);
  }

  lemma FinallyExtends(w: World, st: State, it: State)
    requires st.log <= it.log
    ensures st.log <= ChatFinally(w, it).log
  {
    FinallyLog(w, it);
  }

  /**
   * The result of `init_clients` is ignored: a failed initialisation still
   * goes on to the mode question, right after the initialisation's events.
   */
  lemma RunAlwaysAsksMode(w: World, st: State)
    ensures var st2 := InitClients(w, Log(st, ShowHeader(st.language))).1;
      |Run(w, st).1.log| > |st2.log| && Run(w, st).1.log[|st2.log|] == Asked(ModePrompt)
  {
    var st2 := InitClients(w, Log(st, ShowHeader(st.language))).1;
    var setup := SetupMode(w, st2);
    ModeAskedFirst(w, st2);
    AfterSetupExtends(w, setup.0, setup.1);
    var body := AfterSetup(w, setup.0, setup.1);
    assert body.1.log[|st2.log|] == setup.1.log[|st2.log|];
  }

  /**
   * `cleanup_resources` has no guard against a second call: once chat mode
   * is reached with a manager, the chat loop's `finally` and `run`'s own
   * `finally` both release the clients, one right after the other.
   */
  lemma RunCleansUpTwice(w: World, st: State)
    requires w.llmInitOk && w.managerInitOk
    requires SetupMode(w, InitClients(w, Log(st, ShowHeader(st.language))).1).0 == Return(Some(ChatMode))
    ensures var log := Run(w, st).1.log;
      |log| >= 2 && log[|log| - 2..] == [CleanupAll, CleanupAll]
  {
    var st2 := InitClients(w, Log(st, ShowHeader(st.language))).1;
    var st3 := SetupMode(w, st2).1;
    ManagerSurvivesSetup(w, st);
    ChatLoopEndsWithCleanup(w, st3);
    RunInChatMode(w, st);
    CleanupAfterCleanup(ChatLoop(w, st3).1);
  }

  /** A release right after a release is logged twice in a row. */
  lemma CleanupAfterCleanup(st: State)
    requires st.manager && |st.log| > 0 && st.log[|st.log| - 1] == CleanupAll
    ensures var log := CleanupResources(st).log;
      |log| >= 2 && log[|log| - 2..] == [CleanupAll, CleanupAll]
  {
  }

  /** A manager that `init_clients` built is still there after the setup. */
  lemma ManagerSurvivesSetup(w: World, st: State)
    requires w.llmInitOk && w.managerInitOk
    ensures SetupMode(w, InitClients(w, Log(st, ShowHeader(st.language))).1).1.manager
  {
    var st2 := InitClients(w, Log(st, ShowHeader(st.language))).1;
    assert st2.manager;
  }

  /** With a manager, the chat loop's last event is the release of the clients, and the manager stays. */
  lemma ChatLoopEndsWithCleanup(w: World, st: State)
    requires st.manager
    ensures var st4 := ChatLoop(w, st).1;
      st4.manager && |st4.log| > 0 && st4.log[|st4.log| - 1] == CleanupAll
  {
    ChatLoopAsksOnce(w, st);
  }

  /** In chat mode, `run` is the chat loop followed by one more release of the clients. */
  lemma RunInChatMode(w: World, st: State)
    requires SetupMode(w, InitClients(w, Log(st, ShowHeader(st.language))).1).0 == Return(Some(ChatMode))
    ensures var st3 := SetupMode(w, InitClients(w, Log(st, ShowHeader(st.language))).1).1;
      Run(w, st).1 == CleanupResources(ChatLoop(w, st3).1)
  {
  }

  /** Without chat mode (no mode, an error, or Ctrl+C during setup) the save question is never asked. */
  lemma RunWithoutChatNeverAsks(w: World, st: State)
    requires SetupMode(w, InitClients(w, Log(st, ShowHeader(st.language))).1).0 != Return(Some(ChatMode))
    ensures var st2 := InitClients(w, Log(st, ShowHeader(st.language))).1;
      var st3 := SetupMode(w, st2).1;
      && Run(w, st).1 == CleanupResources(st3)
      && NoTeardown(st2, st3)
  {
    var st2 := InitClients(w, Log(st, ShowHeader(st.language))).1;
  }

  /** Ctrl+C during the chat loop propagates out of `run`, after both releases. */
  lemma InterruptPropagates(w: World, st: State)
    requires var st2 := InitClients(w, Log(st, ShowHeader(st.language))).1;
      var st3 := SetupMode(w, st2).1;
      SetupMode(w, st2).0 == Return(Some(ChatMode)) && ChatIterations(w, st3).0 == Raise(KeyboardInterrupt)
    ensures Run(w, st).0 == Raise(KeyboardInterrupt)
  {
  }

  // ---------------------------------------------------------------------
  // A whole session

  /** The messages sent to the model, in the order of the log. */
  function Messages(log: seq<Event>): seq<string> {
    if log == [] then []
    else (if log[0].Chat? then [log[0].message] else []) + Messages(log[1..])
  }

  lemma {:induction false} MessagesAppend(a: seq<Event>, b: seq<Event>)
    ensures Messages(a + b) == Messages(a) + Messages(b)
    decreases |a|
  {
    if a != [] {
      assert (a + b)[0] == a[0];
      assert (a + b)[1..] == a[1..] + b;
      MessagesAppend(a[1..], b);
    } else {
      assert a + b == b;
    }
  }

  lemma {:induction false} NoMessages(events: seq<Event>)
    requires forall i :: 0 <= i < |events| ==> !events[i].Chat?
    ensures Messages(events) == []
    decreases |events|
  {
    if events != [] {
      NoMessages(events[1..]);
    }
  }

  /** Building the clients sends nothing to the model. */
  lemma InitClientsSendsNothing(w: World, st: State)
    ensures Messages(InitClients(w, st).1.log) == Messages(st.log)
  {
    var st1 := Log(st, InitLlm);
    var st2 := Log(st1.(llm := true), InitManager);
    var st3 := Log(st2.(manager := true), InitProcessor);
    MessagesAppend(st.log, [InitLlm]);
    MessagesAppend(st1.log, [InitManager]);
    MessagesAppend(st2.log, [InitProcessor]);
  }

  /** Neither the `finally` of `chat_loop` nor the release of the clients sends anything. */
  lemma FinallySendsNothing(w: World, st: State)
    ensures Messages(CleanupResources(ChatFinally(w, st)).log) == Messages(st.log)
  {
    FinallyLog(w, st);
    SavedEventsShape(st);
    var saved := if SaveVerdict(w.saveRace) then SavedEvents(st) else [];
    var cleanup := if st.manager then [CleanupAll] else [];
    var fin := ChatFinally(w, st);
    assert fin.manager == st.manager;
    var tail := [AskSave] + saved + cleanup + cleanup;
    assert CleanupResources(fin).log == st.log + tail;
    forall i | 0 <= i < |tail| ensures !tail[i].Chat? {
      if 1 <= i < 1 + |saved| {
        assert tail[i] == saved[i - 1];
        assert saved[i - 1] in SavedEvents(st);
        assert saved[i - 1].SaveHistory? || saved[i - 1].ExportHistory?;
      }
    }
    NoMessages(tail);
    MessagesAppend(st.log, tail);
  }

  /** The model prompt answered `1`: the first model is set. */
  lemma FirstModelSetup(w: World, st: State, rest: seq<Reply>)
    requires st.llm && w.models != [] && w.setModelFault(w.models[0]).None?
    requires st.input == [Typed("1")] + rest
    ensures SetupLlm(w, st) == (Return(true),
      st.(input := rest, log := st.log + [ListModels, Asked(ModelPrompt), SetModel(w.models[0])]))
  {
    SplitHead(st.input, Typed("1"), rest);
    var st1 := Log(st, ListModels);
    var st2 := st1.(log := st1.log + [Asked(ModelPrompt)], input := rest);
    assert Read(st1, ModelPrompt) == (Typed("1"), st2);
    SelectFirstModel(w, st2);
    var st3 := Log(st2, SetModel(w.models[0]));
    assert SetupLlm(w, st) == (Return(true), st3);
    AppendThree(st.log, ListModels, Asked(ModelPrompt), SetModel(w.models[0]));
  }

  /** Then the start prompt answered `2`: the conversation starts directly. */
  lemma DirectStart(w: World, st: State, rest: seq<Reply>)
    requires st.llm && w.models != [] && w.setModelFault(w.models[0]).None?
    requires st.input == [Typed("1"), Typed("2")] + rest
    ensures SetupChatMode(w, st) == (Return(true),
      st.(input := rest, log := st.log + [ListModels, Asked(ModelPrompt), SetModel(w.models[0]), Asked(StartPrompt)]))
  {
    SplitTwo(st.input, Typed("1"), Typed("2"), rest);
    FirstModelSetup(w, st, [Typed("2")] + rest);
    var st1 := st.(input := [Typed("2")] + rest, log := st.log + [ListModels, Asked(ModelPrompt), SetModel(w.models[0])]);
    SplitHead(st1.input, Typed("2"), rest);
    var st2 := st1.(log := st1.log + [Asked(StartPrompt)], input := rest);
    assert Read(st1, StartPrompt) == (Typed("2"), st2);
    StartChoice(w, st, st1);
    AppendAfterThree(st.log, ListModels, Asked(ModelPrompt), SetModel(w.models[0]), Asked(StartPrompt));
  }

  lemma StartChoice(w: World, st: State, st1: State)
    requires SetupLlm(w, st) == (Return(true), st1)
    requires st1.input != [] && st1.input[0] == Typed("2")
    ensures SetupChatMode(w, st) == (Return(true), Read(st1, StartPrompt).1)
  {
  }

  lemma ChatChoice(w: World, st: State, st1: State)
    requires st.input != [] && st.input[0] == Typed("1") && Read(st, ModePrompt).1 == st1
    requires SetupChatMode(w, st1).0 == Return(true)
    ensures SetupMode(w, st) == (Return(Some(ChatMode)), SetupChatMode(w, st1).1)
  {
  }

  /**
   * `mode 1, model 1, start 2`: the chat setup with the first model and no
   * system prompt, leaving the rest of the input to the chat loop.
   */
  lemma ChatSetupByNumbers(w: World, st: State, rest: seq<Reply>)
    requires st.llm && w.models != [] && w.setModelFault(w.models[0]).None?
    requires st.input == [Typed("1"), Typed("1"), Typed("2")] + rest
    ensures SetupMode(w, st) == (Return(Some(ChatMode)),
      st.(input := rest,
          log := st.log + [Asked(ModePrompt), ListModels, Asked(ModelPrompt), SetModel(w.models[0]), Asked(StartPrompt)]))
  {
    SplitThree(st.input, Typed("1"), Typed("1"), Typed("2"), rest);
    SplitHead(st.input, Typed("1"), [Typed("1"), Typed("2")] + rest);
    var st1 := st.(log := st.log + [Asked(ModePrompt)], input := [Typed("1"), Typed("2")] + rest);
    assert Read(st, ModePrompt).1 == st1;
    DirectStart(w, st1, rest);
    ChatChoice(w, st, st1);
    AppendBeforeFour(st.log, Asked(ModePrompt), ListModels, Asked(ModelPrompt), SetModel(w.models[0]), Asked(StartPrompt));
  }

  /**
   * The chat loop given a single plain line (not blank, not an exit
   * literal, no marker): it is sent once, after the final pass, and the
   * loop then ends at the exhausted input, or raises when the model call is
   * interrupted.
   */
  lemma PlainLineLoop(w: World, st: State, line: string)
    requires st.input == [Typed(line)] && !Blank(line) && !IsQuit(line) && FindMarker(line).None?
    ensures var msg := if st.processor then w.processText(line) else line;
      Messages(ChatIterations(w, st).1.log) == Messages(st.log) + [msg]
    ensures ChatIterations(w, st).0 ==
      if st.chats != [] && st.chats[0] == ChatInterrupted then Raise(KeyboardInterrupt) else Return(())
  {
    var msg := if st.processor then w.processText(line) else line;
    PlainLinePrompted(w, st, line);
    var st1 := Pipeline(w, st, "", false).1;
    LineSent(w, st, msg, st1);
    LastLineSent(w, st1, msg);
  }

  /** The prompt reads the plain line and passes it on without sending anything. */
  lemma PlainLinePrompted(w: World, st: State, line: string)
    requires st.input == [Typed(line)] && !Blank(line) && !IsQuit(line) && FindMarker(line).None?
    ensures var (e, st1) := Pipeline(w, st, "", false);
      && e == Accepted(if st.processor then w.processText(line) else line)
      && st1.input == [] && st1.chats == st.chats && Messages(st1.log) == Messages(st.log)
  {
    SplitHead(st.input, Typed(line), []);
    TypedPlainLineAccepted(w, st, line, false);
    var st0 := Read(st, UserPrompt).1;
    assert st0 == st.(log := st.log + [Asked(UserPrompt)], input := []);
    LogOne(st.log, Asked(UserPrompt));
    if st.processor {
      LogOne(st0.log, ProcessText(line));
    }
  }

  /** The last line goes to the model; the loop then ends at the exhausted input unless the call is interrupted. */
  lemma LastLineSent(w: World, st: State, message: string)
    requires st.input == []
    ensures var (reply, st2) := NextChat(st, message);
      var r := if reply.ChatInterrupted? then (Raise(KeyboardInterrupt), st2) else ChatIterations(w, st2);
      && Messages(r.1.log) == Messages(st.log) + [message]
      && r.0 == if st.chats != [] && st.chats[0] == ChatInterrupted then Raise(KeyboardInterrupt) else Return(())
  {
    var (reply, st2) := NextChat(st, message);
    assert st2.log == st.log + [Chat(message)] && st2.input == [];
    SendOne(st.log, message);
    if !reply.ChatInterrupted? {
      ExhaustedInputEndsLoop(w, st2);
      LogOne(st2.log, Asked(UserPrompt));
    }
  }

  /** An event other than a model call sends nothing to the model. */
  lemma LogOne(log: seq<Event>, e: Event)
    requires !e.Chat?
    ensures Messages(log + [e]) == Messages(log)
  {
    MessagesAppend(log, [e]);
    assert [e][1..] == [];
  }

  /** Sending one message adds it to the messages. */
  lemma SendOne(log: seq<Event>, message: string)
    ensures Messages(log + [Chat(message)]) == Messages(log) + [message]
  {
    MessagesAppend(log, [Chat(message)]);
    assert [Chat(message)][1..] == [];
  }

  /** The prompt and the processor's pass send nothing to the model. */
  lemma PromptSendsNothing(log: seq<Event>, processed: bool, line: string)
    ensures Messages(log + ([Asked(UserPrompt)] + (if processed then [ProcessText(line)] else []))) == Messages(log)
  {
    var events := [Asked(UserPrompt)] + (if processed then [ProcessText(line)] else []);
    NoMessages(events);
    MessagesAppend(log, events);
  }

  /** An accepted line goes to the model; unless that call is interrupted, the loop goes on. */
  lemma LineSent(w: World, st: State, message: string, st1: State)
    requires Pipeline(w, st, "", false) == (Accepted(message), st1)
    ensures NextChat(st1, message).0.ChatInterrupted? ==>
      ChatIterations(w, st) == (Raise(KeyboardInterrupt), NextChat(st1, message).1)
    ensures !NextChat(st1, message).0.ChatInterrupted? ==>
      ChatIterations(w, st) == ChatIterations(w, NextChat(st1, message).1)
  {
  }

  /**
   * A whole session on a fresh host: the chat mode (`1`), the first of the
   * listed models (`1`), a direct start (`2`), then one plain line. The
   * model receives exactly that one message, after the processor's pass
   * when both tool clients could be built and as typed otherwise; the
   * session ends normally unless that model call is interrupted.
   */
  lemma PlainLineSession(w: World, st: State, line: string)
    requires Fresh(st) && w.llmInitOk && w.models != [] && w.setModelFault(w.models[0]).None?
    requires st.input == [Typed("1"), Typed("1"), Typed("2"), Typed(line)]
    requires !Blank(line) && !IsQuit(line) && FindMarker(line).None?
    ensures var msg := if w.managerInitOk && w.processorInitOk then w.processText(line) else line;
      Messages(Run(w, st).1.log) == Messages(st.log) + [msg]
    ensures Run(w, st).0 ==
      if st.chats != [] && st.chats[0] == ChatInterrupted then Raise(KeyboardInterrupt) else Return(())
  {
    var st1 := InitClients(w, Log(st, ShowHeader(st.language))).1;
    StartSendsNothing(w, st);
    ChatSetupByNumbers(w, st1, [Typed(line)]);
    var events := [Asked(ModePrompt), ListModels, Asked(ModelPrompt), SetModel(w.models[0]), Asked(StartPrompt)];
    var st2 := st1.(input := [Typed(line)], log := st1.log + events);
    SetupSendsNothing(st1.log, w.models[0]);
    ChatModeSession(w, st2, line);
    assert Run(w, st) == (AfterSetup(w, Return(Some(ChatMode)), st2).0,
      CleanupResources(AfterSetup(w, Return(Some(ChatMode)), st2).1));
  }

  /** The header and the clients send nothing; the input and the model's answers are untouched. */
  lemma StartSendsNothing(w: World, st: State)
    ensures var st1 := InitClients(w, Log(st, ShowHeader(st.language))).1;
      && Messages(st1.log) == Messages(st.log) && st1.input == st.input && st1.chats == st.chats
      && (st1.llm <==> st.llm || w.llmInitOk)
      && (st1.processor <==> st.processor || (w.llmInitOk && w.managerInitOk && w.processorInitOk))
  {
    var st0 := Log(st, ShowHeader(st.language));
    LogOne(st.log, ShowHeader(st.language));
    InitClientsFields(w, st0);
    InitClientsSendsNothing(w, st0);
  }

  /** Chat mode on one plain line, through the loop's `finally` and `run`'s release. */
  lemma ChatModeSession(w: World, st: State, line: string)
    requires st.input == [Typed(line)] && !Blank(line) && !IsQuit(line) && FindMarker(line).None?
    ensures var r := AfterSetup(w, Return(Some(ChatMode)), st);
      && Messages(CleanupResources(r.1).log) == Messages(st.log) + [if st.processor then w.processText(line) else line]
      && r.0 == if st.chats != [] && st.chats[0] == ChatInterrupted then Raise(KeyboardInterrupt) else Return(())
  {
    PlainLineLoop(w, st, line);
    var it := ChatIterations(w, st);
    FinallySendsNothing(w, it.1);
    assert AfterSetup(w, Return(Some(ChatMode)), st) == (it.0, ChatFinally(w, it.1));
  }

  /** The chat setup's questions and calls send nothing to the model. */
  lemma SetupSendsNothing(log: seq<Event>, model: ModelEntry)
    ensures var events := [Asked(ModePrompt), ListModels, Asked(ModelPrompt), SetModel(model), Asked(StartPrompt)];
      Messages(log + events) == Messages(log)
  {
    var events := [Asked(ModePrompt), ListModels, Asked(ModelPrompt), SetModel(model), Asked(StartPrompt)];
    NoMessages(events);
    MessagesAppend(log, events);
  }

  /** The session `1`, `1`, `2`, `hello` with two models sends `hello` to the model once. */
  lemma HelloSession(w: World, st: State)
    requires Fresh(st) && w.llmInitOk && |w.models| == 2 && w.setModelFault(w.models[0]).None?
    requires st.input == [Typed("1"), Typed("1"), Typed("2"), Typed("hello")]
    ensures var msg := if w.managerInitOk && w.processorInitOk then w.processText("hello") else "hello";
      Messages(Run(w, st).1.log) == Messages(st.log) + [msg]
  {
    HelloIsPlain();
    PlainLineSession(w, st, "hello");
  }

  // ---------------------------------------------------------------------
  // The command dispatcher

  /**
   * `/exit` and `/quit` stop; `/clear`, `/save`, `/help` and every command
   * starting with `/lang` are handled; anything else is not a command.
   */
  lemma HandleCommandVerdict(st: State, command: string)
    ensures var r := HandleCommand(st, command).0;
      && (r == Some(true) <==> command == "/exit" || command == "/quit")
      && (r == Some(false) <==>
            command == "/clear" || command == "/save" || command == "/help" || StartsWith(command, "/lang"))
      && (r.None? <==>
            command !in {"/exit", "/quit", "/clear", "/save", "/help"} && !StartsWith(command, "/lang"))
  {
    if StartsWith(command, "/lang") {
      assert command[1] == "/lang"[1];
    }
  }

  /** Stopping and `/save` save the conversation; `/clear` clears it when there is a client. */
  lemma HandleCommandEffects(st: State)
    ensures HandleCommand(st, "/exit").1 == SaveChatHistory(st)
    ensures HandleCommand(st, "/quit").1 == SaveChatHistory(st)
    ensures HandleCommand(st, "/save").1 == SaveChatHistory(st)
    ensures HandleCommand(st, "/clear").1.log == st.log + (if st.llm then [ClearHistory] else [])
    ensures HandleCommand(st, "/help").1 == st
  {
  }

  /**
   * The language changes only through `/lang` with a second word that is
   * `en`/`english` or `cn`/`chinese` in any case, and nothing else changes
   * with it.
   */
  lemma LanguageOnlyByLang(st: State, command: string)
    ensures var st2 := HandleCommand(st, command).1;
      st2.language != st.language ==>
        && StartsWith(command, "/lang")
        && LangCode(command) in {Some("en"), Some("english"), Some("cn"), Some("chinese")}
        && st2 == st.(language := st2.language)
  {
    if StartsWith(command, "/lang") {
      LangBranch(st, command);
    } else {
      OtherCommandKeepsLanguage(st, command);
    }
  }

  /** A command outside the `/lang` branch leaves the language as it is. */
  lemma OtherCommandKeepsLanguage(st: State, command: string)
    requires !StartsWith(command, "/lang")
    ensures HandleCommand(st, command).1.language == st.language
  {
    SaveLog(st);
  }

  /** The codes `/lang` accepts are single words. */
  lemma LangCodeWord(code: string)
    requires Lower(code) == "en" || Lower(code) == "english" || Lower(code) == "cn" || Lower(code) == "chinese"
    ensures code != [] && NoSpace(code)
  {
    var l := Lower(code);
    assert forall i :: 0 <= i < |l| ==> 'a' <= l[i] <= 'z';
    forall i | 0 <= i < |code| ensures !IsSpace(code[i]) {
      assert l[i] == LowerChar(code[i]);
    }
  }

  /** `/lang <code>` starts with `/lang` and its second word is the code. */
  lemma LangCodeOf(code: string)
    requires code != [] && NoSpace(code)
    ensures StartsWith("/lang " + code, "/lang") && LangCode("/lang " + code) == Some(Lower(code))
  {
    var c := "/lang " + code;
    assert c == "/lang" + " " + code;
    assert NoSpace("/lang");
    TwoWords("/lang", code);
    assert c[..5] == "/lang";
  }

  /** A command whose second character is `l` is none of the fixed commands. */
  lemma NotFixedCommand(command: string)
    requires |command| > 1 && command[1] == 'l'
    ensures command != "/exit" && command != "/quit" && command != "/clear"
    ensures command != "/save" && command != "/help"
  {
  }

  /** Every command that starts with `/lang` is handled by the language branch. */
  lemma LangBranch(st: State, command: string)
    requires StartsWith(command, "/lang")
    ensures HandleCommand(st, command) ==
      (Some(false), if LangSetting(command).Some? then st.(language := LangSetting(command).value) else st)
  {
    NotFixedCommand(command);
  }

  /** `/lang EN`, `/lang English`, ...: a code that lower-cases to `en` or `english` switches to English. */
  lemma LangSwitchesToEnglish(st: State, code: string)
    requires Lower(code) == "en" || Lower(code) == "english"
    ensures HandleCommand(st, "/lang " + code) == (Some(false), st.(language := English))
  {
    LangCodeWord(code);
    LangCodeOf(code);
    LangBranch(st, "/lang " + code);
  }

  /** A code that lower-cases to `cn` or `chinese` switches to Chinese. */
  lemma LangSwitchesToChinese(st: State, code: string)
    requires Lower(code) == "cn" || Lower(code) == "chinese"
    ensures HandleCommand(st, "/lang " + code) == (Some(false), st.(language := Chinese))
  {
    LangCodeWord(code);
    LangCodeOf(code);
    LangBranch(st, "/lang " + code);
  }

  /** The second word of `first + " " + code`, lower-cased. */
  lemma SecondWordCode(first: string, code: string)
    requires first != [] && NoSpace(first) && code != [] && NoSpace(code)
    ensures LangCode(first + " " + code) == Some(Lower(code))
  {
    TwoWords(first, code);
  }

  /**
   * The prefix test needs no word boundary: any first word that begins
   * with `/lang` (`/language`, `/langs`, ...) switches the language too.
   */
  lemma LangPrefixSwitches(st: State, first: string, code: string)
    requires StartsWith(first, "/lang") && NoSpace(first)
    requires Lower(code) == "cn" || Lower(code) == "chinese"
    ensures HandleCommand(st, first + " " + code) == (Some(false), st.(language := Chinese))
  {
    var c := first + " " + code;
    LangCodeWord(code);
    SecondWordCode(first, code);
    assert StartsWith(c, "/lang") by {
      assert |first| >= 5;
      assert c[..5] == first[..5];
    }
    ChineseCode(Lower(code));
    LangBranch(st, c);
  }

  lemma ChineseCode(code: string)
    requires code == "cn" || code == "chinese"
    ensures code != "en" && code != "english"
  {
    assert code[0] == 'c';
  }
}
