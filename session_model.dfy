/**
 * The values the terminal host works with. Every collaborator and every
 * prompt is replaced by an oracle: the user's replies, the resolver's
 * answers, the chat client's replies, the tool-client selections and the
 * save replies are finite queues that the host consumes in order; the rest
 * of the collaborators' behaviour is a constant `World`. Every call to a
 * collaborator and every prompt is appended to an event log.
 */
module SessionModel {
  import opened Wrappers
  import opened Poetry
  import opened Confirmation

  /** A Python exception: any `Exception`, or `KeyboardInterrupt`. */
  datatype Exc = Error | KeyboardInterrupt

  /** How a call ends: it returns a value or raises. */
  datatype Outcome<T> = Return(value: T) | Raise(exc: Exc)

  /** The user's reply to one prompt. */
  datatype Reply =
    | Enter             // submits the prompt's default text unchanged
    | Typed(text: string)  // submits this text
    | EndOfFile         // the prompt raises EOFError
    | CtrlC             // the prompt raises KeyboardInterrupt
  {
    predicate Submitted() {
      Enter? || Typed?
    }

    /** The line the prompt returns, given its default text. */
    function Line(default: string): string
      requires Submitted()
    {
      if Enter? then default else text
    }

    /** The exception the prompt raises. */
    function Exception(): Exc
      requires !Submitted()
    {
      if CtrlC? then KeyboardInterrupt else Error
    }
  }

  /** What the resolver's `process_mcp_command` yields, or the exception it raises. */
  datatype Pick = Picked(text: string) | Declined | PickFailed(exc: Exc) {
    /** Python truthiness of the returned value. */
    predicate Truthy() {
      Picked? && text != ""
    }
  }

  /** How one `chat_cli` call ends. */
  datatype ChatReply = Responded | ChatFailed | ChatInterrupted

  /** What `list_tools` yields, or the exception it raises. */
  datatype Listing = Tools(names: seq<string>) | ListFailed(exc: Exc)

  /**
   * One round of `select_mcp_client`, `list_tools` and `select_and_run_tool`;
   * `runFault` is the exception the tool run raises, `None` when it returns.
   */
  datatype Selection =
    | NoClient                                          // no client was chosen
    | SelectFailed(exc: Exc)                            // choosing a client raised
    | Chosen(listing: Listing, runFault: Option<Exc>)

  /** What the client's `save_chat_history` yields. */
  datatype SaveReply = SaveReturned(success: bool, newFile: string) | SaveRaised

  /** An entry of `display_available_models`. */
  datatype ModelEntry = ModelEntry(kind: string, provider: string, name: string)

  datatype PromptKind =
    | UserPrompt      // "You: "
    | EditPrompt      // continue editing the spliced message
    | ModePrompt      // "Please select [1/2] (1): "
    | ModelPrompt     // "Please select model number: "
    | StartPrompt     // "Please select [1/2/3] (1): "
    | HistoryPrompt   // "Please select conversation history to load: "
    | ContinuePrompt  // "Continue using tools? [y/N]: "

  /** A call to a collaborator, or a prompt. */
  datatype Event =
    | Asked(prompt: PromptKind)
    | ShowHeader(language: Language)
    | InitLlm | InitManager | InitProcessor
    | McpCommand | ProcessText(text: string)
    | ListModels | SetModel(model: ModelEntry)
    | ListHistories | LoadHistory(path: string)
    | SetSystemPrompt(content: string)
    | SaveHistory(file: Option<string>) | ExportHistory(exported: string)
    | ClearHistory
    | Chat(message: string)
    | SelectClient | ListTools | RunTool(tools: seq<string>)
    | AskSave
    | CleanupAll
  {
    /** The events of the teardown: the save question and the release of the clients. */
    predicate Teardown() {
      AskSave? || CleanupAll?
    }
  }

  /** An exception from `set_model`: a `ValueError`, which `setup_llm` catches, or another one. */
  datatype SetModelFault = BadValue | Thrown(exc: Exc)

  /** The collaborators' fixed behaviour. */
  datatype World = World(
    llmInitOk: bool,            // LLMCLIClient(...) succeeds
    managerInitOk: bool,        // MCPClientManager(...) succeeds
    processorInitOk: bool,      // MCPProcessor(...) succeeds
    models: seq<ModelEntry>,    // display_available_models()
    histories: seq<string>,     // the paths of display_available_histories()
    setModelFault: ModelEntry -> Option<SetModelFault>,  // what set_model raises, if anything
    loadable: set<string>,      // paths load_chat_history_from_file accepts
    loadFault: string -> Option<Exc>,  // an exception of load_chat_history_from_file
                                       // other than ValueError or IndexError
    processText: string -> string,  // mcp_processor.process_text
    saveRace: RaceOutcome)      // how the save question's race ends

  /** The host's fields, the oracle queues still to be consumed, and the log. */
  datatype State = State(
    llm: bool,                  // llm_client is set
    manager: bool,              // mcp_manager is set
    processor: bool,            // mcp_processor is set
    historyFile: Option<string>,  // current_history_file
    language: Language,
    input: seq<Reply>,
    picks: seq<Pick>,
    chats: seq<ChatReply>,
    selections: seq<Selection>,
    saves: seq<SaveReply>,
    log: seq<Event>)

  function Log(st: State, e: Event): State {
    st.(log := st.log + [e])
  }

  /** One prompt; an exhausted input ends like EOF. */
  function Read(st: State, kind: PromptKind): (Reply, State) {
    var st1 := Log(st, Asked(kind));
    if st.input == [] then (EndOfFile, st1) else (st.input[0], st1.(input := st.input[1..]))
  }

  /** `process_mcp_command()`; an exhausted queue declines. */
  function NextPick(st: State): (Pick, State) {
    var st1 := Log(st, McpCommand);
    if st.picks == [] then (Declined, st1) else (st.picks[0], st1.(picks := st.picks[1..]))
  }

  /** `chat_cli(message)`; an exhausted queue responds. */
  function NextChat(st: State, message: string): (ChatReply, State) {
    var st1 := Log(st, Chat(message));
    if st.chats == [] then (Responded, st1) else (st.chats[0], st1.(chats := st.chats[1..]))
  }

  /** `select_mcp_client(...)`; an exhausted queue chooses no client. */
  function NextSelection(st: State): (Selection, State) {
    var st1 := Log(st, SelectClient);
    if st.selections == [] then (NoClient, st1)
    else (st.selections[0], st1.(selections := st.selections[1..]))
  }

  /** `save_chat_history(file)`; an exhausted queue reports failure. */
  function NextSave(st: State, file: Option<string>): (SaveReply, State) {
    var st1 := Log(st, SaveHistory(file));
    if st.saves == [] then (SaveReturned(false, ""), st1) else (st.saves[0], st1.(saves := st.saves[1..]))
  }

  predicate Suffix<T(==)>(a: seq<T>, b: seq<T>) {
    |b| <= |a| && a[|a| - |b|..] == b
  }

  lemma SuffixSelf<T>(a: seq<T>)
    ensures Suffix(a, a)
  {
    assert a[0..] == a;
  }

  lemma SuffixTail<T>(a: seq<T>)
    requires a != []
    ensures Suffix(a, a[1..])
  {
  }

  /** A state that differs from `st` only by a longer log has consumed nothing. */
  lemma ConsumedNothing(st: State, st2: State)
    requires st2.input == st.input && st2.picks == st.picks && st2.chats == st.chats
    requires st2.selections == st.selections && st2.saves == st.saves && st.log <= st2.log
    ensures Consumed(st, st2)
  {
    SuffixSelf(st.input);
    SuffixSelf(st.picks);
    SuffixSelf(st.chats);
    SuffixSelf(st.selections);
    SuffixSelf(st.saves);
  }

  /** `st2` is reached from `st` by consuming oracle answers and logging events only. */
  predicate Consumed(st: State, st2: State) {
    && Suffix(st.input, st2.input)
    && Suffix(st.picks, st2.picks)
    && Suffix(st.chats, st2.chats)
    && Suffix(st.selections, st2.selections)
    && Suffix(st.saves, st2.saves)
    && st.log <= st2.log
  }

  /** The host's fields are the same in both states. */
  predicate SameHost(st: State, st2: State) {
    st2.llm == st.llm && st2.manager == st.manager && st2.processor == st.processor
    && st2.historyFile == st.historyFile && st2.language == st.language
  }

  /** The events `st2` logged after `st`. */
  function NewEvents(st: State, st2: State): seq<Event>
    requires st.log <= st2.log
  {
    st2.log[|st.log|..]
  }

  lemma NewEventsAppended(st: State, st2: State, events: seq<Event>)
    requires st2.log == st.log + events
    ensures st.log <= st2.log && NewEvents(st, st2) == events
  {
  }

  /** No event logged between the two states belongs to the teardown. */
  predicate NoTeardown(st: State, st2: State) {
    st.log <= st2.log && forall i :: |st.log| <= i < |st2.log| ==> !st2.log[i].Teardown()
  }

  // Short appends, regrouped once here so that the scenario proofs need
  // no sequence extensionality of their own.

  lemma AppendTwo<T>(s: seq<T>, a: T, b: T)
    ensures s + [a] + [b] == s + [a, b]
  {
  }

  lemma AppendThree<T>(s: seq<T>, a: T, b: T, c: T)
    ensures s + [a] + [b] + [c] == s + [a, b, c]
  {
  }

  lemma AppendAfterThree<T>(s: seq<T>, a: T, b: T, c: T, d: T)
    ensures s + [a, b, c] + [d] == s + [a, b, c, d]
  {
  }

  lemma AppendBeforeFour<T>(s: seq<T>, a: T, b: T, c: T, d: T, e: T)
    ensures s + [a] + [b, c, d, e] == s + [a, b, c, d, e]
  {
  }

  lemma SplitHead<T>(s: seq<T>, x: T, rest: seq<T>)
    requires s == [x] + rest
    ensures s != [] && s[0] == x && s[1..] == rest
  {
  }

  lemma SplitTwo<T>(s: seq<T>, x: T, y: T, rest: seq<T>)
    requires s == [x, y] + rest
    ensures s == [x] + ([y] + rest)
  {
  }

  lemma SplitThree<T>(s: seq<T>, x: T, y: T, z: T, rest: seq<T>)
    requires s == [x, y, z] + rest
    ensures s == [x] + ([y, z] + rest)
  {
  }

  lemma ConsumedTransitive(st: State, st1: State, st2: State)
    requires Consumed(st, st1) && Consumed(st1, st2)
    ensures Consumed(st, st2)
  {
  }
}
