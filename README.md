# think-mcp-host, modelled in Dafny

think-mcp-host is a terminal chat host. It asks which mode to run in. Chat
mode chooses a model, optionally sets a system prompt or loads a saved
conversation, and then chats. Tool mode picks tool servers and runs their
tools. Before a chat line is sent, every standalone `->mcp` marker in it is
replaced by text from an external resolver, and the user may edit the
result. When the chat ends, a question that a timer can win decides whether
the conversation is saved, and the tool clients are released. The banner
shows three figlet words side by side and a random poem in the host's
language.

This project models that core: the `DestinyHost` class of
`think_mcp_host/destiny_host.py` and the poetry display of
`think_mcp_host/utils/poetry_display.py`.

The modules are:

- `Ascii`: the Python string operations the code relies on (`isspace`,
  `lower`, `upper`, `strip`, `find`, `split()`, `split(sep)`, `join` and
  base-10 `int()`), on ASCII.
- `Marker`: the scan `re.search(r"(?<=\s)->mcp(?=\s)", s)`.
- `Confirmation`: the save verdict of `ask_save_with_timeout`.
- `SessionModel`: the values of the model.
  - `World` holds the collaborators' fixed behaviour: whether each client
    can be built, the model and history lists, what `set_model` raises,
    which history files load and which loads raise, `process_text`, and how
    the save race ends.
  - `State` holds the host's fields (the three clients, the current history
    file and the language).
  - `State` also holds five queues of answers still to come: prompt replies,
    resolver picks, chat outcomes, client selections and save results.
  - A log records every prompt and every collaborator call.
- `SubstitutionSpec`, `SetupSpec`, `SessionSpec`: one specification function
  per step of `process_mcp_input`, the setup flow, `chat_loop`, `run` and
  `_handle_command`. Each maps a world and a state to a result and a new
  state. The properties of those steps are lemmas.
- `Host`: the class `DestinyHost`. Its fields are the host's fields and the
  queues. Its methods are the source's loops and branches, written
  imperatively. Each method is proved to produce exactly the result and new
  state of its specification function.
- `Banner`: the header merge of `print_header`.
- `Resources`: `get_resource_path`.
- `Poetry`: `PoetryDisplay` as a class with its file map, its language
  switch, its line cleaning and its English-to-Chinese fallback.

Python exceptions are values. `Outcome` is `Return(v)`, `Raise(Error)` or
`Raise(KeyboardInterrupt)`. A prompt reply is `Enter` (the default text),
`Typed(t)`, `EndOfFile` or `CtrlC`. An exhausted reply queue behaves like
end of input. The resolver, the client selection, the tool listing and the
tool run can each raise an error or Ctrl+C. `except Exception` catches the
error but not Ctrl+C.

Where the code's behaviour differs from its own messages or documentation,
the model follows the code:

- A resolver that returns nothing ends the rounds with the buffer unchanged.
  The marker stays in the text handed to `process_text`; it is not dropped.
- The lookbehind and lookahead need a real whitespace character. A marker at
  the very start or end of the line is never matched.
- A missing processor is detected only once a marker is found. A line
  without a marker is accepted without one.
- `setup_tool_mode` never returns `True`, so `setup_mode` never ends in tool
  mode: `run` ends, or asks for the mode again.
- `cleanup_resources` has no guard. In chat mode with a manager, the clients
  are released twice: by `chat_loop`'s `finally` and then by `run`'s.
- `run` ignores the result of `init_clients`.
- Without a model client, `setup_llm` and `load_chat_history` raise. `run`
  reports the error and ends.
- The start prompt shows `(1)`, but its default is `2`.
- `chat_loop` never calls `_handle_command`. A typed `/lang cn` is sent to the
  model as a message.
- `/lang` is a prefix test, so `/language cn` also switches the language.
- An end of input at "Continue using tools?" is caught together with the
  tool errors, and the loop moves on to the next client.
- An empty current history file is falsy. The save then goes to a new file,
  as if no file had been loaded.

## Model

| member | source | states |
|---|---|---|
| Ascii.Lower | think_mcp_host/destiny_host.py:196 | `lower()` keeps the length and maps each character on its own, changing only A-Z |
| Ascii.LowerIsLetter | think_mcp_host/destiny_host.py:389 | a string lower-cases to one lower-case letter exactly when it is that letter or its capital (so only `y`/`Y` continue) |
| Ascii.Strip | think_mcp_host/destiny_host.py:191 | `strip()` is empty exactly when the line is all whitespace; otherwise it starts and ends with non-whitespace; a line without whitespace is unchanged |
| Ascii.IndexOf | think_mcp_host/utils/poetry_display.py:60 | `". " in line`: the first occurrence with none before it, or none anywhere |
| Ascii.WordsAreWords | think_mcp_host/destiny_host.py:550 | every word of `split()` is non-empty and holds no whitespace |
| Ascii.TwoWords | think_mcp_host/destiny_host.py:550 | `split()` of two words joined by one space gives exactly those two words |
| Ascii.Split | think_mcp_host/destiny_host.py:113-115 | `split("\n")` yields at least one part and no part holds the separator |
| Ascii.JoinSplit | think_mcp_host/destiny_host.py:113-138 | joining the parts of a split with the same separator gives back the string |
| Ascii.SplitJoin | think_mcp_host/destiny_host.py:138 | splitting a join of separator-free parts gives back the parts |
| Ascii.ParseDecimal | think_mcp_host/destiny_host.py:308 | `int(str(n)) == n` for every natural number |
| Ascii.ParseDigitString | think_mcp_host/destiny_host.py:308 | a non-empty run of digits parses to its decimal value |
| Marker.FindMarker | think_mcp_host/destiny_host.py:202 | a span is found exactly when a standalone marker exists; it is the leftmost one and is as long as `->mcp` |
| Marker.MarkerSplitsBuffer | think_mcp_host/destiny_host.py:202-217 | the buffer is prefix + `->mcp` + suffix, the prefix ends in whitespace and the suffix starts with it |
| Marker.NotAtBufferStart | think_mcp_host/destiny_host.py:202 | a marker at index 0 is never matched |
| Marker.NotAtBufferEnd | think_mcp_host/destiny_host.py:202 | a marker that ends the buffer is never matched |
| Marker.GluedNotMatched | think_mcp_host/destiny_host.py:202 | a marker glued to a non-whitespace character on either side is not matched there |
| Marker.NoTokenNoMarker | think_mcp_host/destiny_host.py:202-204 | without `->mcp` anywhere there is no marker |
| Marker.NoDashNoMarker | think_mcp_host/destiny_host.py:202-204 | a buffer without `-` has no marker |
| Marker.MarkerBetweenWords | think_mcp_host/destiny_host.py:202 | in word, space, `->mcp`, space, word (first word without `-`) the marker is found right after the first word |
| Marker.BeforeMarkerAfter | think_mcp_host/destiny_host.py:202 | in `before ->mcp after` the marker spans 7 to 12 |
| Confirmation.SaveVerdict | think_mcp_host/destiny_host.py:244-273 | the verdict is "do not save" exactly when `n` or `N` was answered in time; a timeout, an end of input (`"y"`) and any failure all save |
| Confirmation.AnyOtherAnswerSaves | think_mcp_host/destiny_host.py:270-271 | every answer other than `n`/`N`, the empty one included, saves |
| SubstitutionSpec.Pipeline | think_mcp_host/destiny_host.py:167-242 | the pipeline only consumes replies and resolver picks and logs non-teardown calls; it changes no host field; without an initial input, every outcome except a refusal consumes a reply |
| SubstitutionSpec.Resolve | think_mcp_host/destiny_host.py:200-242 | the rounds keep the same frame; without a processor an accepted text is the buffer itself and holds no marker |
| SubstitutionSpec.InitialNeverPrompts | think_mcp_host/destiny_host.py:181-242 | with an initial input the user is never asked for a line: no user-prompt question is logged, whatever the rounds do |
| SubstitutionSpec.ResolveNeverPrompts | think_mcp_host/destiny_host.py:200-242 | the marker rounds only ask the resolver and offer edits; they never prompt for a new line |
| SubstitutionSpec.Interactive | think_mcp_host/destiny_host.py:181-197 | the prompting loop keeps the same frame and consumes a reply unless the line is refused |
| SubstitutionSpec.QuitLiteralRejected | think_mcp_host/destiny_host.py:196-197 | an initial `exit`/`quit` in any case is refused with nothing called and nothing consumed |
| SubstitutionSpec.QuitLineRejected | think_mcp_host/destiny_host.py:181-197 | a typed `exit`/`quit` is refused right after its one prompt |
| SubstitutionSpec.BlankInitialRejected | think_mcp_host/destiny_host.py:191-194 | a blank initial input is refused when blank is not allowed |
| SubstitutionSpec.BlankLineReprompts | think_mcp_host/destiny_host.py:191-193 | a blank typed line is skipped and the pipeline starts over on the next reply |
| SubstitutionSpec.MarkerWithoutProcessor | think_mcp_host/destiny_host.py:206-211 | a marker without a processor refuses the line; nothing is called or consumed |
| SubstitutionSpec.NoMarkerNoResolver | think_mcp_host/destiny_host.py:202-242 | without a marker the resolver is never called: the result is `process_text(buffer)` (or the buffer) and that is the only call logged |
| SubstitutionSpec.DeclinedKeepsMarker | think_mcp_host/destiny_host.py:220-238 | a falsy resolver answer ends the rounds: `process_text` gets the buffer with its marker, after exactly one resolver call |
| SubstitutionSpec.ResolverFailureRaises | think_mcp_host/destiny_host.py:219-220 | a resolver call that raises makes the pipeline raise that same exception (an error or Ctrl+C), right after the call |
| SubstitutionSpec.SpliceRound | think_mcp_host/destiny_host.py:213-232 | a non-empty replacement accepted as offered gives prefix + replacement + suffix, which is scanned again |
| SubstitutionSpec.PlainAcceptedLine | think_mcp_host/destiny_host.py:167-242 | without a processor every accepted text holds no marker, is not an exit literal and is not blank unless blank is allowed |
| SubstitutionSpec.InteractivePlain | think_mcp_host/destiny_host.py:181-242 | the same holds for the prompting loop, proved by induction on the replies |
| SubstitutionSpec.TypedLineScreened | think_mcp_host/destiny_host.py:181-200 | a non-blank typed line goes straight to the exit check and the rounds |
| SubstitutionSpec.TypedPlainLineAccepted | think_mcp_host/destiny_host.py:181-242 | a typed line with no marker that is neither blank nor an exit literal is accepted as `process_text(line)` (or the line itself), after one prompt and at most the processor's pass |
| SubstitutionSpec.TypedDeclinedLine | think_mcp_host/destiny_host.py:181-242 | a typed line whose marker is declined reaches `process_text` unchanged |
| SubstitutionSpec.HelloIsPlain | think_mcp_host/destiny_host.py:191-204 | `hello` is not blank, not an exit literal and has no marker |
| SubstitutionSpec.HelloAccepted | think_mcp_host/destiny_host.py:181-242 | typed `hello` is accepted as `hello` (through `process_text` when there is a processor), after one prompt and at most the processor's pass |
| SubstitutionSpec.BeforeMarkerAfterScreens | think_mcp_host/destiny_host.py:191-197 | `before ->mcp after` is not blank and not an exit literal |
| SubstitutionSpec.DeclinedScenario | think_mcp_host/destiny_host.py:200-238 | typed `before ->mcp after` with a declined resolver reaches `process_text` as `before ->mcp after`, not `before after` |
| SetupSpec.IndexChoice | think_mcp_host/destiny_host.py:307-309 | `int(choice) - 1` is accepted exactly when the choice parses and lies in 1..n, and then it is the 0-based entry |
| SetupSpec.NumeralSelects | think_mcp_host/destiny_host.py:307-309 | typing `k` for 1 <= k <= n selects entry k - 1 |
| SetupSpec.NumeralOutOfRange | think_mcp_host/destiny_host.py:307-309 | `0` and any numeral above n select nothing |
| SetupSpec.SetModelOnlyInRange | think_mcp_host/destiny_host.py:294-321 | `set_model` is called exactly when the number is in range, with that entry; the setup then succeeds when it returns, fails on its `ValueError` and raises its other exceptions; otherwise only the listing and the prompt are logged |
| SetupSpec.DefaultModelIsFirst | think_mcp_host/destiny_host.py:301-316 | Enter at the model prompt picks the first model and succeeds when `set_model` does not raise |
| SetupSpec.SelectFirstModel | think_mcp_host/destiny_host.py:307-316 | the choice `1` sets the first model and succeeds when `set_model` does not raise |
| SetupSpec.NoModelsFails | think_mcp_host/destiny_host.py:296-299 | with no models, nothing is asked and both `setup_llm` and `setup_chat_mode` fail after the listing |
| SetupSpec.HistoryFileOnlyOnLoad | think_mcp_host/destiny_host.py:424-441 | `load_chat_history` succeeds exactly when the reply names a conversation that loads without raising; the current file changes only then, and to that file |
| SetupSpec.SelectHistoryFile | think_mcp_host/destiny_host.py:431-441 | the chosen file becomes current exactly when it loads; an exception of the load other than `ValueError`/`IndexError` propagates and leaves the current file as it was |
| SetupSpec.SetupLlmStep | think_mcp_host/destiny_host.py:294-321 | `setup_llm` only consumes replies and logs; no host field changes |
| SetupSpec.SetupSystemPromptStep | think_mcp_host/destiny_host.py:323-337 | `setup_system_prompt` only consumes and logs; no host field changes |
| SetupSpec.LoadChatHistoryStep | think_mcp_host/destiny_host.py:424-441 | `load_chat_history` changes no client or language, and the history file only on success |
| SetupSpec.SetupChatModeStep | think_mcp_host/destiny_host.py:404-422 | the chat setup changes no client, no language and logs no teardown |
| SetupSpec.SetupToolModeStep | think_mcp_host/destiny_host.py:354-402 | the tool setup changes no client, no language and logs no teardown |
| SetupSpec.UseClient | think_mcp_host/destiny_host.py:370-397 | using a chosen client only consumes replies and selections and logs; no host field changes |
| SetupSpec.AskContinue | think_mcp_host/destiny_host.py:386-397 | the question consumes exactly one reply |
| SetupSpec.UseClientNeverTrue | think_mcp_host/destiny_host.py:370-397 | using a client never leaves the loop with `True` |
| SetupSpec.ToolInterruptPropagates | think_mcp_host/destiny_host.py:364-402 | Ctrl+C while choosing a client, listing its tools or running one escapes both `except Exception` clauses: the tool setup raises it with no further prompt |
| SetupSpec.SelectErrorGivesFalse | think_mcp_host/destiny_host.py:364-402 | an error while choosing a client is caught by the outer `except` and the tool setup returns `False` |
| SetupSpec.ToolErrorMovesOn | think_mcp_host/destiny_host.py:370-397 | an error while listing or running tools is caught by the inner `except` and the loop moves on to the next client without a prompt |
| SetupSpec.ToolRounds | think_mcp_host/destiny_host.py:364-402 | the client loop keeps the tool frame and never returns `True` |
| SetupSpec.SetupToolMode | think_mcp_host/destiny_host.py:354-402 | `setup_tool_mode` never returns `True` |
| SetupSpec.SetupMode | think_mcp_host/destiny_host.py:339-352 | `setup_mode` changes no client or language, logs no teardown, and starts with the mode question |
| SetupSpec.SetupModeNeverTool | think_mcp_host/destiny_host.py:339-352 | `setup_mode` never ends in tool mode, proved by induction on the replies |
| SetupSpec.OtherChoiceIsChat | think_mcp_host/destiny_host.py:345-352 | any choice other than `2` runs the chat setup once: `"chat"` on success, `None` on failure, its exception otherwise |
| SetupSpec.ToolWithoutManagerAsksAgain | think_mcp_host/destiny_host.py:347-362 | without a manager, choosing `2` asks for the mode again with nothing else done |
| SessionSpec.ChatIterations | think_mcp_host/destiny_host.py:446-470 | the chat loop consumes answers and logs no teardown; no host field changes; it ends normally or with Ctrl+C only |
| SessionSpec.SaveLog | think_mcp_host/destiny_host.py:275-292 | `save_chat_history` appends its events and changes no host field or reply |
| SessionSpec.SavedEventsShape | think_mcp_host/destiny_host.py:275-292 | a save is logged exactly when there is a model client; it goes to the current file when that is set and non-empty, and to a new file when it is unset or empty; at most one export follows |
| SessionSpec.FinallyLog | think_mcp_host/destiny_host.py:472-486 | the `finally` asks once, saves exactly on a yes, then releases the clients when there is a manager |
| SessionSpec.ChatLoopAsksOnce | think_mcp_host/destiny_host.py:443-486 | however the loop ends, the save question is asked exactly once, after every message, followed only by the save and the release |
| SessionSpec.NoSaveOnNo | think_mcp_host/destiny_host.py:472-479 | answering `n`/`N` logs no save |
| SessionSpec.TimeoutSaves | think_mcp_host/destiny_host.py:472-476 | a timed-out question saves (to the current file when it is truthy) whenever there is a client |
| SessionSpec.ResolverFailureContinues | think_mcp_host/destiny_host.py:453-470 | an error raised by the resolver is reported and the loop reads the next line |
| SessionSpec.ResolverInterruptEndsLoop | think_mcp_host/destiny_host.py:443-486 | Ctrl+C inside the resolver is re-raised: the loop ends at once and the chat loop raises it after its `finally` region |
| SessionSpec.ChatFailureContinues | think_mcp_host/destiny_host.py:459-470 | a failing model call is reported and the loop reads the next line |
| SessionSpec.RefusedLineEndsLoop | think_mcp_host/destiny_host.py:453-455 | a refused line (end of input, Ctrl+C at the prompt, `exit`) ends the loop normally |
| SessionSpec.ExhaustedInputEndsLoop | think_mcp_host/destiny_host.py:453-455 | with no input left the loop ends after one prompt and nothing goes to the model |
| SessionSpec.SlashLineIsChatted | think_mcp_host/destiny_host.py:453-459 | typed `/lang cn` is sent to the model as a message and the language stays |
| SessionSpec.PlainLineIsChatted | think_mcp_host/destiny_host.py:453-459 | a typed line with no marker and no processor is sent to the model as typed |
| SessionSpec.SlashLangIsPlain | think_mcp_host/destiny_host.py:191-204 | `/lang cn` is not blank, not an exit literal and has no marker |
| SessionSpec.InitClientsFields | think_mcp_host/destiny_host.py:71-97 | `init_clients` returns true exactly when all three clients are built; each field is set exactly when its constructor and the earlier ones succeed |
| SessionSpec.ModeAskedFirst | think_mcp_host/destiny_host.py:339-345 | the mode question is the first thing `setup_mode` does |
| SessionSpec.RunAlwaysAsksMode | think_mcp_host/destiny_host.py:506-511 | whatever `init_clients` returns, the mode question comes right after it |
| SessionSpec.RunCleansUpTwice | think_mcp_host/destiny_host.py:472-530 | in chat mode with a manager, `run` ends with two releases of the clients in a row |
| SessionSpec.CleanupAfterCleanup | think_mcp_host/destiny_host.py:488-499 | a release right after a release is logged again, because there is no guard |
| SessionSpec.ManagerSurvivesSetup | think_mcp_host/destiny_host.py:508-511 | a manager built by `init_clients` is still there after `setup_mode` |
| SessionSpec.ChatLoopEndsWithCleanup | think_mcp_host/destiny_host.py:472-486 | with a manager, the chat loop's last call is the release and the manager stays |
| SessionSpec.RunInChatMode | think_mcp_host/destiny_host.py:511-530 | in chat mode, `run` is the chat loop followed by one more release |
| SessionSpec.RunWithoutChatNeverAsks | think_mcp_host/destiny_host.py:511-530 | outside chat mode (no mode, an error or Ctrl+C in setup), the save question is never asked |
| SessionSpec.InterruptPropagates | think_mcp_host/destiny_host.py:501-530 | Ctrl+C during the chat loop propagates out of `run` |
| SessionSpec.FirstModelSetup | think_mcp_host/destiny_host.py:294-316 | the model prompt answered `1` sets the first model and succeeds, consuming one reply |
| SessionSpec.DirectStart | think_mcp_host/destiny_host.py:404-422 | then the start prompt answered `2` starts directly, with no system prompt and no load |
| SessionSpec.ChatSetupByNumbers | think_mcp_host/destiny_host.py:339-352 | the replies `1`, `1`, `2` give chat mode with the first model, consume exactly those replies and log exactly the questions and `set_model` |
| SessionSpec.LineSent | think_mcp_host/destiny_host.py:453-470 | an accepted line goes to the model; unless that call is interrupted the loop goes on |
| SessionSpec.PlainLineLoop | think_mcp_host/destiny_host.py:446-470 | given one plain line, the chat loop sends exactly that message (processed when there is a processor) and ends normally, or raises when the model call is interrupted |
| SessionSpec.PlainLineSession | think_mcp_host/destiny_host.py:501-530 | a whole session `1`, `1`, `2`, then a plain line: the model receives exactly one message, that line (processed when both tool clients were built), and the run ends normally unless that model call is interrupted |
| SessionSpec.HelloSession | think_mcp_host/destiny_host.py:501-530 | the session `1`, `1`, `2`, `hello` with two models sends exactly one message to the model: `hello`, or `process_text("hello")` with a processor |
| SessionSpec.InitClientsSendsNothing | think_mcp_host/destiny_host.py:71-97 | building the clients sends nothing to the model |
| SessionSpec.FinallySendsNothing | think_mcp_host/destiny_host.py:472-486 | the `finally` region and the release send nothing to the model |
| SessionSpec.HandleCommandVerdict | think_mcp_host/destiny_host.py:532-566 | `True` exactly for `/exit` and `/quit`; `False` exactly for `/clear`, `/save`, `/help` and anything starting with `/lang`; `None` otherwise |
| SessionSpec.HandleCommandEffects | think_mcp_host/destiny_host.py:534-547 | `/exit`, `/quit` and `/save` save; `/clear` clears only with a client; `/help` changes nothing |
| SessionSpec.LanguageOnlyByLang | think_mcp_host/destiny_host.py:532-566 | the language changes only through `/lang` with `en`, `english`, `cn` or `chinese` as second word, and nothing else changes with it |
| SessionSpec.LangBranch | think_mcp_host/destiny_host.py:548-565 | every command starting with `/lang` is handled, and sets the language only when the code is known |
| SessionSpec.SecondWordCode | think_mcp_host/destiny_host.py:550-552 | the code read is the lower-cased second word |
| SessionSpec.LangSwitchesToEnglish | think_mcp_host/destiny_host.py:548-555 | `/lang` with a code that lower-cases to `en` or `english` switches to English and changes nothing else |
| SessionSpec.LangSwitchesToChinese | think_mcp_host/destiny_host.py:556-558 | `/lang` with a code that lower-cases to `cn` or `chinese` switches to Chinese and changes nothing else |
| SessionSpec.LangPrefixSwitches | think_mcp_host/destiny_host.py:548 | any first word starting with `/lang` (`/language`, ...) switches the language too |
| Host.DestinyHost.constructor | think_mcp_host/destiny_host.py:34-43 | no client, no history file, English, and an empty log |
| Host.DestinyHost.Prompt | think_mcp_host/destiny_host.py:184-187 | one prompt consumes the next reply, or raises EOF when there is none |
| Host.DestinyHost.ProcessMcpCommand | think_mcp_host/destiny_host.py:220 | one resolver call consumes the next pick |
| Host.DestinyHost.ChatCli | think_mcp_host/destiny_host.py:459 | one model call consumes the next chat outcome |
| Host.DestinyHost.SelectMcpClient | think_mcp_host/destiny_host.py:366 | one client selection consumes the next selection |
| Host.DestinyHost.SaveWithClient | think_mcp_host/destiny_host.py:279-286 | one save call, to the given file or to a new one, consumes the next save result |
| Host.DestinyHost.ProcessMcpInput | think_mcp_host/destiny_host.py:167-242 | the method does exactly what the pipeline does: blank and exit lines refused, markers resolved round by round, then `process_text` (properties in the SubstitutionSpec rows) |
| Host.DestinyHost.PromptForInput | think_mcp_host/destiny_host.py:181-197 | the outer loop prompts again on a blank line and refuses an exit literal or an end of input, as the prompting loop does |
| Host.DestinyHost.ResolveMarkers | think_mcp_host/destiny_host.py:200-242 | the inner loop splices each accepted replacement, stops on a declined one with the marker kept, raises the resolver's exception, and ends with the final pass, as the rounds do |
| Host.DestinyHost.AskSaveWithTimeout | think_mcp_host/destiny_host.py:244-273 | the answer is the save verdict of the race's outcome, and the question is logged |
| Host.DestinyHost.SaveChatHistory | think_mcp_host/destiny_host.py:275-292 | with a client, one save to the current file when it is truthy (a new one otherwise), then an export only of a file the save reports |
| Host.DestinyHost.CleanupResources | think_mcp_host/destiny_host.py:488-499 | the clients are released exactly when there is a manager |
| Host.DestinyHost.InitClients | think_mcp_host/destiny_host.py:84-97 | true exactly when all three clients are built; a failure keeps the clients built before it |
| Host.DestinyHost.InitMcp | think_mcp_host/destiny_host.py:71-82 | manager, then processor; a failure keeps what was built before it |
| Host.DestinyHost.SetupLlm | think_mcp_host/destiny_host.py:294-321 | no client raises, no models fails, otherwise `set_model` exactly when the number is in range, with its exceptions handled as `setup_llm` does |
| Host.DestinyHost.SelectModel | think_mcp_host/destiny_host.py:307-321 | `set_model` on the entry the choice names, when it names one |
| Host.DestinyHost.ApplyModel | think_mcp_host/destiny_host.py:310-321 | `set_model` succeeds, fails on a `ValueError`, or raises any other exception, as the spec step says |
| Host.DestinyHost.SetupSystemPrompt | think_mcp_host/destiny_host.py:323-337 | the prompt goes through the pipeline with blank allowed; a refusal fails, a non-empty text becomes the system prompt |
| Host.DestinyHost.LoadChatHistory | think_mcp_host/destiny_host.py:424-441 | succeeds exactly when the reply names a conversation that loads, which then becomes the current file; an exception of the load propagates |
| Host.DestinyHost.SelectHistory | think_mcp_host/destiny_host.py:431-441 | loads the file the choice names and makes it current when it loads |
| Host.DestinyHost.LoadFromFile | think_mcp_host/destiny_host.py:433-439 | raises the load's exception other than `ValueError`/`IndexError`; otherwise reports whether the file loads and makes it current exactly then |
| Host.DestinyHost.SetupChatMode | think_mcp_host/destiny_host.py:404-422 | the model first; then `3` loads a conversation, `1` sets a system prompt, anything else (default `2`) succeeds |
| Host.DestinyHost.UseClient | think_mcp_host/destiny_host.py:370-397 | no tools or an error moves on to the next client, Ctrl+C in the listing or the run raises; after a run the continue question decides; never leaves with `True` |
| Host.DestinyHost.AskContinue | think_mcp_host/destiny_host.py:386-397 | anything but `y`/`Y` (default `n`) leaves with `False`; an end of input moves on; Ctrl+C raises |
| Host.DestinyHost.SetupToolMode | think_mcp_host/destiny_host.py:354-402 | without a manager it fails at once; otherwise it uses clients until none is picked, picking one fails (an error gives `False`, Ctrl+C raises) or one ends the loop; it never returns `True` |
| Host.DestinyHost.SetupMode | think_mcp_host/destiny_host.py:339-352 | `2` runs the tool setup and asks again on a falsy result; anything else ends with `"chat"` or `None`; never tool mode |
| Host.DestinyHost.ChatLoop | think_mcp_host/destiny_host.py:443-486 | the iterations, then the save question exactly once, a save on a yes and the release of the clients, however the iterations ended |
| Host.DestinyHost.ChatIterations | think_mcp_host/destiny_host.py:446-470 | a refused line ends the loop normally, an error is reported and the loop goes on, Ctrl+C in the resolver or the model call raises |
| Host.DestinyHost.Run | think_mcp_host/destiny_host.py:501-530 | header, clients (result ignored), mode, the chat loop in chat mode, then one more release; errors swallowed, Ctrl+C propagates |
| Host.DestinyHost.AfterSetup | think_mcp_host/destiny_host.py:511-520 | chat mode runs the chat loop; an error is swallowed; Ctrl+C propagates |
| Host.DestinyHost.HandleCommand | think_mcp_host/destiny_host.py:532-566 | `True` for `/exit` and `/quit` after a save, `False` for the other commands with their effects, `None` for anything else |
| Host.DestinyHost.SwitchLanguage | think_mcp_host/destiny_host.py:550-558 | the language becomes the one the code names, and stays when the code is missing or unknown |
| Banner.Pad | think_mcp_host/destiny_host.py:119-121 | padding gives exactly n lines: the banner's lines, then empty ones |
| Banner.Max3 | think_mcp_host/destiny_host.py:118 | the maximum is one of the three counts and at least each of them |
| Banner.MergeHeader | think_mcp_host/destiny_host.py:112-138 | read back line by line, the merged header is exactly one coloured row per line of the tallest banner |
| Banner.RowSingleLine | think_mcp_host/destiny_host.py:129-135 | a row holds no line break when its three parts hold none |
| Banner.RowsSingleLine | think_mcp_host/destiny_host.py:127-136 | there is at least one row and no row holds a line break |
| Resources.PathJoin | think_mcp_host/destiny_host.py:597 | `os.path.join`: an absolute second part replaces the first; otherwise the result starts with the first and ends with the second |
| Resources.Drop | think_mcp_host/destiny_host.py:603 | `s[k:]` is the rest after k characters, and empty past the end |
| Resources.LongerNameEscapesBase | think_mcp_host/destiny_host.py:601-603 | as written, `think_mcp_hosts/a.txt` becomes `/a.txt` in the source tree, and the module directory is lost |
| Resources.LayoutsDisagreeAsWritten | think_mcp_host/destiny_host.py:593-603 | as written, the packaged and source layouts name different files for such a path |
| Resources.SourceDropsPackageDir | think_mcp_host/destiny_host.py:599-603 | corrected, the source tree drops exactly the leading `think_mcp_host/` and nothing else |
| Resources.LayoutsAgree | think_mcp_host/destiny_host.py:593-603 | corrected, the packaged relative part is the source tree's relative part under the package directory |
| Resources.SourceStaysRelative | think_mcp_host/destiny_host.py:599-607 | corrected, a relative path stays relative and the result stays under the module directory |
| Resources.FrozenUnderPackage | think_mcp_host/destiny_host.py:593-597 | a packaged executable always looks under the package directory |
| Resources.ResultUnderBase | think_mcp_host/destiny_host.py:605-609 | when the normalised relative part is relative, the joined path lies under the base directory |
| Poetry.FileName | think_mcp_host/utils/poetry_display.py:34-42 | English files are `<type>_en.txt`, Chinese files `<type>.txt` |
| Poetry.FileNamesDistinct | think_mcp_host/utils/poetry_display.py:34-42 | different kinds or languages never share a file |
| Poetry.PoetryFiles | think_mcp_host/utils/poetry_display.py:34-42 | the map has exactly the three kinds, each under the base directory with its file name |
| Poetry.Colors | think_mcp_host/utils/poetry_display.py:28-32 | the style map has exactly the three kinds: blue, green, red |
| Poetry.Cleaned | think_mcp_host/utils/poetry_display.py:57-61 | a kept line never cleans to the empty string |
| Poetry.CleanLines | think_mcp_host/utils/poetry_display.py:55-63 | never more lines out than in, and none of them empty |
| Poetry.CleanLinesAppend | think_mcp_host/utils/poetry_display.py:56-62 | cleaning works line by line in input order |
| Poetry.CleanLinesFromInput | think_mcp_host/utils/poetry_display.py:55-63 | every poem comes from one kept input line |
| Poetry.FallbackIsChinese | think_mcp_host/utils/poetry_display.py:64-85 | a missing English file reads exactly what the Chinese display reads; Chinese has no fallback |
| Poetry.PoetryDisplay.constructor | think_mcp_host/utils/poetry_display.py:23-32 | the display starts consistent: paths for its language and the three styles |
| Poetry.PoetryDisplay.UpdatePoetryFiles | think_mcp_host/utils/poetry_display.py:34-42 | the paths become those of the current language |
| Poetry.PoetryDisplay.SetLanguage | think_mcp_host/utils/poetry_display.py:44-47 | the language and all three paths change together; base path and styles stay |
| Poetry.PoetryDisplay.ProcessLines | think_mcp_host/utils/poetry_display.py:55-63 | the loop returns the cleaned lines of the file |
| Poetry.PoetryDisplay.CleanLine | think_mcp_host/utils/poetry_display.py:57-62 | a line is kept exactly when stripped it is non-empty and no comment, and then it is cleaned |
| Poetry.PoetryDisplay.LoadPoetry | think_mcp_host/utils/poetry_display.py:49-85 | the poems of the kind's file, or the Chinese file's for English, or none |
| Poetry.PoetryDisplay.DisplayRandomPoetry | think_mcp_host/utils/poetry_display.py:87-109 | nothing is shown exactly when there are no poems; otherwise one of them, titled with the upper-cased kind in the kind's colour |
| Poetry.ShowRandomPoetry | think_mcp_host/utils/poetry_display.py:116-127 | a given language is set on the display first; nothing is shown exactly when that language's file yields no poems; a shown poem is one of them, non-empty, titled with the upper-cased kind and styled with its colour |

## Left out

- Terminal I/O is not modelled: console output, `print_markdown`, `clear_screen`, prompt styling and the prompt session's history file (`_create_prompt_session`). Each prompt is one reply from the input queue.
- The timer race in `ask_save_with_timeout` is reduced to how it ended (`World.saveRace`). The 5-second deadline and the cancellation of the pending prompt are not modelled.
- The model client, the tool-client manager, the tool clients and the processor are oracles. Their results come from `World` and the queues, and their internals are not part of this model.
- `random.choice` is a parameter: the poem kind `randomType` and the index `pick`.
- `os.path.normpath` is a parameter of `Resources.ResourcePath`. Paths are POSIX paths; Windows separators are not modelled.
- `sys.frozen`, `sys._MEIPASS` and `__file__` become the `Runtime` value. The poetry base path is a constructor parameter.
- `TABLE_STYLE` comes from another package. The display's colours are kept as the names of its keys (`blue`, `green`, `red`).
- `main`, argument parsing, `get_version`, `_print_help` and logging are not modelled.
- The figlet renderings are inputs of `Banner.MergeHeader`. The rest of `print_header` (the panel, the version line) is output only.
- Host.DestinyHost.Run: the poem in the header is recorded as one `ShowHeader(language)` event. Which poem appears is modelled separately, by `Poetry.ShowRandomPoetry`.
- Ascii.Lower: only ASCII letters are mapped. Python's Unicode case mapping is not modelled.
- Ascii.Strip: whitespace is the ASCII whitespace set. Python's Unicode whitespace is not modelled.
- SetupSpec.IndexChoice: `int()` is modelled for ASCII digits with optional sign and surrounding whitespace. Underscores and non-ASCII digits, which Python also accepts, are not modelled.
- SubstitutionSpec.Resolve: `process_text` is a total function of `World`. An exception raised inside it is not modelled; only the resolver's own failure raises.
- SetupSpec.SetupLlm: `display_available_models` is taken not to raise; only an unset client, `set_model` and the prompt raise here.
- SetupSpec.LoadChatHistory: `display_available_histories` is taken not to raise; only an unset client, the load and the prompt raise here.
- SessionSpec.ChatFinally: the save, the export and the release of the clients are taken not to be interrupted by Ctrl+C. The `except Exception` clauses at think_mcp_host/destiny_host.py:290, 481, 495 and 498 do not catch `KeyboardInterrupt`, so in the source such an interrupt ends the `finally` of `chat_loop` before the release; SessionSpec.FinallyLog and SessionSpec.ChatLoopAsksOnce hold only without it. An ordinary exception from these calls is caught and logs what the model already logs: a failing save is the `SaveRaised` reply, a failing export still shows its `ExportHistory` event, and a failing release still shows its `CleanupAll` event.
- SessionSpec.SaveChatHistory: likewise taken not to be interrupted by Ctrl+C when it runs for `/exit`, `/quit` or `/save`; Host.DestinyHost.SaveChatHistory makes the same assumption.
- SessionSpec.CleanupResources: `cleanup_all_clients` is taken not to be interrupted by Ctrl+C, in the chat loop's `finally` and in `run`'s own; Host.DestinyHost.CleanupResources makes the same assumption.
- SessionSpec.InitClients: the constructors of the model client, the tool-client manager and the processor are taken not to be interrupted by Ctrl+C (the `except Exception` at think_mcp_host/destiny_host.py:80 and 90 would let it through). Their ordinary failures are `World.llmInitOk`, `World.managerInitOk` and `World.processorInitOk`.
- SessionSpec.HandleCommand: `clear_chat_history` (think_mcp_host/destiny_host.py:539) is taken not to raise. It runs outside any `try`, so in the source an exception from it leaves `_handle_command`, where the model returns `Some(false)`; Host.DestinyHost.HandleCommand makes the same assumption.

## Findings

| source | as written | input that shows it | evidently intended | confidence | as-written member | corrected member |
|---|---|---|---|---|---|---|
| think_mcp_host/destiny_host.py:601-603 | in the source tree, any path starting with `think_mcp_host` loses `len("think_mcp_host/")` characters, whether or not a separator follows | `think_mcp_hosts/a.txt` becomes `/a.txt`; the join then discards the module directory, and the packaged layout keeps `think_mcp_hosts/a.txt` | strip the prefix only when it is the whole first component `think_mcp_host/` | not executed | Resources.LongerNameEscapesBase | Resources.SourceDropsPackageDir |
