# Agency voice interface: a Dafny model of its core

The agency voice interface is a speech-to-speech assistant. It holds a realtime
session with a remote model over a websocket. The model streams audio and text
back and may call named tools mid-conversation. Each tool call arrives as a
function-call item followed by argument fragments, and the assistant must send a
result back into the same stream.

This project models, in Dafny, the parts of that program that make decisions on
data:

- **The session event processor** (`process_ws_messages`). One `while True` loop
  receives messages in order, decodes each into an event and reacts to it. It
  drives the microphone (receiving and recording modes), the playback, the visual
  indicator and the function-call accumulator, and it sends results back. The
  model is the method `WebsocketHandler.ProcessWsMessages`, whose local variables
  are the loop's. It is proved equal to the function `WebsocketHandler.Run`, which
  folds a one-message step (`Receive`, then `Handle` for the event type) over the
  inbound messages. Everything the code does to its collaborators is an entry of
  an ordered effect log: mic calls, `set_active`, sends, playback, prints, latency
  logs and the final `audio_player.close()`. JSON and base64 are a `Codec` of
  arbitrary functions passed as parameters. JSON decoding and base64 decoding
  return an `Option`. A tool is a name and a behaviour that either returns a value
  or fails with a message.
- **The websocket event logger** (`log_ws_event`). It formats one line per event
  and remembers the last event type in a module-level variable, modelled as the
  class `LogUtils.WsEventLogger`.
- **The agency registry.** It is a singleton name-to-agency table kept in
  registration order (`Registry.AgenciesRegistry`, with the class object and its
  `_instance` as `Registry.AgenciesRegistryClass`).
- **Tool discovery and tool schemas** (`load_tools`, `prepare_tool_schemas`), over
  a directory listing and a module importer given as inputs.
- **The repository-name lookup** (`parse_repo_name`, `get_repository_name`). The
  two git queries are inputs.
- **The search for the project's `tools` folder** (`get_tools_folder_path`). It is
  modelled as a pruned top-down walk over a directory-tree datatype.
- **The window helpers of both window modules.** These are:
  - the filtered window listing;
  - the title lookup and activation;
  - the maximise placement;
  - the move to the monitor on the left, with its wrap-around and centring.

  The desktop is a snapshot: the windows that enumeration reports, and the
  monitors with their rectangles. The win32 calls issued are an action log.
- **The terminal helpers.** These are the `wt.exe` argument vectors and the
  keystrokes and pauses used to type into a terminal found by title.
- **The screen-description helpers.** These are:
  - the bounds check;
  - the clamped bounds of the foreground window;
  - the parse of `xdotool getwindowgeometry` output;
  - the `screencapture` command line.
- **The GitHub repository-list tool.** Its inputs are the token the environment
  holds and what the API lists.

Python's `str` helpers are modelled once, in the module `Strings`: `lower`, `in`,
`startswith`, `split`, `join`, `replace`, `strip`, `int()` and `str()` of an
integer. Their lemmas are what the parse and round-trip proofs are built from.

The model follows the code where it differs from the intended protocol
description:
- A second `function_call` item silently replaces a pending call, even one that
  is still open (`OutputItemAddedReplacesCall`).
- Argument deltas are appended whether or not a call is open
  (`ArgumentDeltaAppends`).
- The tool is awaited inline; nothing runs beside the loop.
- Any error event whose message is neither "buffer is empty" nor "Conversation
  already has an active response" ends the loop (`ErrorClassification`). No error
  event is logged and then passed over.
- Only `ConnectionClosed` is caught. Any other exception leaves the function
  without `audio_player.close()`, so the player is closed only after a `break`
  (`CloseRunsOnceAfterLoop`). Such exceptions are a message that is not JSON, an
  event that is not an object, a delta that is not a string, a missing or
  undecodable audio delta, and a function name that is not a string while tools
  exist. The model gives each of them the exit `Raised`.
- In `utils/git_utils.py` the guards `len(parts) >= 1` are always true, because
  `split` never returns an empty list. The model has no branch for them.

## Model

| member | source | states |
|---|---|---|
| WebsocketHandler.ProcessWsMessages | src/voice_assistant/websocket_handler.py:14-147 | the loop's effect log and its exit (still waiting, closed, unhandled error, or an escaping exception) are exactly those of `Run` from the initial locals over the same inbound messages |
| WebsocketHandler.RunHead | src/voice_assistant/websocket_handler.py:20-145 | a closed connection ends the run with only the close; otherwise the first message's effects come first, followed by the rest of the run when it continues, by the close when it breaks, and by nothing when it raises |
| WebsocketHandler.FindTool | src/voice_assistant/websocket_handler.py:52-59 | the position of the first tool whose lower-cased name equals the lower-cased function name; None exactly when no tool matches |
| WebsocketHandler.FindToolFirst | src/voice_assistant/websocket_handler.py:52-59 | a matching tool with no match before it is the one found |
| WebsocketHandler.PyIn | src/voice_assistant/websocket_handler.py:123-126 | `needle in message` fails exactly when the message is not a string, list or dict, and the failure is then a TypeError |
| WebsocketHandler.Handle | src/voice_assistant/websocket_handler.py:26-142 | no branch of the event dispatch closes the player |
| WebsocketHandler.ReceiveNeverCloses | src/voice_assistant/websocket_handler.py:22-142 | handling one received message never closes the player |
| WebsocketHandler.OutputItemAddedReplacesCall | src/voice_assistant/websocket_handler.py:31-35 | a `function_call` item replaces the pending call (even an open one) and empties the buffer; any other item changes nothing; nothing is sent |
| WebsocketHandler.ArgumentDeltaAppends | src/voice_assistant/websocket_handler.py:36-37 | a delta appends its `delta` text (missing: "") to the buffer whether or not a call is pending; nothing else changes |
| WebsocketHandler.ArgumentsAccumulate | src/voice_assistant/websocket_handler.py:36-37 | a run of deltas leaves the loop waiting, with the buffer extended by the concatenation of the deltas in arrival order |
| WebsocketHandler.CallUntouched | src/voice_assistant/websocket_handler.py:26-133 | any event other than a `function_call` item, an argument delta, or a `done` while a call is pending leaves the pending call and its argument buffer unchanged, whether the loop continues, stops or raises |
| WebsocketHandler.KeepsCallOpenStep | src/voice_assistant/websocket_handler.py:26-133 | a continuing message that neither opens nor completes a call keeps the pending call and grows the buffer by its argument text, if it has any, from any session |
| WebsocketHandler.CallStaysOpen | src/voice_assistant/websocket_handler.py:20-37 | a run of such messages leaves the loop waiting, with the pending call unchanged and the buffer extended by the run's argument texts in arrival order |
| WebsocketHandler.ArgumentsSinceReset | src/voice_assistant/websocket_handler.py:31-37 | after a `function_call` item, the item is the pending call and the buffer is exactly the in-order concatenation of the argument deltas received since, whatever other continuing events arrive between them, until a new item or a `done` |
| WebsocketHandler.DoneWithoutCallIsNoOp | src/voice_assistant/websocket_handler.py:38-39 | `done` with no pending call sends nothing and leaves the state unchanged |
| WebsocketHandler.ToolResolution | src/voice_assistant/websocket_handler.py:52-79 | the result comes from the first tool whose lower-cased name matches; no match gives `{"error": "Function '<name>' not found."}`; a failing tool gives `{"error": "Function '<name>' failed: <msg>"}`; a non-string name raises when there are tools to compare it with |
| WebsocketHandler.DoneWithCallSendsOutput | src/voice_assistant/websocket_handler.py:38-93 | with a pending call, the tool gets the decoded buffer (`{}` when the buffer is empty or not JSON); exactly two messages are sent, the `function_call_output` item carrying the pending `call_id` and the serialised result, then `response.create`; the call and the buffer are cleared; a resolution that raises leaves the state as it was |
| WebsocketHandler.ErrorClassification | src/voice_assistant/websocket_handler.py:121-133 | an error message containing "buffer is empty" or "Conversation already has an active response" continues with no change; any other string message ends the loop with that message |
| WebsocketHandler.AudioStateEvents | src/voice_assistant/websocket_handler.py:28-142 | the exact effect sequences and state updates of `response.created`, `response.done` (latency log when a start time is set, then stop playback, stop receiving, indicator off, start recording, reply cleared, start time reset), `rate_limits.updated`, `speech_started` and `speech_stopped` (stop recording, indicator off, start time set) |
| WebsocketHandler.CloseRunsOnceAfterLoop | src/voice_assistant/websocket_handler.py:143-147 | `audio_player.close()` occurs exactly once, as the last effect, when the loop ends by `break` (closed connection or unhandled error), and never when an exception escapes or the loop is still waiting |
| WebsocketHandler.RunOne | src/voice_assistant/websocket_handler.py:20-145 | a message that lets the loop go on contributes its effects ahead of the rest of the run |
| WebsocketHandler.FourSteps | src/voice_assistant/websocket_handler.py:20-145 | four messages that each continue give their effects in order and end waiting in the last step's state |
| WebsocketHandler.EchoCompletes | src/voice_assistant/websocket_handler.py:38-93 | `done` with an `Echo` call pending against a tool named `echo` sends the output for call "1" and `response.create`, and returns to the initial state |
| WebsocketHandler.EchoRoundTrip | src/voice_assistant/websocket_handler.py:28-93 | `response.created`, a `function_call` item, one argument delta and `done` end with the `function_call_output` carrying the echoed arguments followed by `response.create`, in the initial state |
| LogUtils.Emoji | src/voice_assistant/utils/log_utils.py:29-62 | the table's emoji for a known type, the question mark for any other hashable type, a TypeError for an unhashable one |
| LogUtils.Icon | src/voice_assistant/utils/log_utils.py:63 | the "Out" icon exactly when the lower-cased direction is "outgoing", the "In" icon otherwise |
| LogUtils.LogLinesShape | src/voice_assistant/utils/log_utils.py:26-72 | a call succeeds exactly when the type is hashable; it logs `emoji + " " + icon + " " + type`, preceded by the cursor-up, carriage-return and flush exactly when the type equals the remembered one, and remembers this call's type |
| LogUtils.MissingTypeIsUnknown | src/voice_assistant/utils/log_utils.py:28-64 | an event without `type` is logged as "Unknown" with the question mark |
| LogUtils.UnknownIsNotKnown | src/voice_assistant/utils/log_utils.py:29-61 | "Unknown" is not a key of the emoji table |
| LogUtils.RepeatRewritesLine | src/voice_assistant/utils/log_utils.py:67-72 | logging two events of the same type in a row rewrites the line the second time |
| LogUtils.WsEventLogger.constructor | src/voice_assistant/utils/log_utils.py:11 | the remembered type starts as None |
| LogUtils.WsEventLogger.LogWsEvent | src/voice_assistant/utils/log_utils.py:26-72 | the output is the specified log step, and the remembered type becomes this call's type; on a TypeError nothing is written and the state is unchanged |
| GitUtils.ParseRepoName | src/voice_assistant/utils/git_utils.py:39-61 | None exactly when the URL starts with neither `git@` nor `http`; a returned name never contains `/` |
| GitUtils.SshName | src/voice_assistant/utils/git_utils.py:50-53 | for an SSH URL the name is a suffix free of `:` and `/` that follows the last `:` or `/`, with ".git" removed |
| GitUtils.HttpName | src/voice_assistant/utils/git_utils.py:56-59 | for an HTTP(S) URL the name is the suffix after the last `/`, with ".git" removed |
| GitUtils.StripGitSuffix | src/voice_assistant/utils/git_utils.py:53 | a trailing ".git" is removed |
| GitUtils.StripGitPlain | src/voice_assistant/utils/git_utils.py:53 | removing ".git" leaves a dot-free prefix untouched |
| GitUtils.InnerGitRemoved | src/voice_assistant/utils/git_utils.py:53 | ".git" is removed wherever it occurs, not only at the end |
| GitUtils.StripGitName | src/voice_assistant/utils/git_utils.py:53 | a dot-free name followed by ".git" loses exactly the suffix |
| GitUtils.SshRemoteName | src/voice_assistant/utils/git_utils.py:50-53 | `git@<host>:<user>/<name>.git` names the repository `<name>` |
| GitUtils.Basename | src/voice_assistant/utils/git_utils.py:81 | `os.path.basename` is the `/`-free suffix after the last `/` |
| GitUtils.GetRepositoryName | src/voice_assistant/utils/git_utils.py:64-88 | an exception gives "Error: <msg>"; no root gives "Not a git repository"; no remote gives the root's basename; otherwise the parsed name, or the root's basename when that is None or empty |
| GitUtils.RepositoryNameIsComponent | src/voice_assistant/utils/git_utils.py:71-85 | short of an exception the answer never contains `/` |
| GitUtils.RemoteWins | src/voice_assistant/utils/git_utils.py:78-85 | an SSH remote names the repository after its URL, not after the directory |
| ProjectUtils.Pruned | src/voice_assistant/utils/project_utils.py:21 | exactly the children not named `.venv` or `agencies` are kept |
| ProjectUtils.Names | src/voice_assistant/utils/project_utils.py:23 | the names of the children, position by position |
| ProjectUtils.HasToolsIff | src/voice_assistant/utils/project_utils.py:21-23 | a directory yields a result exactly when some child is named `tools`, since pruning never removes one |
| ProjectUtils.PathJoin | src/voice_assistant/utils/project_utils.py:24 | `os.path.join` keeps an absolute second part as it is |
| ProjectUtils.SearchFindsIff | src/voice_assistant/utils/project_utils.py:19-26 | a folder is found exactly when a directory with a `tools` child is reachable without entering `.venv` or `agencies` |
| ProjectUtils.WalkVisitsKept | src/voice_assistant/utils/project_utils.py:19-21 | the walk starts at the root and visits no `.venv` or `agencies` directory after it |
| ProjectUtils.SearchIsFirstVisit | src/voice_assistant/utils/project_utils.py:19-24 | the answer is the `tools` child of the first directory, in top-down visit order, that has one |
| ProjectUtils.GetToolsFolderPath | src/voice_assistant/utils/project_utils.py:6-26 | the explicit walk with its pending directories gives the specified answer: "Git root directory not found", the found path, or "No 'tools' folder found in the project directory" |
| Registry.LinesOf | src/voice_assistant/tools/registry.py:110-113 | one `"name: description"` line per key, in key order |
| Registry.AppendLine | src/voice_assistant/tools/registry.py:78 | a new key goes to the end of the order and adds its line at the end |
| Registry.UpdateLine | src/voice_assistant/tools/registry.py:78 | re-registering a key keeps the order |
| Registry.AgenciesRegistry.constructor | src/voice_assistant/tools/registry.py:56-57 | a fresh instance is uninitialised and empty |
| Registry.AgenciesRegistry.Init | src/voice_assistant/tools/registry.py:60-67 | the table is created only the first time; later calls change nothing |
| Registry.AgenciesRegistry.Register | src/voice_assistant/tools/registry.py:69-78 | the name's entry is set; a new name goes to the end of the order; `get_agency(name)` is the agency; every other name is unchanged; `get_available_agencies` and `agencies_string` gain the name and its line at the end |
| Registry.AgenciesRegistry.GetAgency | src/voice_assistant/tools/registry.py:80-90 | the registered agency, or None exactly when the name is unregistered |
| Registry.AgenciesRegistry.Agencies | src/voice_assistant/tools/registry.py:92-100 | exactly the registered names, each mapped to its agency |
| Registry.AgenciesRegistry.Lines | src/voice_assistant/tools/registry.py:110-113 | one `"name: description"` line per entry, in registration order |
| Registry.AgenciesStringLines | src/voice_assistant/tools/registry.py:102-113 | splitting `agencies_string` at newlines gives back the lines, when none holds a newline |
| Registry.AgenciesRegistryClass.constructor | src/voice_assistant/tools/registry.py:46 | the class starts with no instance |
| Registry.AgenciesRegistryClass.New | src/voice_assistant/tools/registry.py:48-58 | the first call creates an uninitialised instance; every call returns that same instance |
| Registry.AgenciesRegistryClass.Construct | src/voice_assistant/tools/registry.py:48-67 | a later construction returns the same registry with every registration kept |
| Registry.RegistrationsSurvive | src/voice_assistant/tools/registry.py:48-90 | two constructions return the same instance, and a registration made between them is still there |
| Tools.ModuleName | src/voice_assistant/tools/__init__.py:19 | the file name is the module name followed by ".py" |
| Tools.Collect | src/voice_assistant/tools/__init__.py:22-28 | a member is collected exactly when it is a subclass of `BaseTool` and not the `BaseTool` object itself (an identity test) |
| Tools.LoadAppend | src/voice_assistant/tools/__init__.py:17-30 | loading two runs of files is loading the first, then the second, with the first error winning |
| Tools.LoadFailsEarly | src/voice_assistant/tools/__init__.py:21 | a failing import ends the whole load with that error |
| Tools.OnlyModuleFilesMatter | src/voice_assistant/tools/__init__.py:18-19 | dropping every file that is not a `.py` file or is `__init__.py` changes nothing |
| Tools.LoadedAreTools | src/voice_assistant/tools/__init__.py:22-28 | everything loaded is a proper subclass of `BaseTool` |
| Tools.LoadTools | src/voice_assistant/tools/__init__.py:13-30 | the two nested loops give the specified load result |
| Tools.WithoutStrict | src/voice_assistant/tools/__init__.py:37 | no `strict` key remains; every other key keeps its value |
| Tools.SetKey | src/voice_assistant/tools/__init__.py:39 | the key takes the new value, keeping its place when present and going last otherwise; no other key changes |
| Tools.PrepareSchema | src/voice_assistant/tools/__init__.py:37-39 | no `strict`; `type` is the tool's `type` attribute or "function", overriding the schema's own; every other key is unchanged |
| Tools.PrepareToolSchemas | src/voice_assistant/tools/__init__.py:33-41 | one prepared schema per tool, in tool order |
| Terminal.OpenPowershellPrompt | src/voice_assistant/utils/terminal.py:28-63 | the titled or untitled base argv, followed by exactly `-Command <command>` when a command is given; an empty title or command counts as absent |
| Terminal.OpenCommandPrompt | src/voice_assistant/utils/terminal.py:94-109 | exactly `wt.exe cmd.exe /k` with `title <t> && <c>`, `title <t>` or `<c>` as the fourth argument depending on which are given (empty strings count as absent), and `wt.exe cmd.exe` alone when neither is |
| Terminal.SendSingleLine | src/voice_assistant/utils/terminal.py:65-76 | False, a printed message and nothing typed when no window is found; otherwise the activation, a one-second pause, the text and Enter |
| Terminal.Lines | src/voice_assistant/utils/terminal.py:88-91 | three keystroke effects per line |
| Terminal.LinesAt | src/voice_assistant/utils/terminal.py:88-91 | line `i` is typed at positions `3i` to `3i+2`: its text, one Enter, a pause |
| Terminal.SendMultipleLines | src/voice_assistant/utils/terminal.py:78-91 | False and nothing typed when no window is found; otherwise the activation, a pause, then every line in order with one Enter after each |
| ScreenDescription.ValidateBounds | src/voice_assistant/tools/GetScreenDescription.py:275-289 | "Invalid window dimensions" exactly when a size is not positive; "Invalid window position" exactly when the size is fine and a coordinate is negative; nothing raised otherwise |
| ScreenDescription.WindowBounds | src/voice_assistant/tools/GetScreenDescription.py:259-270 | the size comes from the unclamped rectangle and a negative corner is moved to 0, so the bounds never fail the position check and pass exactly when the rectangle has a positive size |
| ScreenDescription.ScreenshotCommand | src/voice_assistant/tools/GetScreenDescription.py:291-297 | `screencapture -R <region>` |
| ScreenDescription.RegionReadsBack | src/voice_assistant/tools/GetScreenDescription.py:296 | the region argument splits at commas into four pieces that read back as x, y, width and height |
| ScreenDescription.FirstWith | src/voice_assistant/tools/GetScreenDescription.py:322-323 | the first line containing the key; None exactly when no line contains it |
| ScreenDescription.LinuxWindowBounds | src/voice_assistant/tools/GetScreenDescription.py:299-333 | None for a failed command and when no line holds `Position:` or `Geometry:` |
| ScreenDescription.PositionText | src/voice_assistant/tools/GetScreenDescription.py:325 | a position line parses to its two coordinate fields |
| ScreenDescription.GeometryText | src/voice_assistant/tools/GetScreenDescription.py:326 | a geometry line parses to its two size fields |
| ScreenDescription.ParsePositionLine | src/voice_assistant/tools/GetScreenDescription.py:325 | the printed position line reads back as its x and y |
| ScreenDescription.ParseGeometryLine | src/voice_assistant/tools/GetScreenDescription.py:326 | the printed geometry line reads back as its width and height |
| ScreenDescription.XdotoolLines | src/voice_assistant/tools/GetScreenDescription.py:316-322 | `xdotool`'s output splits into the header, position and geometry lines and the empty piece after the last newline |
| ScreenDescription.XdotoolRoundTrip | src/voice_assistant/tools/GetScreenDescription.py:315-328 | the parse gives back exactly the bounds that `xdotool` printed |
| GithubRepositories.RepoLines | src/voice_assistant/tools/GetAListOfMyGithubRepositories.py:35-39 | no line exactly when every repository is skipped |
| GithubRepositories.Report | src/voice_assistant/tools/GetAListOfMyGithubRepositories.py:21-47 | the missing-token error without looking at the API; "Error accessing GitHub: <msg>" on an API error; "No repositories found" exactly when no repository is listed |
| GithubRepositories.Run | src/voice_assistant/tools/GetAListOfMyGithubRepositories.py:21-47 | the loop with `continue` gives the specified report |
| GithubRepositories.RepoLinesAppend | src/voice_assistant/tools/GetAListOfMyGithubRepositories.py:36-39 | the lines keep input order |
| GithubRepositories.AllListed | src/voice_assistant/tools/GetAListOfMyGithubRepositories.py:36-39 | with private repositories included, every repository has its line, in order |
| GithubRepositories.PublicOnly | src/voice_assistant/tools/GetAListOfMyGithubRepositories.py:37-39 | without private repositories, every line is a public repository's and every public repository has its line |
| GithubRepositories.VisibilityShown | src/voice_assistant/tools/GetAListOfMyGithubRepositories.py:39 | a line ends in "(private)" exactly when the repository is private |
| GithubRepositories.ReportLines | src/voice_assistant/tools/GetAListOfMyGithubRepositories.py:44 | the report is the heading followed by the lines, one per line |
| Windows.ActivateAnnounced | src/voice_assistant/utils/windows.py:90-103 | the handle is announced on the console first, a minimised window is restored, and it is brought to the foreground last |
| Windows.ActivateWindowByTitle | src/voice_assistant/utils/windows.py:105-130 | True exactly when some window title matches; only the first match is activated; nothing is activated otherwise |
| Windows.MatchModes | src/voice_assistant/utils/windows.py:126-127 | exact mode is case-insensitive equality, partial mode case-insensitive substring |
| WindowsUtils.ListAllAppend | src/voice_assistant/utils/windows_utils.py:66-74 | the listing keeps enumeration order |
| WindowsUtils.ListAllMembers | src/voice_assistant/utils/windows_utils.py:48-74 | the listing holds exactly the records of the accepted windows |
| WindowsUtils.ListAllFilters | src/voice_assistant/utils/windows_utils.py:50-64 | every listed window has a title and passes each filter that is on, the title test ignoring case; an absent or empty `title_contains` filters nothing |
| WindowsUtils.ListAllWindows | src/voice_assistant/utils/windows_utils.py:27-83 | the enumeration callback builds the specified listing |
| WindowsUtils.ListVisibleIsFiltered | src/voice_assistant/utils/windows_utils.py:9-25 | `list_visible_windows` reports what `list_all_windows(visible_only=True)` does, as handle and title pairs |
| WindowsUtils.ListVisibleWindows | src/voice_assistant/utils/windows_utils.py:9-25 | the callback builds the specified visible listing |
| WindowsUtils.FindWindow | src/voice_assistant/utils/windows_utils.py:113-122 | the first window whose title matches; None exactly when none does |
| WindowsUtils.FindWindowFirst | src/voice_assistant/utils/windows_utils.py:115-121 | the first matching window is the one found |
| WindowsUtils.ActivateWindowByHandle | src/voice_assistant/utils/windows_utils.py:86-99 | a restore exactly when the window is minimised, the foreground call last |
| WindowsUtils.GetHwndForWindowByTitle | src/voice_assistant/utils/windows_utils.py:101-122 | the first match's handle, activated only when asked; 0 and no call when nothing matches |
| WindowsUtils.MaximizeWindowByHandle | src/voice_assistant/utils/windows_utils.py:125-154 | a restore first; once the placement is read, it is written back with only its show command set to maximised, even when that call raises; the 100 ms pause and True exactly when both calls succeed |
| WindowsUtils.SortByLeftSorted | src/voice_assistant/utils/windows_utils.py:188 | the monitors end up ordered by left edge and are a permutation of those enumerated |
| WindowsUtils.IndexOfMonitor | src/voice_assistant/utils/windows_utils.py:191 | the first monitor with the current handle; None exactly when there is none |
| WindowsUtils.TargetIndex | src/voice_assistant/utils/windows_utils.py:194 | the monitor to the left, wrapping from the first to the last |
| WindowsUtils.CentredXIsCentred | src/voice_assistant/utils/windows_utils.py:198-202 | the new x centres the window: the right gap exceeds the left one by 0 or 1 pixel |
| WindowsUtils.MoveWindowLeftMonitor | src/voice_assistant/utils/windows_utils.py:156-210 | the window keeps its y, width and height and moves to the centred x on the target monitor; when its monitor is not enumerated, False with only the error printed |
| WindowsUtils.WrapsToRightmost | src/voice_assistant/utils/windows_utils.py:188-195 | from the leftmost of several monitors the target is the rightmost |

## Left out

- The websocket transport, the microphone, `audio_player` and the visual indicator are left out as implementations. The model records the calls made on them in the effect log.
- JSON decoding and encoding, base64 and Python's `str()` of a decoded value are arbitrary functions in `Json.Codec`. No property of the real codecs is assumed.
- `time.perf_counter()` is an integer clock reading handed in with each message. The logged latency is the difference of two readings.
- JSON numbers are integers in `Json`: the floats `json.loads` can return are not modelled. No decision of the event processor or the schema code depends on a float.
- `log_runtime` (`utils/log_utils.py:13-23`) is left out, because it formats floats and appends to a file. The model records only the call in the effect log.
- The `logger` calls of the event processor are left out: they decide nothing. The assistant text printed with `end=""` is an effect.
- There is no concurrency: the tool is awaited inline, and playback consumption is part of the player, which is not modelled.
- An exception from the player, the microphone, the indicator, the tool constructor with arguments that are not keyword arguments, or `websocket.send` is not modelled separately. A tool's failure is part of its behaviour, and the rest are left out.
- Performing the subprocess, `os.walk`, `importlib`, win32, pyautogui and PyGithub calls is left out. The data they return are inputs, and the calls issued are outputs.
- `os.walk` errors and symbolic links are left out. The tree is a finite datatype.
- `os.listdir` order is the listing order given.
- `get_git_root` and `get_remote_url` are inputs. Their stdout decoding errors are covered by an answer of None.
- The screenshot capture, the image resize, the image-analysis HTTP call and the macOS bounds path are left out. The macOS path evaluates AppleScript output.
- The `c.print` progress lines of `load_tools` (`tools/__init__.py:16`, `:20` and `:29`) are left out: they only print and decide nothing.
- The `console_write_list` printing of `list_all_windows` is left out; it only prints.
- `maximize_window_by_handle`: the printed "Error maximizing window: <e>" is left out, because its text comes from the win32 exception. A `GetWindowPlacement` that raises issues no further call.
- `move_window_left_monitor`: exceptions other than the missing monitor are not modelled. Examples are a failing `GetWindowRect` or `MoveWindow`.
- In `utils/windows.py`, `list_all_windows` stores the raw `IsWindowVisible` value rather than `bool(...)`. Both window modules share one boolean model of the listing.
- `IsIconic` is taken to be the `WS_MINIMIZE` bit the listing reports for the same window.
- `Strings.Lower` lower-cases ASCII letters only: Unicode case mapping is not modelled.
- `Strings.ParseInt` accepts the ASCII digits with an optional sign and surrounding whitespace, not underscores or other decimal digits.
- `Strings.Strip` strips the whitespace set of `str.isspace`.
- `GitUtils.Basename` and `ProjectUtils.PathJoin` follow POSIX `os.path`. Windows drive and backslash rules are not modelled.
- WindowsUtils.SortByLeftSorted: proves ordered-by-left-edge and permutation but not stability. `SortByLeft` is defined as a stable insertion sort, as `list.sort` is, but the model does not prove that monitors sharing a left edge keep their enumeration order.
- ScreenDescription.LinuxWindowBounds: its contract states the None cases only. For output that has both keys, the result is stated by `XdotoolRoundTrip` for what `xdotool` prints and not for arbitrary text.
- ScreenDescription.ScreenshotCommand: its contract fixes the first two arguments. The region argument is characterised by `RegionReadsBack`.
- Terminal.SendSingleLine and Terminal.SendMultipleLines: `utils/terminal.py:9` imports `get_hwnd_for_window_by_title` from `utils/windows.py`, which does not define it, so the module as written fails to import with an ImportError. Only `utils/windows_utils.py` defines the lookup. The model uses the `windows_utils` lookup, as that import evidently intends, and does not model the import failure.
- WebsocketHandler.Handle: its own contract states only that no branch closes the player. The behaviour of each branch is stated by the lemmas named in the table.
- The GetResponse and SendMessage tools are not part of this model: they drive agency and model-API objects under timeouts.
- The agency wiring and the other automation tools are not part of this model (the ones that launch or maximise programs, open a browser or drive Aider). They are thin wrappers over OS calls.
