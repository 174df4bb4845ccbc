# VU.Server, modelled in Dafny

VU.Server supervises a dedicated Venice Unleashed game server. It starts the
game-server binary with arguments built from its command-line options. It reads
the instance's `Startup.txt`, watches the server's output for the line announcing
the remote-administration (RCON) interface, then connects and logs in. It tracks
a game-state snapshot from the events the server pushes over RCON. A console
window routes operator input to local commands or to RCON, keeps a bounded log,
and restarts a crashed server.

The model has these modules:

- `Utility`: the word splitter `SplitStringBySpace`. The regular expression
  `["].+?["]|[^ ]+` is written out as a recursive scan over spans.
- `Announcement`: the trigger-line pattern, written as a predicate.
- `LaunchOptions`: the `Options` record and its declared defaults.
- `Text`: the .NET helpers the code leans on, written out. They are 32-bit
  wrap-around, `IsNullOrWhiteSpace`, `int.Parse`, `ToString`, `string.Join` and
  `Replace`.
- `Host`: the operating-system process and the RCON client, reduced to their
  observable states, plus a record of what was done to them (`effects`).
- `ServerLogic`: the launch arguments of `Server.Start`, as a filtered list of
  fragments. The step-by-step `+=` chain is proved equal to the rendering of
  that list.
- `StartupConfig`: the `Startup.txt` reader.
- `GameEvents`: the push-event handler.
- `Supervisor`: the class `Server`, whose methods update its fields in place.
  Each method is specified by a step function on a snapshot of those fields. The
  supervisor's properties are lemmas about the step functions.
- `LogView`: the window's bounded log list with its selection and autoscroll
  state.
- `WindowLogic` and `Window`: the console window, arranged the same way as the
  supervisor. `Window.ServerWindow` is a class whose handlers are specified by
  the step functions of `WindowLogic`.

An exception a member lets escape is modelled as an `Option<Fault>` result. The
state is left as it stood at the statement that threw, so a duplicate key leaves
the dictionary half-filled and a missing `admin.password` leaves the fresh client
in place.

## Model

| member | source | states |
|---|---|---|
| Utility.SplitStringBySpace | VU.Server/Utility.cs:9-16 | one token per match, none of them empty; a token that holds a space starts and ends with `"` |
| Utility.MatchSpans | VU.Server/Utility.cs:12 | the matches lie inside the input, left to right without overlap; each starts at a non-space character and ends where `MatchEnd` says a match from there ends |
| Utility.MatchEnd | VU.Server/Utility.cs:12 | a match starting at a non-space character is non-empty and is either a quoted span closed by its first possible closing quote or the whole run of non-spaces up to the next space or the end; without an opening quote it is always the whole run |
| Utility.ClosingQuote | VU.Server/Utility.cs:12 | the lazy `.+?`: the first `"` that can close the quote, with no line feed before it, or none if no `"` can |
| Utility.RunEnd | VU.Server/Utility.cs:12 | the greedy `[^ ]+`: the run holds no space and ends at a space or at the end |
| Utility.TokensAreSubstrings | VU.Server/Utility.cs:12-15 | every token is the text of its match, a contiguous piece of the input |
| Utility.MatchesCover | VU.Server/Utility.cs:12 | every non-space character lies in some match |
| Utility.MatchesDisjoint | VU.Server/Utility.cs:12 | no character lies in two matches |
| Utility.MatchesCoverNonSpaces | VU.Server/Utility.cs:12 | every non-space lies in exactly one match, and every character outside the matches is `' '` |
| Utility.NoTokensIffBlank | VU.Server/Utility.cs:12 | a scan finds no match exactly when the rest of the input is spaces only |
| Utility.EmptyTokenListIffBlank | VU.Server/Utility.cs:9-16 | the token list is empty exactly when the input is empty or all spaces |
| Utility.QuotedMatchIsLazy | VU.Server/Utility.cs:12 | at a `"`, the match ends at the first usable closing quote; with none, the `"` starts an ordinary run |
| Utility.QuotedArgumentExample | VU.Server/Utility.cs:11-12 | `admin.say "hello world" now` splits into `admin.say`, `"hello world"`, `now` |
| Utility.UnclosedQuoteExample | VU.Server/Utility.cs:12 | `"abc def` splits into `"abc` and `def` |
| Text.Wrap32 | VU.Server/Server.cs:246-250 | unchecked `int` arithmetic: the identity inside the 32-bit range, and always congruent modulo 2^32 |
| Text.Without | VU.Server/Server.cs:236 | `Replace("\"", "")`: the result has no `"` and keeps exactly the other characters, and is the input when it had none |
| Text.Join | VU.Server/ServerWindow.cs:114 | `string.Join`: empty for no parts, the part itself for one |
| Text.IsNullOrWhiteSpace | VU.Server/Server.cs:273 | a null line, or one of white space only, counts as blank |
| Text.StartsWith | VU.Server/Server.cs:230 | a line starts with a prefix when its first characters are the prefix |
| Text.IntToString | VU.Server/Server.cs:120-122 | a number prints with a leading minus sign exactly when it is negative (`ParseIntToString` reads it back) |
| Text.ParseInt | VU.Server/Server.cs:254 | `int.Parse` yields a value within the 32-bit range, or nothing for text that is not a number or does not fit |
| Text.DigitsRoundTrip | VU.Server/Server.cs:120-122 | the decimal digits of a number read back as that number |
| Text.ParseIntToString | VU.Server/Server.cs:254 | `int.Parse` of the decimal text of an `int` gives that `int` back |
| Text.ParseTrimmed | VU.Server/Server.cs:254 | text without surrounding white space parses as its sign and digits |
| Text.ParseUnsigned | VU.Server/Server.cs:254 | a string of digits within range parses as its value |
| Text.ParseNegative | VU.Server/Server.cs:254 | a minus sign before digits within range parses as the negated value |
| ServerLogic.LaunchArguments | VU.Server/Server.cs:109-154 | the arguments are the fragments whose option is set, in the order of the source's statements |
| ServerLogic.CandidatesGrouped | VU.Server/Server.cs:109-154 | the candidate fragments come in the groups of the source: required flags, ports, server switches, engine switches, frequency |
| ServerLogic.PresentMembers | VU.Server/Server.cs:109-154 | a fragment is kept exactly when a candidate carrying it is switched on |
| ServerLogic.LaunchArgumentsOrdered | VU.Server/Server.cs:109-154 | the arguments start with the headless flags and the instance path, and every later fragment ranks strictly above the one before |
| ServerLogic.LaunchArgumentMember | VU.Server/Server.cs:109-154 | a fragment is present exactly when the candidate at its rank carries it and is switched on |
| ServerLogic.LaunchArgumentsSwitches | VU.Server/Server.cs:124-134 | each of `-unlisted`, `-noUpdate`, `-highResTerrain`, `-disableTerrainInterop` and `-skipChecksum` is present exactly when its option is set |
| ServerLogic.LaunchArgumentsTraces | VU.Server/Server.cs:136-154 | `-perftrace`, `-tracedc` and `-trace` are present exactly when set; `-high60`/`-high120` exactly for High60/High120, nothing for Default30 |
| ServerLogic.LaunchArgumentsValues | VU.Server/Server.cs:112-137 | `-gamepath` is present exactly for a given, non-blank game path and carries it; the ports and the environment are the options' values |
| ServerLogic.DefaultLaunchArguments | VU.Server/Options.cs:16-45 | with only the two required paths given, the arguments are the headless flags, the instance path, ports 25200, 7948 and 47200, and `-env prod` |
| LaunchOptions.Defaults | VU.Server/Options.cs:16-45 | the options record the parser yields for the two required paths alone: no game path, ports 25200, 7948 and 47200, frequency `Default30`, environment "prod", every switch off |
| ServerLogic.RenderedAppend | VU.Server/Server.cs:109-154 | rendering two runs of candidates one after another gives the two texts one after another |
| ServerLogic.RenderedSingle | VU.Server/Server.cs:115-117 | one candidate renders as its text when on and as nothing when off |
| ServerLogic.FrequencyText | VU.Server/Server.cs:145-154 | the frequency `switch` appends `-high60`, `-high120` or nothing |
| ServerLogic.AppendWhen | VU.Server/Server.cs:125-126 | one conditional `+=` extends the rendering of the candidates considered so far by one candidate |
| ServerLogic.Append | VU.Server/Server.cs:120 | one unconditional `+=` extends the rendering by one switched-on candidate |
| ServerLogic.AppendRequiredFlags | VU.Server/Server.cs:109-117 | the first three `+=` statements render the required-flags group |
| ServerLogic.AppendPorts | VU.Server/Server.cs:119-122 | the port statements render the port group |
| ServerLogic.AppendServerSwitches | VU.Server/Server.cs:124-134 | the server-switch statements render the server-switch group |
| ServerLogic.AppendEngineSwitches | VU.Server/Server.cs:136-143 | the environment and trace statements render the engine group |
| ServerLogic.AppendFrequency | VU.Server/Server.cs:145-154 | the frequency `switch` renders the frequency group |
| ServerLogic.BuildArguments | VU.Server/Server.cs:109-154 | the argument string built statement by statement is the rendering of `LaunchArguments` |
| StartupConfig.ConfigEntry | VU.Server/Server.cs:228-236 | a comment line gives no entry; an entry has a non-empty key and a value without `"` |
| StartupConfig.LoadEntries | VU.Server/Server.cs:228-237 | the lines are read in order, each entry added to the dictionary until a key repeats |
| StartupConfig.ParseConfig | VU.Server/Server.cs:224-238 | the file is read into a fresh dictionary |
| StartupConfig.LoadEntriesMeaning | VU.Server/Server.cs:224-238 | adding succeeds exactly when the keys are distinct and new; the result holds the old entries and every entry read, and nothing else; a duplicate is a key already held |
| StartupConfig.LoadedExactly | VU.Server/Server.cs:236 | `Add` throws exactly when a key repeats or was already present; the key it names is one of the file's keys, absent from a successful result |
| StartupConfig.DuplicateIsFirst | VU.Server/Server.cs:228-237 | on a throw, the key is that of the first entry whose key was already in the dictionary, and the partial dictionary holds exactly the entries before it |
| StartupConfig.LoadedContents | VU.Server/Server.cs:228-237 | after a successful read each key maps to its line's value, old entries are kept, and the size is the old size plus the entries |
| StartupConfig.LoadedKeys | VU.Server/Server.cs:228-237 | after a successful read the keys are the old keys plus the entries' keys |
| StartupConfig.ParseConfigMeaning | VU.Server/Server.cs:224-238 | a fresh read succeeds exactly when the keys are distinct; it then holds exactly the file's entries |
| StartupConfig.SkippedLine | VU.Server/Server.cs:230-235 | a comment line, or a line that splits into fewer than two words, does not change the outcome |
| StartupConfig.BlankLineSkipped | VU.Server/Server.cs:233-235 | a line of spaces only splits into no words and does not change the outcome |
| StartupConfig.ReadStartupFile | VU.Server/Server.cs:224-238 | the loop gives the dictionary `ParseConfig` describes, or the duplicate key with the dictionary as it stood |
| GameEvents.ApplyPush | VU.Server/Server.cs:240-264 | an event never changes `Fps` or `State`, and one without words throws |
| GameEvents.Wrap32Step | VU.Server/Server.cs:246-250 | wrapping after each step is wrapping once at the end |
| GameEvents.MovePlayersTwice | VU.Server/Server.cs:246-250 | two changes of the player count add up |
| GameEvents.JoinsAndLeaves | VU.Server/Server.cs:245-251 | a run of joins and leaves moves the count by joins minus leaves, modulo 2^32, with no floor at zero |
| GameEvents.JoinOrLeave | VU.Server/Server.cs:245-251 | a join adds one and a leave takes one away |
| GameEvents.MaxPlayerCountAnnounced | VU.Server/Server.cs:253-255 | a limit announced as an `int` becomes `PlayerLimit` |
| GameEvents.MaxPlayerCountRejected | VU.Server/Server.cs:254 | a limit that is not an `int` throws and changes nothing |
| GameEvents.LevelLoaded | VU.Server/Server.cs:257-260 | `Map` takes the second word; `Mode` the third, or the handler throws after `Map` was set |
| GameEvents.OtherEventsIgnored | VU.Server/Server.cs:262-263 | any other event changes nothing |
| GameEvents.EmptyEventRejected | VU.Server/Server.cs:243 | an event without words throws and changes nothing |
| Announcement.AnnouncementTriggers | VU.Server/Server.cs:280 | the announcement line matches, whatever surrounds it and whatever the bracketed fields and the port hold |
| Announcement.NoBracketNoTrigger | VU.Server/Server.cs:280 | a line without `[` never matches |
| Announcement.NoPortNoTrigger | VU.Server/Server.cs:280 | a line without a digit never matches |
| Announcement.IsTriggerLine | VU.Server/Server.cs:280 | the regular expression for the announcement that remote administration is listening |
| Supervisor.StepsKeepConsistent | VU.Server/Server.cs:74-180 | every step keeps a live process paired with a client |
| Supervisor.StartStep | VU.Server/Server.cs:74-166 | `Start`: refused while running; else the file loaded, a fresh unconnected client, the password read and the launch, each exception leaving the state of the statement that threw |
| Supervisor.LoadConfigStep | VU.Server/Server.cs:224-238 | `LoadConfig`: the dictionary becomes what the file yields; on a repeated key it is left as it stood at the throw, and the fault names the key |
| Supervisor.DisposeStep | VU.Server/Server.cs:67-72 | `Dispose`: `Stop` when the process runs, nothing otherwise |
| Supervisor.StopStep | VU.Server/Server.cs:168-180 | `Stop`: refused unless running; else a connected client closed, the process killed, both dropped |
| Supervisor.WordsStep | VU.Server/Server.cs:240-268 | an event from the game server updates the game state as `ApplyPush` says, and is passed on unless the handler threw |
| Supervisor.OutputStep | VU.Server/Server.cs:270-288 | a non-blank output line is logged; an announcement line logs the client in |
| Supervisor.StartRefusedWhileRunning | VU.Server/Server.cs:76-77 | `Start` on a live process throws "Server is already running" and changes nothing |
| Supervisor.StartLaunches | VU.Server/Server.cs:74-166 | with distinct keys and an `admin.password` line, `Start` launches with `LaunchArguments`, keeps the password and leaves the client created but closed |
| Supervisor.StartWithoutPassword | VU.Server/Server.cs:83-85 | without `admin.password`, `Start` throws after creating the client and launches nothing |
| Supervisor.StopEndsSession | VU.Server/Server.cs:168-180 | `Stop` throws "Server is not running" unless live; otherwise it closes an open client, kills the process and drops both |
| Supervisor.DisposeIdempotent | VU.Server/Server.cs:67-72 | `Dispose` leaves nothing running, a second call changes nothing, and it does nothing when not live |
| Supervisor.TriggerLineNotBlank | VU.Server/Server.cs:273-280 | a trigger line is never blank, so it is never dropped |
| Supervisor.LoginOnEveryAnnouncement | VU.Server/Server.cs:270-287 | each announcement logs the line and connects to `RemotePort` and logs in again; there is no once-only guard |
| Supervisor.AnnouncementLogsIn | VU.Server/Server.cs:280-286 | the announcement connects to the configured remote port, not the printed one, and sends the login words |
| Supervisor.BlankOutputIgnored | VU.Server/Server.cs:272-274 | a null or blank line changes nothing |
| Supervisor.PlainOutputLogged | VU.Server/Server.cs:276-277 | other lines are logged and change nothing else |
| Supervisor.EventsPassedOn | VU.Server/Server.cs:240-268 | an event is raised through `DataReceived` exactly when the handler did not throw |
| Supervisor.Server.constructor | VU.Server/Server.cs:62-65 | a new server has no process, no client, an empty configuration and the idle game state |
| Supervisor.Server.Running | VU.Server/Server.cs:37 | there is a process and it has not exited |
| Supervisor.Server.ExitCode | VU.Server/Server.cs:38 | the code of an exited process, 0 otherwise |
| Supervisor.Server.CanSendCommands | VU.Server/Server.cs:39 | there is a client and it is connected |
| Supervisor.Server.ProcessExited | VU.Server/Server.cs:37-38 | a live process exits with a code; nothing else changes |
| Supervisor.Server.Dispose | VU.Server/Server.cs:67-72 | the new state is `DisposeStep` of the old |
| Supervisor.Server.Start | VU.Server/Server.cs:74-166 | the new state and the fault are `StartStep` of the old state |
| Supervisor.Server.Stop | VU.Server/Server.cs:168-180 | the new state and the fault are `StopStep` of the old state |
| Supervisor.Server.SendCommand | VU.Server/Server.cs:216-222 | null and no change unless the client is connected; otherwise the words are sent and the reply returned |
| Supervisor.Server.LoadConfig | VU.Server/Server.cs:224-238 | the new state and the fault are `LoadConfigStep` of the old state |
| Supervisor.Server.WordsReceived | VU.Server/Server.cs:240-268 | the new state and the fault are `WordsStep` of the old state |
| Supervisor.Server.RefreshLoopEnded | VU.Server/Server.cs:187-211 | once the process is gone, the six game-state fields return to 0 and empty |
| Supervisor.Server.OutputDataReceived | VU.Server/Server.cs:270-288 | the new state and the fault are `OutputStep` of the old state, using `RemotePort` |
| LogView.AppendBounded | VU.Server/ServerWindow.UI.cs:73-75 | the line ends the list, which is the tail of the old list plus the line; the list grows by one below the limit and keeps its size at it |
| LogView.AppendKeepsBound | VU.Server/ServerWindow.UI.cs:73-75 | a list within 256 lines stays within it; a full list loses exactly its oldest line |
| LogView.AppendAllKeepsNewest | VU.Server/ServerWindow.UI.cs:45-75 | from any list within the limit, the list holds the newest lines written, as many as the limit allows, oldest first |
| LogView.AppendSelects | VU.Server/ServerWindow.UI.cs:73-89 | after the idle action the line is last; with autoscroll the last item is selected, otherwise the index clamped to the list |
| LogView.SelectionChanged | VU.Server/ServerWindow.UI.cs:60-67 | the list view's selected item and the remembered item both become the item, and autoscroll is on exactly when it is the last of several lines |
| LogView.SelectingLastFollows | VU.Server/ServerWindow.UI.cs:60-81 | selecting the last of several lines makes the view follow the next line |
| LogView.SelectingEarlierStays | VU.Server/ServerWindow.UI.cs:60-88 | selecting an earlier line turns autoscroll off and keeps its index selected through the next write: the same line while the list has room, the next line once a full list drops its oldest |
| LogView.SelectingOnlyLineStops | VU.Server/ServerWindow.UI.cs:60-88 | selecting the only line turns autoscroll off for good |
| WindowLogic.Created | VU.Server/ServerWindow.UI.cs:45-50 | the window starts with an empty log, index 0 and autoscroll on, which satisfies the invariant |
| WindowLogic.StartServerStep | VU.Server/ServerWindow.cs:98-122 | `StartServer`: refused while running; else a fresh unconnected client, the password read and the launch |
| WindowLogic.WriteToLog | VU.Server/ServerWindow.UI.cs:69-71 | `WriteToLog`: the line joins the end of the queue of idle actions, and nothing else changes |
| WindowLogic.IdleStep | VU.Server/ServerWindow.UI.cs:72-93 | the oldest queued idle action runs: its line is appended to the bounded list and the selection follows, as `AfterAppend` says |
| WindowLogic.LoadConfigStep | VU.Server/ServerWindow.cs:82-96 | `LoadConfig`: the window's copy of the reader, the dictionary becoming what the file yields or the dictionary at the throw |
| WindowLogic.WindowArguments | VU.Server/ServerWindow.cs:114-116 | the headless flags and a space, the extra arguments joined by single spaces, the quoted instance path, and the quoted game path when one is given |
| WindowLogic.StopServerStep | VU.Server/ServerWindow.cs:124-136 | `StopServer`: refused unless the process runs; else a connected client closed, the process killed, both dropped |
| WindowLogic.ReloadAndStart | VU.Server/ServerWindow.cs:50-52 | `LoadConfig` then `StartServer`, as the constructor, the restart command and the crash poll run them; a repeated key stops it before the start |
| WindowLogic.CommandStart | VU.Server/ServerWindow.cs:158-163 | `Command_StartServer`: logs "Starting server..." and starts only when there is no process at all |
| WindowLogic.CommandStop | VU.Server/ServerWindow.cs:165-170 | `Command_StopServer`: logs "Stopped server" and stops a live process |
| WindowLogic.CommandRestart | VU.Server/ServerWindow.cs:172-181 | `Command_RestartServer`: logs "Stopping server...", stops a live process, logs "Starting server...", then reloads the file and starts |
| WindowLogic.DisposeStep | VU.Server/ServerWindow.cs:73-80 | `Dispose(bool)`: stops a live process and marks the window disposed |
| WindowLogic.CommandExit | VU.Server/ServerWindow.cs:183-190 | `Command_Exit`: stops a live process, then disposes of the window |
| WindowLogic.SendRcon | VU.Server/ServerWindow.cs:192-222 | `Command_SendRCONCommand` with the reply given as a parameter |
| WindowLogic.Dispatch | VU.Server/ServerWindow.cs:231-249 | the first word chooses start, stop, restart, exit or sending the words |
| WindowLogic.EnterStep | VU.Server/ServerWindow.cs:224-253 | on Enter, input with words is dispatched and the field cleared |
| WindowLogic.OutputStep | VU.Server/ServerWindow.cs:138-156 | as the supervisor's output handler, with the window's own log and port |
| WindowLogic.TickStep | VU.Server/ServerWindow.cs:58-70 | an exited process is logged, the file reloaded and the server started again |
| WindowLogic.WindowArgumentsTail | VU.Server/ServerWindow.cs:114-116 | after the flags and the joined extra arguments, the window passes the same instance-path and game-path text as the supervisor |
| WindowLogic.RouteOf | VU.Server/ServerWindow.cs:229-249 | no words means no route, and pass-through carries the words unchanged |
| WindowLogic.RouteOfInput | VU.Server/ServerWindow.cs:226-249 | blank input goes nowhere; input goes through to RCON exactly when its first word is not a verb, and then whole |
| WindowLogic.LifecycleKeepsConsistent | VU.Server/ServerWindow.cs:98-136 | start, stop and reload keep a live process paired with a client |
| WindowLogic.EnterKeepsConsistent | VU.Server/ServerWindow.cs:224-253 | every command typed at the prompt keeps the invariant |
| WindowLogic.DispatchKeepsConsistent | VU.Server/ServerWindow.cs:231-249 | every handler the router calls keeps the invariant |
| WindowLogic.SendKeepsConsistent | VU.Server/ServerWindow.cs:192-222 | the RCON pass-through keeps the invariant |
| WindowLogic.RestartKeepsConsistent | VU.Server/ServerWindow.cs:172-181 | `restart` keeps the invariant |
| WindowLogic.TickKeepsConsistent | VU.Server/ServerWindow.cs:58-80 | the crash poll and `Dispose` keep the invariant |
| WindowLogic.UiEventsKeepConsistent | VU.Server/ServerWindow.UI.cs:60-89 | the idle action, a selection and an output line keep the invariant, the log bound included |
| WindowLogic.BlankInputIgnored | VU.Server/ServerWindow.cs:228-229 | input that is empty or all spaces changes nothing, not even the input field |
| WindowLogic.EnterClearsInput | VU.Server/ServerWindow.cs:251 | a handler that does not throw leaves the input field empty |
| WindowLogic.ForwardedInput | VU.Server/ServerWindow.cs:192-248 | input whose first word is not a verb is sent whole, and only when the client is connected |
| WindowLogic.StartAfterExitDoesNothing | VU.Server/ServerWindow.cs:158-163 | after an unexpected exit `start` only logs, because the process is not null |
| WindowLogic.StopCommandStops | VU.Server/ServerWindow.cs:165-170 | `stop` logs, never throws and leaves nothing running |
| WindowLogic.ExitDisposes | VU.Server/ServerWindow.cs:183-190 | `exit` stops a live server, disposes of the window, and disposing again changes nothing |
| WindowLogic.ReloadAndStartLaunches | VU.Server/ServerWindow.cs:82-122 | with distinct keys and an `admin.password` line, reloading and starting launches with the window's arguments and keeps the password |
| WindowLogic.RestartLaunches | VU.Server/ServerWindow.cs:172-181 | `restart` logs its two lines, stops whatever runs and launches again |
| WindowLogic.TickRestarts | VU.Server/ServerWindow.cs:58-70 | the poll reports an exited process's code and starts it again, and leaves a live or stopped one alone |
| WindowLogic.RconReplyLogged | VU.Server/ServerWindow.cs:192-222 | with no client the exception is logged, with a closed client "unavailable"; with an open client the words are sent and a reply logs `[Server] RCON:` and the joined words, a bad status `[Server] RCON:` and the message, a dropped connection the exception and "Server might be offline!", any other failure the exception |
| WindowLogic.DrainAppends | VU.Server/ServerWindow.UI.cs:69-95 | running the queued idle actions appends the queued lines in order |
| WindowLogic.LogKeepsNewest | VU.Server/ServerWindow.UI.cs:69-95 | once the queue is drained, the log holds the newest lines written, at most 256 |
| Window.JoinWords | VU.Server/ServerWindow.cs:114 | the loop builds `string.Join(' ', parts)` |
| Window.BuildWindowArguments | VU.Server/ServerWindow.cs:114-116 | the statements build `WindowArguments` |
| Window.ServerWindow.constructor | VU.Server/ServerWindow.cs:32-48 | a new window holds its settings and the state of `Created` |
| Window.ServerWindow.Boot | VU.Server/ServerWindow.cs:50-52 | the new state and fault are `ReloadAndStart` of the old state |
| Window.ServerWindow.LoadConfig | VU.Server/ServerWindow.cs:82-96 | the new state and fault are `LoadConfigStep` of the old state |
| Window.ServerWindow.StartServer | VU.Server/ServerWindow.cs:98-122 | the new state and fault are `StartServerStep` of the old state |
| Window.ServerWindow.StopServer | VU.Server/ServerWindow.cs:124-136 | the new state and fault are `StopServerStep` of the old state |
| Window.ServerWindow.WriteToLog | VU.Server/ServerWindow.UI.cs:69-71 | the line is queued for the idle action |
| Window.ServerWindow.RunIdle | VU.Server/ServerWindow.UI.cs:72-93 | the oldest queued line is appended and the selection updated, as `IdleStep` says |
| Window.ServerWindow.SelectedItemChanged | VU.Server/ServerWindow.UI.cs:60-67 | the list view's selection moves to the item, then the view changes as `SelectionChanged` says and nothing else changes |
| Window.ServerWindow.OutputDataReceived | VU.Server/ServerWindow.cs:138-156 | the new state and fault are `OutputStep` of the old state, using the window's RCON port |
| Window.ServerWindow.CommandStartServer | VU.Server/ServerWindow.cs:158-163 | the new state and fault are `CommandStart` of the old state |
| Window.ServerWindow.CommandStopServer | VU.Server/ServerWindow.cs:165-170 | the new state is `CommandStop` of the old state |
| Window.ServerWindow.CommandRestartServer | VU.Server/ServerWindow.cs:172-181 | the new state and fault are `CommandRestart` of the old state |
| Window.ServerWindow.Dispose | VU.Server/ServerWindow.cs:73-80 | the new state is `DisposeStep` of the old state |
| Window.ServerWindow.CommandExit | VU.Server/ServerWindow.cs:183-190 | the new state is `CommandExit` of the old state |
| Window.ServerWindow.SendRconCommand | VU.Server/ServerWindow.cs:192-222 | the new state is `SendRcon` of the old state |
| Window.ServerWindow.RunCommand | VU.Server/ServerWindow.cs:231-249 | the new state and fault are `Dispatch` of the old state on the route |
| Window.ServerWindow.KeyDown | VU.Server/ServerWindow.cs:224-253 | a key other than Enter changes nothing; Enter gives `EnterStep` of the old state |
| Window.ServerWindow.Tick | VU.Server/ServerWindow.cs:58-70 | the poll asks to be kept whenever it returns, and not when `LoadConfig` or `StartServer` threw; its new state and fault are `TickStep` of the old state |
| Window.ServerWindow.ProcessExited | VU.Server/ServerWindow.cs:60-62 | a live process exits with a code; nothing else changes |

## Left out

- The operating-system process API is left out: `Process.Start`, `Kill`, `HasExited`, `ExitCode`, `Refresh`, the file name and the working directory. The process is `NoProcess | Live | Exited(code)`, a launch or a kill is an entry in `effects`, and an exit is the outside event `ProcessExited`. The Venice Unleashed path only feeds the file name and the working directory, so it is carried but not used.
- The failure of the launch itself, such as a missing binary, is not modelled; a launch always succeeds.
- The Rcon.Net client is a foreign library. Its wire protocol, its asynchronous replies and a failure of `Open` are left out. Connecting, closing and sending are entries in `effects`.
- Supervisor.Server.SendCommand: the reply is a parameter, because it comes from the game server.
- Window.ServerWindow.SendRconCommand: how the send ended, and the text of a caught exception, are parameters. The awaited reply is logged at once, not when it arrives.
- The CPU usage, memory usage, uptime and `Refreshed` event of the refresh loop are left out, as are its one-second sleep and its thread. These are floating point, clocks and concurrency. Only the reset after the loop is modelled, as `RefreshLoopEnded`, with the loop's exit condition as its precondition.
- Threads, `async`/`await` and the interleaving of handlers are left out. Events raised through `LogOutput` and `DataReceived` are appended to sequences. The idle actions `WriteToLog` schedules are a queue (`pending`) run one at a time by `RunIdle`. The 30-second timeout is the `Tick` method.
- `File.ReadAllLines` is left out: the lines of `Startup.txt`, or of the window's configuration file, are a parameter.
- The Linux/wine branch of `Server.Start` is left out. The model takes the Windows branch, where the argument string starts empty.
- `StartsWith("#")` is culture-sensitive in .NET. The model compares ordinally.
- `\d` in the trigger pattern is taken as the ASCII digits `0`-`9`.
- `int.Parse` is modelled for the invariant culture: optional white space, an optional sign and ASCII digits.
- Text.IntToString: the interpolated numbers (the ports at VU.Server/Server.cs:120-122, the exit code at VU.Server/ServerWindow.cs:62) are formatted for the invariant culture, with `-` as the negative sign; a culture with another negative sign is not modelled.
- A null string is `None` where the code tests for null (`GamePath`, an output line). Elsewhere it is the empty string, such as the password before the first start.
- The dictionary `_config` is null until the first load. The model starts from an empty map, which behaves the same wherever the code can read it.
- `Stop` and `StopServer` read `_rconClient.IsOpen` without a null check. Every state-changing method of `Server` and `ServerWindow` requires and keeps the invariant that a live process has a client (`Valid`), so that null case cannot arise; the step functions, which have no such precondition, treat a missing client as not open.
- The window's constructor is split in two. `ServerWindow.constructor` is the part up to `CreateUserInterface`, and `Boot` loads the configuration and starts the server. Registering the key handler and the timeout is not modelled.
- The window's configuration path is not a field, because the lines of that file are a parameter.
- The `SelectedItem` setter of the Terminal.Gui list view may raise `SelectedItemChanged` again. That feedback is not modelled; the setter only records the selected item. The list view's initial selected item is taken as 0.
- Terminal.Gui layout and rendering (`CreateUserInterface`'s widgets, `Application.Refresh`) are left out.
- VU.Server/Program.cs is not part of this model. It covers command-line parsing, file checks, the application loop and the process-exit hook. Its call `new ServerWindow(options)` at VU.Server/Program.cs:21 matches no constructor of `ServerWindow`, which takes the paths, the port and the extra arguments separately.
- The `Frequency` enum's declaration is not part of this model. The model has the three values the code names.

Where the design description and the code disagree, the model follows the code:

- The login after the announcement has no once-per-process guard. Every matching line connects and logs in again (`Supervisor.LoginOnEveryAnnouncement`).
- The connection goes to the configured remote port, not to the port the line prints (`Supervisor.AnnouncementLogsIn`).
- A player limit that does not parse throws out of the handler, which then does not raise `DataReceived` (`GameEvents.MaxPlayerCountRejected`, `Supervisor.EventsPassedOn`). A missing word throws likewise.
- The configuration reader removes every `"` from the value, ignores words after the second, and throws on a repeated key.
- The game state is reset when the refresh loop ends. The model does not reset it at every transition away from a running process.
- Restarting after a crash lives in the window, which polls. The window's `start` command does nothing after an unexpected exit (`WindowLogic.StartAfterExitDoesNothing`).
