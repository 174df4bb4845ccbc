/**
 * The console window of VU.Server/ServerWindow.cs, an older copy of the supervisor
 * with a command line: what each handler does to the window's state, as functions.
 * Lines written with `WriteToLog` are queued for the UI thread (`pending`); the
 * idle action that appends one of them to the log is `IdleStep`.
 */
module WindowLogic {
  import opened Wrappers
  import opened Text
  import opened Utility
  import opened Host
  import opened LaunchOptions
  import opened ServerLogic
  import opened StartupConfig
  import opened Announcement
  import opened LogView

  /** What the window was constructed with: `_vuPath`, `_gamePath`, `_instancePath`, `_rconPort` and `_arguments`. */
  datatype Paths = Paths(vuPath: string, gamePath: Option<string>, instancePath: string, rconPort: int, arguments: seq<string>)

  /** The fields of a `ServerWindow` and the effects it has produced so far. */
  datatype WindowState = WindowState(
    config: map<string, string>,
    process: ProcessState,
    client: ClientState,
    rconPassword: string,
    view: View,
    pending: seq<string>,
    inputText: string,
    effects: seq<Effect>,
    disposed: bool)

  /** The state after a handler, and the exception it let escape, if any. */
  datatype Step = Step(state: WindowState, fault: Option<Fault>)

  /** A live process has a client, as in the supervisor; the log stays within its limit. */
  predicate Consistent(s: WindowState)
  {
    (s.process.Live? ==> !s.client.NoClient?) && Bounded(s.view)
  }

  /** The window after `CreateUserInterface`, before its configuration is read. */
  function Created(): (s: WindowState)
    ensures Consistent(s)
  {
    WindowState(map[], NoProcess, NoClient, "", EmptyView, [], "", [], false)
  }

  /** `WriteToLog`: the line is queued for the UI thread. */
  function WriteToLog(s: WindowState, line: string): WindowState
  {
    s.(pending := s.pending + [line])
  }

  /** The idle action for the oldest queued line, if there is one. */
  function IdleStep(s: WindowState): WindowState
  {
    if s.pending == [] then s else s.(view := AfterAppend(s.view, s.pending[0]), pending := s.pending[1..])
  }

  /** `LoadConfig`: the window's own copy of the Startup.txt reader. */
  function LoadConfigStep(s: WindowState, lines: seq<string>): Step
  {
    match ParseConfig(lines)
    case Loaded(c) => Step(s.(config := c), None)
    case Duplicate(key, partial) => Step(s.(config := partial), Some(DuplicateKey(key)))
  }

  /**
   * The argument string of `StartServer`: the required flags and a space, the extra arguments
   * joined by single spaces, the quoted instance path, and the quoted game path when one is
   * given; the last two are the supervisor's fragments.
   */
  function WindowArguments(p: Paths): string
  {
    "-server -dedicated -headless " + Join(' ', p.arguments) + Render(InstancePathArg(p.instancePath))
      + (if !IsNullOrWhiteSpace(p.gamePath) then Render(GamePathArg(p.gamePath.value)) else "")
  }

  /** After the flags and the extra arguments the window passes what the supervisor's `Start` passes after its first fragment. */
  lemma WindowArgumentsTail(p: Paths)
    ensures WindowArguments(p)
      == "-server -dedicated -headless " + Join(' ', p.arguments) + Rendered(RequiredFlags(p.instancePath, p.gamePath)[1..])
  {
    var path := if p.gamePath.Some? then p.gamePath.value else "";
    var on := !IsNullOrWhiteSpace(p.gamePath);
    var first, second := (true, InstancePathArg(p.instancePath)), (on, GamePathArg(path));
    assert RequiredFlags(p.instancePath, p.gamePath)[1..] == [first] + [second];
    RenderedAppend([first], [second]);
    RenderedSingle(true, first.1);
    RenderedSingle(on, second.1);
    var head := "-server -dedicated -headless " + Join(' ', p.arguments);
    Associative(head, Rendered([first]), Rendered([second]));
  }

  /** `StartServer`: refused while the process runs; otherwise a fresh client, the admin password, and the launch. */
  function StartServerStep(s: WindowState, p: Paths): Step
  {
    if s.process.Live? then Step(s, Some(InvalidOperation(ALREADY_RUNNING)))
    else
      var t := s.(client := Closed);
      if ADMIN_PASSWORD !in t.config then Step(t, Some(KeyNotFound(ADMIN_PASSWORD)))
      else Step(t.(rconPassword := t.config[ADMIN_PASSWORD], process := Live,
                   effects := t.effects + [Launch(WindowArguments(p))]), None)
  }

  /** `StopServer`: refused unless the process runs; otherwise a connected client is closed, the process killed, both dropped. */
  function StopServerStep(s: WindowState): Step
  {
    if !s.process.Live? then Step(s, Some(InvalidOperation(NOT_RUNNING)))
    else
      var closing := if s.client.Open? then [CloseClient] else [];
      Step(s.(process := NoProcess, client := NoClient, effects := s.effects + closing + [Kill]), None)
  }

  /** Stopping only a live process, as `Command_StopServer`, `Command_RestartServer`, `Command_Exit` and `Dispose` do. */
  function StopIfLive(s: WindowState): WindowState
  {
    if s.process.Live? then StopServerStep(s).state else s
  }

  /** `LoadConfig` followed by `StartServer`, as the constructor, the restart command and the crash poll do. */
  function ReloadAndStart(s: WindowState, p: Paths, lines: seq<string>): Step
  {
    var loaded := LoadConfigStep(s, lines);
    if loaded.fault.Some? then loaded else StartServerStep(loaded.state, p)
  }

  /** The lines the commands log. */
  const STARTING: string := "Starting server..."
  const STOPPING: string := "Stopping server..."
  const STOPPED: string := "Stopped server"

  /** `Command_StartServer`: logs, and starts only when there is no process at all, with the configuration already loaded. */
  function CommandStart(s: WindowState, p: Paths): Step
  {
    var t := WriteToLog(s, STARTING);
    if t.process.NoProcess? then StartServerStep(t, p) else Step(t, None)
  }

  /** `Command_StopServer`: logs, and stops a live process. */
  function CommandStop(s: WindowState): WindowState
  {
    StopIfLive(WriteToLog(s, STOPPED))
  }

  /** `Command_RestartServer`: stops a live process, then reloads the configuration and starts. */
  function CommandRestart(s: WindowState, p: Paths, lines: seq<string>): Step
  {
    var stopped := StopIfLive(WriteToLog(s, STOPPING));
    ReloadAndStart(WriteToLog(stopped, STARTING), p, lines)
  }

  /** `Dispose(bool)`: stops a live process and disposes of the window. */
  function DisposeStep(s: WindowState): WindowState
  {
    StopIfLive(s).(disposed := true)
  }

  /** `Command_Exit`: stops a live process, then disposes of the window. */
  function CommandExit(s: WindowState): WindowState
  {
    DisposeStep(StopIfLive(s))
  }

  /** How `SendMessageAsync` ended: with the reply's words, or with one of the exceptions the handler catches. */
  datatype RconReply =
    | Replied(words: seq<string>)
    | Rejected(message: string)
    | NotConnected(description: string)
    | Failed(description: string)

  /**
   * `Command_SendRCONCommand`. A null client makes the `IsOpen` test throw, and the general
   * handler logs `nullDescription`, the text of that exception; a closed client sends nothing.
   */
  function SendRcon(s: WindowState, words: seq<string>, reply: RconReply, nullDescription: string): WindowState
  {
    if s.client.NoClient? then WriteToLog(s, CONSOLE + nullDescription)
    else if s.client.Closed? then WriteToLog(s, UNAVAILABLE)
    else
      var sent := s.(effects := s.effects + [SendWords(words)]);
      match reply
      case Replied(answer) => WriteToLog(sent, SERVER + Join(' ', answer))
      case Rejected(message) => WriteToLog(sent, SERVER + message)
      case NotConnected(d) => WriteToLog(WriteToLog(sent, CONSOLE + d), OFFLINE)
      case Failed(d) => WriteToLog(sent, CONSOLE + d)
  }

  /** The prefixes of the lines the RCON command handler logs, and its two fixed lines. */
  const SERVER: string := "[Server] RCON: "
  const CONSOLE: string := "[Console] RCON: "
  const UNAVAILABLE: string := "[Console] RCON unavailable!"
  const OFFLINE: string := "[Console] RCON: Server might be offline!"

  /** Where the router sends a line of input. */
  datatype Route = NoInput | StartCommand | StopCommand | RestartCommand | ExitCommand | Forward(words: seq<string>)

  /** The `switch` on the first word, which is compared case-sensitively. */
  function RouteOf(words: seq<string>): (r: Route)
    ensures r.NoInput? <==> words == []
    ensures r.Forward? ==> r.words == words
  {
    if words == [] then NoInput
    else if words[0] == "start" then StartCommand
    else if words[0] == "stop" then StopCommand
    else if words[0] == "restart" then RestartCommand
    else if words[0] == "exit" || words[0] == "quit" then ExitCommand
    else Forward(words)
  }

  predicate IsVerb(word: string)
  {
    word in {"start", "stop", "restart", "exit", "quit"}
  }

  /**
   * Input that is empty or all spaces goes nowhere; a local verb is never forwarded; anything
   * else is forwarded as the whole list of words.
   */
  lemma RouteOfInput(text: string)
    ensures var words, r := SplitStringBySpace(text), RouteOf(SplitStringBySpace(text));
      && (r.NoInput? <==> forall k | 0 <= k < |text| :: text[k] == ' ')
      && (r.Forward? <==> words != [] && !IsVerb(words[0]))
      && (r.Forward? ==> r.words == words)
  {
    EmptyTokenListIffBlank(text);
  }

  /** What a handler leaves when the input field is cleared after it. */
  function Cleared(r: Step): Step
  {
    if r.fault.Some? then r else Step(r.state.(inputText := ""), None)
  }

  /** The handler the router calls. */
  function Dispatch(s: WindowState, p: Paths, lines: seq<string>, reply: RconReply, d: string, route: Route): Step
  {
    match route
    case NoInput => Step(s, None)
    case StartCommand => CommandStart(s, p)
    case StopCommand => Step(CommandStop(s), None)
    case RestartCommand => CommandRestart(s, p, lines)
    case ExitCommand => Step(CommandExit(s), None)
    case Forward(words) => Step(SendRcon(s, words, reply, d), None)
  }

  /** `InputTextField_KeyDown` for the Enter key: no words, no action; otherwise the handler, then the field is cleared. */
  function EnterStep(s: WindowState, p: Paths, lines: seq<string>, reply: RconReply, d: string): Step
  {
    var route := RouteOf(SplitStringBySpace(s.inputText));
    if route.NoInput? then Step(s, None) else Cleared(Dispatch(s, p, lines, reply, d, route))
  }

  /** The text the crash poll logs for an exit code. */
  function ExitMessage(code: Int32): string
  {
    "Server exited unexpectedly with code " + IntToString(code) + ", restarting..."
  }

  /** The crash poll: an exited process is reported, the configuration reloaded and the server started again. */
  function TickStep(s: WindowState, p: Paths, lines: seq<string>): Step
  {
    if s.process.Exited? then ReloadAndStart(WriteToLog(s, ExitMessage(s.process.code)), p, lines)
    else Step(s, None)
  }

  /** `Process_OutputDataReceived`: as the supervisor's, with the window's own port and log. */
  function OutputStep(s: WindowState, p: Paths, line: Option<string>): Step
  {
    if IsNullOrWhiteSpace(line) then Step(s, None)
    else
      var logged := WriteToLog(s, line.value);
      if !IsTriggerLine(line.value) then Step(logged, None)
      else if s.client.NoClient? then Step(logged, Some(NullReference))
      else
        Step(logged.(client := Open,
                     effects := s.effects + [OpenClient(p.rconPort), SendWords(LoginWords(s.rconPassword))]), None)
  }

  // ---------------------------------------------------------------------------
  // Properties
  // ---------------------------------------------------------------------------

  /** Starting, stopping and reloading keep a live process paired with a client and leave the log alone. */
  lemma LifecycleKeepsConsistent(s: WindowState, p: Paths, lines: seq<string>)
    requires Consistent(s)
    ensures Consistent(StartServerStep(s, p).state) && Consistent(StopIfLive(s))
    ensures Consistent(ReloadAndStart(s, p, lines).state)
  {
  }

  /** Every command typed at the prompt keeps a live process paired with a client and the log within its limit. */
  lemma EnterKeepsConsistent(s: WindowState, p: Paths, lines: seq<string>, reply: RconReply, d: string)
    requires Consistent(s)
    ensures Consistent(EnterStep(s, p, lines, reply, d).state)
  {
    DispatchKeepsConsistent(s, p, lines, reply, d, RouteOf(SplitStringBySpace(s.inputText)));
  }

  lemma DispatchKeepsConsistent(s: WindowState, p: Paths, lines: seq<string>, reply: RconReply, d: string, route: Route)
    requires Consistent(s)
    ensures Consistent(Dispatch(s, p, lines, reply, d, route).state)
  {
    match route
    case NoInput =>
    case StartCommand =>
      LifecycleKeepsConsistent(WriteToLog(s, STARTING), p, lines);
    case StopCommand =>
      LifecycleKeepsConsistent(WriteToLog(s, STOPPED), p, lines);
    case RestartCommand =>
      RestartKeepsConsistent(s, p, lines);
    case ExitCommand =>
      LifecycleKeepsConsistent(s, p, lines);
      LifecycleKeepsConsistent(StopIfLive(s), p, lines);
    case Forward(words) =>
      SendKeepsConsistent(s, words, reply, d);
  }

  lemma SendKeepsConsistent(s: WindowState, words: seq<string>, reply: RconReply, d: string)
    requires Consistent(s)
    ensures Consistent(SendRcon(s, words, reply, d))
  {
  }

  lemma RestartKeepsConsistent(s: WindowState, p: Paths, lines: seq<string>)
    requires Consistent(s)
    ensures Consistent(CommandRestart(s, p, lines).state)
  {
    var stopped := StopIfLive(WriteToLog(s, STOPPING));
    LifecycleKeepsConsistent(WriteToLog(s, STOPPING), p, lines);
    LifecycleKeepsConsistent(WriteToLog(stopped, STARTING), p, lines);
  }

  /** The crash poll and `Dispose` keep the invariant too. */
  lemma TickKeepsConsistent(s: WindowState, p: Paths, lines: seq<string>)
    requires Consistent(s)
    ensures Consistent(TickStep(s, p, lines).state)
    ensures Consistent(DisposeStep(s))
  {
    LifecycleKeepsConsistent(s, p, lines);
    if s.process.Exited? {
      LifecycleKeepsConsistent(WriteToLog(s, ExitMessage(s.process.code)), p, lines);
    }
  }

  /** The idle action, a selection and an output line keep the invariant too. */
  lemma UiEventsKeepConsistent(s: WindowState, p: Paths, line: Option<string>, item: int)
    requires Consistent(s)
    ensures Consistent(IdleStep(s))
    ensures Consistent(s.(view := SelectionChanged(s.view, item)))
    ensures Consistent(OutputStep(s, p, line).state)
  {
    if s.pending != [] {
      AppendSelects(s.view, s.pending[0]);
    }
  }

  /** Blank input changes nothing, not even the input field. */
  lemma BlankInputIgnored(s: WindowState, p: Paths, lines: seq<string>, reply: RconReply, d: string)
    requires forall k | 0 <= k < |s.inputText| :: s.inputText[k] == ' '
    ensures EnterStep(s, p, lines, reply, d) == Step(s, None)
  {
    RouteOfInput(s.inputText);
  }

  /** A handler that does not throw leaves the input field empty. */
  lemma EnterClearsInput(s: WindowState, p: Paths, lines: seq<string>, reply: RconReply, d: string)
    requires exists k | 0 <= k < |s.inputText| :: s.inputText[k] != ' '
    ensures var r := EnterStep(s, p, lines, reply, d);
      r.fault.None? ==> r.state.inputText == ""
  {
    RouteOfInput(s.inputText);
  }

  /** Input whose first word is not a local verb is sent over RCON, whole, only when the client is connected. */
  lemma ForwardedInput(s: WindowState, p: Paths, lines: seq<string>, reply: RconReply, d: string)
    requires var words := SplitStringBySpace(s.inputText); words != [] && !IsVerb(words[0])
    ensures var r := EnterStep(s, p, lines, reply, d);
      && r.fault.None? && r.state.process == s.process && r.state.client == s.client
      && r.state.effects == s.effects + (if s.client.Open? then [SendWords(SplitStringBySpace(s.inputText))] else [])
  {
    RouteOfInput(s.inputText);
  }

  /** After an unexpected exit `start` only logs: the process is not null, so nothing is launched. */
  lemma StartAfterExitDoesNothing(s: WindowState, p: Paths)
    requires s.process.Exited?
    ensures CommandStart(s, p) == Step(WriteToLog(s, STARTING), None)
  {
  }

  /** `stop` never throws and leaves nothing running. */
  lemma StopCommandStops(s: WindowState)
    ensures var t := CommandStop(s);
      && !t.process.Live? && t.pending == s.pending + [STOPPED]
      && (s.process.Live? ==> t.process == NoProcess && t.client == NoClient
                              && t.effects == s.effects + (if s.client.Open? then [CloseClient, Kill] else [Kill]))
      && (!s.process.Live? ==> t.effects == s.effects && t.process == s.process)
  {
  }

  /** `exit` never throws, leaves nothing running and disposes of the window; disposing again changes nothing. */
  lemma ExitDisposes(s: WindowState)
    ensures var t := CommandExit(s);
      && t.disposed && !t.process.Live? && t.pending == s.pending
      && t == DisposeStep(s) && DisposeStep(t) == t
  {
  }

  /**
   * Reading a Startup.txt whose keys are distinct and which sets `admin.password`, and then
   * starting with no live process, launches the server with the window's arguments and keeps
   * the file's password; nothing is logged.
   */
  lemma ReloadAndStartLaunches(s: WindowState, p: Paths, lines: seq<string>, i: nat)
    requires !s.process.Live?
    requires DistinctKeys(Entries(lines)) && i < |Entries(lines)| && Entries(lines)[i].0 == ADMIN_PASSWORD
    ensures var r := ReloadAndStart(s, p, lines);
      && r.fault.None? && r.state.process.Live? && r.state.client == Closed
      && r.state.rconPassword == Entries(lines)[i].1 && r.state.pending == s.pending
      && r.state.effects == s.effects + [Launch(WindowArguments(p))]
  {
    ParseConfigMeaning(lines);
  }

  /** `restart` with such a file stops whatever runs and launches the server again. */
  lemma RestartLaunches(s: WindowState, p: Paths, lines: seq<string>, i: nat)
    requires DistinctKeys(Entries(lines)) && i < |Entries(lines)| && Entries(lines)[i].0 == ADMIN_PASSWORD
    ensures var r := CommandRestart(s, p, lines);
      && r.fault.None? && r.state.process.Live? && r.state.client == Closed
      && r.state.rconPassword == Entries(lines)[i].1
      && r.state.pending == s.pending + [STOPPING, STARTING]
      && r.state.effects == StopIfLive(s).effects + [Launch(WindowArguments(p))]
  {
    var stopped := StopIfLive(WriteToLog(s, STOPPING));
    ReloadAndStartLaunches(WriteToLog(stopped, STARTING), p, lines, i);
  }

  /** The crash poll restarts an exited process, reporting its code, and leaves a live or stopped one alone. */
  lemma TickRestarts(s: WindowState, p: Paths, lines: seq<string>, i: nat)
    requires DistinctKeys(Entries(lines)) && i < |Entries(lines)| && Entries(lines)[i].0 == ADMIN_PASSWORD
    ensures s.process.Exited? ==> var r := TickStep(s, p, lines);
      && r.fault.None? && r.state.process.Live?
      && r.state.pending == s.pending + [ExitMessage(s.process.code)]
      && r.state.effects == s.effects + [Launch(WindowArguments(p))]
    ensures !s.process.Exited? ==> TickStep(s, p, lines) == Step(s, None)
  {
    if s.process.Exited? {
      ReloadAndStartLaunches(WriteToLog(s, ExitMessage(s.process.code)), p, lines, i);
    }
  }

  /** With a connected client each outcome of the send logs its own lines; without one nothing is sent. */
  lemma RconReplyLogged(s: WindowState, words: seq<string>, reply: RconReply, d: string)
    ensures var t := SendRcon(s, words, reply, d);
      && t.process == s.process && t.client == s.client && t.view == s.view
      && (s.client.NoClient? ==> t.pending == s.pending + [CONSOLE + d] && t.effects == s.effects)
      && (s.client.Closed? ==> t.pending == s.pending + [UNAVAILABLE] && t.effects == s.effects)
      && (s.client.Open? ==> t.effects == s.effects + [SendWords(words)])
      && (s.client.Open? && reply.NotConnected? ==> t.pending == s.pending + [CONSOLE + reply.description, OFFLINE])
      && (s.client.Open? && reply.Replied? ==> t.pending == s.pending + [SERVER + Join(' ', reply.words)])
      && (s.client.Open? && reply.Rejected? ==> t.pending == s.pending + [SERVER + reply.message])
      && (s.client.Open? && reply.Failed? ==> t.pending == s.pending + [CONSOLE + reply.description])
  {
  }

  /** The idle actions append the queued lines in order; the log keeps the newest of them. */
  function Drain(s: WindowState, n: nat): WindowState
    requires n <= |s.pending|
    decreases n
  {
    if n == 0 then s else Drain(IdleStep(s), n - 1)
  }

  lemma {:induction false} DrainAppends(s: WindowState, n: nat)
    requires n <= |s.pending|
    ensures var t := Drain(s, n);
      t.view.lines == AppendAll(s.view.lines, s.pending[..n]) && t.pending == s.pending[n..]
    decreases n
  {
    if n > 0 {
      var t := IdleStep(s);
      DrainAppends(t, n - 1);
      assert s.pending[..n] == [s.pending[0]] + t.pending[..n - 1];
      assert s.pending[n..] == t.pending[n - 1..];
    }
  }

  /** Once every queued line has been appended, the log holds the newest lines written, at most `LOG_LIMIT` of them. */
  lemma LogKeepsNewest(s: WindowState)
    requires Bounded(s.view)
    ensures var all, r := s.view.lines + s.pending, Drain(s, |s.pending|).view.lines;
      |r| == Min(|all|, LOG_LIMIT) && r == all[|all| - |r|..]
  {
    DrainAppends(s, |s.pending|);
    assert s.pending[..|s.pending|] == s.pending;
    AppendAllKeepsNewest(s.view.lines, s.pending);
  }
}
