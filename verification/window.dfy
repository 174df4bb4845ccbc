/**
 * The console window of VU.Server/ServerWindow.cs and VU.Server/ServerWindow.UI.cs
 * as a class whose handlers update its fields in place. Each handler is specified
 * by the step function of module WindowLogic that describes it; the properties of
 * the window are lemmas about those functions.
 */
module Window {
  import opened Wrappers
  import opened Text
  import opened Utility
  import opened Host
  import opened ServerLogic
  import opened StartupConfig
  import opened Announcement
  import opened LogView
  import opened WindowLogic

  /** `string.Join(' ', parts)`, one part at a time: the extra arguments and an RCON reply are joined this way. */
  method JoinWords(parts: seq<string>) returns (r: string)
    ensures r == Join(' ', parts)
  {
    if parts == [] {
      return "";
    }
    r := parts[|parts| - 1];
    var i := |parts| - 1;
    while i > 0
      invariant 0 <= i < |parts|
      invariant r == Join(' ', parts[i..])
    {
      i := i - 1;
      assert parts[i..][1..] == parts[i + 1..];
      r := parts[i] + [' '] + r;
    }
    assert parts[0..] == parts;
  }

  /** `StartInfo.Arguments` as `StartServer` builds it: one assignment and two appends. */
  method BuildWindowArguments(p: Paths) returns (arguments: string)
    ensures arguments == WindowArguments(p)
  {
    var extra := JoinWords(p.arguments);
    arguments := "-server -dedicated -headless " + extra;
    arguments := arguments + Render(InstancePathArg(p.instancePath));
    if !IsNullOrWhiteSpace(p.gamePath) {
      arguments := arguments + Render(GamePathArg(p.gamePath.value));
    }
  }

  class ServerWindow {
    const vuPath: string
    const gamePath: Option<string>
    const instancePath: string
    const rconPort: int
    /** `_arguments`: the extra arguments for the game server, never changed. */
    const arguments: seq<string>

    var config: map<string, string>
    var process: ProcessState
    var client: ClientState
    var rconPassword: string

    var logList: seq<string>
    var logSelectedIndex: int
    var logAutoScroll: bool
    /** `_logsListView.SelectedItem`. */
    var selectedItem: int

    /** The lines `WriteToLog` has queued whose idle action has not run yet, oldest first. */
    var pending: seq<string>
    /** `_inputTextField.Text`. */
    var inputText: string
    /** What was done to the process and the client, oldest first. */
    var effects: seq<Effect>
    var disposed: bool

    function Settings(): Paths
    {
      Paths(vuPath, gamePath, instancePath, rconPort, arguments)
    }

    function State(): WindowState
      reads this
    {
      WindowState(config, process, client, rconPassword, View(logList, logSelectedIndex, logAutoScroll, selectedItem),
                  pending, inputText, effects, disposed)
    }

    predicate Valid()
      reads this
    {
      Consistent(State())
    }

    /** The constructor up to `CreateUserInterface`; `Boot` is the rest of it. */
    constructor(vuPath: string, gamePath: Option<string>, instancePath: string, rconPort: int, arguments: seq<string>)
      ensures Settings() == Paths(vuPath, gamePath, instancePath, rconPort, arguments)
      ensures State() == Created() && Valid()
    {
      this.vuPath, this.gamePath, this.instancePath, this.rconPort, this.arguments := vuPath, gamePath, instancePath, rconPort, arguments;
      config, process, client, rconPassword := map[], NoProcess, NoClient, "";
      logList, logSelectedIndex, logAutoScroll, selectedItem := [], 0, true, 0;
      pending, inputText, effects, disposed := [], "", [], false;
    }

    /** The rest of the constructor: the configuration is loaded and the server started. */
    method Boot(lines: seq<string>) returns (fault: Option<Fault>)
      requires Valid()
      modifies this
      ensures Valid()
      ensures Step(State(), fault) == ReloadAndStart(old(State()), Settings(), lines)
    {
      fault := LoadConfig(lines);
      if fault.None? {
        fault := StartServer();
      }
    }

    method LoadConfig(lines: seq<string>) returns (fault: Option<Fault>)
      requires Valid()
      modifies this
      ensures Valid()
      ensures Step(State(), fault) == LoadConfigStep(old(State()), lines)
    {
      config, fault := ReadStartupFile(lines);
    }

    method StartServer() returns (fault: Option<Fault>)
      requires Valid()
      modifies this
      ensures Valid()
      ensures Step(State(), fault) == StartServerStep(old(State()), Settings())
    {
      if process.Live? {
        return Some(InvalidOperation(ALREADY_RUNNING));
      }
      client := Closed;
      if ADMIN_PASSWORD !in config {
        return Some(KeyNotFound(ADMIN_PASSWORD));
      }
      var password := config[ADMIN_PASSWORD];
      var launched := BuildWindowArguments(Settings());
      rconPassword, process, effects := password, Live, effects + [Launch(launched)];
      return None;
    }

    method StopServer() returns (fault: Option<Fault>)
      requires Valid()
      modifies this
      ensures Valid()
      ensures Step(State(), fault) == StopServerStep(old(State()))
    {
      if !process.Live? {
        return Some(InvalidOperation(NOT_RUNNING));
      }
      var closing := if client.Open? then [CloseClient] else [];
      process, client, effects := NoProcess, NoClient, effects + closing + [Kill];
      return None;
    }

    method WriteToLog(line: string)
      requires Valid()
      modifies this
      ensures Valid()
      ensures State() == WindowLogic.WriteToLog(old(State()), line)
    {
      pending := pending + [line];
    }

    /** The idle action `WriteToLog` queued for the oldest pending line: append, trim, reselect. */
    method RunIdle()
      requires Valid()
      modifies this
      ensures Valid()
      ensures State() == IdleStep(old(State()))
    {
      if pending == [] {
        return;
      }
      var line := pending[0];
      pending := pending[1..];
      logList := logList + [line];
      if |logList| > LOG_LIMIT {
        logList := logList[1..];
      }
      if |logList| > 0 {
        if logAutoScroll {
          selectedItem := |logList| - 1;
        } else {
          if logSelectedIndex > |logList| - 1 {
            logSelectedIndex := |logList| - 1;
          }
          selectedItem := logSelectedIndex;
        }
      }
    }

    /** The user selects `item`: the list view's own selection moves, then `LogsListView_SelectedItemChanged` runs. */
    method SelectedItemChanged(item: int)
      requires Valid()
      modifies this
      ensures Valid()
      ensures State() == old(State()).(view := SelectionChanged(old(State()).view, item))
    {
      selectedItem := item;
      logSelectedIndex := item;
      if item != |logList| - 1 || |logList| == 1 {
        logAutoScroll := false;
      } else {
        logAutoScroll := true;
      }
    }

    method OutputDataReceived(line: Option<string>) returns (fault: Option<Fault>)
      requires Valid()
      modifies this
      ensures Valid()
      ensures Step(State(), fault) == OutputStep(old(State()), Settings(), line)
    {
      if IsNullOrWhiteSpace(line) {
        return None;
      }
      WriteToLog(line.value);
      if IsTriggerLine(line.value) {
        if client.NoClient? {
          return Some(NullReference);
        }
        client, effects := Open, effects + [OpenClient(rconPort), SendWords(LoginWords(rconPassword))];
      }
      return None;
    }

    method CommandStartServer() returns (fault: Option<Fault>)
      requires Valid()
      modifies this
      ensures Valid()
      ensures Step(State(), fault) == CommandStart(old(State()), Settings())
    {
      WriteToLog(STARTING);
      fault := None;
      if process.NoProcess? {
        fault := StartServer();
      }
    }

    method CommandStopServer()
      requires Valid()
      modifies this
      ensures Valid()
      ensures State() == CommandStop(old(State()))
    {
      WriteToLog(STOPPED);
      if process.Live? {
        var _ := StopServer();
      }
    }

    method CommandRestartServer(lines: seq<string>) returns (fault: Option<Fault>)
      requires Valid()
      modifies this
      ensures Valid()
      ensures Step(State(), fault) == CommandRestart(old(State()), Settings(), lines)
    {
      WriteToLog(STOPPING);
      if process.Live? {
        var _ := StopServer();
      }
      WriteToLog(STARTING);
      fault := Boot(lines);
    }

    /** `Dispose(bool)`; disposing of the base window is the `disposed` flag. */
    method Dispose()
      requires Valid()
      modifies this
      ensures Valid()
      ensures State() == DisposeStep(old(State()))
    {
      if process.Live? {
        var _ := StopServer();
      }
      disposed := true;
    }

    method CommandExit()
      requires Valid()
      modifies this
      ensures Valid()
      ensures State() == WindowLogic.CommandExit(old(State()))
    {
      if process.Live? {
        var _ := StopServer();
      }
      Dispose();
    }

    /** `Command_SendRCONCommand`, with the way the send ended and the text of a null-reference exception as parameters. */
    method SendRconCommand(words: seq<string>, reply: RconReply, nullDescription: string)
      requires Valid()
      modifies this
      ensures Valid()
      ensures State() == SendRcon(old(State()), words, reply, nullDescription)
    {
      if client.NoClient? {
        WriteToLog(CONSOLE + nullDescription);
        return;
      }
      if !client.Open? {
        WriteToLog(UNAVAILABLE);
        return;
      }
      effects := effects + [SendWords(words)];
      match reply
      case Replied(answer) =>
        var text := JoinWords(answer);
        WriteToLog(SERVER + text);
      case Rejected(message) =>
        WriteToLog(SERVER + message);
      case NotConnected(d) =>
        WriteToLog(CONSOLE + d);
        WriteToLog(OFFLINE);
      case Failed(d) =>
        WriteToLog(CONSOLE + d);
    }

    /** The `switch` of `InputTextField_KeyDown` on the first word. */
    method RunCommand(route: Route, lines: seq<string>, reply: RconReply, nullDescription: string) returns (fault: Option<Fault>)
      requires Valid()
      modifies this
      ensures Valid()
      ensures Step(State(), fault) == Dispatch(old(State()), Settings(), lines, reply, nullDescription, route)
    {
      fault := None;
      match route
      case NoInput =>
      case StartCommand => fault := CommandStartServer();
      case StopCommand => CommandStopServer();
      case RestartCommand => fault := CommandRestartServer(lines);
      case ExitCommand => CommandExit();
      case Forward(words) => SendRconCommand(words, reply, nullDescription);
    }

    /** `InputTextField_KeyDown`: only Enter does anything. */
    method KeyDown(enter: bool, lines: seq<string>, reply: RconReply, nullDescription: string) returns (fault: Option<Fault>)
      requires Valid()
      modifies this
      ensures Valid()
      ensures !enter ==> State() == old(State()) && fault.None?
      ensures enter ==> Step(State(), fault) == EnterStep(old(State()), Settings(), lines, reply, nullDescription)
    {
      fault := None;
      if !enter {
        return;
      }
      var words := SplitStringBySpace(inputText);
      if |words| == 0 {
        return;
      }
      fault := RunCommand(RouteOf(words), lines, reply, nullDescription);
      if fault.Some? {
        return;
      }
      inputText := "";
    }

    /**
     * The crash poll the main loop runs every 30 seconds. Whenever it returns it asks to be
     * kept; an exception out of `LoadConfig` or `StartServer` leaves it without returning,
     * and `keep` is then false.
     */
    method Tick(lines: seq<string>) returns (keep: bool, fault: Option<Fault>)
      requires Valid()
      modifies this
      ensures Valid()
      ensures keep <==> fault.None?
      ensures Step(State(), fault) == TickStep(old(State()), Settings(), lines)
    {
      fault := None;
      if process.Exited? {
        WriteToLog(ExitMessage(process.code));
        fault := Boot(lines);
      }
      keep := fault.None?;
    }

    /** The process exits on its own with `code`: an event of the outside world. */
    method ProcessExited(code: Int32)
      requires process.Live?
      requires Valid()
      modifies this
      ensures Valid()
      ensures State() == old(State()).(process := Exited(code))
    {
      process := Exited(code);
    }
  }
}
