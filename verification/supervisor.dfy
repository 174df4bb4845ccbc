/**
 * The supervisor of VU.Server/Server.cs: it starts the game server with the
 * arguments built from the options, stops it, loads Startup.txt, tracks the game
 * state from pushed RCON events, resets it when the process is gone, and connects
 * the RCON client when the server announces its administration interface.
 *
 * The process and the client are their observable states (module Host); what is
 * done to them is appended to `effects`. The file's lines, the RCON replies and
 * the process's exit are parameters or calls made from outside.
 *
 * Each method of the class is specified by a step function on `ServerState`, a
 * snapshot of the fields; the properties of the supervisor are lemmas about those
 * functions.
 */
module Supervisor {
  import opened Wrappers
  import opened Text
  import opened Host
  import opened LaunchOptions
  import opened ServerLogic
  import opened StartupConfig
  import opened GameEvents
  import opened Announcement

  /** The fields of a `Server`, and the events and effects it has produced so far. */
  datatype ServerState = ServerState(
    config: map<string, string>,
    process: ProcessState,
    client: ClientState,
    rconPassword: string,
    game: GameState,
    logOutput: seq<string>,
    dataReceived: seq<seq<string>>,
    effects: seq<Effect>)

  /** The state after a call, and the exception the call let escape, if any. */
  datatype Outcome = Outcome(state: ServerState, fault: Option<Fault>)

  /** `Start` creates the client before it launches the process and `Stop` drops both, so a live process has a client. */
  predicate Consistent(s: ServerState)
  {
    s.process.Live? ==> !s.client.NoClient?
  }

  /** A freshly constructed `Server`. */
  const Initial: ServerState := ServerState(map[], NoProcess, NoClient, "", IdleGame, [], [], [])

  /** `LoadConfig`: a fresh dictionary filled from the lines of Startup.txt, as far as the first repeated key. */
  function LoadConfigStep(s: ServerState, lines: seq<string>): Outcome
  {
    match ParseConfig(lines)
    case Loaded(c) => Outcome(s.(config := c), None)
    case Duplicate(key, partial) => Outcome(s.(config := partial), Some(DuplicateKey(key)))
  }

  /**
   * `Start`: refused while the process runs; otherwise the configuration is loaded, a fresh
   * unconnected client created, the admin password read and the game server launched. An
   * exception leaves the state as it was at the statement that threw.
   */
  function StartStep(s: ServerState, options: Options, lines: seq<string>): Outcome
  {
    if s.process.Live? then Outcome(s, Some(InvalidOperation(ALREADY_RUNNING)))
    else
      var loaded := LoadConfigStep(s, lines);
      if loaded.fault.Some? then loaded
      else
        var t := loaded.state.(client := Closed);
        if ADMIN_PASSWORD !in t.config then Outcome(t, Some(KeyNotFound(ADMIN_PASSWORD)))
        else
          Outcome(t.(rconPassword := t.config[ADMIN_PASSWORD], process := Live,
                     effects := t.effects + [Launch(RenderAll(LaunchArguments(options)))]), None)
  }

  /** `Stop`: refused unless the process runs; otherwise a connected client is closed, the process killed, both dropped. */
  function StopStep(s: ServerState): Outcome
  {
    if !s.process.Live? then Outcome(s, Some(InvalidOperation(NOT_RUNNING)))
    else
      var closing := if s.client.Open? then [CloseClient] else [];
      Outcome(s.(process := NoProcess, client := NoClient, effects := s.effects + closing + [Kill]), None)
  }

  /** `Dispose`: `Stop` when the process runs, nothing otherwise. */
  function DisposeStep(s: ServerState): ServerState
  {
    if s.process.Live? then StopStep(s).state else s
  }

  /** `RconClient_WordsReceived`: the game state as the event changes it, and `DataReceived` raised unless the handler threw. */
  function WordsStep(s: ServerState, words: seq<string>): Outcome
  {
    var r := ApplyPush(s.game, words);
    Outcome(s.(game := r.game, dataReceived := s.dataReceived + if r.fault.None? then [words] else []), r.fault)
  }

  /**
   * `Process_OutputDataReceived`: a blank line is ignored; any other line is logged and,
   * when it announces the RCON interface, the client is connected to the configured remote
   * port and logs in with the admin password.
   */
  function OutputStep(s: ServerState, remotePort: int, line: Option<string>): Outcome
  {
    if IsNullOrWhiteSpace(line) then Outcome(s, None)
    else
      var logged := s.(logOutput := s.logOutput + [line.value]);
      if !IsTriggerLine(line.value) then Outcome(logged, None)
      else if s.client.NoClient? then Outcome(logged, Some(NullReference))
      else
        Outcome(logged.(client := Open,
                        effects := s.effects + [OpenClient(remotePort), SendWords(LoginWords(s.rconPassword))]), None)
  }

  /** Every step keeps a live process paired with a client. */
  lemma StepsKeepConsistent(s: ServerState, options: Options, lines: seq<string>, words: seq<string>, remotePort: int, line: Option<string>)
    requires Consistent(s)
    ensures Consistent(LoadConfigStep(s, lines).state)
    ensures Consistent(StartStep(s, options, lines).state)
    ensures Consistent(StopStep(s).state) && Consistent(DisposeStep(s))
    ensures Consistent(WordsStep(s, words).state)
    ensures Consistent(OutputStep(s, remotePort, line).state)
  {
  }

  /** A second `Start` while the process runs throws and changes nothing. */
  lemma StartRefusedWhileRunning(s: ServerState, options: Options, lines: seq<string>)
    requires s.process.Live?
    ensures StartStep(s, options, lines) == Outcome(s, Some(InvalidOperation(ALREADY_RUNNING)))
  {
  }

  /**
   * With no process running and a Startup.txt whose keys are distinct, `Start` launches the
   * game server with the arguments built from the options, keeps the password the file gives
   * `admin.password`, and leaves the client created but not connected.
   */
  lemma StartLaunches(s: ServerState, options: Options, lines: seq<string>, i: nat)
    requires !s.process.Live?
    requires DistinctKeys(Entries(lines)) && i < |Entries(lines)| && Entries(lines)[i].0 == ADMIN_PASSWORD
    ensures var r := StartStep(s, options, lines);
      && r.fault.None? && r.state.process.Live? && r.state.client == Closed
      && r.state.rconPassword == Entries(lines)[i].1
      && r.state.effects == s.effects + [Launch(RenderAll(LaunchArguments(options)))]
      && r.state.game == s.game && r.state.logOutput == s.logOutput
  {
    ParseConfigMeaning(lines);
  }

  /** Without an `admin.password` line `Start` throws after creating the client and launches nothing. */
  lemma StartWithoutPassword(s: ServerState, options: Options, lines: seq<string>)
    requires !s.process.Live?
    requires DistinctKeys(Entries(lines)) && ADMIN_PASSWORD !in EntryKeys(Entries(lines))
    ensures var r := StartStep(s, options, lines);
      && r.fault == Some(KeyNotFound(ADMIN_PASSWORD))
      && r.state.process == s.process && r.state.client == Closed && r.state.effects == s.effects
  {
    ParseConfigMeaning(lines);
  }

  /**
   * `Stop` is refused when no process runs; otherwise it closes a connected client, kills the
   * process and drops both, after which nothing is running and no command can be sent.
   */
  lemma StopEndsSession(s: ServerState)
    ensures !s.process.Live? ==> StopStep(s) == Outcome(s, Some(InvalidOperation(NOT_RUNNING)))
    ensures s.process.Live? ==> var r := StopStep(s);
      && r.fault.None? && r.state.process == NoProcess && r.state.client == NoClient
      && r.state.effects == s.effects + (if s.client.Open? then [CloseClient, Kill] else [Kill])
  {
  }

  /** `Dispose` never throws, leaves nothing running, and a second `Dispose` changes nothing. */
  lemma DisposeIdempotent(s: ServerState)
    ensures !DisposeStep(s).process.Live?
    ensures DisposeStep(DisposeStep(s)) == DisposeStep(s)
    ensures !s.process.Live? ==> DisposeStep(s) == s
  {
  }

  /** A line that announces the RCON interface is not blank. */
  lemma TriggerLineNotBlank(line: string)
    requires IsTriggerLine(line)
    ensures !IsNullOrWhiteSpace(Some(line))
  {
    var i, j, k :| 0 <= i < j < k <= |line| && Bracketed(line, i, j) && TailAt(line, j, k);
    assert line[i..j][0] == line[i];
    assert !IsWhiteSpace(line[i]);
  }

  /**
   * Once a client exists, the announcement connects it to the configured remote port, not to
   * the port the line prints, and logs in with the admin password; nothing guards against a
   * second announcement, which connects and logs in again.
   */
  lemma LoginOnEveryAnnouncement(s: ServerState, remotePort: int, first: string, second: string)
    requires !s.client.NoClient? && IsTriggerLine(first) && IsTriggerLine(second)
    ensures var r1 := OutputStep(s, remotePort, Some(first));
      var r2 := OutputStep(r1.state, remotePort, Some(second));
      && r1.fault.None? && r2.fault.None? && r2.state.client == Open
      && r2.state.logOutput == s.logOutput + [first, second]
      && r2.state.effects == s.effects + [OpenClient(remotePort), SendWords(LoginWords(s.rconPassword)),
                                          OpenClient(remotePort), SendWords(LoginWords(s.rconPassword))]
  {
    TriggerLineNotBlank(first);
    TriggerLineNotBlank(second);
  }

  /** The line the game server prints when its RCON interface is up makes the supervisor log in. */
  lemma AnnouncementLogsIn(s: ServerState, remotePort: int, line: string,
                           prefix: string, time: string, level: string, printed: string, suffix: string)
    requires !s.client.NoClient?
    requires |time| >= 1 && '\n' !in time && |level| >= 1 && '\n' !in level
    requires |printed| >= 1 && IsDigit(printed[0])
    requires line == prefix + Group(time) + " " + Group(level) + LISTENING + "0.0.0.0:" + printed + suffix
    ensures var r := OutputStep(s, remotePort, Some(line));
      && r.fault.None? && r.state.client == Open
      && r.state.effects == s.effects + [OpenClient(remotePort), SendWords(LoginWords(s.rconPassword))]
  {
    AnnouncementTriggers(prefix, time, level, printed, suffix);
    TriggerLineNotBlank(line);
  }

  /** Blank lines and a null line are dropped without a trace. */
  lemma BlankOutputIgnored(s: ServerState, remotePort: int, line: Option<string>)
    requires IsNullOrWhiteSpace(line)
    ensures OutputStep(s, remotePort, line) == Outcome(s, None)
  {
  }

  /** Other output is logged and changes nothing else. */
  lemma PlainOutputLogged(s: ServerState, remotePort: int, line: string)
    requires !IsNullOrWhiteSpace(Some(line)) && !IsTriggerLine(line)
    ensures OutputStep(s, remotePort, Some(line)) == Outcome(s.(logOutput := s.logOutput + [line]), None)
  {
  }

  /** A pushed event is passed on through `DataReceived` exactly when the handler did not throw. */
  lemma EventsPassedOn(s: ServerState, words: seq<string>)
    ensures var r := WordsStep(s, words);
      && r.state.game == ApplyPush(s.game, words).game
      && (r.fault.None? <==> r.state.dataReceived == s.dataReceived + [words])
      && (r.fault.Some? <==> r.state.dataReceived == s.dataReceived)
      && r.state.effects == s.effects && r.state.process == s.process
  {
  }

  class Server {
    const options: Options

    /** `_config`: the dictionary read from Startup.txt. */
    var config: map<string, string>
    var process: ProcessState
    var client: ClientState
    var rconPassword: string

    var fps: Int32
    var state: string
    var playerCount: Int32
    var playerLimit: Int32
    var mapName: string
    var mode: string

    /** The lines raised through `LogOutput`, oldest first. */
    var logOutput: seq<string>
    /** The word lists raised through `DataReceived`, oldest first. */
    var dataReceived: seq<seq<string>>
    /** What was done to the process and the client, oldest first. */
    var effects: seq<Effect>

    /** The six game-state properties together. */
    function Game(): GameState
      reads this
    {
      GameState(fps, state, playerCount, playerLimit, mapName, mode)
    }

    function State(): ServerState
      reads this
    {
      ServerState(config, process, client, rconPassword, Game(), logOutput, dataReceived, effects)
    }

    predicate Valid()
      reads this
    {
      Consistent(State())
    }

    /** `Running`: there is a process and it has not exited. */
    predicate Running()
      reads this
    {
      process.Live?
    }

    /** `ExitCode`: the code of an exited process, 0 otherwise. */
    function ExitCode(): Int32
      reads this
    {
      if process.Exited? then process.code else 0
    }

    /** `CanSendCommands`: there is a client and it is connected. */
    predicate CanSendCommands()
      reads this
    {
      client.Open?
    }

    constructor(options: Options)
      ensures this.options == options && State() == Initial && Valid()
    {
      this.options := options;
      config := map[];
      process := NoProcess;
      client := NoClient;
      rconPassword := "";
      fps, state, playerCount, playerLimit, mapName, mode := 0, "", 0, 0, "", "";
      logOutput, dataReceived, effects := [], [], [];
    }

    /** The process exits on its own with `code`: an event of the outside world. */
    method ProcessExited(code: Int32)
      requires Running()
      requires Valid()
      modifies this
      ensures Valid()
      ensures State() == old(State()).(process := Exited(code))
    {
      process := Exited(code);
    }

    method Dispose()
      requires Valid()
      modifies this
      ensures Valid()
      ensures State() == DisposeStep(old(State()))
    {
      if process.Live? {
        var fault := Stop();
      }
    }

    method Start(lines: seq<string>) returns (fault: Option<Fault>)
      requires Valid()
      modifies this
      ensures Valid()
      ensures State() == StartStep(old(State()), options, lines).state
      ensures fault == StartStep(old(State()), options, lines).fault
    {
      if process.Live? {
        return Some(InvalidOperation(ALREADY_RUNNING));
      }
      fault := LoadConfig(lines);
      if fault.Some? {
        return;
      }
      client := Closed;
      if ADMIN_PASSWORD !in config {
        return Some(KeyNotFound(ADMIN_PASSWORD));
      }
      var password := config[ADMIN_PASSWORD];
      var arguments := BuildArguments(options);
      rconPassword, process, effects := password, Live, effects + [Launch(arguments)];
    }

    method Stop() returns (fault: Option<Fault>)
      requires Valid()
      modifies this
      ensures Valid()
      ensures State() == StopStep(old(State())).state && fault == StopStep(old(State())).fault
    {
      if !process.Live? {
        return Some(InvalidOperation(NOT_RUNNING));
      }
      if client.Open? {
        effects := effects + [CloseClient];
      }
      effects := effects + [Kill];
      process := NoProcess;
      client := NoClient;
      return None;
    }

    /** `SendCommandAsync`: null unless the client is connected; otherwise the words are sent and the reply returned. */
    method SendCommand(words: seq<string>, reply: seq<string>) returns (r: Option<seq<string>>)
      requires Valid()
      modifies this
      ensures Valid()
      ensures !old(CanSendCommands()) ==> r.None? && State() == old(State())
      ensures old(CanSendCommands()) ==> r == Some(reply) && State() == old(State()).(effects := old(effects) + [SendWords(words)])
    {
      if !client.Open? {
        return None;
      }
      effects := effects + [SendWords(words)];
      return Some(reply);
    }

    method LoadConfig(lines: seq<string>) returns (fault: Option<Fault>)
      requires Valid()
      modifies this
      ensures Valid()
      ensures State() == LoadConfigStep(old(State()), lines).state && fault == LoadConfigStep(old(State()), lines).fault
    {
      config, fault := ReadStartupFile(lines);
    }

    method WordsReceived(words: seq<string>) returns (fault: Option<Fault>)
      requires Valid()
      modifies this
      ensures Valid()
      ensures State() == WordsStep(old(State()), words).state && fault == WordsStep(old(State()), words).fault
    {
      if |words| == 0 {
        return Some(IndexOutOfRange(0));
      }
      var name := words[0];
      var received := dataReceived + [words];
      if name == PLAYER_JOIN {
        playerCount, dataReceived := Wrap32(playerCount + 1), received;
      } else if name == PLAYER_LEAVE {
        playerCount, dataReceived := Wrap32(playerCount - 1), received;
      } else if name == MAX_PLAYER_COUNT_CHANGE {
        if |words| < 2 {
          return Some(IndexOutOfRange(1));
        }
        var limit := ParseInt(words[1]);
        if limit.None? {
          return Some(NotAnInt32(words[1]));
        }
        playerLimit, dataReceived := limit.value, received;
      } else if name == LEVEL_LOADED {
        if |words| < 2 {
          return Some(IndexOutOfRange(1));
        }
        mapName := words[1];
        if |words| < 3 {
          return Some(IndexOutOfRange(2));
        }
        mode, dataReceived := words[2], received;
      } else {
        dataReceived := received;
      }
      return None;
    }

    /** The end of `RefreshThreadWorker`: once the process is gone the game state is cleared. */
    method RefreshLoopEnded()
      requires !Running()
      requires Valid()
      modifies this
      ensures Valid()
      ensures State() == old(State()).(game := IdleGame)
    {
      fps, state, playerCount, playerLimit, mapName, mode := 0, "", 0, 0, "", "";
    }

    method OutputDataReceived(line: Option<string>) returns (fault: Option<Fault>)
      requires Valid()
      modifies this
      ensures Valid()
      ensures State() == OutputStep(old(State()), options.remotePort, line).state
      ensures fault == OutputStep(old(State()), options.remotePort, line).fault
    {
      if IsNullOrWhiteSpace(line) {
        return None;
      }
      logOutput := logOutput + [line.value];
      if IsTriggerLine(line.value) {
        if client.NoClient? {
          return Some(NullReference);
        }
        client := Open;
        effects := effects + [OpenClient(options.remotePort)];
        effects := effects + [SendWords(LoginWords(rconPassword))];
      }
      return None;
    }
  }
}
