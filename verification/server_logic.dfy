/**
 * The launch arguments of `Start` in VU.Server/Server.cs: the list of fragments the
 * options switch on, in the order of the source's statements, and the statement-by-
 * statement `+=` chain that builds the argument string from them.
 */
module ServerLogic {
  import opened Wrappers
  import opened Text
  import opened Utility
  import opened LaunchOptions

  // ---------------------------------------------------------------------------
  // Launch arguments
  // ---------------------------------------------------------------------------

  /** One fragment of the argument string handed to the game-server binary. */
  datatype Arg =
    | HeadlessFlags
    | InstancePathArg(path: string)
    | GamePathArg(path: string)
    | ListenArg(port: int)
    | HarmonyPortArg(port: int)
    | RemoteAdminPortArg(port: int)
    | UnlistedFlag
    | NoUpdateFlag
    | HighResTerrainFlag
    | DisableTerrainInteropFlag
    | SkipChecksumFlag
    | EnvArg(name: string)
    | PerfTraceFlag
    | TraceDCFlag
    | TraceFlag
    | High60Flag
    | High120Flag

  /** The text a fragment adds to the argument string, leading space included. */
  function Render(a: Arg): string
  {
    match a
    case HeadlessFlags => " -server -dedicated -headless"
    case InstancePathArg(p) => " -serverInstancePath \"" + p + "\""
    case GamePathArg(p) => " -gamepath \"" + p + "\""
    case ListenArg(port) => " -listen 0.0.0.0:" + IntToString(port)
    case HarmonyPortArg(port) => " -mHarmonyPort " + IntToString(port)
    case RemoteAdminPortArg(port) => " -RemoteAdminPort 0.0.0.0:" + IntToString(port)
    case UnlistedFlag => " -unlisted"
    case NoUpdateFlag => " -noUpdate"
    case HighResTerrainFlag => " -highResTerrain"
    case DisableTerrainInteropFlag => " -disableTerrainInterop"
    case SkipChecksumFlag => " -skipChecksum"
    case EnvArg(name) => " -env " + name
    case PerfTraceFlag => " -perftrace"
    case TraceDCFlag => " -tracedc"
    case TraceFlag => " -trace"
    case High60Flag => " -high60"
    case High120Flag => " -high120"
  }

  /** The argument string made of the fragments, in order. */
  function RenderAll(args: seq<Arg>): string
  {
    if args == [] then "" else RenderAll(args[..|args| - 1]) + Render(args[|args| - 1])
  }

  /** The position of a fragment in the argument string: the order in which `Server.Start` appends them. */
  function Rank(a: Arg): nat
  {
    match a
    case HeadlessFlags => 0
    case InstancePathArg(_) => 1
    case GamePathArg(_) => 2
    case ListenArg(_) => 3
    case HarmonyPortArg(_) => 4
    case RemoteAdminPortArg(_) => 5
    case UnlistedFlag => 6
    case NoUpdateFlag => 7
    case HighResTerrainFlag => 8
    case DisableTerrainInteropFlag => 9
    case SkipChecksumFlag => 10
    case EnvArg(_) => 11
    case PerfTraceFlag => 12
    case TraceDCFlag => 13
    case TraceFlag => 14
    case High60Flag => 15
    case High120Flag => 16
  }

  /** The required console flags, the instance path and, when one is given, the game path. */
  function RequiredFlags(instancePath: string, gamePath: Option<string>): seq<(bool, Arg)>
  {
    [ (true, HeadlessFlags),
      (true, InstancePathArg(instancePath)),
      (!IsNullOrWhiteSpace(gamePath), GamePathArg(if gamePath.Some? then gamePath.value else "")) ]
  }

  /** The game, Harmony and remote-administration ports. */
  function PortFlags(gamePort: Int32, harmonyPort: Int32, remotePort: Int32): seq<(bool, Arg)>
  {
    [ (true, ListenArg(gamePort)),
      (true, HarmonyPortArg(harmonyPort)),
      (true, RemoteAdminPortArg(remotePort)) ]
  }

  /** The server-specific switches. */
  function ServerSwitches(unlisted: bool, noUpdate: bool, highResTerrain: bool, disableTerrainInterop: bool, skipChecksum: bool)
    : seq<(bool, Arg)>
  {
    [ (unlisted, UnlistedFlag),
      (noUpdate, NoUpdateFlag),
      (highResTerrain, HighResTerrainFlag),
      (disableTerrainInterop, DisableTerrainInteropFlag),
      (skipChecksum, SkipChecksumFlag) ]
  }

  /** The environment and the tracing switches of the game server. */
  function EngineSwitches(environment: string, perfTrace: bool, traceDC: bool, trace: bool): seq<(bool, Arg)>
  {
    [ (true, EnvArg(environment)),
      (perfTrace, PerfTraceFlag),
      (traceDC, TraceDCFlag),
      (trace, TraceFlag) ]
  }

  /** The tick-rate switch; the default rate adds none. */
  function FrequencyFlags(frequency: Frequency): seq<(bool, Arg)>
  {
    [ (frequency == High60, High60Flag),
      (frequency == High120, High120Flag) ]
  }

  /**
   * The k-th fragment `Server.Start` may append, counted in the order of its statements, paired
   * with the condition under which it is appended.
   */
  function Candidate(o: Options, k: nat): (bool, Arg)
    requires k < 17
  {
    match k
    case 0 => (true, HeadlessFlags)
    case 1 => (true, InstancePathArg(o.instancePath))
    case 2 => (!IsNullOrWhiteSpace(o.gamePath), GamePathArg(if o.gamePath.Some? then o.gamePath.value else ""))
    case 3 => (true, ListenArg(o.gamePort))
    case 4 => (true, HarmonyPortArg(o.harmonyPort))
    case 5 => (true, RemoteAdminPortArg(o.remotePort))
    case 6 => (o.unlisted, UnlistedFlag)
    case 7 => (o.noUpdate, NoUpdateFlag)
    case 8 => (o.highResTerrain, HighResTerrainFlag)
    case 9 => (o.disableTerrainInterop, DisableTerrainInteropFlag)
    case 10 => (o.skipChecksum, SkipChecksumFlag)
    case 11 => (true, EnvArg(o.environment))
    case 12 => (o.perfTrace, PerfTraceFlag)
    case 13 => (o.traceDC, TraceDCFlag)
    case 14 => (o.trace, TraceFlag)
    case 15 => (o.frequency == High60, High60Flag)
    case 16 => (o.frequency == High120, High120Flag)
  }

  /** Every fragment `Server.Start` may append, in order, each with its condition. */
  function Candidates(o: Options): seq<(bool, Arg)>
  {
    seq(17, k requires 0 <= k < 17 => Candidate(o, k))
  }

  /** The candidates fall into the groups that the statements of `Server.Start` form. */
  lemma CandidatesGrouped(o: Options)
    ensures Candidates(o) ==
      RequiredFlags(o.instancePath, o.gamePath)
      + PortFlags(o.gamePort, o.harmonyPort, o.remotePort)
      + ServerSwitches(o.unlisted, o.noUpdate, o.highResTerrain, o.disableTerrainInterop, o.skipChecksum)
      + EngineSwitches(o.environment, o.perfTrace, o.traceDC, o.trace)
      + FrequencyFlags(o.frequency)
  {
  }

  /** The fragments whose condition holds, in order. */
  function Present<T>(cs: seq<(bool, T)>): (r: seq<T>)
    ensures |r| <= |cs|
  {
    if cs == [] then []
    else (if cs[0].0 then [cs[0].1] else []) + Present(cs[1..])
  }

  /** The fragments `Server.Start` appends to the (initially empty) argument string on Windows. */
  function LaunchArguments(o: Options): seq<Arg>
  {
    Present(Candidates(o))
  }

  /** A fragment is kept exactly when some candidate carrying it has its condition set. */
  lemma {:induction false} PresentMembers<T>(cs: seq<(bool, T)>, x: T)
    ensures x in Present(cs) <==> (true, x) in cs
  {
    if cs != [] {
      PresentMembers(cs[1..], x);
      assert cs == [cs[0]] + cs[1..];
    }
  }

  /** Candidates whose ranks increase. */
  predicate RanksIncrease(cs: seq<(bool, Arg)>)
  {
    forall i, j :: 0 <= i < j < |cs| ==> Rank(cs[i].1) < Rank(cs[j].1)
  }

  /** Fragments whose ranks increase. */
  predicate Ascending(args: seq<Arg>)
  {
    forall i, j :: 0 <= i < j < |args| ==> Rank(args[i]) < Rank(args[j])
  }

  /** Every fragment kept from the tail of an ascending candidate list ranks above its head. */
  lemma PresentTailAbove(cs: seq<(bool, Arg)>)
    requires cs != [] && RanksIncrease(cs)
    ensures forall x :: x in Present(cs[1..]) ==> Rank(cs[0].1) < Rank(x)
  {
    forall x | x in Present(cs[1..]) ensures Rank(cs[0].1) < Rank(x) {
      PresentMembers(cs[1..], x);
      var k :| 0 <= k < |cs[1..]| && cs[1..][k] == (true, x);
      assert cs[k + 1] == (true, x);
    }
  }

  /** An ascending list stays ascending when one fragment ranking below all of it is put in front. */
  lemma ConsAscending(x: Arg, rest: seq<Arg>)
    requires Ascending(rest) && forall y :: y in rest ==> Rank(x) < Rank(y)
    ensures Ascending([x] + rest)
  {
    var r := [x] + rest;
    forall i, j | 0 <= i < j < |r| ensures Rank(r[i]) < Rank(r[j]) {
      assert r[j] == rest[j - 1];
      if i > 0 {
        assert r[i] == rest[i - 1];
      }
    }
  }

  /** Filtering candidates whose ranks increase keeps the ranks increasing. */
  lemma {:induction false} PresentOrdered(cs: seq<(bool, Arg)>)
    requires RanksIncrease(cs)
    ensures Ascending(Present(cs))
  {
    if cs != [] {
      var rest := Present(cs[1..]);
      assert RanksIncrease(cs[1..]) by {
        forall i, j | 0 <= i < j < |cs[1..]| ensures Rank(cs[1..][i].1) < Rank(cs[1..][j].1) {
          assert cs[1..][i] == cs[i + 1] && cs[1..][j] == cs[j + 1];
        }
      }
      PresentOrdered(cs[1..]);
      if cs[0].0 {
        PresentTailAbove(cs);
        ConsAscending(cs[0].1, rest);
      } else {
        assert Present(cs) == [] + rest;
      }
    }
  }

  lemma CandidatesRanked(o: Options)
    ensures var cs := Candidates(o); forall i :: 0 <= i < |cs| ==> Rank(cs[i].1) == i
  {
    forall i | 0 <= i < 17 ensures Rank(Candidate(o, i).1) == i {
      CandidateRank(o, i);
    }
  }

  lemma CandidateRank(o: Options, k: nat)
    requires k < 17
    ensures Rank(Candidate(o, k).1) == k
  {
    match k
    case 0 => case 1 => case 2 => case 3 => case 4 => case 5 => case 6 => case 7 => case 8 =>
    case 9 => case 10 => case 11 => case 12 => case 13 => case 14 => case 15 => case 16 =>
  }

  /**
   * The launch arguments come in one fixed order: every fragment ranks strictly above the one
   * before it (so none occurs twice), and the headless flags and the instance path come first.
   */
  lemma LaunchArgumentsOrdered(o: Options)
    ensures var r := LaunchArguments(o);
      && |r| >= 2 && r[0] == HeadlessFlags && r[1] == InstancePathArg(o.instancePath)
      && Ascending(r)
  {
    var cs := Candidates(o);
    CandidatesRanked(o);
    PresentOrdered(cs);
    assert Present(cs) == [HeadlessFlags, InstancePathArg(o.instancePath)] + Present(cs[2..]) by {
      assert cs[1..][1..] == cs[2..];
    }
  }

  /** A fragment is in the argument list exactly when the candidate at its rank carries it and is switched on. */
  lemma LaunchArgumentMember(o: Options, x: Arg)
    ensures x in LaunchArguments(o) <==> Rank(x) < 17 && Candidates(o)[Rank(x)] == (true, x)
  {
    var cs := Candidates(o);
    PresentMembers(cs, x);
    CandidatesRanked(o);
  }

  /** A fragment with a candidate of its own is in the argument list exactly when that candidate is switched on. */
  lemma KeptWhen(o: Options, x: Arg, on: bool)
    requires Rank(x) < 17 && Candidates(o)[Rank(x)] == (on, x)
    ensures x in LaunchArguments(o) <==> on
  {
    LaunchArgumentMember(o, x);
  }

  /** Each server switch is present exactly when its option is set. */
  lemma LaunchArgumentsSwitches(o: Options)
    ensures var r := LaunchArguments(o);
      && (UnlistedFlag in r <==> o.unlisted)
      && (NoUpdateFlag in r <==> o.noUpdate)
      && (HighResTerrainFlag in r <==> o.highResTerrain)
      && (DisableTerrainInteropFlag in r <==> o.disableTerrainInterop)
      && (SkipChecksumFlag in r <==> o.skipChecksum)
  {
    KeptWhen(o, UnlistedFlag, o.unlisted);
    KeptWhen(o, NoUpdateFlag, o.noUpdate);
    KeptWhen(o, HighResTerrainFlag, o.highResTerrain);
    KeptWhen(o, DisableTerrainInteropFlag, o.disableTerrainInterop);
    KeptWhen(o, SkipChecksumFlag, o.skipChecksum);
  }

  /** Each trace flag is present exactly when its option is set; -high60/-high120 exactly for High60/High120. */
  lemma LaunchArgumentsTraces(o: Options)
    ensures var r := LaunchArguments(o);
      && (PerfTraceFlag in r <==> o.perfTrace)
      && (TraceDCFlag in r <==> o.traceDC)
      && (TraceFlag in r <==> o.trace)
      && (High60Flag in r <==> o.frequency == High60)
      && (High120Flag in r <==> o.frequency == High120)
  {
    KeptWhen(o, PerfTraceFlag, o.perfTrace);
    KeptWhen(o, TraceDCFlag, o.traceDC);
    KeptWhen(o, TraceFlag, o.trace);
    KeptWhen(o, High60Flag, o.frequency == High60);
    KeptWhen(o, High120Flag, o.frequency == High120);
  }

  /**
   * `-gamepath` appears exactly when a game path is given and is not blank, and then carries it;
   * the ports and the environment are the ones the options name.
   */
  lemma LaunchArgumentsValues(o: Options)
    ensures var r := LaunchArguments(o);
      && (forall p :: GamePathArg(p) in r <==> !IsNullOrWhiteSpace(o.gamePath) && o.gamePath == Some(p))
      && (forall p :: ListenArg(p) in r <==> p == o.gamePort)
      && (forall p :: HarmonyPortArg(p) in r <==> p == o.harmonyPort)
      && (forall p :: RemoteAdminPortArg(p) in r <==> p == o.remotePort)
      && (forall e :: EnvArg(e) in r <==> e == o.environment)
  {
    forall p ensures GamePathArg(p) in LaunchArguments(o) <==> !IsNullOrWhiteSpace(o.gamePath) && o.gamePath == Some(p) {
      LaunchArgumentMember(o, GamePathArg(p));
    }
    forall p ensures ListenArg(p) in LaunchArguments(o) <==> p == o.gamePort {
      LaunchArgumentMember(o, ListenArg(p));
    }
    forall p ensures HarmonyPortArg(p) in LaunchArguments(o) <==> p == o.harmonyPort {
      LaunchArgumentMember(o, HarmonyPortArg(p));
    }
    forall p ensures RemoteAdminPortArg(p) in LaunchArguments(o) <==> p == o.remotePort {
      LaunchArgumentMember(o, RemoteAdminPortArg(p));
    }
    forall e ensures EnvArg(e) in LaunchArguments(o) <==> e == o.environment {
      LaunchArgumentMember(o, EnvArg(e));
    }
  }

  /**
   * With only the two required paths given, the server is launched with the headless flags,
   * the instance path, the three default ports and the production environment, and nothing else.
   */
  lemma DefaultLaunchArguments(path: string, instance: string)
    ensures LaunchArguments(Defaults(path, instance)) ==
      [ HeadlessFlags, InstancePathArg(instance),
        ListenArg(DEFAULT_GAME_PORT), HarmonyPortArg(DEFAULT_HARMONY_PORT), RemoteAdminPortArg(DEFAULT_REMOTE_PORT),
        EnvArg(DEFAULT_ENVIRONMENT) ]
  {
    var o := Defaults(path, instance);
    CandidatesGrouped(o);
    var g1 := RequiredFlags(o.instancePath, o.gamePath);
    var g2 := PortFlags(o.gamePort, o.harmonyPort, o.remotePort);
    var g3 := ServerSwitches(o.unlisted, o.noUpdate, o.highResTerrain, o.disableTerrainInterop, o.skipChecksum);
    var g4 := EngineSwitches(o.environment, o.perfTrace, o.traceDC, o.trace);
    var g5 := FrequencyFlags(o.frequency);
    PresentAppend(g1 + g2 + g3 + g4, g5);
    PresentAppend(g1 + g2 + g3, g4);
    PresentAppend(g1 + g2, g3);
    PresentAppend(g1, g2);
    PresentSplit(g1);
    PresentSplit(g2);
    PresentSplit(g3);
    PresentSplit(g3[1..]);
    PresentSplit(g3[1..][1..]);
    PresentSplit(g4);
    PresentSplit(g4[1..]);
    PresentPair(g5[0], g5[1]);
    assert g5 == [g5[0], g5[1]];
  }

  /** A list of candidates filters to its head's fragment, if switched on, and the rest. */
  lemma PresentSplit<T>(cs: seq<(bool, T)>)
    requires |cs| >= 2
    ensures Present(cs) == (if cs[0].0 then [cs[0].1] else []) + (if cs[1].0 then [cs[1].1] else []) + Present(cs[2..])
  {
    assert cs[1..][1..] == cs[2..];
  }

  /** Filtering distributes over concatenation. */
  lemma {:induction false} PresentAppend<T>(a: seq<(bool, T)>, b: seq<(bool, T)>)
    ensures Present(a + b) == Present(a) + Present(b)
  {
    if a == [] {
      assert a + b == b;
    } else {
      var head := if a[0].0 then [a[0].1] else [];
      calc {
        Present(a + b);
        { assert (a + b)[0] == a[0]; assert (a + b)[1..] == a[1..] + b; }
        head + Present(a[1..] + b);
        { PresentAppend(a[1..], b); }
        head + (Present(a[1..]) + Present(b));
        { Associative(head, Present(a[1..]), Present(b)); }
        Present(a) + Present(b);
      }
    }
  }


  /** Concatenation is associative; stated once so that string equalities need no element-wise proof. */
  lemma Associative<T>(x: seq<T>, y: seq<T>, z: seq<T>)
    ensures (x + y) + z == x + (y + z)
  {
  }

  /** Appending elements one at a time appends them all. */
  lemma Snoc3<T>(xs: seq<T>, a: T, b: T, c: T)
    ensures xs + [a] + [b] + [c] == xs + [a, b, c]
  {
  }

  lemma Snoc4<T>(xs: seq<T>, a: T, b: T, c: T, d: T)
    ensures xs + [a] + [b] + [c] + [d] == xs + [a, b, c, d]
  {
  }

  lemma Snoc5<T>(xs: seq<T>, a: T, b: T, c: T, d: T, e: T)
    ensures xs + [a] + [b] + [c] + [d] + [e] == xs + [a, b, c, d, e]
  {
  }

  /** Rendering distributes over concatenation. */
  lemma {:induction false} RenderAllAppend(a: seq<Arg>, b: seq<Arg>)
    ensures RenderAll(a + b) == RenderAll(a) + RenderAll(b)
  {
    if b == [] {
      assert a + b == a;
    } else {
      var c, last := b[..|b| - 1], b[|b| - 1];
      calc {
        RenderAll(a + b);
        { assert (a + b)[..|a + b| - 1] == a + c; }
        RenderAll(a + c) + Render(last);
        { RenderAllAppend(a, c); }
        (RenderAll(a) + RenderAll(c)) + Render(last);
        { Associative(RenderAll(a), RenderAll(c), Render(last)); }
        RenderAll(a) + (RenderAll(c) + Render(last));
        RenderAll(a) + RenderAll(b);
      }
    }
  }

  /** The argument string holding the fragments of `cs` whose condition holds. */
  function Rendered(cs: seq<(bool, Arg)>): string
  {
    RenderAll(Present(cs))
  }

  /** Considering two runs of candidates one after the other renders the two texts one after the other. */
  lemma RenderedAppend(a: seq<(bool, Arg)>, b: seq<(bool, Arg)>)
    ensures Rendered(a + b) == Rendered(a) + Rendered(b)
  {
    PresentAppend(a, b);
    RenderAllAppend(Present(a), Present(b));
  }

  /** A single candidate renders as its fragment's text when switched on, and as nothing otherwise. */
  lemma RenderedSingle(on: bool, a: Arg)
    ensures Rendered([(on, a)]) == if on then Render(a) else ""
  {
    assert Present([(on, a)]) == (if on then [a] else []) + Present([]);
    if on {
      assert RenderAll([a]) == RenderAll([]) + Render(a);
    }
  }

  /**
   * One `+=` of `Server.Start`: `text`, the rendering of fragment `a`, is appended exactly when
   * `on` holds. The ghost list `cs` records the candidates considered so far.
   */
  method AppendWhen(arguments: string, ghost cs: seq<(bool, Arg)>, on: bool, a: Arg, text: string)
    returns (r: string, ghost rs: seq<(bool, Arg)>)
    requires arguments == Rendered(cs) && text == Render(a)
    ensures rs == cs + [(on, a)]
    ensures r == Rendered(rs)
  {
    rs := cs + [(on, a)];
    RenderedAppend(cs, [(on, a)]);
    RenderedSingle(on, a);
    r := arguments;
    if on {
      r := r + text;
    }
  }

  /** One unconditional `+=` of `Server.Start`: `text`, the rendering of fragment `a`, is appended. */
  method Append(arguments: string, ghost cs: seq<(bool, Arg)>, a: Arg, text: string)
    returns (r: string, ghost rs: seq<(bool, Arg)>)
    requires arguments == Rendered(cs) && text == Render(a)
    ensures rs == cs + [(true, a)]
    ensures r == Rendered(rs)
  {
    rs := cs + [(true, a)];
    RenderedAppend(cs, [(true, a)]);
    RenderedSingle(true, a);
    r := arguments + text;
  }

  /** Appends the required console flags, the instance path and, when one is given, the game path. */
  method AppendRequiredFlags(arguments: string, ghost cs: seq<(bool, Arg)>, instancePath: string, gamePath: Option<string>)
    returns (r: string, ghost rs: seq<(bool, Arg)>)
    requires arguments == Rendered(cs)
    ensures rs == cs + RequiredFlags(instancePath, gamePath)
    ensures r == Rendered(rs)
  {
    // An absent game path interpolates as the empty string.
    var path := if gamePath.Some? then gamePath.value else "";
    Snoc3(cs, (true, HeadlessFlags), (true, InstancePathArg(instancePath)), (!IsNullOrWhiteSpace(gamePath), GamePathArg(path)));
    r, rs := arguments, cs;
    r, rs := Append(r, rs, HeadlessFlags, " -server -dedicated -headless");
    r, rs := Append(r, rs, InstancePathArg(instancePath), " -serverInstancePath \"" + instancePath + "\"");
    r, rs := AppendWhen(r, rs, !IsNullOrWhiteSpace(gamePath), GamePathArg(path), " -gamepath \"" + path + "\"");
  }

  /** Appends the game, Harmony and remote-administration ports. */
  method AppendPorts(arguments: string, ghost cs: seq<(bool, Arg)>, gamePort: Int32, harmonyPort: Int32, remotePort: Int32)
    returns (r: string, ghost rs: seq<(bool, Arg)>)
    requires arguments == Rendered(cs)
    ensures rs == cs + PortFlags(gamePort, harmonyPort, remotePort)
    ensures r == Rendered(rs)
  {
    Snoc3(cs, (true, ListenArg(gamePort)), (true, HarmonyPortArg(harmonyPort)), (true, RemoteAdminPortArg(remotePort)));
    r, rs := arguments, cs;
    r, rs := Append(r, rs, ListenArg(gamePort), " -listen 0.0.0.0:" + IntToString(gamePort));
    r, rs := Append(r, rs, HarmonyPortArg(harmonyPort), " -mHarmonyPort " + IntToString(harmonyPort));
    r, rs := Append(r, rs, RemoteAdminPortArg(remotePort), " -RemoteAdminPort 0.0.0.0:" + IntToString(remotePort));
  }

  /** Appends the server-specific switches that are set. */
  method AppendServerSwitches(arguments: string, ghost cs: seq<(bool, Arg)>,
                              unlisted: bool, noUpdate: bool, highResTerrain: bool, disableTerrainInterop: bool, skipChecksum: bool)
    returns (r: string, ghost rs: seq<(bool, Arg)>)
    requires arguments == Rendered(cs)
    ensures rs == cs + ServerSwitches(unlisted, noUpdate, highResTerrain, disableTerrainInterop, skipChecksum)
    ensures r == Rendered(rs)
  {
    Snoc5(cs, (unlisted, UnlistedFlag), (noUpdate, NoUpdateFlag), (highResTerrain, HighResTerrainFlag),
      (disableTerrainInterop, DisableTerrainInteropFlag), (skipChecksum, SkipChecksumFlag));
    r, rs := arguments, cs;
    r, rs := AppendWhen(r, rs, unlisted, UnlistedFlag, " -unlisted");
    r, rs := AppendWhen(r, rs, noUpdate, NoUpdateFlag, " -noUpdate");
    r, rs := AppendWhen(r, rs, highResTerrain, HighResTerrainFlag, " -highResTerrain");
    r, rs := AppendWhen(r, rs, disableTerrainInterop, DisableTerrainInteropFlag, " -disableTerrainInterop");
    r, rs := AppendWhen(r, rs, skipChecksum, SkipChecksumFlag, " -skipChecksum");
  }

  /** Appends the environment and the tracing switches that are set. */
  method AppendEngineSwitches(arguments: string, ghost cs: seq<(bool, Arg)>, environment: string, perfTrace: bool, traceDC: bool, trace: bool)
    returns (r: string, ghost rs: seq<(bool, Arg)>)
    requires arguments == Rendered(cs)
    ensures rs == cs + EngineSwitches(environment, perfTrace, traceDC, trace)
    ensures r == Rendered(rs)
  {
    Snoc4(cs, (true, EnvArg(environment)), (perfTrace, PerfTraceFlag), (traceDC, TraceDCFlag), (trace, TraceFlag));
    r, rs := arguments, cs;
    r, rs := Append(r, rs, EnvArg(environment), " -env " + environment);
    r, rs := AppendWhen(r, rs, perfTrace, PerfTraceFlag, " -perftrace");
    r, rs := AppendWhen(r, rs, traceDC, TraceDCFlag, " -tracedc");
    r, rs := AppendWhen(r, rs, trace, TraceFlag, " -trace");
  }

  /** Filtering two candidates. */
  lemma PresentPair<T>(c0: (bool, T), c1: (bool, T))
    ensures Present([c0, c1]) == (if c0.0 then [c0.1] else []) + (if c1.0 then [c1.1] else [])
  {
    assert [c0, c1][1..] == [c1];
    assert [c1][1..] == [];
  }

  /** The tick-rate candidates render as the switch of the rate chosen, or as nothing for the default rate. */
  lemma FrequencyText(f: Frequency)
    ensures Rendered(FrequencyFlags(f))
         == match f case High60 => " -high60" case High120 => " -high120" case Default30 => ""
  {
    PresentPair((f == High60, High60Flag), (f == High120, High120Flag));
    match f
    case High60 =>
      assert RenderAll([High60Flag]) == RenderAll([]) + Render(High60Flag);
    case High120 =>
      assert RenderAll([High120Flag]) == RenderAll([]) + Render(High120Flag);
    case Default30 =>
  }

  /** Appends the tick-rate switch: one case per non-default rate. */
  method AppendFrequency(arguments: string, ghost cs: seq<(bool, Arg)>, frequency: Frequency)
    returns (r: string, ghost rs: seq<(bool, Arg)>)
    requires arguments == Rendered(cs)
    ensures rs == cs + FrequencyFlags(frequency)
    ensures r == Rendered(rs)
  {
    rs := cs + FrequencyFlags(frequency);
    RenderedAppend(cs, FrequencyFlags(frequency));
    FrequencyText(frequency);
    r := arguments;
    match frequency {
      case High60 =>
        r := r + " -high60";
      case High120 =>
        r := r + " -high120";
      case Default30 =>
    }
  }

  /** `StartInfo.Arguments` as `Server.Start` builds it from the empty string (the Windows build). */
  method BuildArguments(o: Options) returns (arguments: string)
    ensures arguments == RenderAll(LaunchArguments(o))
  {
    ghost var cs: seq<(bool, Arg)> := [];
    arguments := "";
    arguments, cs := AppendRequiredFlags(arguments, cs, o.instancePath, o.gamePath);
    arguments, cs := AppendPorts(arguments, cs, o.gamePort, o.harmonyPort, o.remotePort);
    arguments, cs := AppendServerSwitches(arguments, cs, o.unlisted, o.noUpdate, o.highResTerrain, o.disableTerrainInterop, o.skipChecksum);
    arguments, cs := AppendEngineSwitches(arguments, cs, o.environment, o.perfTrace, o.traceDC, o.trace);
    arguments, cs := AppendFrequency(arguments, cs, o.frequency);
    assert [] + RequiredFlags(o.instancePath, o.gamePath) == RequiredFlags(o.instancePath, o.gamePath);
    CandidatesGrouped(o);
  }
}
