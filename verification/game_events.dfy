/**
 * The game state the supervisor tracks (the `Fps`, `State`, `PlayerCount`,
 * `PlayerLimit`, `Map` and `Mode` properties of VU.Server/Server.cs) and how one
 * pushed RCON event, a list of words, changes it (`RconClient_WordsReceived`).
 */
module GameEvents {
  import opened Wrappers
  import opened Text
  import opened Host

  datatype GameState = GameState(fps: Int32, state: string, playerCount: Int32, playerLimit: Int32, mapName: string, mode: string)

  /** The state before the first event and after the refresh loop has ended. */
  const IdleGame: GameState := GameState(0, "", 0, 0, "", "")

  const PLAYER_JOIN: string := "player.onJoin"
  const PLAYER_LEAVE: string := "player.onLeave"
  const MAX_PLAYER_COUNT_CHANGE: string := "server.onMaxPlayerCountChange"
  const LEVEL_LOADED: string := "server.onLevelLoaded"

  /** The state after an event, and the exception the handler threw, if any, at the point where it threw. */
  datatype PushOutcome = PushOutcome(game: GameState, fault: Option<Fault>)

  /**
   * The handler's `switch` on the first word. `PlayerCount++`/`--` are unchecked `int`
   * arithmetic; a missing word is an index past the end of the list; `Map` is assigned
   * before `words[2]` is read.
   */
  function ApplyPush(g: GameState, words: seq<string>): (r: PushOutcome)
    ensures r.game.fps == g.fps && r.game.state == g.state
    ensures r.fault.None? ==> |words| >= 1
  {
    if words == [] then PushOutcome(g, Some(IndexOutOfRange(0)))
    else if words[0] == PLAYER_JOIN then PushOutcome(g.(playerCount := Wrap32(g.playerCount + 1)), None)
    else if words[0] == PLAYER_LEAVE then PushOutcome(g.(playerCount := Wrap32(g.playerCount - 1)), None)
    else if words[0] == MAX_PLAYER_COUNT_CHANGE then
      if |words| < 2 then PushOutcome(g, Some(IndexOutOfRange(1)))
      else
        match ParseInt(words[1])
        case None => PushOutcome(g, Some(NotAnInt32(words[1])))
        case Some(n) => PushOutcome(g.(playerLimit := n), None)
    else if words[0] == LEVEL_LOADED then
      if |words| < 2 then PushOutcome(g, Some(IndexOutOfRange(1)))
      else if |words| < 3 then PushOutcome(g.(mapName := words[1]), Some(IndexOutOfRange(2)))
      else PushOutcome(g.(mapName := words[1], mode := words[2]), None)
    else PushOutcome(g, None)
  }

  /** The state after a series of events; each event is handled on its own, whether or not an earlier one threw. */
  function ApplyAll(g: GameState, events: seq<seq<string>>): GameState
    decreases |events|
  {
    if events == [] then g else ApplyAll(ApplyPush(g, events[0]).game, events[1..])
  }

  /** How many of the events are named `name`. */
  function CountOf(events: seq<seq<string>>, name: string): nat
  {
    if events == [] then 0
    else (if |events[0]| >= 1 && events[0][0] == name then 1 else 0) + CountOf(events[1..], name)
  }

  /** Two values congruent modulo 2^32 wrap to the same `int`. */
  lemma Wrap32Congruent(x: int, y: int)
    requires (x - y) % 0x1_0000_0000 == 0
    ensures Wrap32(x) == Wrap32(y)
  {
    var a, b := Wrap32(x), Wrap32(y);
    assert (a - b) % 0x1_0000_0000 == 0 by {
      ModSum(a - x, x - y, y - b);
    }
  }

  lemma ModSum(p: int, q: int, s: int)
    requires p % 0x1_0000_0000 == 0 && q % 0x1_0000_0000 == 0 && (-s) % 0x1_0000_0000 == 0
    ensures (p + q + s) % 0x1_0000_0000 == 0
  {
    var m := 0x1_0000_0000;
    assert p == (p / m) * m && q == (q / m) * m && -s == ((-s) / m) * m;
    assert p + q + s == (p / m + q / m - (-s) / m) * m;
  }

  /** Wrapping after every step is wrapping once at the end. */
  lemma Wrap32Step(x: int, d: int)
    ensures Wrap32(Wrap32(x) + d) == Wrap32(x + d)
  {
    assert (Wrap32(x) - x) % 0x1_0000_0000 == 0;
    Wrap32Congruent(Wrap32(x) + d, x + d);
  }

  /** The state with `n` players more (fewer, for negative `n`), in unchecked `int` arithmetic. */
  function MovePlayers(g: GameState, n: int): (r: GameState)
    ensures r.playerCount == Wrap32(g.playerCount + n)
  {
    g.(playerCount := Wrap32(g.playerCount + n))
  }

  lemma MovePlayersTwice(g: GameState, a: int, b: int)
    ensures MovePlayers(MovePlayers(g, a), b) == MovePlayers(g, a + b)
  {
    Wrap32Step(g.playerCount + a, b);
  }

  /**
   * Over a series of join and leave events the player count moves by the joins less the
   * leaves, modulo 2^32, with no floor at zero; nothing else changes.
   */
  lemma {:induction false} JoinsAndLeaves(g: GameState, events: seq<seq<string>>)
    requires forall i | 0 <= i < |events| :: |events[i]| >= 1 && (events[i][0] == PLAYER_JOIN || events[i][0] == PLAYER_LEAVE)
    ensures ApplyAll(g, events) == MovePlayers(g, CountOf(events, PLAYER_JOIN) - CountOf(events, PLAYER_LEAVE))
    decreases |events|
  {
    if events == [] {
      assert Wrap32(g.playerCount + 0) == g.playerCount;
    } else {
      var d := JoinOrLeave(g, events[0]);
      ApplyAllCons(g, events);
      JoinsAndLeaves(MovePlayers(g, d), events[1..]);
      var rest := CountOf(events[1..], PLAYER_JOIN) - CountOf(events[1..], PLAYER_LEAVE);
      MovePlayersTwice(g, d, rest);
      assert CountOf(events, PLAYER_JOIN) - CountOf(events, PLAYER_LEAVE) == d + rest;
    }
  }

  lemma ApplyAllCons(g: GameState, events: seq<seq<string>>)
    requires events != []
    ensures ApplyAll(g, events) == ApplyAll(ApplyPush(g, events[0]).game, events[1..])
  {
  }

  /** A join adds one to the player count and a leave takes one away. */
  lemma JoinOrLeave(g: GameState, e: seq<string>) returns (d: int)
    requires |e| >= 1 && (e[0] == PLAYER_JOIN || e[0] == PLAYER_LEAVE)
    ensures d == (if e[0] == PLAYER_JOIN then 1 else -1)
    ensures ApplyPush(g, e).game == MovePlayers(g, d)
  {
    d := if e[0] == PLAYER_JOIN then 1 else -1;
  }

  /** A limit the server announces in `int` notation becomes the player limit. */
  lemma MaxPlayerCountAnnounced(g: GameState, n: Int32)
    ensures ApplyPush(g, [MAX_PLAYER_COUNT_CHANGE, IntToString(n)]) == PushOutcome(g.(playerLimit := n), None)
  {
    ParseIntToString(n);
  }

  /** A limit that is not an `int` throws and leaves the state unchanged. */
  lemma MaxPlayerCountRejected(g: GameState, words: seq<string>)
    requires |words| >= 2 && words[0] == MAX_PLAYER_COUNT_CHANGE && ParseInt(words[1]).None?
    ensures ApplyPush(g, words) == PushOutcome(g, Some(NotAnInt32(words[1])))
  {
  }

  /**
   * A level-loaded event sets map and mode from its second and third words; with only two
   * words the map is set, the mode keeps its old value, and the handler throws.
   */
  lemma LevelLoaded(g: GameState, words: seq<string>)
    requires |words| >= 2 && words[0] == LEVEL_LOADED
    ensures var r := ApplyPush(g, words);
      && r.game.mapName == words[1] && r.game.playerCount == g.playerCount && r.game.playerLimit == g.playerLimit
      && (|words| >= 3 ==> r.game.mode == words[2] && r.fault.None?)
      && (|words| == 2 ==> r.game.mode == g.mode && r.fault == Some(IndexOutOfRange(2)))
  {
  }

  /** Events with any other first word change nothing and throw nothing. */
  lemma OtherEventsIgnored(g: GameState, words: seq<string>)
    requires |words| >= 1
    requires words[0] != PLAYER_JOIN && words[0] != PLAYER_LEAVE
    requires words[0] != MAX_PLAYER_COUNT_CHANGE && words[0] != LEVEL_LOADED
    ensures ApplyPush(g, words) == PushOutcome(g, None)
  {
  }

  /** An empty event throws before anything changes. */
  lemma EmptyEventRejected(g: GameState)
    ensures ApplyPush(g, []) == PushOutcome(g, Some(IndexOutOfRange(0)))
  {
  }
}
