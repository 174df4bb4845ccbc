/**
 * The outside world as the supervisor sees it: the operating-system process it
 * launches and the remote-administration (RCON) client it drives, reduced to their
 * observable states, and the record of what was done to them.
 */
module Host {
  import Text

  /** `_process`: null, a process that has not exited, or one that exited with its `int` code. */
  datatype ProcessState = NoProcess | Live | Exited(code: Text.Int32)

  /** `_rconClient`: null, a client that is not connected, or a connected one. */
  datatype ClientState = NoClient | Closed | Open

  /**
   * One action on the outside world, in the order it was taken: starting the game-server
   * binary with an argument string, killing it, connecting the RCON client to the loopback
   * address on a port, closing the client, and sending a word list over it.
   */
  datatype Effect =
    | Launch(arguments: string)
    | Kill
    | OpenClient(port: int)
    | CloseClient
    | SendWords(words: seq<string>)

  /**
   * An exception a member lets escape: `InvalidOperationException` with its message, the
   * `ArgumentException` of `Dictionary.Add` for a key already present, the
   * `KeyNotFoundException` of the dictionary indexer, a `NullReferenceException`, the
   * `ArgumentOutOfRangeException` of a list index past the end, and the `FormatException` or
   * `OverflowException` of `int.Parse`.
   */
  datatype Fault =
    | InvalidOperation(message: string)
    | DuplicateKey(key: string)
    | KeyNotFound(key: string)
    | NullReference
    | IndexOutOfRange(index: nat)
    | NotAnInt32(text: string)

  const ALREADY_RUNNING: string := "Server is already running"
  const NOT_RUNNING: string := "Server is not running"

  /** None of the effects sends anything over RCON. */
  predicate NoSends(effects: seq<Effect>)
  {
    forall i | 0 <= i < |effects| :: !effects[i].SendWords?
  }

  /** The message the output handler sends to authenticate a fresh RCON connection. */
  function LoginWords(password: string): seq<string>
  {
    ["login.plainText", password]
  }
}
