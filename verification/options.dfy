/**
 * The command-line options the server is launched with (VU.Server/Options.cs):
 * an immutable record, read by the supervisor when it builds the launch arguments.
 */
module LaunchOptions {
  import opened Wrappers
  import opened Text

  /** The server tick rate. The enum's declaration is not part of this model; these are the values the code names. */
  datatype Frequency = Default30 | High60 | High120

  /**
   * `VeniceUnleashedPath` (--path) and `InstancePath` (--instance) are required, so they are plain
   * strings; `GamePath` (--gamepath) is optional and `None` when it was not given.
   */
  datatype Options = Options(
    veniceUnleashedPath: string,
    instancePath: string,
    gamePath: Option<string>,
    gamePort: Int32,
    harmonyPort: Int32,
    remotePort: Int32,
    frequency: Frequency,
    unlisted: bool,
    noUpdate: bool,
    highResTerrain: bool,
    disableTerrainInterop: bool,
    skipChecksum: bool,
    perfTrace: bool,
    environment: string,
    traceDC: bool,
    trace: bool)

  const DEFAULT_GAME_PORT: Int32 := 25200
  const DEFAULT_HARMONY_PORT: Int32 := 7948
  const DEFAULT_REMOTE_PORT: Int32 := 47200
  const DEFAULT_ENVIRONMENT: string := "prod"

  /** The options as the parser produces them when only the two required paths are given. */
  function Defaults(path: string, instance: string): Options
  {
    Options(path, instance, None,
      DEFAULT_GAME_PORT, DEFAULT_HARMONY_PORT, DEFAULT_REMOTE_PORT,
      Default30,
      false, false, false, false, false, false,
      DEFAULT_ENVIRONMENT,
      false, false)
  }
}
