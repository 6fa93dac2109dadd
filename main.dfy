/**
 * Start-up of the tracking monitor: the early returns of `main` and `loadConfig`, which
 * resolves the configuration file's path, loads it and checks the database DSN.
 *
 * The file system and the JSON decoder are inputs: `filepath.Abs`, `os.Stat(..).IsDir()`
 * and "open and decode the file" are functions from a path to an answer.
 */
module Config {
  import opened Wrappers
  import opened GoStrings

  const AppName: string := "tracking-monitor"
  const AppVersion: string := "0.1.0"

  /** The configuration file used when no path is given. */
  const DefaultConfigFile: string := "./" + AppName + ".json"

  const DsnFormatError: string := "dsn should contains at(@) and colon(:)"

  /**
   * Answers of the file system and the decoder for a path.
   * `readConfig(p)` opens and decodes the file at `p`: an error, or the DSN the file sets
   * (None when the file leaves the DSN out, so the decoder keeps the value already held).
   */
  datatype FileSystem = FileSystem(
    abs: string -> Result<string>,
    isDir: string -> Result<bool>,
    readConfig: string -> Result<Option<string>>)

  /**
   * `filepath.Join(dir, DefaultConfigFile)` for a clean directory path, as `filepath.Abs`
   * returns: Join drops the "./" of the file name and puts one separator between the two.
   * The joined path names the default configuration file directly inside `dir`.
   */
  function JoinDefaultConfigFile(dir: string): (r: string)
    ensures |dir| <= |r| && r[..|dir|] == dir
    ensures |r| >= |AppName| + 6 && r[|r| - |AppName| - 6..] == "/" + AppName + ".json"
    ensures |r| == |dir| + |AppName| + (if |dir| > 0 && dir[|dir| - 1] == '/' then 5 else 6)
  {
    if |dir| > 0 && dir[|dir| - 1] == '/' then
      var r := dir + AppName + ".json";
      assert r[|r| - |AppName| - 6..] == dir[|dir| - 1..] + AppName + ".json";
      r
    else
      var r := dir + "/" + AppName + ".json";
      assert r[|r| - |AppName| - 6..] == "/" + AppName + ".json";
      r
  }

  /**
   * The path `loadConfig` hands to `loadConfigFromFile`: an empty path stands for the
   * default file; the absolute path is used as it is unless it is a directory, in which
   * case the default file in it is; an error of `Abs` or of `Stat` is the answer, unchanged.
   */
  function ResolveConfigPath(configFile: string, fs: FileSystem): (r: Result<string>)
    ensures var path := if configFile == "" then DefaultConfigFile else configFile;
      && (fs.abs(path).Err? ==> r == Err(fs.abs(path).error))
      && (fs.abs(path).Ok? && fs.isDir(fs.abs(path).value).Err? ==> r == Err(fs.isDir(fs.abs(path).value).error))
      && (fs.abs(path).Ok? && fs.isDir(fs.abs(path).value) == Ok(false) ==> r == Ok(fs.abs(path).value))
      && (fs.abs(path).Ok? && fs.isDir(fs.abs(path).value) == Ok(true) ==>
            r == Ok(JoinDefaultConfigFile(fs.abs(path).value)))
  {
    var path := if configFile == "" then DefaultConfigFile else configFile;
    match fs.abs(path)
    case Err(e) => Err(e)
    case Ok(absPath) =>
      match fs.isDir(absPath)
      case Err(e) => Err(e)
      case Ok(dir) => Ok(if dir then JoinDefaultConfigFile(absPath) else absPath)
  }

  /**
   * `main` trims its argument before calling `loadConfig`, so an argument of white space
   * only (or none) resolves exactly as the default configuration file does.
   */
  lemma BlankArgumentUsesDefault(arg: string, fs: FileSystem)
    requires AllSpace(arg)
    ensures ResolveConfigPath(TrimSpace(arg), fs) == ResolveConfigPath(DefaultConfigFile, fs)
  {
    TrimSpaceEmptyIffAllSpace(arg);
  }

  /** The DSN test of `loadConfig`: not empty, and it contains both '@' and ':'. */
  predicate DsnAcceptable(dsn: string)
  {
    dsn != "" && Contains(dsn, "@") && Contains(dsn, ":")
  }

  /** The emptiness test is implied by the other two: a DSN passes exactly when it has '@' and ':'. */
  lemma DsnAcceptableIff(dsn: string)
    ensures DsnAcceptable(dsn) <==> '@' in dsn && ':' in dsn
  {
    ContainsChar(dsn, '@');
    ContainsChar(dsn, ':');
  }

  /** The process-wide configuration (`configuration`); the model keeps its DSN. */
  class Configuration {
    var dsn: string

    /** The package-level initialiser leaves the DSN empty. */
    constructor ()
      ensures dsn == ""
    {
      dsn := "";
    }
  }

  /** `loadConfigFromFile`: decode the file into the configuration, or return the error. */
  method LoadConfigFromFile(config: Configuration, fs: FileSystem, configFile: string) returns (err: Option<string>)
    modifies config
    ensures fs.readConfig(configFile).Err? ==> err == Some(fs.readConfig(configFile).error) && config.dsn == old(config.dsn)
    ensures fs.readConfig(configFile) == Ok(None) ==> err == None && config.dsn == old(config.dsn)
    ensures fs.readConfig(configFile).Ok? && fs.readConfig(configFile).value.Some? ==>
      err == None && config.dsn == fs.readConfig(configFile).value.value
  {
    match fs.readConfig(configFile)
    case Err(e) =>
      return Some(e);
    case Ok(decoded) =>
      if decoded.Some? {
        config.dsn := decoded.value;
      }
      return None;
  }

  /**
   * `loadConfig`. `loadedFrom` is the path handed to `loadConfigFromFile` (the path it
   * prints), None when resolution failed first. Errors of `Abs`, `Stat` and loading come
   * back unchanged and stop the DSN check; otherwise the DSN is stored trimmed and the
   * result is None exactly when that trimmed DSN is acceptable.
   */
  method LoadConfig(config: Configuration, configFile: string, fs: FileSystem)
    returns (err: Option<string>, loadedFrom: Option<string>)
    modifies config
    ensures ResolveConfigPath(configFile, fs).Err? ==>
      && loadedFrom == None
      && err == Some(ResolveConfigPath(configFile, fs).error)
      && config.dsn == old(config.dsn)
    ensures ResolveConfigPath(configFile, fs).Ok? ==> loadedFrom == Some(ResolveConfigPath(configFile, fs).value)
    ensures loadedFrom.Some? && fs.readConfig(loadedFrom.value).Err? ==>
      err == Some(fs.readConfig(loadedFrom.value).error) && config.dsn == old(config.dsn)
    ensures loadedFrom.Some? && fs.readConfig(loadedFrom.value).Ok? ==>
      && config.dsn == TrimSpace(match fs.readConfig(loadedFrom.value).value
                                 case Some(dsn) => dsn
                                 case None => old(config.dsn))
      && (err == None <==> DsnAcceptable(config.dsn))
      && (err != None ==> err == Some(DsnFormatError))
  {
    loadedFrom := None;
    var path := configFile;
    if path == "" {
      path := DefaultConfigFile;
    }
    var absPath := fs.abs(path);
    if absPath.Err? {
      return Some(absPath.error), None;
    }
    path := absPath.value;
    var stat := fs.isDir(path);
    if stat.Err? {
      return Some(stat.error), None;
    }
    if stat.value {
      path := JoinDefaultConfigFile(path);
    }
    loadedFrom := Some(path);
    err := LoadConfigFromFile(config, fs, path);
    if err.Some? {
      return;
    }
    config.dsn := TrimSpace(config.dsn);
    if !DsnAcceptable(config.dsn) {
      return Some(DsnFormatError), loadedFrom;
    }
    return None, loadedFrom;
  }

  // ---------------------------------------------------------------------------
  // The early returns of `main`

  /** The command-line flags; each defaults to false. */
  datatype Flags = Flags(version: bool, help: bool, verify: bool, debug: bool)

  /** The steps `main` takes, in order. */
  datatype Step =
    | ShowVersion        // print "<AppName> version <AppVersion>" and return
    | ShowUsage          // print the usage text and return
    | DiscardLogs        // without -debug, log output is discarded
    | LoadConfiguration  // loadConfig on the trimmed first argument
    | PanicOnConfig      // loadConfig returned an error
    | ShowConfiguration  // -verify: print the configuration and return
    | WritePidFile
    | InitDatabase
    | InitRedisCache
    | InitRedisQueue
    | RunForever

  /** The steps of `main` given its flags and whether `loadConfig` succeeds. */
  function MainSteps(flags: Flags, configLoaded: bool): (r: seq<Step>)
    ensures flags.version ==> r == [ShowVersion]
    ensures !flags.version && flags.help ==> r == [ShowUsage]
    ensures LoadConfiguration in r <==> !flags.version && !flags.help
    ensures DiscardLogs in r <==> !flags.version && !flags.help && !flags.debug
    ensures PanicOnConfig in r <==> LoadConfiguration in r && !configLoaded
    ensures ShowConfiguration in r <==> LoadConfiguration in r && configLoaded && flags.verify
    ensures InitDatabase in r <==> LoadConfiguration in r && configLoaded && !flags.verify
    ensures |r| > 0 && (ShowConfiguration in r ==> r[|r| - 1] == ShowConfiguration)
    ensures PanicOnConfig in r ==> r[|r| - 1] == PanicOnConfig
    ensures flags.verify || !configLoaded ==>
      WritePidFile !in r && InitRedisCache !in r && InitRedisQueue !in r && RunForever !in r
    ensures forall j :: 0 <= j < |r| && r[j] in {ShowConfiguration, InitDatabase} ==> LoadConfiguration in r[..j]
    ensures forall i, j :: 0 <= i < j < |r| && r[i] == LoadConfiguration ==> r[j] != DiscardLogs
  {
    if flags.version then [ShowVersion]
    else if flags.help then [ShowUsage]
    else
      (if !flags.debug then [DiscardLogs] else []) + [LoadConfiguration] +
      (if !configLoaded then [PanicOnConfig]
       else if flags.verify then [ShowConfiguration]
       else [WritePidFile, InitDatabase, InitRedisCache, InitRedisQueue, RunForever])
  }
}
