/**
 The configuration bootstrap of a Gladius node: where the base directory is,
 which directories are searched for the configuration file, and what a failed
 read of that file means for start-up.

 The process environment is an explicit snapshot (`Env`); the configuration
 library that stores and reads the configuration is outside this model, so its
 read error is an input of `SetupConfig`.
 */
module Config {
  import opened GoStrings

  datatype Option<T> = None | Some(value: T)

  /** What the resolver reads from the process. An unset environment variable
      reads as the empty string, as with `os.Getenv`. */
  datatype Env = Env(
    gladiusBase: string,  // GLADIUSBASE
    flagB: string,        // the value of the -b command-line flag ("" when absent)
    goos: string,         // runtime.GOOS
    home: string,         // HOME
    homeDrive: string,    // HOMEDRIVE
    homePath: string      // HOMEPATH
  )

  /** `filepath.Join` of three elements; its path-cleaning rules are not modelled. */
  type PathJoin = (string, string, string) -> string

  /** The resolver's pair of results: a path and an error that is nil (`None`) or carries its message. */
  datatype BaseResult = BaseResult(path: string, err: Option<string>)

  const WindowsDir := ".gladius"
  const UnixSuffix := "/.config/gladius"
  const UnknownOsMessage := "Unknown operating system, can't find gladius base directory. Set the GLADIUSBASE environment variable, or use the flag -b <base_dir> to add it manually."

  /** The operating systems for which the resolver knows a default location. */
  predicate KnownOs(goos: string) {
    goos == "windows" || goos == "linux" || goos == "darwin"
  }

  /** The base directory, as `GetGladiusBase` computes it. The -b flag is looked at
      only when GLADIUSBASE is set; otherwise the operating system decides. */
  function GetGladiusBase(env: Env, join: PathJoin): (r: BaseResult)
    ensures r.err.Some? <==> env.gladiusBase == "" && !KnownOs(env.goos)
    ensures r.err.Some? ==> r.path == "" && r.err.value == UnknownOsMessage
    ensures env.gladiusBase != "" ==> r.path != ""
  {
    if env.gladiusBase == "" then
      if env.goos == "windows" then
        BaseResult(join(env.homeDrive, env.homePath, WindowsDir), None)
      else if env.goos == "linux" then
        BaseResult(env.home + UnixSuffix, None)
      else if env.goos == "darwin" then
        BaseResult(env.home + UnixSuffix, None)
      else
        BaseResult("", Some(UnknownOsMessage))
    else if env.flagB != "" then
      BaseResult(env.flagB, None)
    else
      BaseResult(env.gladiusBase, None)
  }

  /** Without GLADIUSBASE, Linux and macOS use HOME/.config/gladius, whatever -b holds. */
  lemma UnixDefault(env: Env, join: PathJoin)
    requires env.gladiusBase == "" && (env.goos == "linux" || env.goos == "darwin")
    ensures GetGladiusBase(env, join) == BaseResult(env.home + "/.config/gladius", None)
  {
  }

  /** Without GLADIUSBASE, Windows uses the join of HOMEDRIVE, HOMEPATH and `.gladius`, whatever -b holds. */
  lemma WindowsDefault(env: Env, join: PathJoin)
    requires env.gladiusBase == "" && env.goos == "windows"
    ensures GetGladiusBase(env, join) == BaseResult(join(env.homeDrive, env.homePath, ".gladius"), None)
  {
  }

  /** Without GLADIUSBASE, an unrecognised operating system gives the empty path and an error. */
  lemma UnknownOsFails(env: Env, join: PathJoin)
    requires env.gladiusBase == "" && env.goos != "windows" && env.goos != "linux" && env.goos != "darwin"
    ensures GetGladiusBase(env, join).path == ""
    ensures GetGladiusBase(env, join).err.Some?
  {
  }

  /** With GLADIUSBASE set, a non-empty -b flag wins over it. */
  lemma FlagOverridesEnv(env: Env, join: PathJoin)
    requires env.gladiusBase != "" && env.flagB != ""
    ensures GetGladiusBase(env, join) == BaseResult(env.flagB, None)
  {
  }

  /** With GLADIUSBASE set and -b empty, GLADIUSBASE is the base directory. */
  lemma EnvWithoutFlag(env: Env, join: PathJoin)
    requires env.gladiusBase != "" && env.flagB == ""
    ensures GetGladiusBase(env, join) == BaseResult(env.gladiusBase, None)
  {
  }

  /** With GLADIUSBASE set the operating system, the home variables and the join are
      never consulted: two snapshots that agree on GLADIUSBASE and -b resolve alike, without error. */
  lemma OsIgnoredWhenEnvSet(e1: Env, j1: PathJoin, e2: Env, j2: PathJoin)
    requires e1.gladiusBase != "" && e1.gladiusBase == e2.gladiusBase && e1.flagB == e2.flagB
    ensures GetGladiusBase(e1, j1) == GetGladiusBase(e2, j2)
    ensures GetGladiusBase(e1, j1).err == None
  {
  }

  /** Without GLADIUSBASE the -b flag is never consulted: snapshots that differ only in -b resolve alike. */
  lemma FlagIgnoredWhenEnvUnset(env: Env, join: PathJoin, flag: string)
    requires env.gladiusBase == ""
    ensures GetGladiusBase(env.(flagB := flag), join) == GetGladiusBase(env, join)
  {
  }

  /** The resolver is not "flag first": on Linux with GLADIUSBASE unset, -b is passed over
      for the home default, and on an unknown system -b alone does not avoid the error. */
  lemma FlagIsNotFirst(join: PathJoin)
    ensures GetGladiusBase(Env("", "/srv/gladius", "linux", "/home/n", "", ""), join).path == "/home/n/.config/gladius"
    ensures GetGladiusBase(Env("", "/srv/gladius", "plan9", "/home/n", "", ""), join).err.Some?
  {
  }

  const CurrentDir := "."

  /** The directories handed to the configuration library, in registration order:
      the current directory only when the resolver failed, otherwise the current
      directory and then the base directory. */
  function SearchPaths(b: BaseResult): (paths: seq<string>)
    ensures |paths| >= 1 && paths[0] == CurrentDir
    ensures paths == [CurrentDir] <==> b.err.Some?
    ensures b.err.None? ==> |paths| == 2 && paths[1] == b.path
  {
    if b.err.Some? then [CurrentDir] else [CurrentDir, b.path]
  }

  /** Only an unresolvable base directory restricts the search to the current directory. */
  lemma LocalOnlySearch(env: Env, join: PathJoin)
    ensures SearchPaths(GetGladiusBase(env, join)) == ["."]
        <==> env.gladiusBase == "" && !KnownOs(env.goos)
  {
  }

  /** What start-up does after reading the configuration file. */
  datatype ReadOutcome =
    | Proceed      // the file was read
    | Recoverable  // a read error whose message begins with "Config File" (the library's not-found error): log and go on with the defaults
    | Fatal        // any other read error: panic

  /** The message prefix of the configuration library's "not found" error. */
  const NotFoundPrefix := "Config File"

  /** The classification of the read error (`None` is a nil error). */
  function Classify(readErr: Option<string>): (o: ReadOutcome)
    ensures o == Proceed <==> readErr.None?
    ensures o == Recoverable <==>
      readErr.Some? && |NotFoundPrefix| <= |readErr.value|
      && readErr.value[..|NotFoundPrefix|] == NotFoundPrefix
    ensures o == Fatal <==>
      readErr.Some? && !(|NotFoundPrefix| <= |readErr.value|
      && readErr.value[..|NotFoundPrefix|] == NotFoundPrefix)
  {
    match readErr
    case None => Proceed
    case Some(msg) => if HasPrefix(msg, NotFoundPrefix) then Recoverable else Fatal
  }

  /** Every message that begins with "Config File" is recoverable, whatever follows. */
  lemma NotFoundIsRecoverable(rest: string)
    ensures Classify(Some("Config File" + rest)) == Recoverable
  {
  }

  /** The test is case-sensitive and positional: a message that differs from
      "Config File" in one of its first eleven characters is fatal. */
  lemma MismatchIsFatal(msg: string, i: nat)
    requires i < |msg| && i < |NotFoundPrefix| && msg[i] != NotFoundPrefix[i]
    ensures Classify(Some(msg)) == Fatal
  {
  }

  /** A message shorter than "Config File" is fatal. */
  lemma ShortMessageIsFatal(msg: string)
    requires |msg| < |NotFoundPrefix|
    ensures Classify(Some(msg)) == Fatal
  {
  }

  /** `SetupConfig` without the calls into the configuration library: it registers the
      search paths, takes the library's read error and classifies it; the change watch is
      installed only when start-up did not panic. */
  method SetupConfig(env: Env, join: PathJoin, readErr: Option<string>)
    returns (paths: seq<string>, outcome: ReadOutcome, watching: bool)
    ensures paths == SearchPaths(GetGladiusBase(env, join))
    ensures outcome == Classify(readErr)
    ensures watching <==> readErr.None? || HasPrefix(readErr.value, NotFoundPrefix)
  {
    var base := GetGladiusBase(env, join);
    paths := [CurrentDir];
    if base.err.None? {
      paths := paths + [base.path];
    }
    outcome := Classify(readErr);
    watching := outcome != Fatal;
  }
}
