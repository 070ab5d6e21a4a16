/** The application object: its shutdown and restart flags, the done signal that is
    raised once, the command-line dispatch, and where it finds its home directory
    and profile. */
module Application {
  import opened Base

  /** What `Run` does with its arguments once the bean context is up. */
  datatype Dispatch =
    | Invoke(command: string, args: seq<string>)  // runs the named command with the rest
    | InvalidCommand(name: string)                // prints "Invalid command" and usage, no error
    | Usage                                       // prints usage, no error
    | Failed(error: string)                       // returns (or recovers) an error

  /** The panic of `args[1:]` on an empty slice, recovered by `Run`. */
  const SliceBoundsPanic := "runtime error: slice bounds out of range [1:0]"
  /** The panic of `os.Args[0]` with no arguments, recovered by `PostConstruct`. */
  const IndexPanic := "runtime error: index out of range [0] with length 0"

  predicate IsHelpFlag(s: string) { s == "-h" || s == "-help" || s == "--help" }
  predicate IsVersionFlag(s: string) { s == "-v" || s == "-version" || s == "--version" }

  /** A lone help or version flag becomes the matching command; every other
      argument list is kept. */
  function PreprocessArgs(args: seq<string>): (r: seq<string>)
    ensures |args| == 1 && IsHelpFlag(args[0]) ==> r == ["help"]
    ensures |args| == 1 && IsVersionFlag(args[0]) ==> r == ["version"]
    ensures !(|args| == 1 && (IsHelpFlag(args[0]) || IsVersionFlag(args[0]))) ==> r == args
  {
    if |args| == 1 && IsHelpFlag(args[0]) then ["help"]
    else if |args| == 1 && IsVersionFlag(args[0]) then ["version"]
    else args
  }

  lemma PreprocessArgsIdempotent(args: seq<string>)
    ensures PreprocessArgs(PreprocessArgs(args)) == PreprocessArgs(args)
  {
  }

  /** The command chosen for the positional arguments: the one named first, with
      the rest as its arguments; an unknown name is reported, not an error; with no
      arguments the "default" command, whose `args[1:]` on the empty list panics,
      or else the usage text. */
  function DispatchOf(positional: seq<string>, commands: set<string>): (r: Dispatch)
    ensures r.Invoke? <==> |positional| >= 1 && positional[0] in commands
    ensures r.Invoke? ==> r.command == positional[0] && r.args == positional[1..]
    ensures r.InvalidCommand? <==> |positional| >= 1 && positional[0] !in commands
    ensures r.InvalidCommand? ==> r.name == positional[0]
    ensures r.Failed? <==> |positional| == 0 && "default" in commands
    ensures r.Failed? ==> r.error == SliceBoundsPanic
    ensures r.Usage? <==> |positional| == 0 && "default" !in commands
  {
    if |positional| >= 1 then
      if positional[0] in commands then Invoke(positional[0], positional[1..])
      else InvalidCommand(positional[0])
    else if "default" in commands then Failed(SliceBoundsPanic)
    else Usage
  }

  /** `Run`: the bean context's error, then the flag parser's (`parseFlags` stands
      for the flag set and gives the positional arguments), then the dispatch. */
  function Run(args: seq<string>, contextErr: Option<string>,
               parseFlags: seq<string> -> Result<seq<string>>, commands: set<string>): (r: Dispatch)
    ensures contextErr.Some? ==> r == Failed(contextErr.value)
    ensures contextErr.None? && parseFlags(PreprocessArgs(args)).Err? ==>
              r == Failed(parseFlags(PreprocessArgs(args)).error)
    ensures contextErr.None? && parseFlags(PreprocessArgs(args)).Ok? ==>
              r == DispatchOf(parseFlags(PreprocessArgs(args)).value, commands)
  {
    if contextErr.Some? then Failed(contextErr.value)
    else
      match parseFlags(PreprocessArgs(args))
      case Err(e) => Failed(e)
      case Ok(positional) => DispatchOf(positional, commands)
  }

  /** `-h` alone runs the help command with no arguments, when the flag set passes
      plain words through. */
  lemma HelpFlagRunsHelp(flag: string, parseFlags: seq<string> -> Result<seq<string>>, commands: set<string>)
    requires IsHelpFlag(flag) && "help" in commands
    requires parseFlags(["help"]) == Ok(["help"])
    ensures Run([flag], None, parseFlags, commands) == Invoke("help", [])
  {
  }

  /** Running with no arguments fails exactly when a "default" command exists. */
  lemma EmptyArgsFailOnlyWithDefault(parseFlags: seq<string> -> Result<seq<string>>, commands: set<string>)
    requires parseFlags([]) == Ok([])
    ensures Run([], None, parseFlags, commands).Failed? <==> "default" in commands
  {
  }

  /** Where `PostConstruct` finds the application: `exeDir` is the absolute
      directory of the executable; its parent when it is called "bin", itself
      otherwise. `dir`, `base` and `abs` stand for `filepath.Dir`, `filepath.Base`
      and `filepath.Abs`. */
  function ApplicationDir(exeDir: string, dir: string -> string, base: string -> string,
                          abs: string -> Result<string>): (r: Result<string>)
    ensures base(exeDir) == "bin" ==> r == abs(dir(exeDir))
    ensures base(exeDir) != "bin" ==> r == abs(exeDir)
  {
    if base(exeDir) == "bin" then abs(dir(exeDir)) else abs(exeDir)
  }

  /** The profile: environment variable NAME_PROFILE (upper-cased), lower-cased. */
  function Profile(name: string, getenv: string -> string): (r: string)
    ensures |r| == |getenv(ToUpper(name + "_profile"))|
    ensures forall k :: 0 <= k < |r| ==> r[k] == LowerChar(getenv(ToUpper(name + "_profile"))[k])
  {
    ToLower(getenv(ToUpper(name + "_profile")))
  }

  lemma DevModeFromEnv(name: string, getenv: string -> string)
    requires getenv(ToUpper(name + "_profile")) == "DEV"
    ensures Profile(name, getenv) == "dev"
  {
  }

  class Application {
    var name: string
    var version: string
    var build: string
    var profile: string
    var executable: string
    var executableDir: string
    var applicationDir: string
    var devMode: bool

    var shuttingDown: bool
    var restarting: bool
    /** Whether the done channel has been closed, and how often it was. */
    var doneClosed: bool
    var closeCount: nat
    var applicationErr: Option<string>

    /** The shutdown state is consistent: the done channel is closed at most once,
        exactly when shutdown has begun, and only then is there an error. */
    ghost predicate Valid()
      reads this
    {
      closeCount <= 1 && (doneClosed <==> closeCount == 1) && (shuttingDown <==> doneClosed)
      && applicationErr == (if shuttingDown then Some("application shutting down") else None)
    }

    constructor (name: string, version: string, build: string)
      ensures Valid() && Active() && !restarting && Err() == None && !Done()
      ensures this.name == name && this.version == version && this.build == build
    {
      this.name := name;
      this.version := version;
      this.build := build;
      profile := "";
      executable := "";
      executableDir := "";
      applicationDir := "";
      devMode := false;
      shuttingDown := false;
      restarting := false;
      doneClosed := false;
      closeCount := 0;
      applicationErr := None;
    }

    function Active(): (r: bool)
      reads this
      ensures r == !shuttingDown
    {
      !shuttingDown
    }

    function Restarting(): (r: bool)
      reads this
      ensures r == restarting
    {
      restarting
    }

    /** Whether the done channel is closed. */
    function Done(): (r: bool)
      reads this
      ensures r == doneClosed
    {
      doneClosed
    }

    function Err(): (r: Option<string>)
      reads this
      ensures r == applicationErr
    {
      applicationErr
    }

    /** Records the restart flag, ends `Active`, closes the done channel the first
        time only, and sets the error. */
    method Shutdown(restart: bool)
      requires Valid()
      modifies this`restarting, this`shuttingDown, this`doneClosed, this`closeCount, this`applicationErr
      ensures Valid()
      ensures restarting == restart && !Active() && Done() && closeCount == 1
      ensures Err() == Some("application shutting down")
    {
      restarting := restart;
      shuttingDown := true;
      if !doneClosed {
        doneClosed := true;
        closeCount := closeCount + 1;
      }
      applicationErr := Some("application shutting down");
    }

    /** Derives the executable, its directory, the application directory, the
        profile and dev mode from `osArgs`, the environment and the file system. */
    method PostConstruct(osArgs: seq<string>, dir: string -> string, base: string -> string,
                         abs: string -> Result<string>, getenv: string -> string)
      returns (err: Option<string>)
      modifies this`executable, this`executableDir, this`applicationDir, this`profile, this`devMode
      ensures |osArgs| == 0 ==> err == Some(IndexPanic)
      ensures |osArgs| > 0 && abs(dir(osArgs[0])).Err? ==>
                err == Some(abs(dir(osArgs[0])).error) && executable == osArgs[0]
      ensures |osArgs| > 0 && abs(dir(osArgs[0])).Ok? ==>
                var exeDir := abs(dir(osArgs[0])).value;
                var appDir := ApplicationDir(exeDir, dir, base, abs);
                executableDir == exeDir && executable == base(osArgs[0])
                && (appDir.Err? ==> err == Some(appDir.error))
                && (appDir.Ok? ==> err == None && applicationDir == appDir.value
                                   && profile == Profile(name, getenv)
                                   && (devMode <==> profile == "dev"))
    {
      if |osArgs| == 0 {
        return Some(IndexPanic);
      }
      executable := osArgs[0];
      var exeDir := abs(dir(executable));
      if exeDir.Err? {
        executableDir := "";
        return Some(exeDir.error);
      }
      executableDir := exeDir.value;
      executable := base(executable);
      var appDir := ApplicationDir(executableDir, dir, base, abs);
      if appDir.Err? {
        applicationDir := "";
        return Some(appDir.error);
      }
      applicationDir := appDir.value;
      var envName := ToUpper(name + "_profile");
      profile := ToLower(getenv(envName));
      devMode := profile == "dev";
      err := None;
    }
  }
}
