/**
 * `pipenv run`: resolve the script's command, then either replace the process
 * image (POSIX) or spawn a child with a direct-then-shell fallback and exit
 * with its return code (Windows). Process effects are returned as an
 * `Outcome` value; the helpers the launch logic calls are fields of `Host`.
 */
module Launch {
  import opened Common
  import opened Environment

  /** An `OSError` raised by `os.execve` or `subprocess.Popen`; `winerror` is `None` when the error carries no Windows code. */
  datatype OsError = OsError(winerror: Option<int>, detail: string)

  /** The Windows error code "not a valid Win32 application". */
  const NotWin32App: int := 193

  /** One `subprocess.Popen` call: a direct `CreateProcess` of an argv, or `shell=True` on a command line. */
  datatype Spawn =
    | Direct(argv: seq<string>, env: map<string, string>)
    | ThroughShell(cmdline: string, env: map<string, string>)

  /** The Popen calls made, in order, and the error the last one raised, if any. */
  datatype Spawned = Spawned(attempts: seq<Spawn>, error: Option<OsError>)

  /** The lines echoed to stderr before the process ends. */
  datatype Diagnostic =
    | ScriptNotFound(declared: string, invoked: string)
    | CommandNotFound(invoked: string)
    | EmptyScript

  datatype Error =
    | OsFailure(e: OsError)
    | ScriptUnbound   // `script` is read at the call site after `build_script` raised

  /** How a run ends. */
  datatype Outcome =
    | Exec(path: string, argv: seq<string>, env: map<string, string>)   // os.execve succeeded: the image is replaced
    | Exit(code: int, echoed: seq<Diagnostic>)                          // sys.exit(code)
    | Raise(error: Error, echoed: seq<Diagnostic>)                      // an exception escapes do_run

  /** The collaborators whose bodies are not part of this model. */
  datatype Host = Host(
    which: (string, Option<string>) -> Option<string>,   // system_which(command, path=...)
    expand: string -> string,                            // os.path.expandvars
    hasScript: string -> bool,                           // project.has_script
    execve: (string, seq<string>, map<string, string>) -> Option<OsError>,  // None when the image is replaced
    cmdify: seq<string> -> string,                       // Script.cmdify() over the script's parts
    popen: Spawn -> Option<OsError>,                     // None when the child starts
    wait: Spawn -> int)                                  // the child's returncode after communicate()

  /** A script: `parts[0]` is the command, `parts[1..]` its arguments, `parts` itself is `cmd_args`. */
  class Script {
    var parts: seq<string>

    /** `Script(command, args)`: the command followed by its arguments. */
    constructor (command: string, args: seq<string>)
      ensures Valid() && Command() == command && Args() == args
    {
      parts := [command] + args;
      new;
      assert parts[1..] == args;
    }

    ghost predicate Valid()
      reads this
    {
      |parts| >= 1
    }

    function Command(): string
      reads this
      requires Valid()
    {
      parts[0]
    }

    function Args(): seq<string>
      reads this
      requires Valid()
    {
      parts[1..]
    }
  }

  // The fixed pieces of the echoed diagnostics.
  const ErrorHead: string := "Error: the command "
  const FromOpen: string := " (from "
  const FromClose: string := ") could not be found within "
  const NotFoundWithin: string := " could not be found within "
  const PathWord: string := "PATH"
  const OrPipfile: string := " or Pipfile's "
  const ScriptsWord: string := "[scripts]"

  /** `needle` occurs in `hay` starting at index `i`. */
  ghost predicate OccursAt(needle: string, hay: string, i: int)
  {
    0 <= i <= |hay| - |needle| && hay[i..i + |needle|] == needle
  }

  /**
   * The unstyled text of a diagnostic, as echoed: both not-found texts open
   * with "Error: the command " and the name (the declared command for a
   * script), and close with a full stop; the empty-script text keeps its
   * `{0!r}` placeholder unformatted.
   */
  function Message(d: Diagnostic): (r: string)
    ensures !d.EmptyScript? ==> OccursAt(ErrorHead, r, 0) && |r| > |ErrorHead| && r[|r| - 1] == '.'
    ensures d.ScriptNotFound? ==> OccursAt(d.declared, r, |ErrorHead|)
    ensures d.CommandNotFound? ==> OccursAt(d.invoked, r, |ErrorHead|)
    ensures d.EmptyScript? ==> OccursAt("{0!r}", r, 17)
  {
    match d
    case ScriptNotFound(declared, invoked) =>
      ErrorHead + declared + FromOpen + invoked + FromClose + PathWord + "."
    case CommandNotFound(invoked) =>
      ErrorHead + invoked + NotFoundWithin + PathWord + OrPipfile + ScriptsWord + "."
    case EmptyScript =>
      "Can't run script {0!r}-it's empty?"
  }

  ghost predicate IsInfix(needle: string, hay: string)
  {
    exists i :: OccursAt(needle, hay, i)
  }

  lemma InfixOfConcat(pre: string, needle: string, post: string)
    ensures IsInfix(needle, pre + needle + post)
  {
    assert OccursAt(needle, pre + needle + post, |pre|);
  }

  /** For a declared script the not-found text names the declared command, the invoked name and PATH. */
  lemma ScriptNotFoundMessage(declared: string, invoked: string)
    ensures IsInfix(declared, Message(ScriptNotFound(declared, invoked)))
    ensures IsInfix(invoked, Message(ScriptNotFound(declared, invoked)))
    ensures IsInfix(PathWord, Message(ScriptNotFound(declared, invoked)))
  {
    var m := Message(ScriptNotFound(declared, invoked));
    var a, b := ErrorHead + declared + FromOpen, FromClose + PathWord + ".";
    assert m == ErrorHead + declared + (FromOpen + invoked + b);
    InfixOfConcat(ErrorHead, declared, FromOpen + invoked + b);
    assert m == a + invoked + b;
    InfixOfConcat(a, invoked, b);
    assert m == a + invoked + FromClose + PathWord + ".";
    InfixOfConcat(a + invoked + FromClose, PathWord, ".");
  }

  /** For a raw command the not-found text names the invoked name, PATH and [scripts]. */
  lemma CommandNotFoundMessage(invoked: string)
    ensures IsInfix(invoked, Message(CommandNotFound(invoked)))
    ensures IsInfix(PathWord, Message(CommandNotFound(invoked)))
    ensures IsInfix(ScriptsWord, Message(CommandNotFound(invoked)))
  {
    var m := Message(CommandNotFound(invoked));
    InfixOfConcat(ErrorHead, invoked, NotFoundWithin + PathWord + OrPipfile + ScriptsWord + ".");
    assert m == ErrorHead + invoked + (NotFoundWithin + PathWord + OrPipfile + ScriptsWord + ".");
    InfixOfConcat(ErrorHead + invoked + NotFoundWithin, PathWord, OrPipfile + ScriptsWord + ".");
    assert m == ErrorHead + invoked + NotFoundWithin + PathWord + (OrPipfile + ScriptsWord + ".");
    InfixOfConcat(ErrorHead + invoked + NotFoundWithin + PathWord + OrPipfile, ScriptsWord, ".");
  }

  /** The two not-found diagnostics never print the same text: one ends in "PATH.", the other in "[scripts].". */
  lemma NotFoundMessagesDiffer(declared: string, invoked: string, raw: string)
    ensures Message(ScriptNotFound(declared, invoked)) != Message(CommandNotFound(raw))
  {
    var m1 := Message(ScriptNotFound(declared, invoked));
    var m2 := Message(CommandNotFound(raw));
    var p1 := ErrorHead + declared + FromOpen + invoked + FromClose;
    var p2 := ErrorHead + raw + NotFoundWithin + PathWord + OrPipfile;
    assert m1 == p1 + PathWord + ".";
    assert m2 == p2 + ScriptsWord + ".";
    assert m1[|m1| - 2] == 'H';
    assert m2[|m2| - 2] == ']';
  }

  /** A comprehension `[expandvars(arg) for arg in args]`. */
  function ExpandAll(expand: string -> string, args: seq<string>): (r: seq<string>)
    ensures |r| == |args|
    ensures forall i :: 0 <= i < |args| ==> r[i] == expand(args[i])
  {
    if args == [] then [] else [expand(args[0])] + ExpandAll(expand, args[1..])
  }

  /** Truthiness of the result of `system_which`: `None` and `""` both mean not found. */
  predicate Resolved(found: Option<string>)
  {
    found.Some? && found.value != ""
  }

  /** `env.get("PATH")`, the search path on POSIX: `None` when `PATH` is missing or `None`. */
  function PosixSearchPath(env: map<string, EnvValue>): (r: Option<string>)
    ensures r.Some? <==> PathVar in env && env[PathVar] != NoneValue
    ensures r.Some? ==> env[PathVar] == Str(r.value)
  {
    if PathVar in env && env[PathVar].Str? then Some(env[PathVar].s) else None
  }

  /**
   * `env.get("PATH", "")`, the search path on Windows: a missing `PATH` reads
   * as the empty string, a present one exactly as on POSIX.
   */
  function NtSearchPath(env: map<string, EnvValue>): (r: Option<string>)
    ensures PathVar !in env ==> r == Some("")
    ensures PathVar in env ==> r == PosixSearchPath(env)
  {
    if PathVar !in env then Some("")
    else if env[PathVar].Str? then Some(env[PathVar].s)
    else None
  }

  /** The argv `do_run_posix` passes to `os.execve`: the resolved path, then every argument expanded. */
  function ExecArgv(path: string, args: seq<string>, expand: string -> string): (argv: seq<string>)
    ensures |argv| == 1 + |args| && argv[0] == path
    ensures forall i :: 0 <= i < |args| ==> argv[i + 1] == expand(args[i])
  {
    [path] + ExpandAll(expand, args)
  }

  /**
   * `do_run_posix`: a command that cannot be resolved ends the process with
   * status 1 after one diagnostic chosen by whether the invoked name is a
   * declared script; a resolved one is exec'd with the resolved path as
   * `argv[0]`, the expanded arguments after it and the stringified
   * environment, and an `OSError` from `os.execve` escapes unchanged.
   */
  function LaunchPosix(command: string, args: seq<string>, invoked: string, env: map<string, EnvValue>, host: Host)
    : (r: Outcome)
    ensures r.Exit? <==> !Resolved(host.which(command, PosixSearchPath(env)))
    ensures r.Exit? ==> r.code == 1 && |r.echoed| == 1
    ensures r.Exit? && host.hasScript(invoked) ==> r.echoed[0] == ScriptNotFound(command, invoked)
    ensures r.Exit? && !host.hasScript(invoked) ==> r.echoed[0] == CommandNotFound(invoked)
    ensures Resolved(host.which(command, PosixSearchPath(env))) ==>
              var path := host.which(command, PosixSearchPath(env)).value;
              var call := host.execve(path, ExecArgv(path, args, host.expand), StringEnv(env));
              && (r.Exec? <==> call.None?)
              && (r.Exec? ==> r == Exec(path, ExecArgv(path, args, host.expand), StringEnv(env)))
              && (r.Raise? ==> r == Raise(OsFailure(call.value), []))
  {
    var found := host.which(command, PosixSearchPath(env));
    if !Resolved(found) then
      Exit(1, [if host.hasScript(invoked) then ScriptNotFound(command, invoked) else CommandNotFound(invoked)])
    else
      var argv := ExecArgv(found.value, args, host.expand);
      var stringEnv := StringEnv(env);
      match host.execve(found.value, argv, stringEnv)
      case None => Exec(found.value, argv, stringEnv)
      case Some(e) => Raise(OsFailure(e), [])
  }

  /**
   * The spawn ladder of `_launch_windows_subprocess`: an unresolved command is
   * spawned through the shell; a resolved one is spawned directly, and only a
   * direct spawn failing with winerror 193 is retried, once, through the
   * shell. Whatever error the last attempt raises escapes unchanged.
   */
  function SpawnLadder(found: Option<string>, args: seq<string>, cmdline: string, env: map<string, string>,
                       popen: Spawn -> Option<OsError>): (r: Spawned)
    ensures 1 <= |r.attempts| <= 2
    ensures !Resolved(found) ==> r.attempts == [ThroughShell(cmdline, env)]
    ensures Resolved(found) ==> r.attempts[0] == Direct([found.value] + args, env)
    ensures |r.attempts| == 2 <==>
              Resolved(found) && popen(r.attempts[0]).Some? && popen(r.attempts[0]).value.winerror == Some(NotWin32App)
    ensures |r.attempts| == 2 ==> r.attempts[1] == ThroughShell(cmdline, env)
    ensures r.error == popen(r.attempts[|r.attempts| - 1])
  {
    var shell := ThroughShell(cmdline, env);
    if !Resolved(found) then Spawned([shell], popen(shell))
    else
      var direct := Direct([found.value] + args, env);
      match popen(direct)
      case None => Spawned([direct], None)
      case Some(e) =>
        if e.winerror != Some(NotWin32App) then Spawned([direct], Some(e))
        else Spawned([direct, shell], popen(shell))
  }

  /** A direct spawn failing with any error other than winerror 193 is raised unchanged, with no retry. */
  lemma OtherSpawnErrorsPropagate(found: Option<string>, args: seq<string>, cmdline: string,
                                  env: map<string, string>, popen: Spawn -> Option<OsError>, e: OsError)
    requires Resolved(found)
    requires popen(Direct([found.value] + args, env)) == Some(e)
    requires e.winerror != Some(NotWin32App)
    ensures SpawnLadder(found, args, cmdline, env, popen) == Spawned([Direct([found.value] + args, env)], Some(e))
  {
  }

  /** `_launch_windows_subprocess`: rewrite `cmd_args[1:]` with the expanded arguments, then run the ladder. */
  method LaunchWindows(script: Script, env: map<string, EnvValue>, host: Host) returns (spawned: Spawned)
    requires script.Valid()
    modifies script
    ensures script.Valid()
    ensures script.Command() == old(script.Command())
    ensures script.Args() == ExpandAll(host.expand, old(script.Args()))
    ensures spawned == SpawnLadder(host.which(script.Command(), NtSearchPath(env)), script.Args(),
                                   host.cmdify(script.parts), StringEnv(env), host.popen)
  {
    var found := host.which(script.Command(), NtSearchPath(env));
    var stringEnv := StringEnv(env);
    script.parts := script.parts[..1] + ExpandAll(host.expand, script.parts[1..]);
    assert script.parts[1..] == ExpandAll(host.expand, old(script.parts)[1..]);
    spawned := SpawnLadder(found, script.Args(), host.cmdify(script.parts), stringEnv, host.popen);
  }

  /** `p.communicate(); sys.exit(p.returncode)`, or the Popen error escaping. */
  function ChildExit(spawned: Spawned, wait: Spawn -> int): (r: Outcome)
    requires |spawned.attempts| >= 1
    ensures r.Exit? || r.Raise?
    ensures r.Exit? <==> spawned.error.None?
    ensures r.Exit? ==> r.code == wait(spawned.attempts[|spawned.attempts| - 1]) && r.echoed == []
    ensures r.Raise? ==> r.error == OsFailure(spawned.error.value) && r.echoed == []
  {
    match spawned.error
    case None => Exit(wait(spawned.attempts[|spawned.attempts| - 1]), [])
    case Some(e) => Raise(OsFailure(e), [])
  }

  /** `do_run_nt`: launch, wait, and exit with the child's return code. */
  method RunNt(script: Script, env: map<string, EnvValue>, host: Host) returns (out: Outcome)
    requires script.Valid()
    modifies script
    ensures script.Valid()
    ensures script.Command() == old(script.Command())
    ensures script.Args() == ExpandAll(host.expand, old(script.Args()))
    ensures out == ChildExit(SpawnLadder(host.which(script.Command(), NtSearchPath(env)), script.Args(),
                                         host.cmdify(script.parts), StringEnv(env), host.popen), host.wait)
  {
    var spawned := LaunchWindows(script, env, host);
    out := ChildExit(spawned, host.wait);
  }

  /**
   * `do_run`: build the child environment `env`, then dispatch on `os.name`.
   * A script that `build_script` reported empty is `None` here: the
   * empty-script line is echoed and the unbound `script` escapes as an error.
   */
  method Run(ambient: map<string, string>, os: OsName, venv: Option<string>, invoked: string,
             built: Option<Script>, host: Host) returns (env: map<string, string>, out: Outcome)
    requires built.Some? ==> built.value.Valid()
    modifies if built.Some? then {built.value} else {}
    ensures IsRunEnv(env, ambient, venv, os)
    ensures StringEnv(Lift(env)) == env
    ensures built.None? ==> out == Raise(ScriptUnbound, [EmptyScript])
    ensures built.Some? ==> built.value.Valid() && built.value.Command() == old(built.value.Command())
    ensures built.Some? && os == Posix ==>
              && built.value.parts == old(built.value.parts)
              && out == LaunchPosix(built.value.Command(), built.value.Args(), invoked, Lift(env), host)
    ensures built.Some? && os == Nt ==>
              && built.value.Args() == ExpandAll(host.expand, old(built.value.Args()))
              && out == ChildExit(SpawnLadder(host.which(built.value.Command(), NtSearchPath(Lift(env))),
                                              built.value.Args(), host.cmdify(built.value.parts), env, host.popen),
                                  host.wait)
  {
    env := BuildRunEnv(ambient, venv, os);
    StringEnvOfStrings(env);
    if built.None? {
      out := Raise(ScriptUnbound, [EmptyScript]);
      return;
    }
    var script := built.value;
    if os == Nt {
      out := RunNt(script, Lift(env), host);
    } else {
      out := LaunchPosix(script.Command(), script.Args(), invoked, Lift(env), host);
    }
  }
}
