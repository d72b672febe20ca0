/**
 * `pipenv shell`: mark the process environment active, then fork a subshell
 * in fancy mode, or in compatibility mode with one fallback to fancy mode when
 * the shell family lacks compatibility support.
 */
module ShellActivation {
  import opened Common
  import opened Environment

  datatype ForkMode = Fancy | Compat   // shell.fork / shell.fork_compat

  /** `(project.virtualenv_location, project.project_directory, shell_args)`. */
  datatype ForkArgs = ForkArgs(venv: Option<string>, projectDir: string, shellArgs: Option<seq<string>>)

  /** One call into the chosen shell, with the process environment it sees. */
  datatype ForkCall = ForkCall(mode: ForkMode, args: ForkArgs, environ: map<string, string>)

  /**
   * An exception a fork call raises. `AttributeError` and `ImportError` each
   * stand for that class together with its subclasses (`ModuleNotFoundError`
   * is an `ImportError`), as `except (AttributeError, ImportError)` matches
   * them; `OtherForkError` is any exception outside both classes.
   */
  datatype ForkError = AttributeError | ImportError | OtherForkError(name: string)

  /** The fork calls made, in order, whether the fallback warning was echoed, and what escapes. */
  datatype ShellRun = ShellRun(calls: seq<ForkCall>, warned: bool, raised: Option<ForkError>)

  const CompatWarning: string :=
    "Compatibility mode not supported. Trying to continue as well-configured shell..."

  /** The exceptions `do_shell` reads as "this shell family has no compatibility mode". */
  predicate MissingCapability(e: ForkError)
  {
    e.AttributeError? || e.ImportError?
  }

  /**
   * The fork ladder of `do_shell`: fancy mode calls `fork` alone; otherwise
   * `fork_compat` is called and, only if it raises `AttributeError` or
   * `ImportError`, the warning is echoed and `fork` is called once. Whatever
   * the last call raises escapes; every call gets the same arguments and sees
   * the same environment.
   */
  function ForkLadder(fancy: bool, args: ForkArgs, environ: map<string, string>,
                      fork: ForkCall -> Option<ForkError>): (r: ShellRun)
    ensures 1 <= |r.calls| <= 2
    ensures forall i :: 0 <= i < |r.calls| ==> r.calls[i].args == args && r.calls[i].environ == environ
    ensures fancy ==> r.calls == [ForkCall(Fancy, args, environ)]
    ensures !fancy ==> r.calls[0].mode == Compat
    ensures |r.calls| == 2 <==> !fancy && fork(r.calls[0]).Some? && MissingCapability(fork(r.calls[0]).value)
    ensures |r.calls| == 2 ==> r.calls[1].mode == Fancy
    ensures r.warned <==> |r.calls| == 2
    ensures r.raised == fork(r.calls[|r.calls| - 1])
  {
    var fancyCall := ForkCall(Fancy, args, environ);
    if fancy then ShellRun([fancyCall], false, fork(fancyCall))
    else
      var compatCall := ForkCall(Compat, args, environ);
      match fork(compatCall)
      case None => ShellRun([compatCall], false, None)
      case Some(e) =>
        if MissingCapability(e) then ShellRun([compatCall, fancyCall], true, fork(fancyCall))
        else ShellRun([compatCall], false, Some(e))
  }

  /** The running pipenv process, whose `os.environ` `do_shell` updates. */
  class Process {
    var environ: map<string, string>

    /**
     * `do_shell`: `PIPENV_SHELL_FANCY` forces fancy mode; the fork arguments
     * are read from the unmarked environment, `PIPENV_ACTIVE` is set, and only
     * then does any fork happen.
     */
    method Shell(fancy: bool, shellFancySetting: bool, projectDir: string, shellArgs: Option<seq<string>>,
                 venvOf: map<string, string> -> Option<string>, fork: ForkCall -> Option<ForkError>)
      returns (run: ShellRun)
      modifies this
      ensures environ == old(environ)[ActiveVar := "1"]
      ensures run == ForkLadder(fancy || shellFancySetting, ForkArgs(venvOf(old(environ)), projectDir, shellArgs),
                                environ, fork)
      ensures forall i :: 0 <= i < |run.calls| ==>
                ActiveVar in run.calls[i].environ && run.calls[i].environ[ActiveVar] == "1"
      ensures forall i :: 0 <= i < |run.calls| ==> run.calls[i].args.venv == venvOf(old(environ))
    {
      var useFancy := fancy;
      if shellFancySetting {
        useFancy := true;
      }
      var forkArgs := ForkArgs(venvOf(environ), projectDir, shellArgs);
      environ := environ[ActiveVar := "1"];
      run := ForkLadder(useFancy, forkArgs, environ, fork);
    }
  }
}
