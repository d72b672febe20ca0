# pipenv `run` / `shell` launch logic in Dafny

This project models the launch logic of `pipenv run` and `pipenv shell` (`pipenv/routines/shell.py`):

- **Environment construction** (`do_run`). The ambient environment is copied. The virtualenv's `bin`
  directory (`Scripts` when `os.name == "nt"`) is prepended to `PATH` by split, insert at 0 and join on
  `os.pathsep`. `VIRTUAL_ENV` is set to the virtualenv location. `PIPENV_ACTIVE` is set to `"1"` last.
  Launchers then hand the operating system a stringified copy of the environment without its `None` values.
- **POSIX launch** (`do_run_posix`). An unresolved command ends the process with status 1. Before that,
  one diagnostic is echoed. Its text depends on whether the invoked name is a declared script. A resolved
  command is exec'd with argv `[path] + [expandvars(a) for a in args]`. An `OSError` from `os.execve`
  escapes unchanged.
- **Windows launch** (`_launch_windows_subprocess`, `do_run_nt`). `cmd_args[1:]` is rewritten in place
  with the expanded arguments. An unresolved command is spawned through the shell. A resolved one is
  spawned directly. Only winerror 193 leads to one shell retry. Every other `OSError` escapes unchanged.
  The process exits with the child's return code.
- **Shell activation** (`do_shell`). `PIPENV_SHELL_FANCY` forces fancy mode. The fork arguments are read
  before `PIPENV_ACTIVE` is set in `os.environ`. Fancy mode calls `fork` only. Otherwise `fork_compat`
  is called. If it raises `AttributeError` or `ImportError`, a warning is echoed and `fork` is called once.

Process effects are values. A successful `os.execve` is `Outcome.Exec`. `sys.exit` is `Outcome.Exit`. An escaping
exception is `Outcome.Raise`. Each `subprocess.Popen` call is a `Spawn`. Each call into the shell object
is a `ForkCall`. Helpers whose bodies are not in this model are the fields of `Launch.Host`, or function
parameters. These are `system_which`, `os.path.expandvars`, `project.has_script`, `Script.cmdify`,
whether `os.execve` or `Popen` raises, the child's `returncode`, `shell.fork`/`fork_compat` and
`project.virtualenv_location`. The ambient environment and `os.name` are parameters. `os.environ`
is the field of the `ShellActivation.Process` class, because `do_shell` updates it in place.

`pipenv/cmdparse.py` is not part of this model. `Launch.Script` follows how pipenv's `Script` stores
a command: one list `parts`. `command` is `parts[0]`, `args` is `parts[1:]` and `cmd_args` is the list
itself. So once `cmd_args[1:]` has been rewritten, the direct spawn's `script.args` are the expanded
arguments.

`build_script` raises `ScriptEmptyError` for an empty script, so `script` is unbound at
`shell.py:111`. `Launch.Run` therefore ends in `Raise(ScriptUnbound, [EmptyScript])`: the message is
echoed with its literal `{0!r}`, and then the unbound-name error escapes.

## Model

| member | source | states |
|---|---|---|
| `PathList.Split` | pipenv/routines/shell.py:90 | `path.split(os.pathsep)` yields at least one piece, and no piece contains the separator |
| `PathList.Join` | pipenv/routines/shell.py:92 | `os.pathsep.join(paths)`: no pieces give `""`; otherwise the first piece starts the result, and the separator follows it when there is a second piece (the round trips with `split` are the lemmas below) |
| `PathList.JoinSplit` | pipenv/routines/shell.py:90-92 | joining the pieces of a split on the same separator gives back the original string |
| `PathList.SplitWithoutSep` | pipenv/routines/shell.py:90 | a string without the separator splits into itself alone |
| `PathList.SplitPrepend` | pipenv/routines/shell.py:90-92 | when `x` has no separator, `split(x + sep + p)` is `[x]` followed by `split(p)` |
| `PathList.SplitJoin` | pipenv/routines/shell.py:90-92 | splitting a join gives back the parts, when none of them contains the separator |
| `PathList.InsertFrontJoin` | pipenv/routines/shell.py:90-92 | `join([x] + split(p))` is `x + sep + p` for every `p`, including the empty one |
| `Environment.BuildRunEnv` | pipenv/routines/shell.py:67-102 | keys are the ambient ones plus `PATH`, `PIPENV_ACTIVE` and, with a virtualenv, `VIRTUAL_ENV`. `PIPENV_ACTIVE` is `"1"`. With a virtualenv, `VIRTUAL_ENV` is its exact location and `PATH` is `<venv>/bin` (or `\Scripts`) + pathsep + the old `PATH` (`""` when unset). When that directory contains no `os.pathsep`, the new `PATH` splits into it followed by the old pieces. Without one, `PATH` is the old value. Every other key keeps its ambient value |
| `Environment.Lift` | pipenv/routines/shell.py:112 | the all-string dict handed to a launcher has the same keys and no `None` value |
| `Environment.StringEnv` | pipenv/routines/shell.py:150 | the stringified environment has exactly the keys whose value is not `None`, each with that value's string form |
| `Environment.StringEnvOfStrings` | pipenv/routines/shell.py:150 | stringifying the environment `do_run` built changes nothing |
| `Launch.Message` | pipenv/routines/shell.py:110-146 | the unstyled echoed texts: both not-found texts start with `Error: the command ` followed by the declared command (script) or the invoked name (raw command), and end with a full stop; the empty-script text carries the literal, unformatted `{0!r}` |
| `Launch.ScriptNotFoundMessage` | pipenv/routines/shell.py:125-135 | the declared-script diagnostic names the declared command, the invoked name and PATH |
| `Launch.CommandNotFoundMessage` | pipenv/routines/shell.py:136-146 | the raw-command diagnostic names the invoked name, PATH and `[scripts]` |
| `Launch.NotFoundMessagesDiffer` | pipenv/routines/shell.py:124-146 | the two not-found diagnostics never have the same text |
| `Launch.ExpandAll` | pipenv/routines/shell.py:154 | the expanded arguments keep their number and order, each one `expandvars` of its original |
| `Launch.ExecArgv` | pipenv/routines/shell.py:154 | the exec argv has length `1 + len(args)`: `argv[0]` is the resolved path and `argv[i+1]` is `expandvars(args[i])` |
| `Launch.PosixSearchPath` | pipenv/routines/shell.py:122 | `env.get("PATH")` is a string iff `PATH` is present and not `None`, and then it is exactly that value |
| `Launch.NtSearchPath` | pipenv/routines/shell.py:166 | `env.get("PATH", "")` is `""` when `PATH` is missing, and otherwise agrees with the POSIX lookup |
| `Launch.LaunchPosix` | pipenv/routines/shell.py:121-156 | it exits iff `system_which` gives `None` or `""`. Exit status is 1 with one diagnostic: the declared-script one iff `has_script(command)`, else the raw-command one. Otherwise `os.execve` is called on the resolved path, the exec argv and the stringified environment. The image is replaced iff that call raises nothing. Otherwise its `OSError` escapes unchanged with nothing echoed |
| `Launch.SpawnLadder` | pipenv/routines/shell.py:174-188 | one or two Popen calls. Unresolved: one shell spawn of `cmdify()`. Resolved: a direct spawn of `[path] + args` first. A second call happens iff the direct spawn raised with winerror 193, and it is a shell spawn. The error escaping is exactly the last call's error, unchanged |
| `Launch.OtherSpawnErrorsPropagate` | pipenv/routines/shell.py:181-185 | a direct-spawn error whose winerror is not 193 escapes unchanged after that single attempt |
| `Launch.LaunchWindows` | pipenv/routines/shell.py:165-188 | `cmd_args[0]` is unchanged, `cmd_args[1:]` becomes the expanded arguments, and the spawns are the ladder over the rewritten script, searched on `env.get("PATH", "")` |
| `Launch.ChildExit` | pipenv/routines/shell.py:159-162 | the process exits iff a child was started, with exactly that child's return code. Otherwise the Popen error escapes |
| `Launch.RunNt` | pipenv/routines/shell.py:159-162 | `do_run_nt` runs the Windows ladder, then exits with the started child's return code or raises its error |
| `Launch.Run` | pipenv/routines/shell.py:58-118 | the environment it builds has every property of `BuildRunEnv`, and stringifying it changes nothing. An empty script echoes the empty-script line and ends in the unbound-name error. On POSIX the script is untouched, and the outcome is `LaunchPosix` of the script on that environment, searched on its `PATH`. On Windows `cmd_args[1:]` becomes the expanded arguments. The outcome is then the child exit of the spawn sequence on that environment, searched on its `PATH`: the child's return code, or the escaping `OSError` |
| `ShellActivation.ForkLadder` | pipenv/routines/shell.py:43-55 | fancy mode makes exactly one `fork` call. Otherwise the first call is `fork_compat`. A second call happens iff that call raised `AttributeError`/`ImportError`, and the second is `fork`. The warning is echoed iff there is a second call. What escapes is the last call's exception. Every call gets the same arguments and environment |
| `ShellActivation.Process.Shell` | pipenv/routines/shell.py:22-55 | `os.environ` gains `PIPENV_ACTIVE="1"` and nothing else changes. `PIPENV_SHELL_FANCY` forces fancy mode. Every fork call sees the marker set, and its virtualenv argument was read from the unmarked environment |

## Left out

- Process effects (`os.execve`, `subprocess.Popen`, `communicate`, `sys.exit`, the shell's `fork`): they are returned as values, not performed.
- The bodies of `system_which`, `os.path.expandvars`, `cmd_list_to_shell`, `Script.cmdify`, `project.build_script`, `project.has_script`, `ensure_project`, `choose_shell`, `shell.fork` and `shell.fork_compat`: they are oracles, and nothing is claimed about them.
- `ensure_project` (shell.py:15-20, 70-75): it is called only for its effect on the project, which is outside this model.
- Click styling, the verbose `$ cmd` echo (shell.py:106-108) and the "Launching subshell" message (shell.py:29-30): these are output formatting.
- `Environment.BinDir`: `str(Path(location) / bin_dir)` is modelled as `location + separator + name`. pathlib's normalisation (trailing separators, `.` components, an empty location) is not modelled.
- The `universal_newlines=True` Popen option: it affects only how the child's output is decoded.
- `pipenv/patched/pip/_internal/commands/__init__.py`: a static name-to-command table. Its two functions only wrap `importlib` and `difflib`.
