/**
 * The environment a `pipenv run` child receives: a copy of the ambient
 * environment with the virtualenv's executable directory prepended to `PATH`,
 * `VIRTUAL_ENV` pointing at the virtualenv and the `PIPENV_ACTIVE` marker set;
 * and the stringified copy the launchers hand to the operating system.
 */
module Environment {
  import opened Common
  import opened PathList

  const PathVar: string := "PATH"
  const VirtualEnvVar: string := "VIRTUAL_ENV"
  const ActiveVar: string := "PIPENV_ACTIVE"

  /**
   * A value of an environment dict given to a launcher: Python `None` or a
   * `str`. `Str` stands for string values only: every value of the dict
   * `do_run` builds is a `str`, on which `str(v)` is the identity.
   */
  datatype EnvValue = NoneValue | Str(s: string)

  /** Truthiness of `project.virtualenv_location`: absent or empty means no virtualenv. */
  predicate HasVenv(venv: Option<string>)
  {
    venv.Some? && venv.value != ""
  }

  /** `str(Path(location) / ("Scripts" if os.name == "nt" else "bin"))`, as a plain join without pathlib normalisation. */
  function BinDir(location: string, os: OsName): string
  {
    location + [DirSep(os)] + (if os == Nt then "Scripts" else "bin")
  }

  /** `env.get("PATH", "")` on the ambient copy. */
  function AmbientPath(ambient: map<string, string>): string
  {
    if PathVar in ambient then ambient[PathVar] else ""
  }

  /**
   * What `do_run` promises of the environment it builds: the ambient keys plus
   * `PATH`, `PIPENV_ACTIVE` and, with a virtualenv, `VIRTUAL_ENV`;
   * `PIPENV_ACTIVE` is "1"; with a virtualenv `VIRTUAL_ENV` is its exact
   * location and `PATH` is its executable directory, the separator and the old
   * `PATH` (which then splits into that directory followed by the old pieces
   * when the directory holds no separator); without one `PATH` is the old
   * value; every other key keeps its ambient value.
   */
  predicate IsRunEnv(env: map<string, string>, ambient: map<string, string>, venv: Option<string>, os: OsName)
  {
    && env.Keys == ambient.Keys + {PathVar, ActiveVar} + (if HasVenv(venv) then {VirtualEnvVar} else {})
    && env[ActiveVar] == "1"
    && (HasVenv(venv) ==> env[VirtualEnvVar] == venv.value)
    && (HasVenv(venv) ==> env[PathVar] == BinDir(venv.value, os) + [PathSep(os)] + AmbientPath(ambient))
    && (HasVenv(venv) && PathSep(os) !in BinDir(venv.value, os) ==>
          Split(env[PathVar], PathSep(os)) == [BinDir(venv.value, os)] + Split(AmbientPath(ambient), PathSep(os)))
    && (!HasVenv(venv) ==> env[PathVar] == AmbientPath(ambient))
    && (forall k :: k in ambient && k != PathVar && k != ActiveVar && (k != VirtualEnvVar || !HasVenv(venv)) ==>
          env[k] == ambient[k])
  }

  /**
   * The environment construction of `do_run`: copy the ambient environment,
   * prepend the virtualenv's executable directory to `PATH` by splitting it,
   * inserting at position 0 and joining again, set `VIRTUAL_ENV`, then set
   * `PIPENV_ACTIVE` last.
   */
  method BuildRunEnv(ambient: map<string, string>, venv: Option<string>, os: OsName)
    returns (env: map<string, string>)
    ensures IsRunEnv(env, ambient, venv, os)
  {
    env := ambient;
    var path := AmbientPath(env);
    if HasVenv(venv) {
      var location := venv.value;
      var newPath := BinDir(location, os);
      var paths := Split(path, PathSep(os));
      paths := [newPath] + paths;
      InsertFrontJoin(newPath, path, PathSep(os));
      path := Join(paths, PathSep(os));
      if PathSep(os) !in newPath {
        SplitPrepend(newPath, AmbientPath(ambient), PathSep(os));
      }
      env := env[VirtualEnvVar := location];
    }
    env := env[PathVar := path];
    env := env[ActiveVar := "1"];
  }

  /** The all-string dict `do_run` hands to a launcher, seen as a dict of arbitrary values. */
  function Lift(env: map<string, string>): (r: map<string, EnvValue>)
    ensures r.Keys == env.Keys
    ensures forall k :: k in r ==> r[k] != NoneValue
  {
    map k | k in env :: Str(env[k])
  }

  /** `{k: str(v) for k, v in env.items() if v is not None}`. */
  function StringEnv(env: map<string, EnvValue>): (r: map<string, string>)
    ensures forall k :: k in r <==> k in env && env[k] != NoneValue
    ensures forall k :: k in r ==> Str(r[k]) == env[k]
  {
    map k | k in env && env[k].Str? :: env[k].s
  }

  /** Stringifying a dict that already holds only strings changes nothing. */
  lemma StringEnvOfStrings(env: map<string, string>)
    ensures StringEnv(Lift(env)) == env
  {
    var r := StringEnv(Lift(env));
    assert r.Keys == env.Keys;
  }
}
