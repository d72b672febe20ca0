/** Small shared vocabulary: an optional value and the host operating-system family. */
module Common {

  /** A value that may be absent (Python's `None`). */
  datatype Option<T> = None | Some(value: T)

  /** The value of `os.name` as the run logic sees it: only "nt" is told apart from everything else. */
  datatype OsName = Nt | Posix

  /** `os.pathsep`: the separator between entries of `PATH`. */
  function PathSep(os: OsName): char
  {
    if os == Nt then ';' else ':'
  }

  /** The separator pathlib puts between path components (`Path(a) / b`). */
  function DirSep(os: OsName): char
  {
    if os == Nt then '\\' else '/'
  }
}
