/**
 * The exceptions the modelled code can raise, and the text Python's
 * `str(err)` gives for each of them.
 */
module Faults {

  /** The operating-system error numbers the filesystem calls can report (Linux values). */
  datatype Errno = ENOENT | EEXIST | ENOTDIR | EISDIR

  /** The decimal number Python prints in `[Errno n]`. */
  function ErrnoCode(e: Errno): string
  {
    match e
    case ENOENT => "2"
    case EEXIST => "17"
    case ENOTDIR => "20"
    case EISDIR => "21"
  }

  /** The C library's text for each error number. */
  function StrError(e: Errno): string
  {
    match e
    case ENOENT => "No such file or directory"
    case EEXIST => "File exists"
    case ENOTDIR => "Not a directory"
    case EISDIR => "Is a directory"
  }

  datatype Fault =
    /** A dictionary read of a missing key (`projects[name]`, `body["id"]`). */
    | KeyError(key: string)
    /** `OSError` and its subclasses, raised by `os.listdir`, `os.mkdir` and `open`. */
    | OsError(errno: Errno, filename: string)
    /** A value of the wrong type, e.g. a non-string assigned into `os.environ`. */
    | TypeError(message: string)
    /** `requests.exceptions.ConnectionError`, raised by the container client. */
    | ConnectionError(message: string)
    /** `docker.errors.DockerException`, raised by the container client. */
    | DockerError(message: string)

  /** Python's `repr` of a string, for strings without quotes, backslashes or unprintable characters. */
  function Quote(s: string): string
  {
    "'" + s + "'"
  }

  /** The text of `str(err)`: a `KeyError` shows the repr of its key, an `OSError` its number, text and file name. */
  function Str(f: Fault): string
  {
    match f
    case KeyError(k) => Quote(k)
    case OsError(e, p) => "[Errno " + ErrnoCode(e) + "] " + StrError(e) + ": " + Quote(p)
    case TypeError(m) => m
    case ConnectionError(m) => m
    case DockerError(m) => m
  }
}
