/** Values shared by both protocol clients: the record a traversal emits, the
    errors it can report, and the listing capability of a remote connection. */
module Types {

  /** One entry discovered by a traversal (the `SimpleFile` record). */
  datatype SimpleFile = SimpleFile(name: string, relativeDir: string, isFile: bool)

  /** The errors the core can surface. A listing error is the connection's own
      error, passed on unwrapped; a directory-creation error is the one
      `MkdirAll` reports. */
  datatype Error =
    | ListError(path: string, reason: string)
    | MkdirError(path: string)

  /** The Go pair `(bool, error)` as it is used here: `(true, nil)` or `(false, err)`. */
  datatype Outcome = Pass | Fail(error: Error)

  datatype Result<T> = Ok(value: T) | Err(error: Error)

  /** A base name as a listing reports it: not empty and not starting with a
      separator. */
  type BaseName = s: string | s != [] && s[0] != '/' witness "a"

  /** One entry of a remote directory listing: its base name and whether it is a directory. */
  datatype RemoteEntry = RemoteEntry(name: BaseName, isDir: bool)

  /** What the remote side answers for one directory path. */
  datatype Listing = Listed(entries: seq<RemoteEntry>) | Refused(reason: string)

  /** The remote file system as seen through `ReadDir`: full path to listing. */
  type Remote = map<string, Listing>

  /** `connection.ReadDir(path)`: the entries in the server's order, or the
      server's error; a path the server does not know is an error too. */
  function ReadDir(remote: Remote, path: string): (r: Result<seq<RemoteEntry>>)
    ensures r.Ok? <==> path in remote && remote[path].Listed?
    ensures r.Ok? ==> r.value == remote[path].entries
    ensures r.Err? ==> r.error.ListError? && r.error.path == path
  {
    if path !in remote then Err(ListError(path, "file does not exist"))
    else match remote[path]
      case Listed(entries) => Ok(entries)
      case Refused(reason) => Err(ListError(path, reason))
  }
}
