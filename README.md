# ftp4g retrieval core, modelled in Dafny

ftp4g is a small Go library of FTP and SFTP clients. Its core is
`RetrieveAll`. It lists a remote directory below a configured remote boot
directory and walks the remote tree depth-first in listing order. Each
directory and each file that passes an extension filter is sent on a
channel as a `SimpleFile` (name, relative directory, is-file flag). When
configured, the walk also creates the matching local directory for each
remote directory. It stops at the first listing failure or
directory-creation failure and reports `(false, err)`. The SFTP and FTP
clients contain this method line for line.

The model:

- `types.dfy`: `SimpleFile`, the errors, and a remote connection. The
  connection is a finite map from full remote path to a listing or a
  refusal.
- `paths.dfy`: Go's `strings.TrimLeft` (it strips every leading cutset
  character, not just one). Also the three path rules of `RetrieveAll`: the
  remote directory listed, the relative path recursed into, and the local
  directory created.
- `utils.dfy`:
  - `checkExt` as a loop (`CheckExt`);
  - `existsFile` on a three-way `Lstat` outcome;
  - `checkDir` both as a function on a disk value (`CheckDirOn`) and as a
    method of a mutable local file system object (`LocalFs.CheckDir`).
- `retrieval.dfy`:
  - the configuration record and the output channel, an object whose sent
    sequence only grows;
  - `Walk` / `WalkFrom` / `Visit`: `RetrieveAll`, its loop, and its loop
    body, as pure functions;
  - `PreOrder`, an independent reference definition of the depth-first
    listing-order walk;
  - the proof that a call's output is always a prefix of that walk, and
    all of it on success.
- `retrieval_properties.dfy`:
  - disk effects;
  - when a call succeeds;
  - where a failing call stops;
  - the shape of what is emitted;
  - completeness;
  - the two documented scenario trees.
- `sftp.dfy`, `ftp.dfy`: the two client classes. Each has its
  configuration fields, the constructor defaults of the builder, the four
  setters, and `RetrieveAll` as a method with the source's loop and
  channel sends. The loop body is split out as `RetrieveEntry`. Each method
  is proved to equal `Walk` / `Visit`: the same outcome, the channel
  extended by exactly the walk's output, and the file system left in the
  walk's final state.
- `variants.dfy`: both clients, configured alike over the same tree, give
  the same outcome, the same output and the same local state.

Termination is part of the model. Every listed name is non-empty and has
no leading `/` (`BaseName`). So the path recursed into is strictly longer
than its parent once the parent has no leading slash. Because the remote
map is finite, the listable paths at least this long run out.

A start with a leading slash behaves unevenly, and the model keeps that. With
no remote boot directory, `RetrieveAll("/data")` lists the absolute path
`/data` (sftp.go:79). It then recurses into `data/x`, because the child path
is trimmed of leading slashes (sftp.go:116-117). That path is relative to the
server's working directory (`Paths.AbsoluteStartTurnsRelative`).

## Model

| member | source | states |
|---|---|---|
| Types.ReadDir | sftp.go:84-87 | a listing succeeds exactly when the server knows the path and lists it, with its entries in the server's order; otherwise a listing error for that path |
| Paths.TrimLeft | sftp.go:117 | the result is a suffix of the input; every character removed is in the cutset; the result does not start with a cutset character |
| Paths.TrimLeftUnique | sftp.go:117 | any split into a run of cutset characters and a rest not starting with one gives exactly the trimmed string |
| Paths.TrimLeftIdempotent | sftp.go:117 | trimming twice equals trimming once |
| Paths.TrimLeftDropsAllSlashes | sftp.go:117 | `"//a"` trims to `"a"` and `"///"` to the empty string: every leading slash goes, not only the first |
| Paths.ListingPath | sftp.go:76-83 | defines the remote directory listed for a relative path; its properties are the next two rows |
| Paths.ListingPathShape | sftp.go:76-83 | with no remote boot directory the listed path is the relative path verbatim, otherwise the boot directory, one slash, then the relative path |
| Paths.ListingPathInjective | sftp.go:76-83 | distinct relative paths are listed at distinct remote paths |
| Paths.ChildPath | sftp.go:116-117 | the path recursed into never starts with a slash |
| Paths.LocalDirPath | sftp.go:104-109 | defines the local directory created for a directory entry; its properties are `LocalDirMirrorsChild` and `LocalDirAtRootKeepsDoubleSlash` |
| Paths.ChildPathUnderParent | sftp.go:116-117 | below a non-empty parent without a leading slash the child path is parent, slash, name |
| Paths.ChildPathAtRoot | sftp.go:116-117 | at the root the child path is the name with its leading slashes removed, so it does not start with a slash (slashes inside the name are kept) |
| Paths.ChildPathOfRootName | sftp.go:116-117 | a listed name (no leading slash) found at the root is walked as the name itself |
| Paths.ChildPathDropsLeadingSlash | sftp.go:116-117 | below a parent that starts with slashes but is not made only of slashes, the child path is the parent without them, a slash, and the name |
| Paths.AbsoluteStartTurnsRelative | sftp.go:77-117 | with no remote boot directory, the start `/data` is listed as `/data`, but its sub-directory `x` is listed as `data/x` |
| Paths.LocalDirMirrorsChild | sftp.go:104-109 | the local directory is the child relative path placed under the local boot directory, as the remote listing path is placed under the remote one (the no-boot-directory case, or a non-empty parent without a leading slash) |
| Paths.LocalDirAtRootKeepsDoubleSlash | sftp.go:104-109 | at the root, with a local boot directory, the local path keeps two slashes while the remote child path is just the name |
| Utils.HasSuffix | utils.go:10 | defines Go's `strings.HasSuffix`: the suffix is no longer than the string and equals its tail |
| Utils.HasExt | utils.go:8-15 | defines the condition `checkExt` decides: some configured extension `e` has the name ending in `"." + e`; its properties are the `HasExt` lemmas and `CheckExt` |
| Utils.CheckExt | utils.go:8-15 | true exactly when some configured extension `e` has the file name ending in `"." + e` |
| Utils.HasExtEmpty | utils.go:8-15 | with no extensions nothing matches: the loop runs zero times and returns false |
| Utils.HasExtNeedsDot | utils.go:10 | a match means the name is longer than the extension and has a dot right before it |
| Utils.HasExtBySet | utils.go:9-13 | the match depends only on the set of extensions, not on their order or repeats |
| Utils.HasExtExamples | utils.go:10 | `a.txt` matches `[log, txt]`; `a.TXT` does not match `txt` (case-sensitive); `atxt` does not match `txt` (the dot is needed) |
| Utils.Lstat | utils.go:28 | defines the three outcomes of `os.Lstat`: an access error, found, or not there |
| Utils.ExistsFile | utils.go:26-29 | a path counts as existing for every `Lstat` outcome except not-exist, so an access error yields true |
| Utils.CheckDirOn | utils.go:17-24 | succeeds exactly when the path exists or can be made; an existing path leaves the disk unchanged; on success the path exists; on failure the `MkdirAll` error is returned and nothing changes; no existing path is removed and only that path is ever added |
| Utils.CheckDirIdempotent | utils.go:17-24 | a second `checkDir` on the same path succeeds and changes nothing |
| Utils.LocalFs.MkdirAll | utils.go:19 | on a writable path the path is added; otherwise the error is returned and nothing changes |
| Utils.LocalFs.CheckDir | utils.go:17-24 | the method's outcome and new file-system state are those of `CheckDirOn` on the old state |
| Retrieval.Channel.Send | sftp.go:100 | a send appends exactly one entry and removes nothing |
| Retrieval.ChildShrinks | sftp.go:116-117 | the child path has no leading slash; below a parent without a leading slash it extends the parent and leaves strictly fewer remote paths to visit |
| Retrieval.MirrorPath | sftp.go:104-109 | defines the local directory of an emitted directory entry, as `LocalDirPath` of its relative directory and name |
| Retrieval.Wanted | sftp.go:120 | defines the file filter: no filter configured, or `checkExt` matches |
| Retrieval.Walk | sftp.go:74-127 | defines `RetrieveAll` as a function: a listing failure is returned with nothing sent, otherwise the loop runs over the listing; the methods are proved equal to it and its properties are the lemmas below |
| Retrieval.WalkFrom | sftp.go:91-126 | defines the loop from one position of the listing: visit entries in order and stop at the first failure |
| Retrieval.Visit | sftp.go:92-124 | defines the loop body for one entry: send a directory, create its local directory if configured, walk it; send a file if it is wanted |
| Retrieval.PreOrder | sftp.go:74-127 | defines the reference walk: depth-first in listing order, no local directories, no failures |
| Retrieval.PreOrderFrom | sftp.go:91-126 | defines the reference walk from one position of a listing |
| Retrieval.PreOrderVisit | sftp.go:92-124 | defines the reference walk of one entry: a directory and then everything below it, or a wanted file |
| Retrieval.WalkFollowsPreOrder | sftp.go:74-127 | what a call emits is a prefix of the depth-first, listing-order walk, and all of it on success |
| Retrieval.WalkFromFollowsPreOrder | sftp.go:91-125 | the same for the loop from any position of the listing |
| Retrieval.VisitFollowsPreOrder | sftp.go:97-124 | the same for one entry: a directory, then what is found below it |
| Retrieval.MirrorsAppend | sftp.go:104-109 | the local directories of two runs of output joined are the union of each run's local directories |
| RetrievalProperties.WalkDiskEffect | sftp.go:102-113 | a call only adds local paths, only local directories of emitted directories, never a path that cannot be created or whose `Lstat` fails, none with creation off, and on success with creation on every emitted directory's local directory exists |
| RetrievalProperties.WalkFromDiskEffect | sftp.go:91-125 | the same for the loop from any position |
| RetrievalProperties.VisitDiskEffect | sftp.go:97-119 | the same for one entry |
| RetrievalProperties.DiskEffectCompose | sftp.go:91-125 | the disk effect of a step followed by the rest of the loop is again a disk effect |
| RetrievalProperties.DiskUntouchedWithoutCreation | sftp.go:102 | with directory creation off the local file system is unchanged |
| RetrievalProperties.ListingFailure | sftp.go:84-87 | a directory that cannot be listed fails the call at once with the listing error for its path, emits nothing, and changes nothing |
| RetrievalProperties.WalkPassListable | sftp.go:84-119 | a call succeeds only if every directory below the start can be listed, and with creation off that is also enough |
| RetrievalProperties.WalkFromPassListable | sftp.go:91-125 | the same for the loop from any position |
| RetrievalProperties.WalkStopsAtFailure | sftp.go:84-119 | a call fails either at once, with nothing emitted and the start's listing error, or right after emitting the directory entry whose failure it reports (its local directory cannot be made, or, with its local directory in place, its sub-directory cannot be listed). Every directory emitted before that one could be listed and, with creation on, has its local directory. So nothing is sent after a failure |
| RetrievalProperties.WalkFromStopsAtFailure | sftp.go:91-125 | the same for the loop from any position: a failing loop has emitted something and ends with the failing directory entry |
| RetrievalProperties.VisitStopsAtFailure | sftp.go:97-119 | the same for one entry |
| RetrievalProperties.PreOrderWellFormed | sftp.go:116-124 | in the pre-order walk: every file passes the filter; every relative directory is the start or has no leading slash; from a start without a leading slash, every one extends the start |
| RetrievalProperties.PreOrderFromWellFormed | sftp.go:91-125 | the same from any position of a listing |
| RetrievalProperties.EmittedWellFormed | sftp.go:92-124 | the same for everything a call actually emits |
| RetrievalProperties.DirComesFirst | sftp.go:97-119 | a directory entry is emitted first with `isFile` false, and everything emitted while walking it lies under its child path |
| RetrievalProperties.PreOrderFromCovers | sftp.go:91-125 | every listed directory and every listed file that passes the filter is in the walk from its position on |
| RetrievalProperties.PassEmitsListed | sftp.go:91-126 | on success an entry of the starting directory's listing is emitted exactly when it is a directory or a file that passes the filter |
| RetrievalProperties.SubtreeInPreOrder | sftp.go:116-119 | everything in the walk below a directory of the walk is part of the walk |
| RetrievalProperties.SubtreeInPreOrderFrom | sftp.go:91-125 | the same from any position of a listing |
| RetrievalProperties.PassEmitsBelow | sftp.go:91-124 | on success, every emitted directory could be listed, and an entry of its listing is emitted under it exactly when it is a directory or a file that passes the filter |
| RetrievalProperties.SampleInnerDir | sftp.go:120-124 | a directory holding only a filtered-out file emits nothing and succeeds |
| RetrievalProperties.SampleVisitB | sftp.go:97-119 | a sub-directory is emitted and then walked |
| RetrievalProperties.SampleVisitFile1 | sftp.go:120-124 | a file with the configured extension is emitted as a file |
| RetrievalProperties.SampleMiddleDir | sftp.go:91-125 | entries are emitted in listing order |
| RetrievalProperties.FilteredTreeScenario | sftp.go:74-127 | the tree `a/file1.txt`, `a/b/file2.log` filtered for `txt`, creation off, emits `a`, `a/file1.txt`, `a/b` in that order and succeeds without touching the disk |
| RetrievalProperties.CreationFailureScenario | sftp.go:97-113 | with creation on, a directory whose local directory cannot be made is sent, the call fails with that creation error, its later sibling is not sent, and the disk is unchanged |
| RetrievalProperties.RefusedRootScenario | sftp.go:84-87 | a refused root listing returns the error and emits nothing |
| Sftp.SftpClient.constructor | sftp.go:55 | a new client has no boot directories, creation on, and no filter |
| Sftp.SftpClient.SetRemoteBootDir | sftp.go:58-60 | sets the remote boot directory and nothing else |
| Sftp.SftpClient.SetLocalBootDir | sftp.go:62-64 | sets the local boot directory and nothing else |
| Sftp.SftpClient.SetCreateAbsentParent | sftp.go:66-68 | sets the creation flag and nothing else |
| Sftp.SftpClient.SetFilterFileExtends | sftp.go:70-72 | sets the extension filter and nothing else |
| Sftp.SftpClient.RetrieveAll | sftp.go:74-127 | outcome, channel contents and file system afterwards are exactly those of `Walk`; the channel is only appended to |
| Sftp.SftpClient.RetrieveEntry | sftp.go:91-125 | one pass of the loop equals `Visit`: send then create then recurse for a directory, send only if wanted for a file |
| Ftp.FtpClient.constructor | ftp.go:41 | a new client has no boot directories, creation on, and no filter |
| Ftp.FtpClient.SetRemoteBootDir | ftp.go:44-46 | sets the remote boot directory and nothing else |
| Ftp.FtpClient.SetLocalBootDir | ftp.go:48-50 | sets the local boot directory and nothing else |
| Ftp.FtpClient.SetCreateAbsentParent | ftp.go:52-54 | sets the creation flag and nothing else |
| Ftp.FtpClient.SetFilterFileExtends | ftp.go:56-58 | sets the extension filter and nothing else |
| Ftp.FtpClient.RetrieveAll | ftp.go:60-113 | outcome, channel contents and file system afterwards are exactly those of `Walk` |
| Ftp.FtpClient.RetrieveEntry | ftp.go:77-111 | one pass of the loop equals `Visit` |
| Variants.RetrieveWithBoth | ftp.go:60-113 | an FTP and an SFTP client configured alike over the same tree give equal outcomes, equal channel contents and equal local states |

## Left out

- `Download` on both clients (file streaming, rollback by deletion) and the builders `buildSftpClient`, `buildFtpClient` and `Build` (network dialling, authentication) are not part of this model.
- Logging is not modelled: it has no effect on results.
- Channel buffering and blocking are not modelled. The channel is the sequence of values sent; the receiving goroutine is outside the model.
- `*SimpleFile` pointers are modelled as values. Each entry is a fresh record that is never changed after it is sent.
- Server and OS errors are abstract: a listing error carries the path and the server's reason, and a creation error carries the path.
- `os.MkdirAll` is modelled as creating the named path only, not its missing ancestors. The disk records which paths exist, which ones `Lstat` cannot read, and which ones cannot be created. Real file-system semantics are not modelled.
- The filter setters (sftp.go:70-72, ftp.go:56-58) keep the caller's slice itself, so a later change to its elements changes the filter. The model stores a copy of the sequence, so that aliasing is not captured.
- Go strings are byte strings; the model's `string` is a sequence of characters. Names that are not valid UTF-8 cannot be represented. For valid UTF-8, the suffix test and the trimming of `/` give the same results on characters as on bytes.
- Go's `nil` and empty slices are not told apart: both are an empty `seq`. No code path of the core distinguishes them.
- Names are non-empty and have no leading slash (`BaseName`), and the remote tree is a finite map of paths. A server that listed an empty name, or a symbolic link cycle, would make the Go code recurse without end; the model does not cover that.
- The remote side is a fixed map, so a tree that changes during the walk is not modelled.
