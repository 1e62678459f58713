/** The FTP-backed client: its configuration fields, the four setters, and
    the recursive `RetrieveAll`. */
module Ftp {
  import opened Types
  import opened Paths
  import opened Utils
  import opened Retrieval

  class FtpClient {
    /** The remote side, as its directory listings. */
    const connection: Remote
    var remoteBootDir: string
    var localBootDir: string
    var createAbsentParent: bool
    var filterFileExtends: seq<string>

    /** The client as the builder installs it over a fresh connection. */
    constructor (connection: Remote)
      ensures this.connection == connection
      ensures Settings() == DEFAULT_CONFIG
    {
      this.connection := connection;
      remoteBootDir := "";
      localBootDir := "";
      createAbsentParent := true;
      filterFileExtends := [];
    }

    /** The four configuration fields as one value. */
    function Settings(): Config
      reads this
    {
      Config(remoteBootDir, localBootDir, createAbsentParent, filterFileExtends)
    }

    method SetRemoteBootDir(path: string)
      modifies this
      ensures Settings() == old(Settings()).(remoteBootDir := path)
    {
      remoteBootDir := path;
    }

    method SetLocalBootDir(path: string)
      modifies this
      ensures Settings() == old(Settings()).(localBootDir := path)
    {
      localBootDir := path;
    }

    method SetCreateAbsentParent(b: bool)
      modifies this
      ensures Settings() == old(Settings()).(createAbsentParent := b)
    {
      createAbsentParent := b;
    }

    method SetFilterFileExtends(exts: seq<string>)
      modifies this
      ensures Settings() == old(Settings()).(filterFileExtends := exts)
    {
      filterFileExtends := exts;
    }

    /** Lists `relativeDirPath`, handles its entries in listing order and
        stops at the first failure. */
    method RetrieveAll(relativeDirPath: string, ftpFileChannel: Channel, fs: LocalFs)
      returns (result: Outcome)
      modifies ftpFileChannel, fs
      ensures var run := Walk(Settings(), connection, old(fs.State()), relativeDirPath);
              result == run.outcome
              && ftpFileChannel.sent == old(ftpFileChannel.sent) + run.emitted
              && fs.State() == run.disk
      decreases Slashed(relativeDirPath), Pending(connection, remoteBootDir, relativeDirPath), 1
    {
      var dirFullPath := ListingPath(remoteBootDir, relativeDirPath);
      var listing := ReadDir(connection, dirFullPath);
      if listing.Err? {
        return Fail(listing.error);
      }
      var dirSubFiles := listing.value;
      ghost var cfg := Settings();
      ghost var whole := WalkFrom(cfg, connection, fs.State(), relativeDirPath, dirSubFiles, 0);
      assert Walk(cfg, connection, fs.State(), relativeDirPath) == whole;
      ghost var sent0 := ftpFileChannel.sent;
      ghost var done: seq<SimpleFile> := [];

      var needCheckExt := |filterFileExtends| > 0;
      var i := 0;
      while i < |dirSubFiles|
        invariant 0 <= i <= |dirSubFiles|
        invariant ftpFileChannel.sent == sent0 + done
        invariant whole == Prepend(done, WalkFrom(cfg, connection, fs.State(), relativeDirPath, dirSubFiles, i))
      {
        ghost var v := Visit(cfg, connection, fs.State(), relativeDirPath, dirSubFiles[i]);
        var visited := RetrieveEntry(relativeDirPath, dirSubFiles[i], needCheckExt, ftpFileChannel, fs);
        AppendAssoc(sent0, done, v.emitted);
        if visited.Fail? {
          return visited;
        }
        PrependPrepend(done, v.emitted, WalkFrom(cfg, connection, fs.State(), relativeDirPath, dirSubFiles, i + 1));
        done := done + v.emitted;
        i := i + 1;
      }
      return Pass;
    }

    /** One pass of the loop of `RetrieveAll` over entry `dirSubFile` of
        `relativeDirPath`: a directory is sent, created locally when
        configured (stopping if that fails), and retrieved recursively; a file
        is sent when no filter is set or its extension matches. */
    method RetrieveEntry(relativeDirPath: string, dirSubFile: RemoteEntry, needCheckExt: bool,
                         ftpFileChannel: Channel, fs: LocalFs)
      returns (result: Outcome)
      requires ListingPath(remoteBootDir, relativeDirPath) in connection
      requires needCheckExt == (|filterFileExtends| > 0)
      modifies ftpFileChannel, fs
      ensures var run := Visit(Settings(), connection, old(fs.State()), relativeDirPath, dirSubFile);
              result == run.outcome
              && ftpFileChannel.sent == old(ftpFileChannel.sent) + run.emitted
              && fs.State() == run.disk
      decreases Slashed(relativeDirPath), Pending(connection, remoteBootDir, relativeDirPath), 0
    {
      if dirSubFile.isDir {
        var ftpFile := SimpleFile(dirSubFile.name, relativeDirPath, false);
        ftpFileChannel.Send(ftpFile);
        if createAbsentParent {
          var localFilePath := LocalDirPath(localBootDir, relativeDirPath, dirSubFile.name);
          var checked := fs.CheckDir(localFilePath);
          if checked.Fail? {
            return checked;
          }
        }
        ChildShrinks(connection, remoteBootDir, relativeDirPath, dirSubFile.name);
        var childPath := ChildPath(relativeDirPath, dirSubFile.name);
        ghost var sub := Walk(Settings(), connection, fs.State(), childPath);
        AppendAssoc(old(ftpFileChannel.sent), [ftpFile], sub.emitted);
        result := RetrieveAll(childPath, ftpFileChannel, fs);
      } else {
        var wanted := !needCheckExt;
        if !wanted {
          wanted := CheckExt(dirSubFile.name, filterFileExtends);
        }
        if wanted {
          ftpFileChannel.Send(SimpleFile(dirSubFile.name, relativeDirPath, true));
        }
        result := Pass;
      }
    }
  }
}
