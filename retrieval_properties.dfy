/** What `RetrieveAll` is proved to do beyond following the pre-order walk:
    its effect on the local file system, when it succeeds, what the entries it
    emits look like, that it misses no listed entry, and two concrete trees. */
module RetrievalProperties {
  import opened Types
  import opened Paths
  import opened Utils
  import opened Retrieval

  // ---------------------------------------------------------------------
  // The local file system.

  /** A call only ever adds paths, and only the local directories of the
      directory entries it emitted; with directory creation switched off it
      leaves the file system alone; it never creates a path that `MkdirAll`
      cannot make or whose `Lstat` fails; and when it succeeds with creation
      switched on, the local directory of every emitted directory exists. */
  predicate DiskEffect(cfg: Config, disk: Disk, r: Run) {
    && r.disk.denied == disk.denied
    && r.disk.unwritable == disk.unwritable
    && disk.present <= r.disk.present
    && r.disk.present <= disk.present + Mirrors(cfg, r.emitted)
    && (r.disk.present - disk.present) !! disk.unwritable
    && (r.disk.present - disk.present) !! disk.denied
    && (!cfg.createAbsentParent ==> r.disk == disk)
    && (cfg.createAbsentParent && r.outcome.Pass? ==>
          Mirrors(cfg, r.emitted) <= r.disk.present + r.disk.denied)
  }

  /** `DiskEffect` is closed under running one step after another. */
  lemma DiskEffectCompose(cfg: Config, disk: Disk, first: Run, second: Run)
    requires DiskEffect(cfg, disk, first)
    requires first.outcome.Pass?
    requires DiskEffect(cfg, first.disk, second)
    ensures DiskEffect(cfg, disk, Prepend(first.emitted, second))
  {
    MirrorsAppend(cfg, first.emitted, second.emitted);
  }

  lemma {:induction false} WalkDiskEffect(cfg: Config, remote: Remote, disk: Disk, rel: string)
    ensures DiskEffect(cfg, disk, Walk(cfg, remote, disk, rel))
    decreases Slashed(rel), Pending(remote, cfg.remoteBootDir, rel), 1, 0
  {
    match ReadDir(remote, ListingPath(cfg.remoteBootDir, rel))
    case Err(_) =>
    case Ok(entries) => WalkFromDiskEffect(cfg, remote, disk, rel, entries, 0);
  }

  lemma {:induction false} WalkFromDiskEffect(cfg: Config, remote: Remote, disk: Disk, rel: string,
                                              entries: seq<RemoteEntry>, i: nat)
    requires ListingPath(cfg.remoteBootDir, rel) in remote
    requires i <= |entries|
    ensures DiskEffect(cfg, disk, WalkFrom(cfg, remote, disk, rel, entries, i))
    decreases Slashed(rel), Pending(remote, cfg.remoteBootDir, rel), 0, |entries| - i
  {
    if i < |entries| {
      VisitDiskEffect(cfg, remote, disk, rel, entries[i]);
      var v := Visit(cfg, remote, disk, rel, entries[i]);
      if v.outcome.Pass? {
        WalkFromDiskEffect(cfg, remote, v.disk, rel, entries, i + 1);
        DiskEffectCompose(cfg, disk, v, WalkFrom(cfg, remote, v.disk, rel, entries, i + 1));
      }
    }
  }

  lemma {:induction false} VisitDiskEffect(cfg: Config, remote: Remote, disk: Disk, rel: string, e: RemoteEntry)
    requires ListingPath(cfg.remoteBootDir, rel) in remote
    ensures DiskEffect(cfg, disk, Visit(cfg, remote, disk, rel, e))
    decreases Slashed(rel), Pending(remote, cfg.remoteBootDir, rel), 0, 0
  {
    if e.isDir {
      var f := SimpleFile(e.name, rel, false);
      assert Mirrors(cfg, [f]) == {MirrorPath(cfg, f)};
      var made := if cfg.createAbsentParent
                  then CheckDirOn(disk, LocalDirPath(cfg.localBootDir, rel, e.name))
                  else (Pass, disk);
      if made.0.Pass? {
        ChildShrinks(remote, cfg.remoteBootDir, rel, e.name);
        var child := ChildPath(rel, e.name);
        WalkDiskEffect(cfg, remote, made.1, child);
        var sub := Walk(cfg, remote, made.1, child);
        var first := Run(Pass, [f], made.1);
        assert DiskEffect(cfg, disk, first);
        DiskEffectCompose(cfg, disk, first, sub);
        assert Visit(cfg, remote, disk, rel, e) == Prepend([f], sub);
      }
    } else {
      assert Mirrors(cfg, [SimpleFile(e.name, rel, true)]) == {};
    }
  }

  /** `checkDir` is never called with directory creation switched off: the
      local file system is left as it was. */
  lemma DiskUntouchedWithoutCreation(cfg: Config, remote: Remote, disk: Disk, rel: string)
    requires !cfg.createAbsentParent
    ensures Walk(cfg, remote, disk, rel).disk == disk
  {
    WalkDiskEffect(cfg, remote, disk, rel);
  }

  // ---------------------------------------------------------------------
  // When a call succeeds.

  /** A directory that cannot be listed makes the call fail at once with the
      server's error for that path: nothing is emitted and the local file
      system is untouched. */
  lemma ListingFailure(cfg: Config, remote: Remote, disk: Disk, rel: string)
    requires ListingPath(cfg.remoteBootDir, rel) !in remote || remote[ListingPath(cfg.remoteBootDir, rel)].Refused?
    ensures var r := Walk(cfg, remote, disk, rel);
            && r.outcome.Fail? && r.outcome.error.ListError?
            && r.outcome.error.path == ListingPath(cfg.remoteBootDir, rel)
            && r.emitted == [] && r.disk == disk
  {
  }

  /** A call succeeds only if every directory below the start can be listed;
      with directory creation switched off, that is also enough. */
  lemma {:induction false} WalkPassListable(cfg: Config, remote: Remote, disk: Disk, rel: string)
    ensures Walk(cfg, remote, disk, rel).outcome.Pass? ==> AllListable(cfg.remoteBootDir, remote, rel)
    ensures !cfg.createAbsentParent && AllListable(cfg.remoteBootDir, remote, rel) ==>
              Walk(cfg, remote, disk, rel).outcome.Pass?
    decreases Slashed(rel), Pending(remote, cfg.remoteBootDir, rel), 1, 0
  {
    match ReadDir(remote, ListingPath(cfg.remoteBootDir, rel))
    case Err(_) =>
    case Ok(entries) => WalkFromPassListable(cfg, remote, disk, rel, entries, 0);
  }

  lemma {:induction false} WalkFromPassListable(cfg: Config, remote: Remote, disk: Disk, rel: string,
                                                entries: seq<RemoteEntry>, i: nat)
    requires ListingPath(cfg.remoteBootDir, rel) in remote
    requires i <= |entries|
    ensures WalkFrom(cfg, remote, disk, rel, entries, i).outcome.Pass? ==>
              ListableFrom(cfg.remoteBootDir, remote, rel, entries, i)
    ensures !cfg.createAbsentParent && ListableFrom(cfg.remoteBootDir, remote, rel, entries, i) ==>
              WalkFrom(cfg, remote, disk, rel, entries, i).outcome.Pass?
    decreases Slashed(rel), Pending(remote, cfg.remoteBootDir, rel), 0, |entries| - i
  {
    if i < |entries| {
      var e := entries[i];
      var v := Visit(cfg, remote, disk, rel, e);
      if e.isDir {
        var made := if cfg.createAbsentParent
                    then CheckDirOn(disk, LocalDirPath(cfg.localBootDir, rel, e.name))
                    else (Pass, disk);
        if made.0.Pass? {
          ChildShrinks(remote, cfg.remoteBootDir, rel, e.name);
          WalkPassListable(cfg, remote, made.1, ChildPath(rel, e.name));
        }
      }
      if v.outcome.Pass? {
        WalkFromPassListable(cfg, remote, v.disk, rel, entries, i + 1);
      }
    }
  }

  // ---------------------------------------------------------------------
  // Where a failing call stops.

  /** The relative path a directory entry is walked into. */
  function Below(f: SimpleFile): string {
    ChildPath(f.relativeDir, f.name)
  }

  /** The entries a run got past: everything it emitted on success; on a
      failure after some output, all but the last entry, where it stopped. */
  function WalkedPast(r: Run): seq<SimpleFile> {
    if r.outcome.Pass? || r.emitted == [] then r.emitted else r.emitted[..|r.emitted| - 1]
  }

  /** A directory entry the walk got past: its sub-directory could be listed
      and, with directory creation switched on, its local directory exists. */
  predicate Cleared(cfg: Config, remote: Remote, disk: Disk, f: SimpleFile) {
    && ReadDir(remote, ListingPath(cfg.remoteBootDir, Below(f))).Ok?
    && (cfg.createAbsentParent ==> ExistsFile(disk, MirrorPath(cfg, f)))
  }

  /** The failure of `r` is the one of directory entry `f`: its local
      directory does not exist and cannot be made, or, once its local
      directory (if configured) is in place, its sub-directory cannot be
      listed; and that is the error reported. */
  predicate FailedAt(cfg: Config, remote: Remote, r: Run, f: SimpleFile)
    requires r.outcome.Fail?
  {
    && !f.isFile
    && ((&& cfg.createAbsentParent
         && r.outcome.error == MkdirError(MirrorPath(cfg, f))
         && MirrorPath(cfg, f) in r.disk.unwritable
         && !ExistsFile(r.disk, MirrorPath(cfg, f)))
        || (var listing := ReadDir(remote, ListingPath(cfg.remoteBootDir, Below(f)));
            && (cfg.createAbsentParent ==> ExistsFile(r.disk, MirrorPath(cfg, f)))
            && listing.Err? && r.outcome.error == listing.error))
  }

  /** A run stops at its first failure: every directory it got past went
      through, and a failing run that emitted something ends with the
      directory entry whose failure it reports. */
  predicate StopsAtFailure(cfg: Config, remote: Remote, r: Run) {
    && (forall f :: f in WalkedPast(r) && !f.isFile ==> Cleared(cfg, remote, r.disk, f))
    && (r.outcome.Fail? && r.emitted != [] ==> FailedAt(cfg, remote, r, r.emitted[|r.emitted| - 1]))
  }

  // The next three lemmas are proof steps about sequences and disks; they
  // model nothing of the source.

  lemma ClearedGrows(cfg: Config, remote: Remote, d1: Disk, d2: Disk, f: SimpleFile)
    requires d1.present <= d2.present && d1.denied == d2.denied
    requires Cleared(cfg, remote, d1, f)
    ensures Cleared(cfg, remote, d2, f)
  {
  }

  lemma WalkedPastPrepend(a: seq<SimpleFile>, r: Run)
    requires r.outcome.Pass? || r.emitted != []
    ensures WalkedPast(Prepend(a, r)) == a + WalkedPast(r)
    ensures r.emitted != [] ==> Prepend(a, r).emitted[|Prepend(a, r).emitted| - 1] == r.emitted[|r.emitted| - 1]
  {
    if r.outcome.Fail? {
      assert (a + r.emitted)[..|a + r.emitted| - 1] == a + r.emitted[..|r.emitted| - 1];
    }
  }

  /** Entries that all went through, followed by a run that stops at its
      first failure, again stop at the first failure. */
  lemma StopsAtFailurePrepend(cfg: Config, remote: Remote, a: seq<SimpleFile>, r: Run)
    requires r.outcome.Pass? || r.emitted != []
    requires forall f :: f in a && !f.isFile ==> Cleared(cfg, remote, r.disk, f)
    requires StopsAtFailure(cfg, remote, r)
    ensures StopsAtFailure(cfg, remote, Prepend(a, r))
  {
    WalkedPastPrepend(a, r);
  }

  /** A call fails either at once, when its start cannot be listed, or right
      after emitting the directory entry whose failure it reports; every
      directory emitted before that one went through. Nothing is sent after
      the failure. */
  lemma {:induction false} WalkStopsAtFailure(cfg: Config, remote: Remote, disk: Disk, rel: string)
    ensures var r := Walk(cfg, remote, disk, rel);
            var listing := ReadDir(remote, ListingPath(cfg.remoteBootDir, rel));
            && StopsAtFailure(cfg, remote, r)
            && (r.outcome.Fail? && r.emitted == [] ==>
                  listing.Err? && r.outcome.error == listing.error && r.disk == disk)
            && (listing.Err? ==> r.outcome.Fail? && r.emitted == [])
    decreases Slashed(rel), Pending(remote, cfg.remoteBootDir, rel), 1, 0
  {
    match ReadDir(remote, ListingPath(cfg.remoteBootDir, rel))
    case Err(_) =>
    case Ok(entries) => WalkFromStopsAtFailure(cfg, remote, disk, rel, entries, 0);
  }

  lemma {:induction false} WalkFromStopsAtFailure(cfg: Config, remote: Remote, disk: Disk, rel: string,
                                                  entries: seq<RemoteEntry>, i: nat)
    requires ListingPath(cfg.remoteBootDir, rel) in remote
    requires i <= |entries|
    ensures var r := WalkFrom(cfg, remote, disk, rel, entries, i);
            StopsAtFailure(cfg, remote, r) && (r.outcome.Fail? ==> r.emitted != [])
    decreases Slashed(rel), Pending(remote, cfg.remoteBootDir, rel), 0, |entries| - i
  {
    if i < |entries| {
      VisitStopsAtFailure(cfg, remote, disk, rel, entries[i]);
      var v := Visit(cfg, remote, disk, rel, entries[i]);
      if v.outcome.Pass? {
        WalkFromStopsAtFailure(cfg, remote, v.disk, rel, entries, i + 1);
        WalkFromDiskEffect(cfg, remote, v.disk, rel, entries, i + 1);
        var tail := WalkFrom(cfg, remote, v.disk, rel, entries, i + 1);
        assert WalkFrom(cfg, remote, disk, rel, entries, i) == Prepend(v.emitted, tail);
        forall f | f in v.emitted && !f.isFile
          ensures Cleared(cfg, remote, tail.disk, f)
        {
          ClearedGrows(cfg, remote, v.disk, tail.disk, f);
        }
        StopsAtFailurePrepend(cfg, remote, v.emitted, tail);
      }
    }
  }

  lemma {:induction false} VisitStopsAtFailure(cfg: Config, remote: Remote, disk: Disk, rel: string, e: RemoteEntry)
    requires ListingPath(cfg.remoteBootDir, rel) in remote
    ensures var r := Visit(cfg, remote, disk, rel, e);
            StopsAtFailure(cfg, remote, r) && (r.outcome.Fail? ==> r.emitted != [])
    decreases Slashed(rel), Pending(remote, cfg.remoteBootDir, rel), 0, 0
  {
    if e.isDir {
      var f := SimpleFile(e.name, rel, false);
      var made := if cfg.createAbsentParent
                  then CheckDirOn(disk, LocalDirPath(cfg.localBootDir, rel, e.name))
                  else (Pass, disk);
      if made.0.Pass? {
        ChildShrinks(remote, cfg.remoteBootDir, rel, e.name);
        var child := ChildPath(rel, e.name);
        WalkStopsAtFailure(cfg, remote, made.1, child);
        WalkDiskEffect(cfg, remote, made.1, child);
        var sub := Walk(cfg, remote, made.1, child);
        assert Visit(cfg, remote, disk, rel, e) == Prepend([f], sub);
        if sub.outcome.Pass? || sub.emitted != [] {
          assert Cleared(cfg, remote, made.1, f);
          ClearedGrows(cfg, remote, made.1, sub.disk, f);
          StopsAtFailurePrepend(cfg, remote, [f], sub);
        }
      }
    }
  }

  // ---------------------------------------------------------------------
  // The entries emitted.

  lemma {:induction false} PreOrderWellFormed(cfg: Config, remote: Remote, rel: string)
    ensures forall f :: f in PreOrder(cfg, remote, rel) ==> WellFormed(cfg, rel, f)
    decreases Slashed(rel), Pending(remote, cfg.remoteBootDir, rel), 1, 0
  {
    match ReadDir(remote, ListingPath(cfg.remoteBootDir, rel))
    case Err(_) =>
    case Ok(entries) => PreOrderFromWellFormed(cfg, remote, rel, entries, 0);
  }

  lemma {:induction false} PreOrderFromWellFormed(cfg: Config, remote: Remote, rel: string,
                                                  entries: seq<RemoteEntry>, i: nat)
    requires ListingPath(cfg.remoteBootDir, rel) in remote
    requires i <= |entries|
    ensures forall f :: f in PreOrderFrom(cfg, remote, rel, entries, i) ==> WellFormed(cfg, rel, f)
    decreases Slashed(rel), Pending(remote, cfg.remoteBootDir, rel), 0, |entries| - i
  {
    if i < |entries| {
      var e := entries[i];
      if e.isDir {
        ChildShrinks(remote, cfg.remoteBootDir, rel, e.name);
        var child := ChildPath(rel, e.name);
        PreOrderWellFormed(cfg, remote, child);
        assert forall f :: f in PreOrder(cfg, remote, child) ==> WellFormed(cfg, rel, f);
      }
      PreOrderFromWellFormed(cfg, remote, rel, entries, i + 1);
    }
  }

  /** Every file a call emits passed the extension filter, and every
      relative directory it reports is the starting one or has no leading
      slash. */
  lemma EmittedWellFormed(cfg: Config, remote: Remote, disk: Disk, rel: string)
    ensures forall f :: f in Walk(cfg, remote, disk, rel).emitted ==> WellFormed(cfg, rel, f)
  {
    WalkFollowsPreOrder(cfg, remote, disk, rel);
    PreOrderWellFormed(cfg, remote, rel);
    var whole := PreOrder(cfg, remote, rel);
    var emitted := Walk(cfg, remote, disk, rel).emitted;
    forall f | f in emitted
      ensures f in whole
    {
      var k :| 0 <= k < |emitted| && emitted[k] == f;
      assert whole[k] == f;
    }
  }

  /** A directory entry is emitted first, as a directory, and everything the
      walk below it emits lies under its child path. */
  lemma DirComesFirst(cfg: Config, remote: Remote, disk: Disk, rel: string, e: RemoteEntry)
    requires ListingPath(cfg.remoteBootDir, rel) in remote
    requires e.isDir
    ensures var emitted := Visit(cfg, remote, disk, rel, e).emitted;
            && emitted != []
            && emitted[0] == SimpleFile(e.name, rel, false)
            && forall k :: 1 <= k < |emitted| ==> ChildPath(rel, e.name) <= emitted[k].relativeDir
  {
    var emitted := Visit(cfg, remote, disk, rel, e).emitted;
    VisitFollowsPreOrder(cfg, remote, disk, rel, e);
    ChildShrinks(remote, cfg.remoteBootDir, rel, e.name);
    var child := ChildPath(rel, e.name);
    PreOrderWellFormed(cfg, remote, child);
    var whole := [SimpleFile(e.name, rel, false)] + PreOrder(cfg, remote, child);
    forall k | 1 <= k < |emitted|
      ensures child <= emitted[k].relativeDir
    {
      assert emitted[k] == whole[..|emitted|][k] == whole[k];
      var below := PreOrder(cfg, remote, child);
      assert whole[k] == below[k - 1];
      assert below[k - 1] in below;
    }
  }

  /** Every listed directory and every listed file that passes the filter is
      part of the pre-order walk from its position on. */
  lemma {:induction false} PreOrderFromCovers(cfg: Config, remote: Remote, rel: string,
                                              entries: seq<RemoteEntry>, i: nat, j: nat)
    requires ListingPath(cfg.remoteBootDir, rel) in remote
    requires i <= j < |entries|
    requires entries[j].isDir || Wanted(cfg, entries[j].name)
    ensures SimpleFile(entries[j].name, rel, !entries[j].isDir) in PreOrderFrom(cfg, remote, rel, entries, i)
    decreases j - i
  {
    var visit := PreOrderVisit(cfg, remote, rel, entries[i]);
    var later := PreOrderFrom(cfg, remote, rel, entries, i + 1);
    if i == j {
      assert visit[0] == SimpleFile(entries[j].name, rel, !entries[j].isDir);
      assert (visit + later)[0] == visit[0];
    } else {
      PreOrderFromCovers(cfg, remote, rel, entries, i + 1, j);
      var k :| 0 <= k < |later| && later[k] == SimpleFile(entries[j].name, rel, !entries[j].isDir);
      assert (visit + later)[|visit| + k] == later[k];
    }
  }

  /** A successful call emits every directory and every wanted file its
      starting directory lists; together with `EmittedWellFormed`, a listed
      file is emitted exactly when it passes the filter. */
  lemma PassEmitsListed(cfg: Config, remote: Remote, disk: Disk, rel: string, j: nat)
    requires ReadDir(remote, ListingPath(cfg.remoteBootDir, rel)).Ok?
    requires j < |ReadDir(remote, ListingPath(cfg.remoteBootDir, rel)).value|
    requires Walk(cfg, remote, disk, rel).outcome.Pass?
    ensures var e := ReadDir(remote, ListingPath(cfg.remoteBootDir, rel)).value[j];
            (e.isDir || Wanted(cfg, e.name)) <==>
              SimpleFile(e.name, rel, !e.isDir) in Walk(cfg, remote, disk, rel).emitted
  {
    var entries := ReadDir(remote, ListingPath(cfg.remoteBootDir, rel)).value;
    var e := entries[j];
    WalkFollowsPreOrder(cfg, remote, disk, rel);
    EmittedWellFormed(cfg, remote, disk, rel);
    if e.isDir || Wanted(cfg, e.name) {
      PreOrderFromCovers(cfg, remote, rel, entries, 0, j);
    }
  }

  /** The walk below a directory that the walk from `rel` reports is part of
      the walk from `rel`. */
  lemma {:induction false} SubtreeInPreOrder(cfg: Config, remote: Remote, rel: string, d: SimpleFile, g: SimpleFile)
    requires d in PreOrder(cfg, remote, rel) && !d.isFile
    requires g in PreOrder(cfg, remote, Below(d))
    ensures g in PreOrder(cfg, remote, rel)
    decreases Slashed(rel), Pending(remote, cfg.remoteBootDir, rel), 1, 0
  {
    var listing := ReadDir(remote, ListingPath(cfg.remoteBootDir, rel));
    assert listing.Ok?;
    SubtreeInPreOrderFrom(cfg, remote, rel, listing.value, 0, d, g);
  }

  lemma {:induction false} SubtreeInPreOrderFrom(cfg: Config, remote: Remote, rel: string,
                                                 entries: seq<RemoteEntry>, i: nat, d: SimpleFile, g: SimpleFile)
    requires ListingPath(cfg.remoteBootDir, rel) in remote
    requires i <= |entries|
    requires d in PreOrderFrom(cfg, remote, rel, entries, i) && !d.isFile
    requires g in PreOrder(cfg, remote, Below(d))
    ensures g in PreOrderFrom(cfg, remote, rel, entries, i)
    decreases Slashed(rel), Pending(remote, cfg.remoteBootDir, rel), 0, |entries| - i
  {
    assert i < |entries|;
    var e := entries[i];
    var visit := PreOrderVisit(cfg, remote, rel, e);
    var later := PreOrderFrom(cfg, remote, rel, entries, i + 1);
    assert PreOrderFrom(cfg, remote, rel, entries, i) == visit + later;
    if d in visit {
      assert e.isDir;
      ChildShrinks(remote, cfg.remoteBootDir, rel, e.name);
      var child := ChildPath(rel, e.name);
      var below := PreOrder(cfg, remote, child);
      assert visit == [SimpleFile(e.name, rel, false)] + below;
      if d != SimpleFile(e.name, rel, false) {
        SubtreeInPreOrder(cfg, remote, child, d, g);
      }
      assert g in below;
    } else {
      SubtreeInPreOrderFrom(cfg, remote, rel, entries, i + 1, d, g);
    }
  }

  /** A successful call also emits, for every directory it emits, every
      directory and every wanted file that directory lists, and no file
      listed there that the filter drops. */
  lemma PassEmitsBelow(cfg: Config, remote: Remote, disk: Disk, rel: string, d: SimpleFile)
    requires Walk(cfg, remote, disk, rel).outcome.Pass?
    requires d in Walk(cfg, remote, disk, rel).emitted && !d.isFile
    ensures var listing := ReadDir(remote, ListingPath(cfg.remoteBootDir, Below(d)));
            && listing.Ok?
            && forall e :: e in listing.value ==>
                 ((e.isDir || Wanted(cfg, e.name)) <==>
                    SimpleFile(e.name, Below(d), !e.isDir) in Walk(cfg, remote, disk, rel).emitted)
  {
    var emitted := Walk(cfg, remote, disk, rel).emitted;
    WalkStopsAtFailure(cfg, remote, disk, rel);
    WalkFollowsPreOrder(cfg, remote, disk, rel);
    EmittedWellFormed(cfg, remote, disk, rel);
    var child := Below(d);
    var entries := ReadDir(remote, ListingPath(cfg.remoteBootDir, child)).value;
    forall e | e in entries && (e.isDir || Wanted(cfg, e.name))
      ensures SimpleFile(e.name, child, !e.isDir) in emitted
    {
      var j :| 0 <= j < |entries| && entries[j] == e;
      PreOrderFromCovers(cfg, remote, child, entries, 0, j);
      SubtreeInPreOrder(cfg, remote, rel, d, SimpleFile(e.name, child, !e.isDir));
    }
  }

  // ---------------------------------------------------------------------
  // Two concrete trees.

  /** The tree `a/file1.txt`, `a/b/file2.log` below the start. */
  const SampleTree: Remote := map[
    "" := Listed([RemoteEntry("a", true)]),
    "a" := Listed([RemoteEntry("file1.txt", false), RemoteEntry("b", true)]),
    "a/b" := Listed([RemoteEntry("file2.log", false)])]

  /** Filtered for `txt`, no remote boot directory, directory creation off. */
  const SampleConfig: Config := DEFAULT_CONFIG.(createAbsentParent := false, filterFileExtends := ["txt"])

  /** `a/b` holds only a log file, which the filter drops. */
  lemma SampleInnerDir(disk: Disk)
    ensures Walk(SampleConfig, SampleTree, disk, "a/b") == Run(Pass, [], disk)
  {
    assert !HasExt("file2.log", ["txt"]) by {
      assert "file2.log"[5..] != ".txt" by { assert "file2.log"[5..][1] == 'l'; }
    }
    var entries := [RemoteEntry("file2.log", false)];
    assert Visit(SampleConfig, SampleTree, disk, "a/b", entries[0]) == Run(Pass, [], disk);
    assert WalkFrom(SampleConfig, SampleTree, disk, "a/b", entries, 1) == Run(Pass, [], disk);
  }

  /** Directory `b` of `a` is emitted and walked into `a/b`. */
  lemma SampleVisitB(disk: Disk)
    ensures Visit(SampleConfig, SampleTree, disk, "a", RemoteEntry("b", true))
            == Run(Pass, [SimpleFile("b", "a", false)], disk)
  {
    ChildPathUnderParent("a", "b");
    assert ChildPath("a", "b") == "a/b";
    SampleInnerDir(disk);
  }

  /** `a/file1.txt` passes the filter. */
  lemma SampleVisitFile1(disk: Disk)
    ensures Visit(SampleConfig, SampleTree, disk, "a", RemoteEntry("file1.txt", false))
            == Run(Pass, [SimpleFile("file1.txt", "a", true)], disk)
  {
    assert HasSuffix("file1.txt", "." + ["txt"][0]);
  }

  /** `a` yields its text file, then the directory `b`. */
  lemma SampleMiddleDir(disk: Disk)
    ensures Walk(SampleConfig, SampleTree, disk, "a")
            == Run(Pass, [SimpleFile("file1.txt", "a", true), SimpleFile("b", "a", false)], disk)
  {
    var entries := [RemoteEntry("file1.txt", false), RemoteEntry("b", true)];
    assert ReadDir(SampleTree, "a") == Ok(entries);
    SampleVisitFile1(disk);
    SampleVisitB(disk);
    assert WalkFrom(SampleConfig, SampleTree, disk, "a", entries, 2) == Run(Pass, [], disk);
    assert WalkFrom(SampleConfig, SampleTree, disk, "a", entries, 1) == Run(Pass, [SimpleFile("b", "a", false)], disk);
  }

  /** The whole tree: `a`, `a/file1.txt` and `a/b` in that order, the log file
      filtered out, and the call succeeds without touching the local disk. */
  lemma FilteredTreeScenario(disk: Disk)
    ensures Walk(SampleConfig, SampleTree, disk, "")
            == Run(Pass, [SimpleFile("a", "", false), SimpleFile("file1.txt", "a", true), SimpleFile("b", "a", false)],
                   disk)
  {
    var entries := [RemoteEntry("a", true)];
    ChildPathOfRootName("a");
    SampleMiddleDir(disk);
    var below := [SimpleFile("file1.txt", "a", true), SimpleFile("b", "a", false)];
    assert Visit(SampleConfig, SampleTree, disk, "", entries[0])
           == Run(Pass, [SimpleFile("a", "", false)] + below, disk);
  }

  /** When the starting directory cannot be listed, the call fails with the
      listing error, emits nothing and touches nothing. */
  lemma RefusedRootScenario(cfg: Config, disk: Disk)
    ensures
      var remote := map[ListingPath(cfg.remoteBootDir, "") := Refused("permission denied")];
      Walk(cfg, remote, disk, "")
      == Run(Fail(ListError(ListingPath(cfg.remoteBootDir, ""), "permission denied")), [], disk)
  {
  }

  /** With creation on, a directory `a` whose local directory cannot be made
      is emitted and the call stops there: `b` is never sent and nothing is
      created. */
  lemma CreationFailureScenario()
    ensures
      var remote := map["" := Listed([RemoteEntry("a", true), RemoteEntry("b", true)]), "a" := Listed([])];
      var disk := Disk({}, {}, {"a"});
      Walk(DEFAULT_CONFIG, remote, disk, "") == Run(Fail(MkdirError("a")), [SimpleFile("a", "", false)], disk)
  {
    ChildPathOfRootName("a");
    assert LocalDirPath("", "", "a") == "a";
  }
}
