/** The recursive retrieval shared, line for line, by both protocol clients:
    its configuration, the output channel, the walk it performs as a pure
    function, and what that walk is proved to do. */
module Retrieval {
  import opened Types
  import opened Paths
  import opened Utils

  /** The client configuration: remote root, local root, whether local
      directories are created, and the extension allow-list. */
  datatype Config = Config(
    remoteBootDir: string,
    localBootDir: string,
    createAbsentParent: bool,
    filterFileExtends: seq<string>)

  /** The configuration a freshly built client starts with. */
  const DEFAULT_CONFIG := Config("", "", true, [])

  /** The output channel: what has been sent on it, in order. Nothing is ever
      taken back. */
  class Channel {
    var sent: seq<SimpleFile>

    constructor ()
      ensures sent == []
    {
      sent := [];
    }

    method Send(f: SimpleFile)
      modifies this
      ensures sent == old(sent) + [f]
    {
      sent := sent + [f];
    }
  }

  /** Whether a file entry is emitted: no filter, or the filter matches. */
  predicate Wanted(cfg: Config, name: string) {
    |cfg.filterFileExtends| == 0 || HasExt(name, cfg.filterFileExtends)
  }

  /** The local directory created for a discovered directory entry. */
  function MirrorPath(cfg: Config, f: SimpleFile): string {
    LocalDirPath(cfg.localBootDir, f.relativeDir, f.name)
  }

  // Termination. The source has no cycle detection; the model terminates
  // because the remote map is finite and every child path is longer than its
  // parent (once the parent does not start with a slash), so the listable
  // paths at least as long as the current one run out.

  function Slashed(rel: string): nat {
    if rel != [] && rel[0] == '/' then 1 else 0
  }

  ghost function Pending(remote: Remote, remoteBootDir: string, rel: string): set<string> {
    set p | p in remote && |p| >= |ListingPath(remoteBootDir, rel)|
  }

  lemma ChildShrinks(remote: Remote, remoteBootDir: string, rel: string, name: BaseName)
    requires ListingPath(remoteBootDir, rel) in remote
    ensures Slashed(ChildPath(rel, name)) == 0
    ensures Slashed(rel) == 0 ==> rel <= ChildPath(rel, name)
    ensures Slashed(rel) == 0 ==>
              Pending(remote, remoteBootDir, ChildPath(rel, name)) < Pending(remote, remoteBootDir, rel)
  {
    var child := ChildPath(rel, name);
    if Slashed(rel) == 0 {
      if rel == [] {
        ChildPathAtRoot(name);
        TrimLeftUnique(name, "/", 0);
      } else {
        ChildPathUnderParent(rel, name);
      }
      assert |child| > |rel|;
      var here := ListingPath(remoteBootDir, rel);
      assert here in Pending(remote, remoteBootDir, rel);
      assert here !in Pending(remote, remoteBootDir, child);
    }
  }

  /** The effect of one call: its outcome, the entries it sent, and the local
      file system afterwards. */
  datatype Run = Run(outcome: Outcome, emitted: seq<SimpleFile>, disk: Disk)

  function Prepend(done: seq<SimpleFile>, r: Run): Run {
    r.(emitted := done + r.emitted)
  }

  /** `RetrieveAll(rel)`, as a function of the configuration, the remote tree
      and the local disk: a listing failure is returned with nothing sent,
      otherwise the entries are visited in listing order. */
  function Walk(cfg: Config, remote: Remote, disk: Disk, rel: string): Run
    decreases Slashed(rel), Pending(remote, cfg.remoteBootDir, rel), 1, 0
  {
    match ReadDir(remote, ListingPath(cfg.remoteBootDir, rel))
    case Err(e) => Run(Fail(e), [], disk)
    case Ok(entries) => WalkFrom(cfg, remote, disk, rel, entries, 0)
  }

  /** The loop of `RetrieveAll` from position `i` of the listing `entries` of
      `rel`: visit them in order and stop at the first failure. */
  function WalkFrom(cfg: Config, remote: Remote, disk: Disk, rel: string, entries: seq<RemoteEntry>, i: nat): Run
    requires ListingPath(cfg.remoteBootDir, rel) in remote
    requires i <= |entries|
    decreases Slashed(rel), Pending(remote, cfg.remoteBootDir, rel), 0, |entries| - i
  {
    if i == |entries| then Run(Pass, [], disk)
    else
      var v := Visit(cfg, remote, disk, rel, entries[i]);
      if v.outcome.Fail? then v
      else Prepend(v.emitted, WalkFrom(cfg, remote, v.disk, rel, entries, i + 1))
  }

  /** The body of the loop of `RetrieveAll` for one listing entry `e` of
      `rel`: a directory is sent, mirrored locally if configured, and walked;
      a file is sent when the filter lets it through. */
  function Visit(cfg: Config, remote: Remote, disk: Disk, rel: string, e: RemoteEntry): Run
    requires ListingPath(cfg.remoteBootDir, rel) in remote
    decreases Slashed(rel), Pending(remote, cfg.remoteBootDir, rel), 0, 0
  {
    if e.isDir then
      var f := SimpleFile(e.name, rel, false);
      var made := if cfg.createAbsentParent
                  then CheckDirOn(disk, LocalDirPath(cfg.localBootDir, rel, e.name))
                  else (Pass, disk);
      if made.0.Fail? then Run(made.0, [f], made.1)
      else
        ChildShrinks(remote, cfg.remoteBootDir, rel, e.name);
        Prepend([f], Walk(cfg, remote, made.1, ChildPath(rel, e.name)))
    else if Wanted(cfg, e.name) then Run(Pass, [SimpleFile(e.name, rel, true)], disk)
    else Run(Pass, [], disk)
  }

  /** The complete pre-order walk in listing order, as an independent
      reference: no local directories, no failures (a directory that cannot
      be listed contributes nothing). Each directory comes right before
      everything found below it. */
  function PreOrder(cfg: Config, remote: Remote, rel: string): seq<SimpleFile>
    decreases Slashed(rel), Pending(remote, cfg.remoteBootDir, rel), 1, 0
  {
    match ReadDir(remote, ListingPath(cfg.remoteBootDir, rel))
    case Err(_) => []
    case Ok(entries) => PreOrderFrom(cfg, remote, rel, entries, 0)
  }

  function PreOrderFrom(cfg: Config, remote: Remote, rel: string, entries: seq<RemoteEntry>, i: nat): seq<SimpleFile>
    requires ListingPath(cfg.remoteBootDir, rel) in remote
    requires i <= |entries|
    decreases Slashed(rel), Pending(remote, cfg.remoteBootDir, rel), 0, |entries| - i
  {
    if i == |entries| then []
    else PreOrderVisit(cfg, remote, rel, entries[i]) + PreOrderFrom(cfg, remote, rel, entries, i + 1)
  }

  function PreOrderVisit(cfg: Config, remote: Remote, rel: string, e: RemoteEntry): seq<SimpleFile>
    requires ListingPath(cfg.remoteBootDir, rel) in remote
    decreases Slashed(rel), Pending(remote, cfg.remoteBootDir, rel), 0, 0
  {
    if e.isDir then
      ChildShrinks(remote, cfg.remoteBootDir, rel, e.name);
      [SimpleFile(e.name, rel, false)] + PreOrder(cfg, remote, ChildPath(rel, e.name))
    else if Wanted(cfg, e.name) then [SimpleFile(e.name, rel, true)]
    else []
  }

  /** Every directory of the remote tree below `rel`, `rel` included, can be listed. */
  ghost predicate AllListable(remoteBootDir: string, remote: Remote, rel: string)
    decreases Slashed(rel), Pending(remote, remoteBootDir, rel), 1, 0
  {
    var listing := ReadDir(remote, ListingPath(remoteBootDir, rel));
    listing.Ok? && ListableFrom(remoteBootDir, remote, rel, listing.value, 0)
  }

  ghost predicate ListableFrom(remoteBootDir: string, remote: Remote, rel: string, entries: seq<RemoteEntry>, i: nat)
    requires ListingPath(remoteBootDir, rel) in remote
    requires i <= |entries|
    decreases Slashed(rel), Pending(remote, remoteBootDir, rel), 0, |entries| - i
  {
    if i == |entries| then true
    else if entries[i].isDir then
      ChildShrinks(remote, remoteBootDir, rel, entries[i].name);
      AllListable(remoteBootDir, remote, ChildPath(rel, entries[i].name))
      && ListableFrom(remoteBootDir, remote, rel, entries, i + 1)
    else ListableFrom(remoteBootDir, remote, rel, entries, i + 1)
  }

  /** The local directories belonging to the directory entries among `s`. */
  function Mirrors(cfg: Config, s: seq<SimpleFile>): set<string> {
    set f | f in s && !f.isFile :: MirrorPath(cfg, f)
  }

  /** What an emitted entry looks like: a file passed the filter; its
      relative directory is the starting one or does not begin with a slash;
      and, from a start without a leading slash, it extends the start. */
  predicate WellFormed(cfg: Config, rel: string, f: SimpleFile) {
    && (f.isFile ==> Wanted(cfg, f.name))
    && (f.relativeDir == rel || Slashed(f.relativeDir) == 0)
    && (Slashed(rel) == 0 ==> rel <= f.relativeDir)
  }

  ghost predicate IsPrefix(a: seq<SimpleFile>, b: seq<SimpleFile>) {
    |a| <= |b| && b[..|a|] == a
  }

  /** Sequence associativity for `Prepend`. It models nothing of the source;
      calling it keeps the proofs of the retrieval methods small. */
  lemma PrependPrepend(a: seq<SimpleFile>, b: seq<SimpleFile>, r: Run)
    ensures Prepend(a, Prepend(b, r)) == Prepend(a + b, r)
  {
    assert a + (b + r.emitted) == (a + b) + r.emitted;
  }

  /** Sequence associativity. It models nothing of the source; calling it
      keeps the proofs of the retrieval methods small. */
  lemma AppendAssoc(a: seq<SimpleFile>, b: seq<SimpleFile>, c: seq<SimpleFile>)
    ensures a + b + c == a + (b + c)
  {
  }

  /** Prefix facts about joined sequences. They model nothing of the source;
      they are proof steps of the lemmas below. */
  lemma PrefixAppendRight(a: seq<SimpleFile>, b: seq<SimpleFile>, c: seq<SimpleFile>)
    requires IsPrefix(a, b)
    ensures IsPrefix(a, b + c)
  {
    assert (b + c)[..|a|] == b[..|a|];
  }

  lemma PrefixAppendLeft(x: seq<SimpleFile>, a: seq<SimpleFile>, b: seq<SimpleFile>)
    requires IsPrefix(a, b)
    ensures IsPrefix(x + a, x + b)
  {
    assert (x + b)[..|x + a|] == x + b[..|a|];
  }

  lemma MirrorsAppend(cfg: Config, a: seq<SimpleFile>, b: seq<SimpleFile>)
    ensures Mirrors(cfg, a + b) == Mirrors(cfg, a) + Mirrors(cfg, b)
  {
    forall p | p in Mirrors(cfg, a + b)
      ensures p in Mirrors(cfg, a) + Mirrors(cfg, b)
    {
      var f :| f in a + b && !f.isFile && MirrorPath(cfg, f) == p;
    }
  }

  // ---------------------------------------------------------------------
  // What a call emits: the beginning of the pre-order walk, all of it on
  // success.

  /** What a call emits is always the beginning of the complete pre-order walk
      in listing order, and on success it is the whole walk. Where a failing
      call stops is `RetrievalProperties.WalkStopsAtFailure`. */
  lemma {:induction false} WalkFollowsPreOrder(cfg: Config, remote: Remote, disk: Disk, rel: string)
    ensures IsPrefix(Walk(cfg, remote, disk, rel).emitted, PreOrder(cfg, remote, rel))
    ensures Walk(cfg, remote, disk, rel).outcome.Pass? ==>
              Walk(cfg, remote, disk, rel).emitted == PreOrder(cfg, remote, rel)
    decreases Slashed(rel), Pending(remote, cfg.remoteBootDir, rel), 1, 0
  {
    match ReadDir(remote, ListingPath(cfg.remoteBootDir, rel))
    case Err(_) =>
    case Ok(entries) => WalkFromFollowsPreOrder(cfg, remote, disk, rel, entries, 0);
  }

  lemma {:induction false} WalkFromFollowsPreOrder(cfg: Config, remote: Remote, disk: Disk, rel: string,
                                                   entries: seq<RemoteEntry>, i: nat)
    requires ListingPath(cfg.remoteBootDir, rel) in remote
    requires i <= |entries|
    ensures IsPrefix(WalkFrom(cfg, remote, disk, rel, entries, i).emitted,
                     PreOrderFrom(cfg, remote, rel, entries, i))
    ensures WalkFrom(cfg, remote, disk, rel, entries, i).outcome.Pass? ==>
              WalkFrom(cfg, remote, disk, rel, entries, i).emitted == PreOrderFrom(cfg, remote, rel, entries, i)
    decreases Slashed(rel), Pending(remote, cfg.remoteBootDir, rel), 0, |entries| - i
  {
    if i < |entries| {
      VisitFollowsPreOrder(cfg, remote, disk, rel, entries[i]);
      var v := Visit(cfg, remote, disk, rel, entries[i]);
      var visit := PreOrderVisit(cfg, remote, rel, entries[i]);
      var later := PreOrderFrom(cfg, remote, rel, entries, i + 1);
      assert PreOrderFrom(cfg, remote, rel, entries, i) == visit + later;
      if v.outcome.Fail? {
        assert WalkFrom(cfg, remote, disk, rel, entries, i) == v;
        PrefixAppendRight(v.emitted, visit, later);
      } else {
        WalkFromFollowsPreOrder(cfg, remote, v.disk, rel, entries, i + 1);
        var tail := WalkFrom(cfg, remote, v.disk, rel, entries, i + 1);
        assert WalkFrom(cfg, remote, disk, rel, entries, i) == Prepend(v.emitted, tail);
        PrefixAppendLeft(visit, tail.emitted, later);
      }
    }
  }

  lemma {:induction false} VisitFollowsPreOrder(cfg: Config, remote: Remote, disk: Disk, rel: string, e: RemoteEntry)
    requires ListingPath(cfg.remoteBootDir, rel) in remote
    ensures IsPrefix(Visit(cfg, remote, disk, rel, e).emitted, PreOrderVisit(cfg, remote, rel, e))
    ensures Visit(cfg, remote, disk, rel, e).outcome.Pass? ==>
              Visit(cfg, remote, disk, rel, e).emitted == PreOrderVisit(cfg, remote, rel, e)
    decreases Slashed(rel), Pending(remote, cfg.remoteBootDir, rel), 0, 0
  {
    if e.isDir {
      var f := SimpleFile(e.name, rel, false);
      var made := if cfg.createAbsentParent
                  then CheckDirOn(disk, LocalDirPath(cfg.localBootDir, rel, e.name))
                  else (Pass, disk);
      var child := ChildPath(rel, e.name);
      ChildShrinks(remote, cfg.remoteBootDir, rel, e.name);
      var below := PreOrder(cfg, remote, child);
      if made.0.Fail? {
        assert ([f] + below)[..1] == [f];
      } else {
        WalkFollowsPreOrder(cfg, remote, made.1, child);
        var sub := Walk(cfg, remote, made.1, child);
        PrefixAppendLeft([f], sub.emitted, below);
      }
    }
  }
}
