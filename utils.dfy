/** The helpers of utils.go: the extension filter `checkExt`, and `checkDir` /
    `existsFile` over an abstract local file system. */
module Utils {
  import opened Types

  /** Go's `strings.HasSuffix`. */
  predicate HasSuffix(s: string, suffix: string) {
    |suffix| <= |s| && s[|s| - |suffix|..] == suffix
  }

  /** The filter condition: some configured extension `ext` has `fileName`
      ending in `"." + ext`. */
  predicate HasExt(fileName: string, exts: seq<string>) {
    exists i :: 0 <= i < |exts| && HasSuffix(fileName, "." + exts[i])
  }

  /** `checkExt`: scans the extensions in order and stops at the first match. */
  method CheckExt(fileName: string, exts: seq<string>) returns (r: bool)
    ensures r <==> HasExt(fileName, exts)
  {
    for i := 0 to |exts|
      invariant forall j :: 0 <= j < i ==> !HasSuffix(fileName, "." + exts[j])
    {
      if HasSuffix(fileName, "." + exts[i]) {
        return true;
      }
    }
    return false;
  }

  /** An empty extension list matches nothing. */
  lemma HasExtEmpty(fileName: string)
    ensures !HasExt(fileName, [])
  {
  }

  /** A match means the name is longer than the extension and the character
      right before the extension is a dot. */
  lemma HasExtNeedsDot(fileName: string, exts: seq<string>)
    requires HasExt(fileName, exts)
    ensures exists i ::
              0 <= i < |exts| && |fileName| > |exts[i]|
              && fileName[|fileName| - |exts[i]| - 1] == '.'
              && fileName[|fileName| - |exts[i]|..] == exts[i]
  {
    var i :| 0 <= i < |exts| && HasSuffix(fileName, "." + exts[i]);
    var n, e := |fileName|, exts[i];
    assert fileName[n - |e| - 1..] == "." + e;
    assert fileName[n - |e| - 1] == ("." + e)[0];
    assert fileName[n - |e|..] == fileName[n - |e| - 1..][1..];
  }

  /** Only the set of extensions matters: neither their order nor repeats. */
  lemma HasExtBySet(fileName: string, a: seq<string>, b: seq<string>)
    requires forall x :: x in a <==> x in b
    ensures HasExt(fileName, a) <==> HasExt(fileName, b)
  {
    if HasExt(fileName, a) {
      var i :| 0 <= i < |a| && HasSuffix(fileName, "." + a[i]);
      assert a[i] in b;
      var j :| 0 <= j < |b| && b[j] == a[i];
    }
    if HasExt(fileName, b) {
      var j :| 0 <= j < |b| && HasSuffix(fileName, "." + b[j]);
      assert b[j] in a;
      var i :| 0 <= i < |a| && a[i] == b[j];
    }
  }

  /** Matching is a case-sensitive suffix test that needs the dot. */
  lemma HasExtExamples()
    ensures HasExt("a.txt", ["log", "txt"])
    ensures !HasExt("a.TXT", ["txt"])
    ensures !HasExt("atxt", ["txt"])
  {
    assert HasSuffix("a.txt", "." + ["log", "txt"][1]);
    assert "a.TXT"[1..] != ".txt" by { assert "a.TXT"[1..][1] == 'T'; }
    assert "atxt"[0..] != ".txt" by { assert "atxt"[0..][0] == 'a'; }
  }

  /** What `os.Lstat` reports for a path. */
  datatype Stat = Found | NotExist | StatError

  /** The local file system: the paths that exist, the paths whose `Lstat`
      fails for a reason other than non-existence (a permission error, say),
      and the paths on which `MkdirAll` fails. */
  datatype Disk = Disk(present: set<string>, denied: set<string>, unwritable: set<string>)

  function Lstat(d: Disk, path: string): Stat {
    if path in d.denied then StatError
    else if path in d.present then Found
    else NotExist
  }

  /** `existsFile`: every `Lstat` outcome except not-exist counts as existing. */
  function ExistsFile(d: Disk, path: string): (r: bool)
    ensures r <==> path in d.present || path in d.denied
    ensures Lstat(d, path) == StatError ==> r
  {
    Lstat(d, path) != NotExist
  }

  /** `checkDir` on a disk: the new disk together with the outcome. */
  function CheckDirOn(d: Disk, path: string): (r: (Outcome, Disk))
    ensures r.0.Pass? <==> ExistsFile(d, path) || path !in d.unwritable
    ensures r.0.Fail? ==> r.0 == Fail(MkdirError(path)) && r.1 == d
    ensures r.0.Pass? ==> ExistsFile(r.1, path)
    ensures ExistsFile(d, path) ==> r.1 == d
    ensures d.present <= r.1.present
    ensures r.1.present - d.present <= {path}
    ensures r.1.denied == d.denied && r.1.unwritable == d.unwritable
  {
    if ExistsFile(d, path) then (Pass, d)
    else if path in d.unwritable then (Fail(MkdirError(path)), d)
    else (Pass, d.(present := d.present + {path}))
  }

  /** A second `checkDir` on the same path changes nothing and succeeds. */
  lemma CheckDirIdempotent(d: Disk, path: string)
    requires CheckDirOn(d, path).0.Pass?
    ensures CheckDirOn(CheckDirOn(d, path).1, path) == (Pass, CheckDirOn(d, path).1)
  {
  }

  /** The local file system as an object whose set of existing paths grows. */
  class LocalFs {
    var present: set<string>
    const denied: set<string>
    const unwritable: set<string>

    constructor (present: set<string>, denied: set<string>, unwritable: set<string>)
      ensures State() == Disk(present, denied, unwritable)
    {
      this.present := present;
      this.denied := denied;
      this.unwritable := unwritable;
    }

    /** The file system's current state as a value. */
    function State(): Disk
      reads this
    {
      Disk(present, denied, unwritable)
    }

    /** `os.MkdirAll` on a path that does not exist yet. */
    method MkdirAll(path: string) returns (result: Outcome)
      modifies this
      ensures result == (if path in unwritable then Fail(MkdirError(path)) else Pass)
      ensures present == if result.Pass? then old(present) + {path} else old(present)
    {
      if path in unwritable {
        return Fail(MkdirError(path));
      }
      present := present + {path};
      return Pass;
    }

    /** `checkDir`: creates `path` unless it already (seems to) exist. */
    method CheckDir(path: string) returns (result: Outcome)
      modifies this
      ensures (result, State()) == CheckDirOn(old(State()), path)
    {
      var found := ExistsFile(State(), path);
      if !found {
        var made := MkdirAll(path);
        if made.Fail? {
          return made;
        }
      }
      return Pass;
    }
  }
}
