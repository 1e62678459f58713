/** Path composition used by `RetrieveAll`: the remote directory it lists, the
    relative path it recurses into, and the local directory it mirrors. */
module Paths {

  /** Go's `strings.TrimLeft(s, cutset)`: drops every leading character that
      occurs in `cutset`, however many there are. */
  function TrimLeft(s: string, cutset: string): (r: string)
    ensures |r| <= |s| && r == s[|s| - |r|..]
    ensures forall j :: 0 <= j < |s| - |r| ==> s[j] in cutset
    ensures r == [] || r[0] !in cutset
    decreases |s|
  {
    if s != [] && s[0] in cutset then TrimLeft(s[1..], cutset) else s
  }

  /** The three properties of `TrimLeft` pin its result down: any way of
      splitting `s` into a prefix of cutset characters and a rest that does
      not start with one gives exactly `TrimLeft(s, cutset)`. */
  lemma {:induction false} TrimLeftUnique(s: string, cutset: string, k: nat)
    requires k <= |s|
    requires forall j :: 0 <= j < k ==> s[j] in cutset
    requires k == |s| || s[k] !in cutset
    ensures TrimLeft(s, cutset) == s[k..]
    decreases k
  {
    if k > 0 {
      TrimLeftUnique(s[1..], cutset, k - 1);
      assert s[1..][k - 1..] == s[k..];
    }
  }

  /** Trimming twice trims nothing more. */
  lemma TrimLeftIdempotent(s: string, cutset: string)
    ensures TrimLeft(TrimLeft(s, cutset), cutset) == TrimLeft(s, cutset)
  {
    var t := TrimLeft(s, cutset);
    TrimLeftUnique(t, cutset, 0);
  }

  /** Not only the first slash goes: `"//a"` trims to `"a"`. */
  lemma TrimLeftDropsAllSlashes()
    ensures TrimLeft("//a", "/") == "a"
    ensures TrimLeft("///", "/") == ""
  {
    TrimLeftUnique("//a", "/", 2);
    assert "//a"[2..] == "a";
    TrimLeftUnique("///", "/", 3);
  }

  /** The remote directory listed for `rel`: `rel` itself when no remote boot
      directory is set, otherwise `remoteBootDir + "/" + rel`. */
  function ListingPath(remoteBootDir: string, rel: string): string {
    if remoteBootDir == "" then rel else remoteBootDir + "/" + rel
  }

  /** The relative path the traversal recurses into for directory `name`
      found under `rel`. */
  function ChildPath(rel: string, name: string): (r: string)
    ensures r == [] || r[0] != '/'
  {
    TrimLeft(rel + "/" + name, "/")
  }

  /** The local directory created for directory `name` found under `relDir`. */
  function LocalDirPath(localBootDir: string, relDir: string, name: string): string {
    if localBootDir == "" then TrimLeft(relDir + "/" + name, "/")
    else localBootDir + "/" + relDir + "/" + name
  }

  /** With no remote boot directory the listed path is the relative path
      verbatim; with one, the boot directory and a slash are put in front and
      the relative path follows unchanged. */
  lemma ListingPathShape(remoteBootDir: string, rel: string)
    ensures remoteBootDir == "" ==> ListingPath(remoteBootDir, rel) == rel
    ensures remoteBootDir != "" ==>
      var p := ListingPath(remoteBootDir, rel);
      |p| == |remoteBootDir| + 1 + |rel| && p[..|remoteBootDir|] == remoteBootDir
      && p[|remoteBootDir|] == '/' && p[|remoteBootDir| + 1..] == rel
  {
  }

  /** Distinct relative paths are listed at distinct remote paths. */
  lemma ListingPathInjective(remoteBootDir: string, rel1: string, rel2: string)
    requires ListingPath(remoteBootDir, rel1) == ListingPath(remoteBootDir, rel2)
    ensures rel1 == rel2
  {
    if remoteBootDir != "" {
      ListingPathShape(remoteBootDir, rel1);
      ListingPathShape(remoteBootDir, rel2);
    }
  }

  /** Below a parent path that does not start with a slash nothing is
      trimmed: the child path is `rel + "/" + name`. */
  lemma ChildPathUnderParent(rel: string, name: string)
    requires rel != [] && rel[0] != '/'
    ensures ChildPath(rel, name) == rel + "/" + name
  {
    TrimLeftUnique(rel + "/" + name, "/", 0);
  }

  /** At the traversal root (`rel == ""`) the child path is the name with its
      leading slashes removed, so it does not start with a slash. */
  lemma ChildPathAtRoot(name: string)
    ensures ChildPath("", name) == TrimLeft(name, "/")
  {
    var s := "" + "/" + name;
    var t := TrimLeft(name, "/");
    TrimLeftUnique(s, "/", 1 + (|name| - |t|));
    assert s[1 + (|name| - |t|)..] == t;
  }

  /** The local directory and the remote directory listed next correspond:
      with both boot directories empty, or below a non-empty parent path
      without a leading slash, the local path is the child relative path placed under
      the local boot directory exactly as the remote one is placed under the
      remote boot directory. */
  lemma LocalDirMirrorsChild(localBootDir: string, relDir: string, name: string)
    requires localBootDir == "" || (relDir != [] && relDir[0] != '/')
    ensures LocalDirPath(localBootDir, relDir, name) == ListingPath(localBootDir, ChildPath(relDir, name))
  {
    if localBootDir != "" {
      ChildPathUnderParent(relDir, name);
      assert localBootDir + "/" + relDir + "/" + name == localBootDir + "/" + (relDir + "/" + name);
    }
  }

  /** The exception: at the root with a local boot directory the local path is
      not trimmed and keeps two slashes, while the remote relative path is trimmed. */
  lemma LocalDirAtRootKeepsDoubleSlash(localBootDir: string, name: string)
    requires localBootDir != ""
    ensures LocalDirPath(localBootDir, "", name) == localBootDir + "//" + name
    ensures name != [] && name[0] != '/' ==> ChildPath("", name) == name
  {
    assert localBootDir + "/" + "" + "/" + name == localBootDir + "//" + name;
    if name != [] && name[0] != '/' {
      ChildPathOfRootName(name);
    }
  }

  /** A name without a leading slash found at the root is walked as itself. */
  lemma ChildPathOfRootName(name: string)
    requires name != [] && name[0] != '/'
    ensures ChildPath("", name) == name
  {
    ChildPathAtRoot(name);
    TrimLeftUnique(name, "/", 0);
  }

  /** A parent path that starts with slashes, but is not made only of them,
      loses them in the child path: the child is the trimmed parent, a slash,
      and the name. (A parent of slashes only gives the trimmed name.) */
  lemma {:induction false} ChildPathDropsLeadingSlash(rel: string, name: string)
    requires TrimLeft(rel, "/") != []
    ensures ChildPath(rel, name) == TrimLeft(rel, "/") + "/" + name
    decreases |rel|
  {
    var s := rel + "/" + name;
    assert s[0] == rel[0];
    if rel[0] == '/' {
      assert s[1..] == rel[1..] + "/" + name;
      assert TrimLeft(s, "/") == TrimLeft(s[1..], "/");
      assert TrimLeft(rel, "/") == TrimLeft(rel[1..], "/");
      ChildPathDropsLeadingSlash(rel[1..], name);
    } else {
      assert TrimLeft(s, "/") == s;
      assert TrimLeft(rel, "/") == rel;
    }
  }

  /** With no remote boot directory, a start of `"/data"` is listed as the
      absolute path `"/data"`, but its sub-directory `x` is walked as
      `"data/x"`, a path relative to the server's working directory. */
  lemma AbsoluteStartTurnsRelative()
    ensures ListingPath("", "/data") == "/data"
    ensures ListingPath("", ChildPath("/data", "x")) == "data/x"
  {
    TrimLeftUnique("/data", "/", 1);
    assert "/data"[1..] == "data";
    ChildPathDropsLeadingSlash("/data", "x");
  }
}
