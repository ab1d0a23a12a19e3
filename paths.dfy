/** Path helpers of the file-system layer (FireStoreUtils.getDirectoryPath and
    getName): a path such as "/foo/bar/fribble" splits at its last '/' into
    the directory path "/foo/bar" and the leaf name "fribble"; a root-level
    path "/foo" has the empty string as its directory path. */
module Paths {
  import opened Common

  /** Position of the last '/' in `s`, if any. */
  function LastSlash(s: string): (r: Option<nat>)
    ensures r.Some? ==> r.value < |s| && s[r.value] == '/'
    ensures r.Some? ==> forall j :: r.value < j < |s| ==> s[j] != '/'
    ensures r.None? ==> forall j :: 0 <= j < |s| ==> s[j] != '/'
  {
    if |s| == 0 then None
    else if s[|s| - 1] == '/' then Some(|s| - 1)
    else LastSlash(s[..|s| - 1])
  }

  function GetDirectoryPath(s: string): (r: string)
    ensures s != "" ==> |r| < |s|
  {
    match LastSlash(s)
    case None => ""
    case Some(i) => s[..i]
  }

  function GetName(s: string): string {
    match LastSlash(s)
    case None => s
    case Some(i) => s[i + 1..]
  }

  /** The full path of an entry stored with directory path `dir` and name `name`. */
  function JoinPath(dir: string, name: string): string {
    dir + "/" + name
  }

  /** A leaf name: not empty and free of '/'. */
  predicate ValidName(n: string) {
    |n| > 0 && forall i :: 0 <= i < |n| ==> n[i] != '/'
  }

  /** An absolute path below the root with no empty segment, e.g. "/a/b". */
  predicate ValidPath(s: string) {
    && |s| >= 2
    && s[0] == '/'
    && s[|s| - 1] != '/'
    && forall i :: 0 <= i < |s| - 1 ==> s[i] == '/' ==> s[i + 1] != '/'
  }

  /** Splitting a path and joining the parts back gives the path again. */
  lemma SplitJoin(s: string)
    requires exists i :: 0 <= i < |s| && s[i] == '/'
    ensures JoinPath(GetDirectoryPath(s), GetName(s)) == s
  {
    var k :| 0 <= k < |s| && s[k] == '/';
    var i := LastSlash(s).value;
    assert s == s[..i] + "/" + s[i + 1..];
  }

  /** Joining a directory path and a name and splitting the result gives
      the two parts back. */
  lemma JoinSplit(dir: string, name: string)
    requires forall i :: 0 <= i < |name| ==> name[i] != '/'
    ensures GetDirectoryPath(JoinPath(dir, name)) == dir
    ensures GetName(JoinPath(dir, name)) == name
  {
    var s := JoinPath(dir, name);
    assert s[|dir|] == '/';
    var i := LastSlash(s).value;
    assert i == |dir|;
    assert s[..i] == dir;
    assert s[i + 1..] == name;
  }

  /** The directory path of a valid path is either the root sentinel "" or a
      shorter valid path, and its name is a valid leaf name. */
  lemma ParentOfValid(s: string)
    requires ValidPath(s)
    ensures GetDirectoryPath(s) == "" || ValidPath(GetDirectoryPath(s))
    ensures |GetDirectoryPath(s)| < |s|
    ensures ValidName(GetName(s))
    ensures JoinPath(GetDirectoryPath(s), GetName(s)) == s
  {
    SplitJoin(s);
    var i := LastSlash(s).value;
    var d := s[..i];
    if d != "" {
      assert d[0] == '/';
      assert d[|d| - 1] == s[i - 1];
    }
  }

  /** The proper ancestors of `s` from the top down: "/a/b/c" has "/a" and "/a/b". */
  function Ancestors(s: string): (r: seq<string>)
    requires ValidPath(s)
    ensures forall k :: 0 <= k < |r| ==> ValidPath(r[k]) && |r[k]| < |s|
    decreases |s|
  {
    ParentOfValid(s);
    var d := GetDirectoryPath(s);
    if d == "" then [] else Ancestors(d) + [d]
  }

  /** Each ancestor's directory path is the ancestor before it (the root
      sentinel for the first one), and the last ancestor is the directory
      path of `s` itself. */
  lemma {:induction false} AncestorsChain(s: string)
    requires ValidPath(s)
    ensures var r := Ancestors(s);
      && (r == [] <==> GetDirectoryPath(s) == "")
      && (r != [] ==> r[|r| - 1] == GetDirectoryPath(s) && GetDirectoryPath(r[0]) == "")
      && (forall k :: 0 < k < |r| ==> GetDirectoryPath(r[k]) == r[k - 1])
    decreases |s|
  {
    ParentOfValid(s);
    var d := GetDirectoryPath(s);
    if d != "" {
      AncestorsChain(d);
    }
  }

  /** Every ancestor other than the directory path of `s` is an ancestor of
      that directory path: ancestors form one chain up to the root. */
  lemma {:induction false} AncestorsOfParent(s: string)
    requires ValidPath(s) && GetDirectoryPath(s) != ""
    ensures ValidPath(GetDirectoryPath(s))
    ensures Ancestors(s) == Ancestors(GetDirectoryPath(s)) + [GetDirectoryPath(s)]
  {
    ParentOfValid(s);
  }

  /** The directory paths of pathMiscTest: a path's directory path drops its
      last segment, and a top-level path's is the root sentinel "". */
  lemma DirectoryPathExamples()
    ensures GetDirectoryPath("/foo/bar/fribble") == "/foo/bar"
    ensures GetDirectoryPath("/foo/bar") == "/foo"
    ensures GetDirectoryPath("/foo") == ""
  {
    var a := "/foo/bar/fribble";
    assert a[8] == '/' && forall j :: 8 < j < |a| ==> a[j] != '/';
    assert LastSlash(a) == Some(8);
    assert a[..8] == "/foo/bar";
    var b := "/foo/bar";
    assert b[4] == '/' && forall j :: 4 < j < |b| ==> b[j] != '/';
    assert LastSlash(b) == Some(4);
    assert b[..4] == "/foo";
  }
}
