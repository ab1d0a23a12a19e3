/** The file-system namespace of a dataset as the directory store keeps it:
    one entry per path, either a directory or a reference to a file, every
    entry's directory path being the root or a directory entry. This module
    holds the store's contents as values and what its updates do to them;
    the class FileStore in module FileStores applies them in place. */
module Namespace {
  import opened Common
  import opened Paths

  /** A directory entry (FireStoreDirectoryEntry): a directory, or a file
      reference with the load tag of the load that created it. */
  datatype Entry = DirEntry(id: FileId) | FileRef(id: FileId, loadTag: Option<string>)

  type Entries = map<string, Entry>

  /** The directory path of an entry holding path `p`: "" is the root. */
  function Parent(p: string): string {
    GetDirectoryPath(p)
  }

  /** `p` hangs off the root or off a directory entry. */
  predicate ParentPresent(entries: Entries, p: string) {
    Parent(p) == "" || (Parent(p) in entries && entries[Parent(p)].DirEntry?)
  }

  /** The namespace is a tree: every entry has a valid path whose parent is
      present. */
  predicate Tree(entries: Entries) {
    forall p :: p in entries ==> ValidPath(p) && ParentPresent(entries, p)
  }

  /** Some entry sits directly below `d`. */
  predicate HasChildren(entries: Entries, d: string) {
    exists q :: q in entries && Parent(q) == d
  }

  /** The paths directly below `d` (what a directory listing enumerates). */
  function Children(entries: Entries, d: string): set<string> {
    set q | q in entries && Parent(q) == d
  }

  /** `q` is `d` or one of its ancestors other than the root. */
  predicate AtOrAbove(q: string, d: string)
    decreases |d|
  {
    d != "" && (q == d || AtOrAbove(q, Parent(d)))
  }

  /** Removal of empty directories, starting at `d` and going up: stops at
      the root, at a path that is not a directory entry, or at a directory
      that still has something below it. */
  function Prune(entries: Entries, d: string): (r: Entries)
    decreases |d|
  {
    if d == "" || d !in entries || !entries[d].DirEntry? || HasChildren(entries, d) then entries
    else Prune(entries - {d}, Parent(d))
  }

  /** Deleting the entry at `p`: the entry goes, then every directory above
      it that is left empty. */
  function RemoveEntry(entries: Entries, p: string): Entries {
    Prune(entries - {p}, Parent(p))
  }

  /** Pruning removes only empty directories at or above `d` and leaves every
      other entry as it was. */
  lemma {:induction false} PruneRemovesOnlyAbove(entries: Entries, d: string)
    ensures Prune(entries, d).Keys <= entries.Keys
    ensures forall q :: q in Prune(entries, d) ==> Prune(entries, d)[q] == entries[q]
    ensures forall q :: q in entries && q !in Prune(entries, d) ==> AtOrAbove(q, d) && entries[q].DirEntry?
    decreases |d|
  {
    if !(d == "" || d !in entries || !entries[d].DirEntry? || HasChildren(entries, d)) {
      PruneRemovesOnlyAbove(entries - {d}, Parent(d));
    }
  }

  /** Removing an entry with nothing below it keeps the namespace a tree. */
  lemma RemoveLeafTree(entries: Entries, p: string)
    requires Tree(entries) && !HasChildren(entries, p)
    ensures Tree(entries - {p})
  {
    forall q | q in entries - {p}
      ensures ParentPresent(entries - {p}, q)
    {
      assert ParentPresent(entries, q);
    }
  }

  /** Pruning keeps the namespace a tree. */
  lemma {:induction false} PruneTree(entries: Entries, d: string)
    requires Tree(entries)
    ensures Tree(Prune(entries, d))
    decreases |d|
  {
    if !(d == "" || d !in entries || !entries[d].DirEntry? || HasChildren(entries, d)) {
      RemoveLeafTree(entries, d);
      PruneTree(entries - {d}, Parent(d));
    }
  }

  /** A file reference has nothing below it in a tree. */
  lemma FileRefIsLeaf(entries: Entries, p: string)
    requires Tree(entries) && p in entries && entries[p].FileRef?
    ensures !HasChildren(entries, p)
  {
  }

  /** Deleting a file reference keeps the namespace a tree, leaves every
      entry at neither the file nor above it alone, and only removes
      directories. */
  lemma RemoveFileRef(entries: Entries, p: string)
    requires Tree(entries) && p in entries && entries[p].FileRef?
    ensures Tree(RemoveEntry(entries, p))
    ensures p !in RemoveEntry(entries, p)
    ensures RemoveEntry(entries, p).Keys <= entries.Keys
    ensures forall q :: q in RemoveEntry(entries, p) ==> RemoveEntry(entries, p)[q] == entries[q]
    ensures forall q :: q in entries && q != p && !AtOrAbove(q, Parent(p)) ==> q in RemoveEntry(entries, p)
    ensures forall q :: q in entries && q != p && q !in RemoveEntry(entries, p) ==> entries[q].DirEntry?
  {
    FileRefIsLeaf(entries, p);
    RemoveLeafTree(entries, p);
    PruneTree(entries - {p}, Parent(p));
    PruneRemovesOnlyAbove(entries - {p}, Parent(p));
  }

  /** Deleting one of two entries in the same directory removes only that
      entry: the directories and the sibling stay. */
  lemma RemoveWithSibling(entries: Entries, p: string, sibling: string)
    requires p in entries && sibling in entries && sibling != p && Parent(sibling) == Parent(p)
    ensures RemoveEntry(entries, p) == entries - {p}
  {
    assert sibling in entries - {p};
  }

  /** A sequence of directory paths each directly below the one before,
      the first directly below the root. */
  predicate Chain(dirs: seq<string>) {
    && (forall k :: 0 <= k < |dirs| ==> ValidPath(dirs[k]))
    && (dirs != [] ==> Parent(dirs[0]) == "")
    && (forall k :: 0 < k < |dirs| ==> Parent(dirs[k]) == dirs[k - 1])
  }

  /** The ancestors of a path form a chain ending at its directory path. */
  lemma AncestorsAreChain(p: string)
    requires ValidPath(p)
    ensures Chain(Ancestors(p))
    ensures Ancestors(p) == [] <==> Parent(p) == ""
    ensures Ancestors(p) != [] ==> Ancestors(p)[|Ancestors(p)| - 1] == Parent(p)
  {
    AncestorsChain(p);
  }

  /** The entries and the next fresh id after some directories are added. */
  datatype Grown = Grown(entries: Entries, nextId: FileId)

  /** Adds each path of `dirs` that is missing, top down, as a directory
      entry with the next fresh id. */
  function AddDirs(entries: Entries, dirs: seq<string>, nextId: FileId): Grown {
    if dirs == [] then Grown(entries, nextId)
    else
      var g := AddDirs(entries, dirs[..|dirs| - 1], nextId);
      var d := dirs[|dirs| - 1];
      if d in g.entries then g else Grown(g.entries[d := DirEntry(g.nextId)], g.nextId + 1)
  }

  /** Adding directories keeps what was there, adds exactly the missing
      paths, and gives each new one an id between the old and the new next
      id. */
  lemma {:induction false} AddDirsShape(entries: Entries, dirs: seq<string>, nextId: FileId)
    ensures var g := AddDirs(entries, dirs, nextId);
      && g.entries.Keys == entries.Keys + (set d | d in dirs)
      && g.nextId >= nextId
      && (forall q :: q in entries ==> g.entries[q] == entries[q])
      && (forall q :: q in g.entries && q !in entries ==> g.entries[q].DirEntry? && nextId <= g.entries[q].id < g.nextId)
  {
    if dirs != [] {
      var init := dirs[..|dirs| - 1];
      AddDirsShape(entries, init, nextId);
      assert (set d | d in dirs) == (set d | d in init) + {dirs[|dirs| - 1]};
    }
  }

  /** Adding a new entry whose parent is present keeps the namespace a tree. */
  lemma AddLeafTree(entries: Entries, d: string, entry: Entry)
    requires Tree(entries) && ValidPath(d) && d !in entries && ParentPresent(entries, d)
    ensures Tree(entries[d := entry])
  {
    forall q | q in entries
      ensures ParentPresent(entries[d := entry], q)
    {
      assert ParentPresent(entries, q);
    }
  }

  /** Adding a chain of directories whose existing paths are directories
      keeps the namespace a tree and leaves every path of the chain a
      directory entry. */
  lemma {:induction false} AddDirsTree(entries: Entries, dirs: seq<string>, nextId: FileId)
    requires Tree(entries) && Chain(dirs)
    requires forall k :: 0 <= k < |dirs| && dirs[k] in entries ==> entries[dirs[k]].DirEntry?
    ensures Tree(AddDirs(entries, dirs, nextId).entries)
    ensures forall k :: 0 <= k < |dirs| ==> dirs[k] in AddDirs(entries, dirs, nextId).entries && AddDirs(entries, dirs, nextId).entries[dirs[k]].DirEntry?
  {
    if dirs != [] {
      var init := dirs[..|dirs| - 1];
      assert Chain(init);
      AddDirsTree(entries, init, nextId);
      AddDirsShape(entries, init, nextId);
      var g := AddDirs(entries, init, nextId);
      AddDirsStep(entries, dirs, init, g);
    }
  }

  /** The last step of AddDirsTree: the last directory of the chain. */
  lemma AddDirsStep(entries: Entries, dirs: seq<string>, init: seq<string>, g: Grown)
    requires dirs != [] && init == dirs[..|dirs| - 1] && Chain(dirs)
    requires forall k :: 0 <= k < |dirs| && dirs[k] in entries ==> entries[dirs[k]].DirEntry?
    requires Tree(g.entries)
    requires forall k :: 0 <= k < |init| ==> init[k] in g.entries && g.entries[init[k]].DirEntry?
    requires forall q :: q in g.entries && q !in entries ==> q in init
    requires forall q :: q in entries ==> q in g.entries && g.entries[q] == entries[q]
    ensures var d := dirs[|dirs| - 1];
      var g' := if d in g.entries then g else Grown(g.entries[d := DirEntry(g.nextId)], g.nextId + 1);
      && Tree(g'.entries)
      && forall k :: 0 <= k < |dirs| ==> dirs[k] in g'.entries && g'.entries[dirs[k]].DirEntry?
  {
    var d := dirs[|dirs| - 1];
    assert forall k :: 0 <= k < |init| ==> init[k] == dirs[k];
    if d in g.entries {
      if d in entries {
        assert entries[dirs[|dirs| - 1]].DirEntry?;
      } else {
        var j :| 0 <= j < |init| && init[j] == d;
      }
      assert g.entries[d].DirEntry?;
    } else {
      if |dirs| > 1 {
        assert Parent(d) == init[|init| - 1];
      }
      AddLeafTree(g.entries, d, DirEntry(g.nextId));
    }
  }

  datatype NamespaceError =
    | ObjectAlreadyExists(path: string)
    | ParentIsFile(path: string)

  /** The first ancestor of `p` that is a file reference, if any. */
  function FileAncestor(entries: Entries, ancestors: seq<string>): (r: Option<string>)
    ensures r.Some? ==> r.value in ancestors && r.value in entries && entries[r.value].FileRef?
    ensures r.None? ==> forall k :: 0 <= k < |ancestors| && ancestors[k] in entries ==> entries[ancestors[k]].DirEntry?
  {
    if ancestors == [] then None
    else if ancestors[0] in entries && entries[ancestors[0]].FileRef? then Some(ancestors[0])
    else
      var r := FileAncestor(entries, ancestors[1..]);
      assert forall k :: 1 <= k < |ancestors| ==> ancestors[1..][k - 1] == ancestors[k];
      r
  }

  /** Creating the entry `entry` at `p`, with every missing ancestor made a
      directory: refused when `p` exists or lies below a file. */
  function CreateEntry(entries: Entries, p: string, entry: Entry, nextId: FileId): Result<Grown, NamespaceError>
    requires ValidPath(p)
  {
    if p in entries then Err(ObjectAlreadyExists(p))
    else
      var file := FileAncestor(entries, Ancestors(p));
      if file.Some? then Err(ParentIsFile(file.value))
      else
        var g := AddDirs(entries, Ancestors(p), nextId);
        Ok(Grown(g.entries[p := entry], g.nextId))
  }

  /** Creation fails only when `p` exists or an ancestor is a file. */
  lemma CreateEntryFails(entries: Entries, p: string, entry: Entry, nextId: FileId)
    requires ValidPath(p)
    ensures CreateEntry(entries, p, entry, nextId).Err? <==>
      p in entries || exists a :: a in Ancestors(p) && a in entries && entries[a].FileRef?
  {
    if p !in entries && FileAncestor(entries, Ancestors(p)).None? {
      forall a | a in Ancestors(p) && a in entries
        ensures entries[a].DirEntry?
      {
        var k :| 0 <= k < |Ancestors(p)| && Ancestors(p)[k] == a;
      }
    }
  }

  /** Creation keeps the namespace a tree, with the entry at `p` and every
      ancestor a directory. */
  lemma CreateEntryTree(entries: Entries, p: string, entry: Entry, nextId: FileId)
    requires ValidPath(p) && Tree(entries) && CreateEntry(entries, p, entry, nextId).Ok?
    ensures var g := CreateEntry(entries, p, entry, nextId).value;
      && Tree(g.entries)
      && p in g.entries && g.entries[p] == entry
      && forall k :: 0 <= k < |Ancestors(p)| ==> Ancestors(p)[k] in g.entries && g.entries[Ancestors(p)[k]].DirEntry?
  {
    var ancs := Ancestors(p);
    AncestorsAreChain(p);
    CreateEntryFails(entries, p, entry, nextId);
    assert forall k :: 0 <= k < |ancs| && ancs[k] in entries ==> entries[ancs[k]].DirEntry?;
    AddDirsTree(entries, ancs, nextId);
    AddDirsShape(entries, ancs, nextId);
    var g := AddDirs(entries, ancs, nextId);
    assert p !in g.entries;
    AddLeafTree(g.entries, p, entry);
    assert CreateEntry(entries, p, entry, nextId).value.entries == g.entries[p := entry];
  }

  /** Creation changes nothing that was there; the only other new entries
      are the missing ancestors, as directories with fresh ids. */
  lemma CreateEntryKeys(entries: Entries, p: string, entry: Entry, nextId: FileId)
    requires ValidPath(p) && CreateEntry(entries, p, entry, nextId).Ok?
    ensures var g := CreateEntry(entries, p, entry, nextId).value;
      && g.entries.Keys == entries.Keys + {p} + (set a | a in Ancestors(p))
      && g.nextId >= nextId
      && (forall q :: q in entries ==> g.entries[q] == entries[q])
      && (forall q :: q in g.entries && q !in entries && q != p ==> g.entries[q].DirEntry? && nextId <= g.entries[q].id < g.nextId)
  {
    AddDirsShape(entries, Ancestors(p), nextId);
  }

  /** A path and its ancestors, from the top down. */
  function PathChain(p: string): seq<string>
    requires ValidPath(p)
  {
    Ancestors(p) + [p]
  }

  lemma PathChainIsChain(p: string)
    requires ValidPath(p)
    ensures Chain(PathChain(p))
  {
    AncestorsAreChain(p);
    var c := PathChain(p);
    assert forall k :: 0 <= k < |Ancestors(p)| ==> c[k] == Ancestors(p)[k];
  }

  /** Paths along a chain grow strictly longer, so they are distinct. */
  lemma {:induction false} ChainLengths(c: seq<string>)
    requires Chain(c)
    ensures forall i, j :: 0 <= i < j < |c| ==> |c[i]| < |c[j]|
  {
    if |c| > 1 {
      var init := c[..|c| - 1];
      assert Chain(init);
      ChainLengths(init);
      assert Parent(c[|c| - 1]) == c[|c| - 2];
    }
  }

  /** The entries created for `p` in an empty namespace. */
  function CreatedAlone(p: string, entry: Entry, nextId: FileId): Entries
    requires ValidPath(p)
  {
    AddDirs(map[], Ancestors(p), nextId).entries[p := entry]
  }

  /** In an empty namespace creation succeeds and makes `p` and its
      ancestors, each ancestor a directory. */
  lemma CreateAlone(p: string, entry: Entry, nextId: FileId)
    requires ValidPath(p)
    ensures CreateEntry(map[], p, entry, nextId).Ok?
    ensures CreateEntry(map[], p, entry, nextId).value.entries == CreatedAlone(p, entry, nextId)
    ensures forall q :: q in CreatedAlone(p, entry, nextId) <==> q in PathChain(p)
    ensures CreatedAlone(p, entry, nextId)[p] == entry
    ensures forall a :: a in Ancestors(p) ==> CreatedAlone(p, entry, nextId)[a].DirEntry?
  {
    AddDirsShape(map[], Ancestors(p), nextId);
  }

  /** In a namespace holding just the paths of a chain, the root has one
      child, the first path. */
  lemma ChainRootChildren(e: Entries, c: seq<string>)
    requires Chain(c) && c != [] && forall q :: q in e <==> q in c
    ensures Children(e, "") == {c[0]}
  {
    forall q | q in e && Parent(q) == ""
      ensures q == c[0]
    {
      var j :| 0 <= j < |c| && c[j] == q;
      assert j == 0 || ValidPath(c[j - 1]);
    }
    assert c[0] in e;
  }

  /** ... a path of the chain other than the last has one child, the next
      path of the chain. */
  lemma ChainInnerChildren(e: Entries, c: seq<string>, k: nat)
    requires Chain(c) && k < |c| - 1 && forall q :: q in e <==> q in c
    ensures Children(e, c[k]) == {c[k + 1]}
  {
    ChainLengths(c);
    forall q | q in e && Parent(q) == c[k]
      ensures q == c[k + 1]
    {
      var j :| 0 <= j < |c| && c[j] == q;
      assert j == 0 || c[j - 1] == c[k];
      assert j != 0;
    }
    assert c[k + 1] in e;
  }

  /** ... and the last path has none. */
  lemma ChainLastChildren(e: Entries, c: seq<string>)
    requires Chain(c) && c != [] && forall q :: q in e <==> q in c
    ensures Children(e, c[|c| - 1]) == {}
    ensures !HasChildren(e, c[|c| - 1])
  {
    ChainLengths(c);
    forall q | q in e
      ensures Parent(q) != c[|c| - 1]
    {
      var j :| 0 <= j < |c| && c[j] == q;
    }
  }

  /** Listing a namespace that holds `p` alone: the root, and every
      ancestor of `p`, has exactly one child, the next path down, and is a
      directory; `p` has no child. */
  lemma ListingAlone(e: Entries, p: string, entry: Entry)
    requires ValidPath(p) && Alone(e, p, entry)
    ensures var c := PathChain(p);
      && Children(e, "") == {c[0]}
      && (forall k :: 0 <= k < |c| - 1 ==> Children(e, c[k]) == {c[k + 1]} && e[c[k]].DirEntry?)
      && c[|c| - 1] == p && Children(e, p) == {}
      && forall k :: 0 <= k < |c| ==> c[k] != "/" && c[k] in e
  {
    var c := PathChain(p);
    PathChainIsChain(p);
    ChainRootChildren(e, c);
    ChainLastChildren(e, c);
    forall k | 0 <= k < |c| - 1
      ensures Children(e, c[k]) == {c[k + 1]} && e[c[k]].DirEntry?
    {
      ChainInnerChildren(e, c, k);
      assert c[k] == Ancestors(p)[k];
    }
  }

  /** Pruning from the bottom of a chain of empty directories removes them
      all. */
  lemma {:induction false} PruneChain(entries: Entries, c: seq<string>)
    requires Chain(c) && c != [] && forall q :: q in entries <==> q in c
    requires forall q :: q in entries ==> entries[q].DirEntry?
    ensures Prune(entries, c[|c| - 1]) == map[]
  {
    var d := c[|c| - 1];
    var init := c[..|c| - 1];
    ChainLastChildren(entries, c);
    ChainDropLast(entries, c);
    var rest := entries - {d};
    if init == [] {
      assert rest == map[];
    } else {
      PruneChain(rest, init);
    }
  }

  /** Removing the last path of a chain from a namespace holding just the
      chain leaves a namespace holding just the rest of the chain. */
  lemma ChainDropLast(entries: Entries, c: seq<string>)
    requires Chain(c) && c != [] && forall q :: q in entries <==> q in c
    ensures var init := c[..|c| - 1];
      && Chain(init)
      && (forall q :: q in entries - {c[|c| - 1]} <==> q in init)
      && (init != [] ==> Parent(c[|c| - 1]) == init[|init| - 1])
  {
    var d := c[|c| - 1];
    var init := c[..|c| - 1];
    ChainLengths(c);
    forall q | q in init
      ensures q != d
    {
      var j :| 0 <= j < |init| && init[j] == q;
      assert c[j] == q;
    }
    assert forall q :: q in c <==> q in init || q == d;
    assert Chain(init);
  }

  /** The namespace holds `p`, as `entry`, and the directories above it,
      and nothing else. */
  ghost predicate Alone(e: Entries, p: string, entry: Entry)
    requires ValidPath(p)
  {
    && (forall q :: q in e <==> q in PathChain(p))
    && p in e && e[p] == entry
    && forall x :: x in Ancestors(p) ==> x in e && e[x].DirEntry?
  }

  /** Creating an entry in an empty namespace makes it the only one. */
  lemma CreatedIsAlone(p: string, entry: Entry, nextId: FileId)
    requires ValidPath(p)
    ensures Alone(CreatedAlone(p, entry, nextId), p, entry)
  {
    CreateAlone(p, entry, nextId);
  }

  /** Deleting the only file of a namespace removes every directory above
      it, leaving the namespace empty. */
  lemma RemoveOnlyFile(e: Entries, p: string, entry: Entry)
    requires ValidPath(p) && Alone(e, p, entry) && entry.FileRef?
    ensures RemoveEntry(e, p) == map[]
  {
    var ancs := Ancestors(p);
    AncestorsAreChain(p);
    var rest := e - {p};
    assert forall q :: q in PathChain(p) <==> q in ancs || q == p;
    if ancs == [] {
      assert rest == map[];
    } else {
      PruneChain(rest, ancs);
    }
  }

  /** Creating a file in an empty namespace and deleting it again leaves
      the namespace empty. */
  lemma CreateThenRemoveAlone(p: string, entry: Entry, nextId: FileId)
    requires ValidPath(p) && entry.FileRef?
    ensures RemoveEntry(CreatedAlone(p, entry, nextId), p) == map[]
  {
    CreatedIsAlone(p, entry, nextId);
    RemoveOnlyFile(CreatedAlone(p, entry, nextId), p, entry);
  }

  /** Two paths with the same directory path have the same ancestors, and
      neither is an ancestor of the other. */
  lemma SiblingAncestors(a: string, b: string)
    requires ValidPath(a) && ValidPath(b) && Parent(a) == Parent(b)
    ensures Ancestors(a) == Ancestors(b)
    ensures b !in Ancestors(a)
  {
    var d := Parent(a);
    if d != "" {
      AncestorsOfParent(a);
      AncestorsOfParent(b);
      var ancs := Ancestors(d);
      forall k | 0 <= k < |Ancestors(a)|
        ensures Ancestors(a)[k] != b
      {
        if k < |ancs| {
          assert Ancestors(a)[k] == ancs[k];
        }
      }
    }
  }

  /** The namespace holds files `a` and `b` and the directories above them,
      which are shared, and nothing else. */
  ghost predicate Siblings(e: Entries, a: string, b: string, ea: Entry, eb: Entry)
    requires ValidPath(a) && ValidPath(b)
  {
    && (forall q :: q in e <==> q in PathChain(a) || q == b)
    && a in e && e[a] == ea && b in e && e[b] == eb
    && forall x :: x in Ancestors(b) ==> x in e && e[x].DirEntry?
  }

  /** Creating a second file in the directory of the only file adds just
      that file. */
  lemma CreateSibling(e: Entries, a: string, b: string, ea: Entry, eb: Entry, nextId: FileId)
    requires ValidPath(a) && ValidPath(b) && a != b && Parent(a) == Parent(b)
    requires Alone(e, a, ea)
    ensures CreateEntry(e, b, eb, nextId).Ok?
    ensures Siblings(CreateEntry(e, b, eb, nextId).value.entries, a, b, ea, eb)
  {
    SiblingAncestors(a, b);
    assert b !in e;
    CreateEntryFails(e, b, eb, nextId);
    CreateEntryKeys(e, b, eb, nextId);
    forall x | x in Ancestors(b)
      ensures x in e
    {
      assert x in PathChain(a);
    }
  }

  /** Removing one of two sibling files leaves the other alone. */
  lemma RemoveSibling(e: Entries, a: string, b: string, ea: Entry, eb: Entry)
    requires ValidPath(a) && ValidPath(b) && a != b && Parent(a) == Parent(b)
    requires Siblings(e, a, b, ea, eb)
    ensures RemoveEntry(e, a) == e - {a}
    ensures Alone(e - {a}, b, eb)
  {
    RemoveWithSibling(e, a, b);
    SiblingAncestors(a, b);
    assert forall q :: q in PathChain(a) <==> q in Ancestors(b) || q == a;
  }

  /** No two entries share an id. */
  predicate IdsUnique(entries: Entries) {
    forall p, q :: p in entries && q in entries && entries[p].id == entries[q].id ==> p == q
  }

  /** Every entry's id was drawn before `nextId`. */
  predicate IdsBelow(entries: Entries, nextId: FileId) {
    forall p :: p in entries ==> entries[p].id < nextId
  }

  /** Directories added with ids drawn from the counter keep the ids unique
      and below the counter. */
  lemma {:induction false} AddDirsFresh(entries: Entries, dirs: seq<string>, nextId: FileId)
    requires IdsUnique(entries) && IdsBelow(entries, nextId)
    ensures IdsUnique(AddDirs(entries, dirs, nextId).entries)
    ensures IdsBelow(AddDirs(entries, dirs, nextId).entries, AddDirs(entries, dirs, nextId).nextId)
  {
    if dirs != [] {
      AddDirsFresh(entries, dirs[..|dirs| - 1], nextId);
    }
  }

  /** Creating an entry whose id no entry has and that is below the counter,
      with its directories taking ids from the counter, keeps the ids unique
      and below the counter. */
  lemma CreateKeepsIdsFresh(entries: Entries, p: string, entry: Entry, nextId: FileId)
    requires ValidPath(p) && CreateEntry(entries, p, entry, nextId).Ok?
    requires IdsUnique(entries) && IdsBelow(entries, nextId)
    requires entry.id < nextId && forall q :: q in entries ==> entries[q].id != entry.id
    ensures IdsUnique(CreateEntry(entries, p, entry, nextId).value.entries)
    ensures IdsBelow(CreateEntry(entries, p, entry, nextId).value.entries,
                     CreateEntry(entries, p, entry, nextId).value.nextId)
  {
    CreateEntryFails(entries, p, entry, nextId);
    var g := AddDirs(entries, Ancestors(p), nextId);
    AddDirsFresh(entries, Ancestors(p), nextId);
    AddDirsShape(entries, Ancestors(p), nextId);
    assert p !in g.entries;
    forall q | q in g.entries
      ensures g.entries[q].id != entry.id
    {
      if q !in entries {
        assert g.entries[q].id >= nextId;
      }
    }
    PutFreshId(g.entries, p, entry, g.nextId);
  }

  /** A new entry with an id no entry has, below the counter, keeps the ids
      unique and below the counter. */
  lemma PutFreshId(entries: Entries, p: string, entry: Entry, nextId: FileId)
    requires IdsUnique(entries) && IdsBelow(entries, nextId) && p !in entries
    requires entry.id < nextId && forall q :: q in entries ==> entries[q].id != entry.id
    ensures IdsUnique(entries[p := entry]) && IdsBelow(entries[p := entry], nextId)
  {
  }
}
